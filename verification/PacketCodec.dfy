/** The packet header codec of src/bridge/net/PacketHooks.cpp. */
module PacketCodec {
  import opened Machine

  type Bytes = seq<byte>

  // ---------------------------------------------------------------- LEB128 varints

  /** The encoding of a value: seven bits a byte, low bits first, high bit set on all but the last. */
  function UVarInt(v: nat): Bytes {
    if v < 128 then [v] else [v % 128 + 128] + UVarInt(v / 128)
  }

  /** The number made of the low seven bits of each byte. */
  function Groups(s: Bytes): nat {
    if s == [] then 0 else s[0] % 128 + 128 * Groups(s[1..])
  }

  /** How many bytes the varint at the front takes; None when it does not end within `limit` bytes. */
  function VarIntLength(s: Bytes, limit: nat): (n: Option<nat>)
    ensures n.Some? ==> 1 <= n.value <= |s| && n.value <= limit
  {
    if limit == 0 || s == [] then None
    else if s[0] < 128 then Some(1)
    else
      Longer(VarIntLength(s[1..], limit - 1), 1)
  }

  function Pow128(i: nat): nat {
    if i == 0 then 1 else 128 * Pow128(i - 1)
  }

  lemma {:induction false} GroupsAppend(s: Bytes, b: byte)
    ensures Groups(s + [b]) == Groups(s) + Pow128(|s|) * (b % 128)
    decreases |s|
  {
    if s == [] {
      assert [b][1..] == [];
    } else {
      GroupsAppend(s[1..], b);
      assert (s + [b])[1..] == s[1..] + [b];
      assert 128 * (Pow128(|s| - 1) * (b % 128)) == Pow128(|s|) * (b % 128);
    }
  }

  lemma {:induction false} GroupsBound(s: Bytes)
    ensures Groups(s) < Pow128(|s|)
    decreases |s|
  {
    if s != [] {
      GroupsBound(s[1..]);
    }
  }

  lemma SmallPowers()
    ensures Pow128(1) == 0x80 && Pow128(2) == 0x4000 && Pow128(3) == 0x20_0000
    ensures Pow128(4) == 0x1000_0000 && Pow128(5) == 0x8_0000_0000
  {
    assert Pow128(2) == 128 * Pow128(1);
    assert Pow128(3) == 128 * Pow128(2);
    assert Pow128(4) == 128 * Pow128(3);
    assert Pow128(5) == 128 * Pow128(4);
  }

  /** Adding the next group in 32 bits: nothing is lost before the fifth one. */
  lemma NextGroup(g: nat, i: nat, b: byte)
    requires i < 5 && g < Pow128(i)
    ensures g + ShiftedGroup(b, 7 * i) == (g + Pow128(i) * (b % 128)) % TWO32
    ensures i < 4 ==> g + ShiftedGroup(b, 7 * i) == g + Pow128(i) * (b % 128)
  {
    SmallPowers();
    assert 7 * i / 7 == i;
    if i == 4 {
      TopGroup(g, b % 128);
    } else {
      assert i == 0 || i == 1 || i == 2 || i == 3;
    }
  }

  lemma TopGroup(g: nat, x: nat)
    requires g < 0x1000_0000 && x < 128
    ensures g + x * 0x1000_0000 % TWO32 == (g + 0x1000_0000 * x) % TWO32
  {
    assert x * 0x1000_0000 == x / 16 * TWO32 + x % 16 * 0x1000_0000;
  }

  /** One round of the reading loop: the next group is added in 32 bits, and the varint ends here or goes on. */
  lemma ReadStep(s: Bytes, i: nat)
    requires i < 5 && i < |s|
    ensures Groups(s[..i]) + ShiftedGroup(s[i], 7 * i) == Groups(s[..i + 1]) % TWO32
    ensures i < 4 ==> Groups(s[..i]) + ShiftedGroup(s[i], 7 * i) == Groups(s[..i + 1])
    ensures VarIntLength(s[i..], 5 - i) ==
            if s[i] < 128 then Some(1) else Longer(VarIntLength(s[i + 1..], 4 - i), 1)
  {
    GroupsBound(s[..i]);
    GroupsAppend(s[..i], s[i]);
    NextGroup(Groups(s[..i]), i, s[i]);
    assert s[..i + 1] == s[..i] + [s[i]];
    assert s[i..][1..] == s[i + 1..];
  }

  /** What reading a varint at the front of `s` gives: the value truncated to 32 bits, and its length. */
  function ReadSpec(s: Bytes): Option<(uint32, nat)> {
    match VarIntLength(s, 5)
    case None => None
    case Some(n) => Some((Groups(s[..n]) % TWO32, n))
  }

  /** In the middle of reading: `i` groups are read, and all of them go on. */
  ghost predicate ReadingAt(s: Bytes, i: nat, result: nat) {
    && i <= |s| && i < 5 && result == Groups(s[..i])
    && VarIntLength(s, 5) == Longer(VarIntLength(s[i..], 5 - i), i)
  }

  /** What one round of the loop decides. */
  lemma ReadRound(s: Bytes, i: nat, result: nat)
    requires ReadingAt(s, i, result) && i < |s|
    ensures var next := result + ShiftedGroup(s[i], 7 * i);
            && next < TWO32
            && if s[i] < 128 then ReadSpec(s) == Some((next, i + 1))
               else if i == 4 then ReadSpec(s) == None
               else ReadingAt(s, i + 1, next)
  {
    ReadStep(s, i);
  }

  /** `readUVarInt`: the value, and the position after it; None on truncation or an over-long varint. */
  method ReadUVarInt(data: Bytes, pos0: nat) returns (r: Option<uint32>, pos: nat)
    requires pos0 <= |data|
    ensures match ReadSpec(data[pos0..])
            case None => r == None
            case Some((v, n)) => r == Some(v) && pos == pos0 + n
  {
    var result: uint32, shift := 0, 0;
    pos := pos0;
    ghost var s := data[pos0..];
    assert s[0..] == s;
    while pos < |data|
      invariant pos0 <= pos <= |data| && shift == 7 * (pos - pos0) && ReadingAt(s, pos - pos0, result)
    {
      var b := data[pos];
      assert b == s[pos - pos0];
      ReadRound(s, pos - pos0, result);
      pos := pos + 1;
      // The two operands of the source's `|=` have no bit in common, so it is an addition.
      result := result + ShiftedGroup(b, shift);
      if b < 128 {
        return Some(result), pos;
      }
      shift := shift + 7;
      if shift >= 35 {
        return None, pos;
      }
    }
    return None, pos;
  }

  function Longer(n: Option<nat>, k: nat): Option<nat> {
    match n
    case None => None
    case Some(m) => Some(m + k)
  }

  /** `static_cast<uint32_t>(b & 0x7F) << shift`, where the last group loses its bits above 32. */
  function ShiftedGroup(b: byte, shift: nat): uint32
    requires shift % 7 == 0
  {
    (b % 128) * Pow128(shift / 7) % TWO32
  }

  /** `writeUVarInt` */
  method WriteUVarInt(out0: Bytes, value0: uint32) returns (out: Bytes)
    ensures out == out0 + UVarInt(value0)
  {
    out := out0;
    var value: nat := value0;
    while value >= 128
      invariant out + UVarInt(value) == out0 + UVarInt(value0)
    {
      out := out + [value % 128 + 128];
      value := value / 128;
    }
    out := out + [value];
  }

  lemma {:induction false} EncodingReads(v: nat, limit: nat, rest: Bytes)
    requires limit > 0 && v < Pow128(limit)
    ensures 1 <= |UVarInt(v)| <= limit
    ensures VarIntLength(UVarInt(v) + rest, limit) == Some(|UVarInt(v)|)
    ensures Groups(UVarInt(v)) == v
    decreases limit
  {
    if v >= 128 {
      assert limit > 1 by { assert Pow128(1) == 128 * Pow128(0); }
      EncodingReads(v / 128, limit - 1, rest);
      assert (UVarInt(v) + rest)[1..] == UVarInt(v / 128) + rest;
      assert UVarInt(v)[1..] == UVarInt(v / 128);
    } else {
      assert UVarInt(v)[1..] == [];
    }
  }

  /** Reading back what was written gives the value and its exact length, whatever follows. */
  lemma VarIntRoundTrip(v: uint32, rest: Bytes)
    ensures 1 <= |UVarInt(v)| <= 5
    ensures ReadSpec(UVarInt(v) + rest) == Some((v, |UVarInt(v)|))
  {
    assert v < Pow128(5) by { SmallPowers(); }
    EncodingReads(v, 5, rest);
    FrontReads(UVarInt(v), rest, v);
  }

  lemma FrontReads(front: Bytes, rest: Bytes, v: uint32)
    requires VarIntLength(front + rest, 5) == Some(|front|) && Groups(front) == v
    ensures ReadSpec(front + rest) == Some((v, |front|))
  {
    assert (front + rest)[..|front|] == front;
  }

  lemma Rearrange(a: int, b: int, q: int, r: int)
    ensures a * (b * q + r) == a * b * q + a * r
  {}

  lemma ProductBounds(a: int, b: int, r: int)
    requires a > 0 && 0 <= r < b
    ensures 0 <= a * r && a * r + a <= a * b
  {
    MultipleAtLeast(a, b - r);
    assert a * b == a * r + a * (b - r);
    if r > 0 { MultipleAtLeast(a, r); }
  }

  lemma DivideTwice(v: nat, b: nat)
    requires b > 0
    ensures v / 128 / b == v / (128 * b)
  {
    var x, r1 := v / 128, v % 128;
    var q, r2 := x / b, x % b;
    Rearrange(128, b, q, r2);
    ProductBounds(128, b, r2);
    DivisionUnique(v, 128 * b, q, 128 * r2 + r1);
  }

  /** Byte `i` carries bits `7 * i` to `7 * i + 6` of the value; every byte but the last has the high bit set. */
  lemma {:induction false} VarIntBytes(v: nat, i: nat)
    requires i < |UVarInt(v)|
    ensures Pow128(i) > 0 && UVarInt(v)[i] % 128 == v / Pow128(i) % 128
    ensures UVarInt(v)[i] >= 128 <==> i + 1 < |UVarInt(v)|
    decreases i
  {
    if i > 0 {
      assert UVarInt(v)[1..] == UVarInt(v / 128);
      VarIntBytes(v / 128, i - 1);
      DivideTwice(v, Pow128(i - 1));
    }
  }

  // ---------------------------------------------------------------- the header

  /** The header fields a subscriber may change. */
  datatype Edit = Edit(packetId: int32, senderSubId: byte, targetSubId: byte)

  datatype Header = Header(raw: uint32, edit: Edit, size: nat)

  /** Bits 0..9 packet id, 10..11 sender, 12..13 target. */
  function Fields(raw: uint32): Edit {
    Edit(raw % 1024, raw / 1024 % 4, raw / 4096 % 4)
  }

  function HeaderWord(e: Edit): uint32 {
    e.packetId % 1024 + e.senderSubId % 4 * 1024 + e.targetSubId % 4 * 4096
  }

  function DecodeSpec(packet: Bytes): Option<Header> {
    match ReadSpec(packet)
    case None => None
    case Some((raw, n)) => Some(Header(raw, Fields(raw), n))
  }

  method DecodeHeader(packet: Bytes) returns (h: Option<Header>)
    ensures h == DecodeSpec(packet)
  {
    assert packet[0..] == packet;
    var raw, pos := ReadUVarInt(packet, 0);
    if raw.None? { return None; }
    return Some(Header(raw.value, Fields(raw.value), pos));
  }

  method EncodeHeader(out0: Bytes, e: Edit) returns (out: Bytes)
    ensures out == out0 + Encoded(e)
  {
    out := WriteUVarInt(out0, HeaderWord(e));
  }

  function Encoded(e: Edit): Bytes {
    UVarInt(HeaderWord(e))
  }

  predicate InRange(e: Edit) {
    0 <= e.packetId < 1024 && e.senderSubId < 4 && e.targetSubId < 4
  }

  function Masked(e: Edit): Edit {
    Edit(e.packetId % 1024, e.senderSubId % 4, e.targetSubId % 4)
  }

  lemma FieldsOfWord(e: Edit)
    ensures Fields(HeaderWord(e)) == Masked(e)
  {
    var a, b, c := e.packetId % 1024, e.senderSubId % 4, e.targetSubId % 4;
    DivisionUnique(HeaderWord(e), 1024, b + c * 4, a);
    DivisionUnique(HeaderWord(e), 4096, c, a + b * 1024);
    DivisionUnique(b + c * 4, 4, c, b);
  }

  /** Ten bits of packet id, then two of the sender and two of the target. */
  lemma HeaderBits(e: Edit, raw: uint32)
    ensures InRange(e) ==> HeaderWord(e) == e.packetId + 0x400 * e.senderSubId + 0x1000 * e.targetSubId
    ensures var f := Fields(raw);
            InRange(f) && f.packetId + 0x400 * f.senderSubId + 0x1000 * f.targetSubId == raw % 0x4000
  {
    var a, b := raw % 1024, raw / 1024 % 4;
    var y := raw / 1024 / 4;
    DivisionUnique(raw, 4096, y, a + 1024 * b);
    DivisionUnique(raw, 0x4000, y / 4, a + 1024 * b + 4096 * (y % 4));
  }

  lemma InRangeIffUnmasked(e: Edit)
    ensures InRange(e) <==> Masked(e) == e
  {}

  /** Decoding an encoded header gives the masked fields, and the body starts right after it. */
  lemma HeaderRoundTrip(e: Edit, body: Bytes)
    ensures DecodeSpec(Encoded(e) + body) == Some(Header(HeaderWord(e), Masked(e), |Encoded(e)|))
    ensures (Encoded(e) + body)[|Encoded(e)|..] == body
    ensures InRange(e) <==> Masked(e) == e
  {
    VarIntRoundTrip(HeaderWord(e), body);
    FieldsOfWord(e);
    InRangeIffUnmasked(e);
  }
}
