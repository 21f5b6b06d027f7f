/** Fixed-width integers and the C++ operators on them that differ from Dafny's. */
module Machine {
  const TWO32: int := 0x1_0000_0000

  type int32 = x: int | -0x8000_0000 <= x < 0x8000_0000
  type uint32 = x: int | 0 <= x < 0x1_0000_0000
  type uint64 = x: int | 0 <= x < 0x1_0000_0000_0000_0000
  type byte = x: int | 0 <= x < 256

  datatype Option<+T> = None | Some(value: T)

  /** `static_cast<uint32_t>` of a signed value. */
  function ToU32(x: int): uint32 {
    x % TWO32
  }

  /** Two's-complement reading of the low 32 bits. */
  function Wrap32(x: int): int32 {
    var u := x % TWO32;
    if u < 0x8000_0000 then u else u - TWO32
  }

  /** The C++ `/`: truncates toward zero. */
  function TruncDiv(a: int, b: int): int
    requires b > 0
  {
    if a >= 0 then a / b else -((-a) / b)
  }

  /** The C++ `%`: the remainder takes the sign of the dividend. */
  function TruncMod(a: int, b: int): int
    requires b > 0
  {
    a - b * TruncDiv(a, b)
  }

  /** The remainder of a truncating division is smaller than the divisor and has the dividend's sign. */
  lemma TruncModBounds(a: int, b: int)
    requires b > 0
    ensures a >= 0 ==> TruncMod(a, b) == a % b
    ensures a < 0 ==> -b < TruncMod(a, b) <= 0
    ensures TruncMod(a, b) == if a >= 0 then a % b else -((-a) % b)
  {}

  lemma MultipleAtLeast(d: int, k: int)
    requires d > 0
    ensures k >= 1 ==> d * k >= d && d * k >= k
    ensures k <= -1 ==> d * k <= -d && d * k <= k
  {}

  /** Quotient and remainder are determined by their defining equation. */
  lemma DivisionUnique(v: int, d: int, q: int, r: int)
    requires d > 0 && v == d * q + r && 0 <= r < d
    ensures q == v / d && r == v % d
  {
    var q', r' := v / d, v % d;
    assert v == d * q' + r';
    assert d * (q - q') == d * q - d * q';
    MultipleAtLeast(d, q - q');
  }

  /** Stepping up and then down returns, also across the wrap. */
  lemma WrapSteps(v: int32)
    ensures Wrap32(v + 1) == if v == 0x7FFF_FFFF then -0x8000_0000 else v + 1
    ensures Wrap32(v - 1) == if v == -0x8000_0000 then 0x7FFF_FFFF else v - 1
  {}
}
