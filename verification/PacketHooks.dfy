/**
 * Packet interception of src/bridge/net/PacketHooks.cpp: the subscriber registry with its gates, the
 * rewrite chain, and the inbound pump. How a callback answers may differ from call to call, and it may
 * register and unregister interceptors of its own mod.
 */
module PacketHooks {
  import opened Machine
  import opened PacketCodec

  const INBOUND := 0
  const OUTBOUND := 1

  const PKT_PASS := 0
  const PKT_REPLACE := 1
  const PKT_DROP := 2

  datatype Connection = Connection(direction: nat, connId: int, address: string)

  /** What a subscriber sees: the header fields and the body, without the framing. */
  datatype Event = Event(conn: Connection, edit: Edit, body: Bytes)

  /** `pending` are the header fields as the callback left them; `written` is the last body it handed over. */
  datatype Reply = Threw | Reply(verdict: int32, pending: Edit, written: Option<Bytes>)

  /** One callback, at one moment. */
  type Callback = Event -> Reply

  /** How the callback with a given handle answers when it is the n-th one ever called. */
  type Script = (nat, nat, Event) -> Reply

  /** What a callback can do to the registry; that of a mod it unloads is taken out. */
  datatype Act = Join(dirMask: int32) | Leave(handle: nat) | Unload(mod: int)

  datatype Verdict = Pass | Replaced(packet: Bytes) | Drop

  function NewBody(r: Reply): Bytes
    requires r.Reply?
  {
    if r.written.Some? then r.written.value else []
  }

  predicate Drops(r: Reply) {
    r.Reply? && r.verdict == PKT_DROP
  }

  predicate Replaces(r: Reply) {
    r.Reply? && r.verdict == PKT_REPLACE
  }

  // ---------------------------------------------------------------- whole packets, one subscriber at a time

  /** One subscriber applied to a whole packet: None when it is swallowed. */
  function RewriteOne(c: Connection, cb: Callback, packet: Bytes): Option<Bytes> {
    match DecodeSpec(packet)
    case None => Some(packet)
    case Some(h) =>
      var r := cb(Event(c, h.edit, BodyOf(packet, h)));
      if Drops(r) then None
      else if Replaces(r) then Some(Encoded(r.pending) + NewBody(r))
      else Some(packet)
  }

  function BodyOf(packet: Bytes, h: Header): Bytes {
    if h.size <= |packet| then packet[h.size..] else []
  }

  function RewriteAll(c: Connection, cbs: seq<Callback>, packet: Bytes): Option<Bytes>
    decreases |cbs|
  {
    if cbs == [] then Some(packet)
    else
      match RewriteOne(c, cbs[0], packet)
      case None => None
      case Some(q) => RewriteAll(c, cbs[1..], q)
  }

  /**
   * One subscriber by the number it answers: 2 swallows the packet, 1 puts its fields and its body in place of the
   * old ones, an empty body if it handed none over; anything else, an exception too, leaves the packet as it is.
   */
  lemma SubscriberRules(c: Connection, cb: Callback, packet: Bytes)
    requires DecodeSpec(packet).Some?
    ensures var h := DecodeSpec(packet).value;
            && h.size <= |packet|
            && var rewritten := RewriteAll(c, [cb], packet);
               match cb(Event(c, h.edit, packet[h.size..]))
               case Threw => rewritten == Some(packet)
               case Reply(v, fields, body) =>
                 rewritten == if v == 2 then None
                              else if v == 1 then Some(Encoded(fields) + if body.Some? then body.value else [])
                              else Some(packet)
  {
    var one := RewriteOne(c, cb, packet);
    if one.Some? { assert RewriteAll(c, [], one.value) == one; }
  }

  /** The subscribers before `k` let the packet through, in some form, and the one at `k` swallows it. */
  predicate SwallowedAt(c: Connection, cbs: seq<Callback>, packet: Bytes, k: nat)
    requires k < |cbs|
  {
    var before := RewriteAll(c, cbs[..k], packet);
    before.Some? && RewriteOne(c, cbs[k], before.value).None?
  }

  lemma {:induction false} SwallowedLater(c: Connection, cbs: seq<Callback>, packet: Bytes, k: nat)
    requires 0 < k < |cbs| && RewriteOne(c, cbs[0], packet).Some?
    ensures SwallowedAt(c, cbs, packet, k) <==>
            SwallowedAt(c, cbs[1..], RewriteOne(c, cbs[0], packet).value, k - 1)
  {
    assert cbs[..k][1..] == cbs[1..][..k - 1];
  }

  /** A packet is swallowed if and only if some subscriber that it reaches swallows it: no later one is asked. */
  lemma {:induction false} FirstDropWins(c: Connection, cbs: seq<Callback>, packet: Bytes)
    ensures RewriteAll(c, cbs, packet) == None <==> exists k: nat :: k < |cbs| && SwallowedAt(c, cbs, packet, k)
    decreases |cbs|
  {
    if cbs != [] {
      assert SwallowedAt(c, cbs, packet, 0) <==> RewriteOne(c, cbs[0], packet).None?;
      if RewriteOne(c, cbs[0], packet).Some? {
        var q := RewriteOne(c, cbs[0], packet).value;
        FirstDropWins(c, cbs[1..], q);
        forall k: nat | 0 < k < |cbs|
          ensures SwallowedAt(c, cbs, packet, k) <==> SwallowedAt(c, cbs[1..], q, k - 1)
        {
          SwallowedLater(c, cbs, packet, k);
        }
        if k: nat :| k < |cbs[1..]| && SwallowedAt(c, cbs[1..], q, k) {
          assert SwallowedAt(c, cbs, packet, k + 1);
        }
      } else {
        forall k: nat | 0 < k < |cbs|
          ensures !SwallowedAt(c, cbs, packet, k)
        {
          assert cbs[..k][0] == cbs[0];
        }
      }
    }
  }

  // ---------------------------------------------------------------- the one-pass chain

  /** The chain on header fields and body, encoding once at the end. */
  function Chain(c: Connection, cbs: seq<Callback>, edit: Edit, body: Bytes, changed: bool): Verdict
    decreases |cbs|
  {
    if cbs == [] then
      if changed then Replaced(Encoded(edit) + body) else Pass
    else
      var r := cbs[0](Event(c, edit, body));
      if Drops(r) then Drop
      else if Replaces(r) then Chain(c, cbs[1..], r.pending, NewBody(r), true)
      else Chain(c, cbs[1..], edit, body, changed)
  }

  /** What `dispatch` decides, given the subscribers of the direction. */
  function DispatchSpec(c: Connection, cbs: seq<Callback>, packet: Bytes, expectedId: int, nested: bool): Verdict {
    if nested then Pass
    else
      match DecodeSpec(packet)
      case None => Pass
      case Some(h) =>
        if expectedId >= 0 && h.edit.packetId != expectedId then Pass
        else Chain(c, cbs, h.edit, BodyOf(packet, h), false)
  }

  /** What travels on: the original bytes after a pass, nothing after a drop. */
  function Forwarded(v: Verdict, packet: Bytes): Option<Bytes> {
    match v
    case Pass => Some(packet)
    case Replaced(q) => Some(q)
    case Drop => None
  }

  /** The callback only ever replaces with header fields that fit their bits. */
  ghost predicate Tidy(cb: Callback) {
    forall ev :: Replaces(cb(ev)) ==> InRange(cb(ev).pending)
  }

  ghost predicate AllTidy(cbs: seq<Callback>) {
    forall i :: 0 <= i < |cbs| ==> Tidy(cbs[i])
  }

  lemma {:induction false} ChainIsFold(c: Connection, cbs: seq<Callback>, edit: Edit, body: Bytes, changed: bool,
                                       packet: Bytes)
    requires AllTidy(cbs)
    requires DecodeSpec(packet).Some? && DecodeSpec(packet).value.edit == edit
    requires BodyOf(packet, DecodeSpec(packet).value) == body
    requires changed ==> packet == Encoded(edit) + body
    ensures Forwarded(Chain(c, cbs, edit, body, changed), packet) == RewriteAll(c, cbs, packet)
    decreases |cbs|
  {
    if cbs != [] {
      var r := cbs[0](Event(c, edit, body));
      assert Tidy(cbs[0]);
      if Replaces(r) {
        HeaderRoundTrip(r.pending, NewBody(r));
        ChainIsFold(c, cbs[1..], r.pending, NewBody(r), true, Encoded(r.pending) + NewBody(r));
        ForwardedAfterChange(c, cbs[1..], r.pending, NewBody(r), packet, Encoded(r.pending) + NewBody(r));
      } else if !Drops(r) {
        ChainIsFold(c, cbs[1..], edit, body, changed, packet);
      }
    }
  }

  /** Once something changed, the original packet no longer matters. */
  lemma {:induction false} ForwardedAfterChange(c: Connection, cbs: seq<Callback>, edit: Edit, body: Bytes, p: Bytes,
                                                q: Bytes)
    ensures Forwarded(Chain(c, cbs, edit, body, true), p) == Forwarded(Chain(c, cbs, edit, body, true), q)
    decreases |cbs|
  {
    if cbs != [] {
      var r := cbs[0](Event(c, edit, body));
      if Replaces(r) {
        ForwardedAfterChange(c, cbs[1..], r.pending, NewBody(r), p, q);
      } else if !Drops(r) {
        ForwardedAfterChange(c, cbs[1..], edit, body, p, q);
      }
    }
  }

  lemma {:induction false} MalformedPassesAll(c: Connection, cbs: seq<Callback>, packet: Bytes)
    requires DecodeSpec(packet) == None
    ensures RewriteAll(c, cbs, packet) == Some(packet)
    decreases |cbs|
  {
    if cbs != [] {
      MalformedPassesAll(c, cbs[1..], packet);
    }
  }

  /** One-pass dispatch is the composition of the subscribers over whole packets. */
  lemma DispatchIsFold(c: Connection, cbs: seq<Callback>, packet: Bytes)
    requires AllTidy(cbs)
    ensures Forwarded(DispatchSpec(c, cbs, packet, -1, false), packet) == RewriteAll(c, cbs, packet)
  {
    match DecodeSpec(packet)
    case None => MalformedPassesAll(c, cbs, packet);
    case Some(h) => ChainIsFold(c, cbs, h.edit, BodyOf(packet, h), false, packet);
  }

  /**
   * The same when the engine says what packet it is: the subscribers see it if the header says so too, and
   * otherwise it passes untouched, as it does in the middle of another dispatch.
   */
  lemma DispatchLaws(c: Connection, cbs: seq<Callback>, packet: Bytes, expectedId: int, nested: bool)
    ensures !nested && AllTidy(cbs)
            && (expectedId < 0 || DecodeSpec(packet).None? || DecodeSpec(packet).value.edit.packetId == expectedId) ==>
              Forwarded(DispatchSpec(c, cbs, packet, expectedId, nested), packet) == RewriteAll(c, cbs, packet)
    ensures (nested || DecodeSpec(packet).None?
             || (expectedId >= 0 && DecodeSpec(packet).value.edit.packetId != expectedId)) ==>
              DispatchSpec(c, cbs, packet, expectedId, nested) == Pass
  {
    if AllTidy(cbs) { DispatchIsFold(c, cbs, packet); }
  }

  /**
   * Fields handed from one subscriber to the next are not masked, so the chain agrees with the
   * composition, whatever follows, if and only if the fields fit their bits.
   */
  lemma ChainAgreesIffInRange(c: Connection, e: Edit, body: Bytes)
    ensures (forall cbs :: AllTidy(cbs) ==>
               Forwarded(Chain(c, cbs, e, body, true), Encoded(e) + body) == RewriteAll(c, cbs, Encoded(e) + body))
            <==> InRange(e)
  {
    var packet := Encoded(e) + body;
    HeaderRoundTrip(e, body);
    if InRange(e) {
      forall cbs | AllTidy(cbs)
        ensures Forwarded(Chain(c, cbs, e, body, true), packet) == RewriteAll(c, cbs, packet)
      {
        ChainIsFold(c, cbs, e, body, true, packet);
      }
    } else {
      var cb: Callback := (ev: Event) => Reply(if ev.edit == e then PKT_DROP else PKT_PASS, e, None);
      var cbs := [cb];
      assert Tidy(cb) && AllTidy(cbs);
      assert Chain(c, cbs, e, body, true) == Drop;
      assert RewriteOne(c, cb, packet) == Some(packet);
      assert RewriteAll(c, cbs, packet) == RewriteAll(c, cbs[1..], packet) == Some(packet);
    }
  }

  /** One round of the loop over the subscribers. */
  lemma ChainNext(c: Connection, cbs: seq<Callback>, i: nat, edit: Edit, body: Bytes, changed: bool)
    requires i < |cbs|
    ensures var r := cbs[i](Event(c, edit, body));
            Chain(c, cbs[i..], edit, body, changed) ==
              if Drops(r) then Drop
              else if Replaces(r) then Chain(c, cbs[i + 1..], r.pending, NewBody(r), true)
              else Chain(c, cbs[i + 1..], edit, body, changed)
  {
    assert cbs[i..][1..] == cbs[i + 1..];
  }

  // ---------------------------------------------------------------- the registry

  datatype PacketSub = PacketSub(id: nat, owner: int, dirMask: int32)

  /** Bit `direction` of a mask. */
  predicate Wants(s: PacketSub, direction: nat) {
    (if direction == INBOUND then s.dirMask else s.dirMask / 2) % 2 == 1
  }

  /** A mask of 1 asks for inbound packets alone, 2 for outbound ones, 3 for both. */
  lemma MaskBits(s: PacketSub)
    ensures s.dirMask == 1 ==> Wants(s, INBOUND) && !Wants(s, OUTBOUND)
    ensures s.dirMask == 2 ==> !Wants(s, INBOUND) && Wants(s, OUTBOUND)
    ensures s.dirMask == 3 ==> Wants(s, INBOUND) && Wants(s, OUTBOUND)
    ensures s.dirMask % 4 == 0 <==> !Wants(s, INBOUND) && !Wants(s, OUTBOUND)
  {}

  function Selected(subs: seq<PacketSub>, direction: nat): seq<PacketSub> {
    if subs == [] then []
    else (if Wants(subs[0], direction) then [subs[0]] else []) + Selected(subs[1..], direction)
  }

  /** The callbacks of these subscribers, the first of which is the `calls`-th one ever called. */
  function Heard(script: Script, who: seq<PacketSub>, calls: nat): (cbs: seq<Callback>)
    ensures |cbs| == |who|
  {
    seq(|who|, k requires 0 <= k < |who| => (ev: Event) => script(calls + k, who[k].id, ev))
  }

  ghost predicate IsHeard(script: Script, cbs: seq<Callback>) {
    exists who: seq<PacketSub>, calls: nat :: cbs == Heard(script, who, calls)
  }

  ghost predicate TidyScript(script: Script) {
    forall n, id, ev :: Replaces(script(n, id, ev)) ==> InRange(script(n, id, ev).pending)
  }

  lemma TidyScriptIsTidy(script: Script, cbs: seq<Callback>)
    requires TidyScript(script) && IsHeard(script, cbs)
    ensures AllTidy(cbs)
  {
    var who: seq<PacketSub>, calls: nat :| cbs == Heard(script, who, calls);
    forall i | 0 <= i < |cbs|
      ensures Tidy(cbs[i])
    {
      forall ev
        ensures Replaces(cbs[i](ev)) ==> InRange(cbs[i](ev).pending)
      {
        assert cbs[i](ev) == script(calls + i, who[i].id, ev);
      }
    }
  }

  function Without(subs: seq<PacketSub>, owner: int): seq<PacketSub> {
    if subs == [] then []
    else (if subs[0].owner == owner then [] else [subs[0]]) + Without(subs[1..], owner)
  }

  predicate AnyWants(subs: seq<PacketSub>, direction: nat) {
    exists i :: 0 <= i < |subs| && Wants(subs[i], direction)
  }

  lemma {:induction false} NobodySelected(subs: seq<PacketSub>, direction: nat)
    ensures Selected(subs, direction) == [] <==> !AnyWants(subs, direction)
  {
    if subs != [] {
      NobodySelected(subs[1..], direction);
      assert AnyWants(subs, direction) <==> Wants(subs[0], direction) || AnyWants(subs[1..], direction) by {
        if AnyWants(subs[1..], direction) {
          var i :| 0 <= i < |subs[1..]| && Wants(subs[1..][i], direction);
          assert Wants(subs[i + 1], direction);
        }
        if AnyWants(subs, direction) && !Wants(subs[0], direction) {
          var i :| 0 <= i < |subs| && Wants(subs[i], direction);
          assert Wants(subs[1..][i - 1], direction);
        }
      }
    }
  }

  lemma {:induction false} SelectedAppend(subs: seq<PacketSub>, s: PacketSub, direction: nat)
    ensures Selected(subs + [s], direction)
         == Selected(subs, direction) + if Wants(s, direction) then [s] else []
    decreases |subs|
  {
    if subs != [] {
      SelectedAppend(subs[1..], s, direction);
      assert (subs + [s])[1..] == subs[1..] + [s];
    }
  }

  lemma {:induction false} WithoutAppend(subs: seq<PacketSub>, s: PacketSub, owner: int)
    ensures Without(subs + [s], owner) == Without(subs, owner) + if s.owner == owner then [] else [s]
    decreases |subs|
  {
    if subs != [] {
      WithoutAppend(subs[1..], s, owner);
      assert (subs + [s])[1..] == subs[1..] + [s];
    }
  }

  /** After a mod is gone none of its interceptors is left, and all others are, in their order. */
  lemma {:induction false} WithoutKeepsOthers(subs: seq<PacketSub>, owner: int, s: PacketSub)
    ensures s in Without(subs, owner) <==> s in subs && s.owner != owner
  {
    if subs != [] {
      WithoutKeepsOthers(subs[1..], owner, s);
    }
  }

  /** Handles are never given twice. */
  ghost predicate GoodIds(subs: seq<PacketSub>, next: nat) {
    && (forall i :: 0 <= i < |subs| ==> subs[i].id < next)
    && (forall i, j :: 0 <= i < j < |subs| ==> subs[i].id != subs[j].id)
  }

  lemma {:induction false} WithoutGoodIds(subs: seq<PacketSub>, owner: int, next: nat)
    requires GoodIds(subs, next)
    ensures GoodIds(Without(subs, owner), next)
  {
    if subs != [] {
      var rest := Without(subs[1..], owner);
      WithoutGoodIds(subs[1..], owner, next);
      forall k | 0 <= k < |rest|
        ensures rest[k].id != subs[0].id
      {
        WithoutKeepsOthers(subs[1..], owner, rest[k]);
      }
    }
  }

  class PacketRegistry {
    var subs: seq<PacketSub>
    var inboundLive: bool
    var outboundLive: bool
    var nextId: nat
    var depth: nat
    const script: Script
    const acts: nat -> seq<Act>
    /** How many callbacks have been called. */
    var calls: nat

    /** The lock-free gates are open exactly while somebody wants that direction. */
    ghost predicate Valid()
      reads this
    {
      && inboundLive == AnyWants(subs, INBOUND)
      && outboundLive == AnyWants(subs, OUTBOUND)
      && GoodIds(subs, nextId)
    }

    constructor (script: Script, acts: nat -> seq<Act>)
      ensures Valid() && subs == [] && depth == 0 && this.script == script && this.acts == acts
    {
      subs, inboundLive, outboundLive, nextId, depth := [], false, false, 0, 0;
      this.script, this.acts, calls := script, acts, 0;
    }

    method RefreshGates()
      modifies this`inboundLive, this`outboundLive
      ensures inboundLive == AnyWants(subs, INBOUND) && outboundLive == AnyWants(subs, OUTBOUND)
    {
      var inb, outb := false, false;
      for i := 0 to |subs|
        invariant inb == AnyWants(subs[..i], INBOUND) && outb == AnyWants(subs[..i], OUTBOUND)
      {
        assert subs[..i + 1] == subs[..i] + [subs[i]];
        AnyWantsAppend(subs[..i], subs[i], INBOUND);
        AnyWantsAppend(subs[..i], subs[i], OUTBOUND);
        if Wants(subs[i], INBOUND) { inb := true; }
        if Wants(subs[i], OUTBOUND) { outb := true; }
      }
      assert subs[..|subs|] == subs;
      inboundLive, outboundLive := inb, outb;
    }

    /** A mask without any direction is refused. */
    method Register(owner: int, dirMask: int32) returns (handle: Option<nat>)
      requires Valid()
      modifies this`subs, this`nextId, this`inboundLive, this`outboundLive
      ensures Valid()
      ensures handle.None? <==> dirMask % 4 == 0
      ensures handle.None? ==> subs == old(subs)
      ensures handle.Some? ==> subs == old(subs) + [PacketSub(handle.value, owner, dirMask)]
    {
      if dirMask % 4 == 0 { return None; }
      handle := Some(nextId);
      subs := subs + [PacketSub(nextId, owner, dirMask)];
      nextId := nextId + 1;
      RefreshGates();
    }

    /** Removes the caller's own interceptor and no other. */
    method Unregister(owner: int, handle: nat) returns (ok: bool)
      requires Valid()
      modifies this`subs, this`inboundLive, this`outboundLive
      ensures Valid()
      ensures ok <==> exists i :: 0 <= i < |old(subs)| && old(subs)[i].id == handle && old(subs)[i].owner == owner
      ensures if ok then exists i :: 0 <= i < |old(subs)| && old(subs)[i].id == handle
                                     && subs == old(subs)[..i] + old(subs)[i + 1..]
              else subs == old(subs)
    {
      for i := 0 to |subs|
        invariant Valid() && subs == old(subs)
        invariant forall k :: 0 <= k < i ==> subs[k].id != handle
      {
        if subs[i].id != handle { continue; }
        if subs[i].owner != owner { return false; }
        subs := subs[..i] + subs[i + 1..];
        RefreshGates();
        return true;
      }
      return false;
    }

    method OnRustModGone(owner: int)
      requires Valid()
      modifies this`subs, this`inboundLive, this`outboundLive
      ensures Valid() && subs == Without(old(subs), owner)
    {
      var kept := [];
      for i := 0 to |subs|
        invariant Valid() && subs == old(subs)
        invariant kept == Without(subs[..i], owner)
      {
        assert subs[..i + 1] == subs[..i] + [subs[i]];
        WithoutAppend(subs[..i], subs[i], owner);
        if subs[i].owner != owner {
          kept := kept + [subs[i]];
        }
      }
      assert subs[..|subs|] == subs;
      WithoutGoodIds(subs, owner, nextId);
      subs := kept;
      RefreshGates();
    }

    method SnapshotFor(direction: nat) returns (who: seq<PacketSub>)
      ensures who == Selected(subs, direction)
    {
      who := [];
      for i := 0 to |subs|
        invariant who == Selected(subs[..i], direction)
      {
        assert subs[..i + 1] == subs[..i] + [subs[i]];
        SelectedAppend(subs[..i], subs[i], direction);
        if Wants(subs[i], direction) {
          who := who + [subs[i]];
        }
      }
      assert subs[..|subs|] == subs;
    }

    /** A callback is called: it answers, and may have changed the registry meanwhile. */
    method Call(s: PacketSub, ev: Event) returns (r: Reply)
      requires Valid()
      modifies this`subs, this`nextId, this`inboundLive, this`outboundLive, this`calls
      ensures Valid() && r == script(old(calls), s.id, ev) && calls == old(calls) + 1
      ensures OthersStay(old(subs), subs, {s.owner} + Leaving(acts(old(calls))))
    {
      r := script(calls, s.id, ev);
      var todo := acts(calls);
      calls := calls + 1;
      for i := 0 to |todo|
        invariant Valid() && OthersStay(old(subs), subs, {s.owner} + Leaving(todo)) && calls == old(calls) + 1
      {
        DoAct(s.owner, todo[i], Leaving(todo));
      }
    }

    method DoAct(owner: int, act: Act, ghost leaving: set<int>)
      requires Valid() && (act.Unload? ==> act.mod in leaving)
      modifies this`subs, this`nextId, this`inboundLive, this`outboundLive
      ensures Valid() && OthersStay(old(subs), subs, {owner} + leaving)
    {
      match act {
        case Join(dirMask) => var _ := Register(owner, dirMask);
        case Leave(handle) => var _ := Unregister(owner, handle);
        case Unload(mod) =>
          OnRustModGone(mod);
          OneModLeaves(old(subs), subs, mod);
      }
    }

    /**
     * Runs the subscribers that were interested when it began, each seeing the previous one's output,
     * whatever they do to the registry, be it that they unload one another.
     */
    method Dispatch(c: Connection, packet: Bytes, expectedId: int) returns (v: Verdict)
      requires Valid()
      modifies this
      ensures Valid() && depth == old(depth)
      ensures var who := Selected(old(subs), c.direction);
              && v == DispatchSpec(c, Heard(script, who, old(calls)), packet, expectedId, depth > 0)
              && old(calls) <= calls && OthersStay(old(subs), subs, Owners(who) + Unloaded(acts, old(calls), calls))
      ensures var cbs := Heard(script, Selected(old(subs), c.direction), old(calls));
              depth == 0 && AllTidy(cbs)
              && (expectedId < 0 || DecodeSpec(packet).None?
                  || DecodeSpec(packet).value.edit.packetId == expectedId) ==>
                Forwarded(v, packet) == RewriteAll(c, cbs, packet)
      ensures (depth > 0 || DecodeSpec(packet).None?
               || (expectedId >= 0 && DecodeSpec(packet).value.edit.packetId != expectedId)) ==> v == Pass
    {
      DispatchLaws(c, Heard(script, Selected(subs, c.direction), calls), packet, expectedId, depth > 0);
      if depth > 0 { return Pass; }
      var header := DecodeHeader(packet);
      if header.None? { return Pass; }
      if expectedId >= 0 && header.value.edit.packetId != expectedId { return Pass; }
      var who := SnapshotFor(c.direction);
      if who == [] { return Pass; }
      depth := depth + 1;
      var edit, cur, changed;
      v, edit, cur, changed := RunChain(c, who, header.value.edit, BodyOf(packet, header.value));
      depth := depth - 1;
      if v.Drop? || !changed { return; }
      var out := EncodeHeader([], edit);
      assert [] + Encoded(edit) == Encoded(edit);
      return Replaced(out + cur);
    }

    /** One after the other, until one swallows the packet; `Pass` stands for not swallowed. */
    method RunChain(c: Connection, who: seq<PacketSub>, edit0: Edit, body: Bytes)
      returns (v: Verdict, edit: Edit, cur: Bytes, changed: bool)
      requires Valid()
      modifies this`subs, this`nextId, this`inboundLive, this`outboundLive, this`calls
      ensures Valid() && (v.Pass? || v.Drop?)
      ensures old(calls) <= calls && OthersStay(old(subs), subs, Owners(who) + Unloaded(acts, old(calls), calls))
      ensures Chain(c, Heard(script, who, old(calls)), edit0, body, false)
           == if v.Drop? then Drop else if changed then Replaced(Encoded(edit) + cur) else Pass
    {
      ghost var cbs := Heard(script, who, calls);
      v, edit, cur, changed := Pass, edit0, body, false;
      for i := 0 to |who|
        invariant Valid() && calls == old(calls) + i
        invariant OthersStay(old(subs), subs, Owners(who) + Unloaded(acts, old(calls), calls))
        invariant Chain(c, cbs[i..], edit, cur, changed) == Chain(c, cbs, edit0, body, false)
      {
        var r := CallNext(who, i, Event(c, edit, cur), old(subs), old(calls));
        ChainNext(c, cbs, i, edit, cur, changed);
        assert r == cbs[i](Event(c, edit, cur));
        if Drops(r) {
          v := Drop;
          return;
        }
        if !Replaces(r) { continue; }
        cur := NewBody(r);
        edit := r.pending;
        changed := true;
      }
      assert cbs[|cbs|..] == [];
    }

    method CallNext(who: seq<PacketSub>, i: nat, ev: Event, ghost subs0: seq<PacketSub>, ghost first: nat)
      returns (r: Reply)
      requires Valid() && i < |who| && calls == first + i
      requires OthersStay(subs0, subs, Owners(who) + Unloaded(acts, first, calls))
      modifies this`subs, this`nextId, this`inboundLive, this`outboundLive, this`calls
      ensures Valid() && calls == first + i + 1 && r == script(first + i, who[i].id, ev)
      ensures OthersStay(subs0, subs, Owners(who) + Unloaded(acts, first, calls))
    {
      ghost var before := subs;
      r := Call(who[i], ev);
      OthersStayMore(subs0, before, subs, who, i, acts, first);
    }

    /** The send hook: what reaches the engine's own send, None when nothing does. */
    method Send(c: Connection, packet: Bytes, expectedId: int) returns (sent: Option<Bytes>)
      requires Valid() && c.direction == OUTBOUND
      modifies this
      ensures Valid() && depth == old(depth)
      ensures var cbs := Heard(script, Selected(old(subs), OUTBOUND), old(calls));
              && sent == Forwarded(DispatchSpec(c, cbs, packet, expectedId, depth > 0), packet)
              && (depth == 0 && AllTidy(cbs)
                  && (expectedId < 0 || DecodeSpec(packet).None?
                      || DecodeSpec(packet).value.edit.packetId == expectedId)
                  ==> sent == RewriteAll(c, cbs, packet))
      ensures (depth > 0 || DecodeSpec(packet).None?
               || (expectedId >= 0 && DecodeSpec(packet).value.edit.packetId != expectedId)) ==> sent == Some(packet)
    {
      DispatchLaws(c, Heard(script, Selected(subs, OUTBOUND), calls), packet, expectedId, depth > 0);
      NobodySelected(subs, OUTBOUND);
      if !outboundLive { return Some(packet); }
      var v := Dispatch(c, packet, expectedId);
      return Forwarded(v, packet);
    }

    /**
     * The receive hook: pulls packets until one survives or the peer runs dry. `heard[k]` are the callbacks
     * that were there for the k-th packet pulled.
     */
    method ReceivePacket(c: Connection, peer: Peer) returns (r: Option<Bytes>, ghost heard: seq<seq<Callback>>)
      requires Valid() && c.direction == INBOUND
      modifies this, peer
      ensures Valid() && depth == old(depth)
      ensures Pulled(FateOn(c, depth > 0), heard, old(peer.queue), r) && peer.queue == old(peer.queue)[|heard|..]
      ensures heard != [] ==> heard[0] == Heard(script, Selected(old(subs), INBOUND), old(calls))
      ensures AllHeard(script, heard)
    {
      NobodySelected(subs, INBOUND);
      if inboundLive {
        r, heard := Pump(c, peer);
      } else {
        heard := if peer.queue == [] then [] else [Heard(script, [], calls)];
        r := peer.Receive();
      }
    }

    method Pump(c: Connection, peer: Peer) returns (r: Option<Bytes>, ghost heard: seq<seq<Callback>>)
      requires Valid() && c.direction == INBOUND
      modifies this, peer
      ensures Valid() && depth == old(depth)
      ensures Pulled(FateOn(c, depth > 0), heard, old(peer.queue), r) && peer.queue == old(peer.queue)[|heard|..]
      ensures heard != [] ==> heard[0] == Heard(script, Selected(old(subs), INBOUND), old(calls))
      ensures AllHeard(script, heard)
    {
      r, heard := None, [];
      var done := false;
      while !done
        invariant Valid() && depth == old(depth) && AllHeard(script, heard)
        invariant Waiting(heard, old(peer.queue), peer.queue)
        invariant if done then Pulled(FateOn(c, depth > 0), heard, old(peer.queue), r)
                  else Swallowed(FateOn(c, depth > 0), heard, old(peer.queue))
        invariant if heard == [] then subs == old(subs) && calls == old(calls)
                  else heard[0] == Heard(script, Selected(old(subs), INBOUND), old(calls))
        decreases !done, |peer.queue|
      {
        done, r, heard := PullOne(c, peer, old(peer.queue), heard);
      }
    }

    /** One round: the peer is dry, or the next packet is swallowed or survives. */
    method PullOne(c: Connection, peer: Peer, ghost queue: seq<Bytes>, ghost heard0: seq<seq<Callback>>)
      returns (done: bool, r: Option<Bytes>, ghost heard: seq<seq<Callback>>)
      requires Valid() && c.direction == INBOUND && AllHeard(script, heard0)
      requires Waiting(heard0, queue, peer.queue) && Swallowed(FateOn(c, depth > 0), heard0, queue)
      modifies this, peer
      ensures Valid() && depth == old(depth) && AllHeard(script, heard) && Waiting(heard, queue, peer.queue)
      ensures if done then Pulled(FateOn(c, depth > 0), heard, queue, r)
              else Swallowed(FateOn(c, depth > 0), heard, queue) && |peer.queue| < |old(peer.queue)|
      ensures if old(peer.queue) == [] then done && heard == heard0 && subs == old(subs) && calls == old(calls)
              else heard == heard0 + [Heard(script, Selected(old(subs), INBOUND), old(calls))]
    {
      r := peer.Receive();
      heard := heard0;
      if r.None? { return true, None, heard; }
      ghost var cbs := Heard(script, Selected(subs, INBOUND), calls);
      r := Sieve(c, r.value);
      OnePulled(FateOn(c, depth > 0), heard, queue, cbs, r);
      heard, done := heard + [cbs], r.Some?;
    }

    /** One packet of the pump. */
    method Sieve(c: Connection, packet: Bytes) returns (r: Option<Bytes>)
      requires Valid() && c.direction == INBOUND
      modifies this
      ensures Valid() && depth == old(depth)
      ensures r == FateOn(c, depth > 0)(Heard(script, Selected(old(subs), INBOUND), old(calls)), packet)
    {
      var v := Dispatch(c, packet, -1);
      return Forwarded(v, packet);
    }

    /** The engine asks for packets until there are no more. */
    method ReceiveAll(c: Connection, peer: Peer) returns (got: seq<Bytes>, ghost heard: seq<seq<Callback>>)
      requires Valid() && c.direction == INBOUND
      modifies this, peer
      ensures Valid() && depth == old(depth) && peer.queue == []
      ensures |heard| == |old(peer.queue)| && AllHeard(script, heard)
      ensures got == FilterMap(FateOn(c, depth > 0), heard, old(peer.queue), |heard|)
    {
      got, heard := [], [];
      ghost var queue := peer.queue;
      var more := true;
      while more
        invariant Valid() && depth == old(depth) && AllHeard(script, heard)
        invariant Received(FateOn(c, depth > 0), heard, queue, got, peer.queue) && (!more ==> |heard| == |queue|)
        decreases more, |peer.queue|
      {
        more, got, heard := ReceiveNext(c, peer, queue, got, heard);
      }
    }

    method ReceiveNext(c: Connection, peer: Peer, ghost queue: seq<Bytes>, got0: seq<Bytes>,
                       ghost heard0: seq<seq<Callback>>)
      returns (more: bool, got: seq<Bytes>, ghost heard: seq<seq<Callback>>)
      requires Valid() && c.direction == INBOUND && AllHeard(script, heard0)
      requires Received(FateOn(c, depth > 0), heard0, queue, got0, peer.queue)
      modifies this, peer
      ensures Valid() && depth == old(depth) && AllHeard(script, heard)
      ensures Received(FateOn(c, depth > 0), heard, queue, got, peer.queue)
      ensures if more then |peer.queue| < |old(peer.queue)| else |heard| == |queue|
    {
      var r;
      ghost var pulled;
      r, pulled := ReceivePacket(c, peer);
      OneMorePulled(FateOn(c, depth > 0), heard0, queue, got0, pulled, r);
      AllHeardMore(script, heard0, pulled);
      more, got, heard := r.Some?, got0 + Kept(r), heard0 + pulled;
    }
  }

  function Owners(who: seq<PacketSub>): set<int> {
    set s | s in who :: s.owner
  }

  /** Interceptors of other mods are neither taken away nor added. */
  ghost predicate OthersStay(before: seq<PacketSub>, after: seq<PacketSub>, owners: set<int>) {
    forall s: PacketSub :: s.owner !in owners ==> (s in after <==> s in before)
  }

  /** The mods that these acts unload. */
  function Leaving(todo: seq<Act>): set<int> {
    set act | act in todo && act.Unload? :: act.mod
  }

  /** The mods that callbacks from number `first` up to `next` unload. */
  function Unloaded(acts: nat -> seq<Act>, first: nat, next: nat): set<int>
    requires first <= next
    decreases next
  {
    if first == next then {} else Unloaded(acts, first, next - 1) + Leaving(acts(next - 1))
  }

  lemma OthersStayMore(a: seq<PacketSub>, b: seq<PacketSub>, c: seq<PacketSub>, who: seq<PacketSub>, i: nat,
                       acts: nat -> seq<Act>, first: nat)
    requires i < |who| && OthersStay(a, b, Owners(who) + Unloaded(acts, first, first + i))
    requires OthersStay(b, c, {who[i].owner} + Leaving(acts(first + i)))
    ensures OthersStay(a, c, Owners(who) + Unloaded(acts, first, first + i + 1))
  {
    assert who[i] in who;
  }

  lemma OneModLeaves(before: seq<PacketSub>, after: seq<PacketSub>, mod: int)
    requires after == Without(before, mod)
    ensures OthersStay(before, after, {mod})
  {
    forall s: PacketSub
      ensures s in after <==> s in before && s.owner != mod
    {
      WithoutKeepsOthers(before, mod, s);
    }
  }

  lemma AnyWantsAppend(subs: seq<PacketSub>, s: PacketSub, direction: nat)
    ensures AnyWants(subs + [s], direction) <==> AnyWants(subs, direction) || Wants(s, direction)
  {
    assert (subs + [s])[|subs|] == s;
    if AnyWants(subs, direction) {
      var i :| 0 <= i < |subs| && Wants(subs[i], direction);
      assert Wants((subs + [s])[i], direction);
    }
  }

  // ---------------------------------------------------------------- the pump

  /** The packets waiting in the peer chain, oldest first. */
  class Peer {
    var queue: seq<Bytes>

    method Receive() returns (r: Option<Bytes>)
      modifies this
      ensures if old(queue) == [] then r == None && queue == []
              else r == Some(old(queue)[0]) && queue == old(queue)[1..]
    {
      if queue == [] { return None; }
      r := Some(queue[0]);
      queue := queue[1..];
    }
  }

  /** What becomes of a packet when these callbacks are there for it. */
  type Fate = (seq<Callback>, Bytes) -> Option<Bytes>

  function FateOn(c: Connection, nested: bool): Fate {
    (cbs, packet) => Forwarded(DispatchSpec(c, cbs, packet, -1, nested), packet)
  }

  ghost predicate AllHeard(script: Script, heard: seq<seq<Callback>>) {
    forall k :: 0 <= k < |heard| ==> IsHeard(script, heard[k])
  }

  lemma AllHeardMore(script: Script, heard: seq<seq<Callback>>, more: seq<seq<Callback>>)
    requires AllHeard(script, heard) && AllHeard(script, more)
    ensures AllHeard(script, heard + more)
  {}

  /** `|heard|` packets have been pulled from the queue, and `rest` waits. */
  ghost predicate Waiting(heard: seq<seq<Callback>>, queue: seq<Bytes>, rest: seq<Bytes>) {
    |heard| <= |queue| && rest == queue[|heard|..]
  }

  ghost predicate Swallowed(fate: Fate, heard: seq<seq<Callback>>, queue: seq<Bytes>)
    requires |heard| <= |queue|
  {
    forall k :: 0 <= k < |heard| ==> fate(heard[k], queue[k]).None?
  }

  /** `|heard|` packets are pulled: all but the last are swallowed, the last survives, or the queue is at its end. */
  ghost predicate Pulled(fate: Fate, heard: seq<seq<Callback>>, queue: seq<Bytes>, r: Option<Bytes>) {
    && |heard| <= |queue| && (if r.Some? then heard != [] else |heard| == |queue|)
    && forall k :: 0 <= k < |heard| ==>
         fate(heard[k], queue[k]) == if k == |heard| - 1 then r else None
  }

  lemma OnePulled(fate: Fate, heard: seq<seq<Callback>>, queue: seq<Bytes>, cbs: seq<Callback>, r: Option<Bytes>)
    requires |heard| < |queue| && Swallowed(fate, heard, queue) && r == fate(cbs, queue[|heard|])
    ensures if r.Some? then Pulled(fate, heard + [cbs], queue, r) else Swallowed(fate, heard + [cbs], queue)
  {}

  function Kept(fate: Option<Bytes>): seq<Bytes> {
    match fate
    case Some(p) => [p]
    case None => []
  }

  /** The fates of the first `n` packets, in order, without the swallowed ones. */
  function FilterMap(fate: Fate, heard: seq<seq<Callback>>, queue: seq<Bytes>, n: nat): seq<Bytes>
    requires n <= |heard| && n <= |queue|
  {
    if n == 0 then []
    else FilterMap(fate, heard, queue, n - 1) + Kept(fate(heard[n - 1], queue[n - 1]))
  }

  /** Packets that are swallowed add nothing. */
  lemma {:induction false} SwallowedAddNothing(fate: Fate, heard: seq<seq<Callback>>, queue: seq<Bytes>,
                                               i: nat, j: nat)
    requires i <= j <= |heard| && j <= |queue|
    requires forall k :: i <= k < j ==> fate(heard[k], queue[k]).None?
    ensures FilterMap(fate, heard, queue, j) == FilterMap(fate, heard, queue, i)
  {
    if i < j {
      SwallowedAddNothing(fate, heard, queue, i, j - 1);
      assert fate(heard[j - 1], queue[j - 1]).None?;
    }
  }

  lemma {:induction false} FilterMapOfFront(fate: Fate, heard: seq<seq<Callback>>,
                                            more: seq<seq<Callback>>, queue: seq<Bytes>, n: nat)
    requires n <= |heard| && n <= |queue|
    ensures FilterMap(fate, heard + more, queue, n) == FilterMap(fate, heard, queue, n)
  {
    if n > 0 { FilterMapOfFront(fate, heard, more, queue, n - 1); }
  }

  /** What has been delivered when `|heard|` packets are pulled, and what waits still. */
  ghost predicate Received(fate: Fate, heard: seq<seq<Callback>>, queue: seq<Bytes>, got: seq<Bytes>,
                           rest: seq<Bytes>)
  {
    && |heard| <= |queue| && rest == queue[|heard|..]
    && got == FilterMap(fate, heard, queue, |heard|)
  }

  /** The packets pulled next, seen from the whole queue. */
  lemma PulledFurther(fate: Fate, heard: seq<seq<Callback>>, queue: seq<Bytes>,
                      more: seq<seq<Callback>>, r: Option<Bytes>, k: nat)
    requires |heard| <= |queue| && Pulled(fate, more, queue[|heard|..], r)
    requires |heard| <= k < |heard| + |more|
    ensures k < |queue|
    ensures fate((heard + more)[k], queue[k]) == if k == |heard| + |more| - 1 then r else None
  {
    var j := k - |heard|;
    assert (heard + more)[k] == more[j] && queue[k] == queue[|heard|..][j];
  }

  /** One call of the receive hook adds one packet to what has been delivered, or none at the end. */
  lemma OneMorePulled(fate: Fate, heard: seq<seq<Callback>>, queue: seq<Bytes>, got: seq<Bytes>,
                      more: seq<seq<Callback>>, r: Option<Bytes>)
    requires |heard| <= |queue| && Received(fate, heard, queue, got, queue[|heard|..])
    requires Pulled(fate, more, queue[|heard|..], r)
    ensures Received(fate, heard + more, queue, got + Kept(r), queue[|heard|..][|more|..])
  {
    var all, n := heard + more, |heard|;
    FilterMapOfFront(fate, heard, more, queue, n);
    if more != [] {
      var last := |all| - 1;
      forall k | n <= k <= last
        ensures fate(all[k], queue[k]) == if k == last then r else None
      {
        PulledFurther(fate, heard, queue, more, r, k);
      }
      SwallowedAddNothing(fate, all, queue, n, last);
    }
  }

  /** The subscribers one at a time over each whole packet, in order, without the swallowed ones. */
  function Rewritten(c: Connection, heard: seq<seq<Callback>>, queue: seq<Bytes>, n: nat): seq<Bytes>
    requires n <= |heard| && n <= |queue|
  {
    if n == 0 then [] else Rewritten(c, heard, queue, n - 1) + Kept(RewriteAll(c, heard[n - 1], queue[n - 1]))
  }

  /**
   * The pump strands nothing: no survivor stays behind a dropped packet, and the order is kept; what is
   * delivered is the composed rewrite of each packet, whatever callbacks are there for it.
   */
  lemma {:induction false} PumpDeliversFilterMap(c: Connection, heard: seq<seq<Callback>>, queue: seq<Bytes>, n: nat)
    requires n <= |heard| && n <= |queue| && forall k :: 0 <= k < |heard| ==> AllTidy(heard[k])
    ensures FilterMap(FateOn(c, false), heard, queue, n) == Rewritten(c, heard, queue, n)
  {
    if n > 0 {
      PumpDeliversFilterMap(c, heard, queue, n - 1);
      DispatchIsFold(c, heard[n - 1], queue[n - 1]);
    }
  }
}
