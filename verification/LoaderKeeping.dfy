/**
 * What callbacks that only touch tables leave alone: a mod keeps what it does not withdraw itself, lanes stay
 * published, and leases stay taken.
 */
module LoaderKeeping {
  import opened Ownership
  import opened Bus
  import opened Services
  import opened LaneBooks
  import opened LoaderState
  import opened LoaderSteps
  import opened LoaderPrograms

  /** The callbacks from number `from` up to `to` only touch tables. */
  ghost predicate PlainSince(script: Script, from: nat, to: nat) {
    forall n :: from <= n < to ==> AllPlain(script(n).prog)
  }

  /** What a mod registers apart from lanes and leases. */
  predicate IsSource(k: Key) {
    k.SubKey? || k.ServiceKey? || k.TaskKey? || k.FormKey?
  }

  /** The entries on record and the callbacks played go in step. */
  ghost predicate InStep(a: State, b: State) {
    a.log <= b.log && |b.log| - |a.log| == b.calls - a.calls
  }

  /** The `i`-th callback since `a` was one of the mod itself, and has withdrawn `k`. */
  ghost predicate WithdrawnAt(script: Script, a: State, b: State, mod: nat, k: Key, i: nat)
    requires InStep(a, b)
  {
    i < b.calls - a.calls && b.log[|a.log| + i].owner.mod == mod && WithdrawsIn(script(a.calls + i).prog, k)
  }

  ghost predicate WithdrawnBy(script: Script, a: State, b: State, mod: nat, k: Key)
    requires InStep(a, b)
  {
    exists i: nat :: WithdrawnAt(script, a, b, mod, k, i)
  }

  ghost predicate SourceKept(script: Script, a: State, b: State, mod: nat, k: Key)
    requires InStep(a, b)
  {
    Has(a, mod, k) ==> Has(b, mod, k) || WithdrawnBy(script, a, b, mod, k)
  }

  ghost predicate SourcesKept(script: Script, a: State, b: State, but: set<nat>)
    requires InStep(a, b)
  {
    forall mod, k :: mod !in but && IsSource(k) ==> SourceKept(script, a, b, mod, k)
  }

  /** A lane as it was published. */
  ghost predicate SameLane(a: Lane, b: Lane) {
    a.owner == b.owner && a.name == b.name && a.desc == b.desc
  }

  ghost predicate LanesKept(a: State, b: State, but: set<nat>) {
    forall id :: id in a.lanes && a.lanes[id].owner.mod !in but ==> id in b.lanes && SameLane(a.lanes[id], b.lanes[id])
  }

  /** From `a` to `b` only callbacks ran, and they only touched tables. */
  ghost predicate Calm(script: Script, a: State, b: State) {
    && InStep(a, b) && b.mods == a.mods && b.listed == a.listed
    && SourcesKept(script, a, b, {}) && b.leases == a.leases && LanesKept(a, b, {})
  }

  /** All but the given mod keep what they have; leases aside. */
  ghost predicate OthersKeep(script: Script, a: State, b: State, mod: nat) {
    && InStep(a, b) && b.mods == a.mods && b.listed == a.listed
    && SourcesKept(script, a, b, {mod}) && LanesKept(a, b, {mod})
  }

  /** Is the lease the mod's, or one on a lane of it? */
  predicate Concerns(s: State, l: nat, mod: nat)
    requires l in s.leases
  {
    var lease := s.leases[l];
    lease.holder.mod == mod || (lease.laneId in s.lanes && s.lanes[lease.laneId].owner.mod == mod)
  }

  /** Exactly the leases that have nothing to do with the mod are left. */
  ghost predicate LeasesApart(a: State, b: State, mod: nat) {
    && (forall l :: l in b.leases <==> l in a.leases && !Concerns(a, l, mod))
    && (forall l :: l in b.leases ==> b.leases[l] == a.leases[l])
  }

  // ---------------------------------------------------------------- it composes

  lemma WithdrawnEarlier(script: Script, a: State, b: State, c: State, mod: nat, k: Key)
    requires InStep(a, b) && InStep(b, c) && WithdrawnBy(script, a, b, mod, k)
    ensures WithdrawnBy(script, a, c, mod, k)
  {
    var i: nat :| WithdrawnAt(script, a, b, mod, k, i);
    assert WithdrawnAt(script, a, c, mod, k, i);
  }

  lemma WithdrawnLater(script: Script, a: State, b: State, c: State, mod: nat, k: Key)
    requires InStep(a, b) && InStep(b, c) && WithdrawnBy(script, b, c, mod, k)
    ensures WithdrawnBy(script, a, c, mod, k)
  {
    var i: nat :| WithdrawnAt(script, b, c, mod, k, i);
    assert WithdrawnAt(script, a, c, mod, k, i + (b.calls - a.calls));
  }

  lemma SourcesKeptTrans(script: Script, a: State, b: State, c: State, but: set<nat>)
    requires InStep(a, b) && InStep(b, c) && SourcesKept(script, a, b, but) && SourcesKept(script, b, c, but)
    ensures InStep(a, c) && SourcesKept(script, a, c, but)
  {
    forall mod, k | mod !in but && IsSource(k)
      ensures SourceKept(script, a, c, mod, k)
    {
      assert SourceKept(script, a, b, mod, k) && SourceKept(script, b, c, mod, k);
      if WithdrawnBy(script, a, b, mod, k) { WithdrawnEarlier(script, a, b, c, mod, k); }
      if WithdrawnBy(script, b, c, mod, k) { WithdrawnLater(script, a, b, c, mod, k); }
    }
  }

  lemma CalmRefl(script: Script, a: State)
    ensures Calm(script, a, a)
  {}

  lemma CalmTrans(script: Script, a: State, b: State, c: State)
    requires Calm(script, a, b) && Calm(script, b, c)
    ensures Calm(script, a, c)
  {
    SourcesKeptTrans(script, a, b, c, {});
  }

  lemma OthersKeepTrans(script: Script, a: State, b: State, c: State, mod: nat)
    requires OthersKeep(script, a, b, mod) && OthersKeep(script, b, c, mod)
    ensures OthersKeep(script, a, c, mod)
  {
    SourcesKeptTrans(script, a, b, c, {mod});
  }

  // ---------------------------------------------------------------- one program

  /** The numbers that will be given next are not in use. */
  ghost predicate FreshIds(s: State) {
    && Below(s.subs.Keys, s.nextSub) && Below(s.services.Keys, s.nextService)
    && Below(s.tasks.Keys, s.nextTask) && Below(s.forms.Keys, s.nextForm) && Below(s.lanes.Keys, s.nextLane)
  }

  lemma FreshSubs(s: State, self: Owner, topic: string, ok: bool, id: nat)
    requires FreshIds(s)
    ensures FreshIds(SubAdded(s, self, topic, ok)) && FreshIds(SubDropped(s, self, id))
  {}

  lemma FreshServices(s: State, self: Owner, name: string, ok: bool, id: nat)
    requires FreshIds(s)
    ensures FreshIds(ServiceAdded(s, self, name, ok)) && FreshIds(ServiceDropped(s, self, id))
  {}

  lemma FreshTickets(s: State, self: Owner, shown: bool, id: nat)
    requires FreshIds(s)
    ensures FreshIds(TaskAdded(s, self)) && FreshIds(TaskDropped(s, self, id)) && FreshIds(FormSent(s, self, shown))
  {}

  lemma FreshLanes(s: State, self: Owner, name: string, desc: Desc, ok: bool)
    requires FreshIds(s)
    ensures FreshIds(LaneAdded(s, self, name, desc, ok)) && LanesKept(s, LaneAdded(s, self, name, desc, ok), {})
  {}

  lemma FreshAfter(s: State, self: Owner, op: Op)
    requires FreshIds(s)
    ensures FreshIds(After(s, self, op))
  {
    match op {
      case Subscribe(topic) => FreshSubs(s, self, topic, GoodName(topic), 0);
      case Unsubscribe(id) => FreshSubs(s, self, "", false, id);
      case RegisterService(name) => FreshServices(s, self, name, ServiceFree(s, name), 0);
      case UnregisterService(id) => FreshServices(s, self, "", false, id);
      case Schedule => FreshTickets(s, self, false, 0);
      case CancelTask(id) => FreshTickets(s, self, false, id);
      case SendForm(shown) => FreshTickets(s, self, shown, 0);
      case PublishLane(name, desc, wellFormed) =>
        FreshLanes(s, self, name, desc, LaneAccepted(s, name, desc, wellFormed));
      case _ =>
    }
  }

  lemma OthersAfter(s: State, self: Owner, op: Op, mod: nat, k: Key)
    requires FreshIds(s) && Has(s, mod, k) && IsSource(k)
    ensures Has(After(s, self, op), mod, k) || (mod == self.mod && Withdraws(op, k))
  {}

  lemma LanesAfter(s: State, self: Owner, op: Op)
    requires FreshIds(s)
    ensures LanesKept(s, After(s, self, op), {})
  {
    match op {
      case PublishLane(name, desc, wellFormed) =>
        FreshLanes(s, self, name, desc, LaneAccepted(s, name, desc, wellFormed));
      case _ => LanesStay(s, self, op);
    }
  }

  lemma {:induction false} ExecKeeps(s: State, self: Owner, prog: seq<Op>)
    requires FreshIds(s)
    ensures var t := Exec(s, self, prog);
            FreshIds(t) && LanesKept(s, t, {}) && NoModMoves(s, t) && t.log == s.log
    decreases |prog|
  {
    if prog != [] {
      var n := |prog| - 1;
      var m := Exec(s, self, prog[..n]);
      ExecKeeps(s, self, prog[..n]);
      FreshAfter(m, self, prog[n]);
      LanesAfter(m, self, prog[n]);
      ModsStay(m, self, prog[n]);
      StackStays(m, self, prog[n]);
    }
  }

  lemma {:induction false} ExecKeepsSource(s: State, self: Owner, prog: seq<Op>, mod: nat, k: Key)
    requires FreshIds(s) && Has(s, mod, k) && IsSource(k)
    ensures Has(Exec(s, self, prog), mod, k) || (mod == self.mod && WithdrawsIn(prog, k))
    decreases |prog|
  {
    if prog != [] {
      var n := |prog| - 1;
      ExecKeepsSource(s, self, prog[..n], mod, k);
      ExecKeeps(s, self, prog[..n]);
      if Has(Exec(s, self, prog[..n]), mod, k) {
        OthersAfter(Exec(s, self, prog[..n]), self, prog[n], mod, k);
      } else {
        var i :| 0 <= i < n && Withdraws(prog[..n][i], k);
        assert Withdraws(prog[i], k);
      }
    }
  }

  /** The tables a program works on. */
  ghost predicate SameTables(a: State, b: State) {
    && b.mods == a.mods && b.listed == a.listed
    && b.subs == a.subs && b.services == a.services && b.tasks == a.tasks && b.forms == a.forms
    && b.leases == a.leases && b.lanes == a.lanes
    && b.nextSub == a.nextSub && b.nextService == a.nextService && b.nextTask == a.nextTask
    && b.nextForm == a.nextForm && b.nextLane == a.nextLane
  }

  /** A callback of `o` was entered at `s`, and its program, run from `begun`, has come to `t`, and so to `b`. */
  ghost predicate Came(script: Script, s: State, o: Owner, begun: State, t: State, b: State) {
    && SameTables(s, begun) && begun.calls == s.calls + 1 && |begun.log| == |s.log| + 1
    && s.log <= begun.log && begun.log[|s.log|].owner == o
    && (t == begun || t == Exec(begun, o, script(s.calls).prog))
    && SameTables(t, b) && b.log == t.log && b.calls == t.calls
  }

  lemma CameKeepsSource(script: Script, s: State, o: Owner, begun: State, t: State, b: State, mod: nat, k: Key)
    requires FreshIds(s) && Came(script, s, o, begun, t, b) && InStep(s, b) && IsSource(k)
    ensures SourceKept(script, s, b, mod, k)
  {
    if Has(s, mod, k) {
      SameTablesHas(s, begun, mod, k);
      ExecKeepsSource(begun, o, script(s.calls).prog, mod, k);
      SameTablesHas(t, b, mod, k);
      ExecKeeps(begun, o, script(s.calls).prog);
      if mod == o.mod && WithdrawsIn(script(s.calls).prog, k) {
        assert WithdrawnAt(script, s, b, mod, k, 0);
      }
    }
  }

  lemma ProgramIsCalm(script: Script, s: State, o: Owner, begun: State, t: State, b: State)
    requires FreshIds(s) && Came(script, s, o, begun, t, b)
    ensures Calm(script, s, b) && FreshIds(b)
  {
    ExecKeeps(begun, o, script(s.calls).prog);
    assert InStep(s, b) && LanesKept(s, b, {});
    forall mod, k | IsSource(k)
      ensures SourceKept(script, s, b, mod, k)
    {
      CameKeepsSource(script, s, o, begun, t, b, mod, k);
    }
  }

  lemma SameTablesHas(a: State, b: State, mod: nat, k: Key)
    requires SameTables(a, b) && IsSource(k)
    ensures Has(a, mod, k) <==> Has(b, mod, k)
  {}
}
