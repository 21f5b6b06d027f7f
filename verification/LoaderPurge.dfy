/** How every table lets go of a mod (src/bridge/core/ApiTable.cpp), and what the other mods keep. */
module LoaderPurge {
  import opened Ownership
  import opened Bus
  import opened Services
  import opened LaneBooks
  import opened LoaderState
  import opened LoaderSteps
  import opened LoaderPrograms
  import opened LoaderKeeping

  ghost predicate TicketsWithout(before: map<nat, Owner>, after: map<nat, Owner>, mod: nat) {
    && (forall id :: id in after <==> id in before && before[id].mod != mod)
    && (forall id :: id in after ==> after[id] == before[id])
  }

  ghost predicate SubsWithout(before: map<nat, Subscription>, after: map<nat, Subscription>, mod: nat) {
    && (forall id :: id in after <==> id in before && before[id].owner.mod != mod)
    && (forall id :: id in after ==> after[id] == before[id])
  }

  ghost predicate ServicesWithout(before: map<nat, Service>, after: map<nat, Service>, mod: nat) {
    && (forall id :: id in after <==> id in before && before[id].owner.mod != mod)
    && (forall id :: id in after ==> after[id] == before[id])
  }

  /** Tasks, subscriptions and services go. */
  ghost predicate SourcesPurged(a: State, b: State, mod: nat) {
    && b == a.(tasks := b.tasks, subs := b.subs, services := b.services, serviceNames := b.serviceNames)
    && TicketsWithout(a.tasks, b.tasks, mod) && SubsWithout(a.subs, b.subs, mod)
    && ServicesWithout(a.services, b.services, mod) && b.serviceNames == NamesLeft(a.serviceNames, b.services)
  }

  ghost predicate FormsPurged(a: State, b: State, mod: nat) {
    b == a.(forms := b.forms) && TicketsWithout(a.forms, b.forms, mod)
  }

  ghost predicate NoLaneOf(s: State, mod: nat) {
    NoLanes(s.lanes, mod) && NoLeases(s.leases, mod)
  }

  ghost predicate Purged(a: State, b: State, mod: nat) {
    && b == a.(tasks := b.tasks, subs := b.subs, services := b.services, serviceNames := b.serviceNames,
               forms := b.forms)
    && TicketsWithout(a.tasks, b.tasks, mod) && SubsWithout(a.subs, b.subs, mod)
    && ServicesWithout(a.services, b.services, mod) && b.serviceNames == NamesLeft(a.serviceNames, b.services)
    && TicketsWithout(a.forms, b.forms, mod)
  }

  /** The same as a function. */
  ghost function PurgedOf(a: State, mod: nat): State {
    var services := map id | id in a.services && a.services[id].owner.mod != mod :: a.services[id];
    a.(tasks := map id | id in a.tasks && a.tasks[id].mod != mod :: a.tasks[id],
       subs := map id | id in a.subs && a.subs[id].owner.mod != mod :: a.subs[id],
       services := services, serviceNames := NamesLeft(a.serviceNames, services),
       forms := map id | id in a.forms && a.forms[id].mod != mod :: a.forms[id])
  }

  lemma PurgedIsOne(a: State, b: State, mod: nat)
    requires Purged(a, b, mod)
    ensures b == PurgedOf(a, mod)
  {
    var c := PurgedOf(a, mod);
    assert b.services == c.services && b.tasks == c.tasks && b.subs == c.subs && b.forms == c.forms;
  }

  /**
   * When the providers' callbacks only touch tables, exactly the leases that have to do with the mod go, and
   * the other mods keep whatever they do not withdraw themselves.
   */
  ghost predicate LeavesOthers(script: Script, a: State, b: State, mod: nat) {
    PlainSince(script, a.calls, b.calls) ==> OthersKeep(script, a, b, mod) && LeasesApart(a, b, mod)
  }

  /** Leases and lanes go, and their providers are told. A mod that has none enters nobody. */
  ghost predicate LanesPurged(script: Script, a: State, b: State, mod: nat) {
    (!b.rogue ==> NoLaneOf(b, mod)) && (NoLaneOf(a, mod) ==> b == a) && LeavesOthers(script, a, b, mod)
  }

  /** Nothing of the mod is left unless it registers things while it goes; the others keep theirs. */
  ghost predicate Purges(script: Script, a: State, b: State, mod: nat) {
    && Evolves(a, b) && (!b.rogue ==> InNoTable(b, mod))
    && (NoLaneOf(a, mod) ==> Purged(a, b, mod)) && LeavesOthers(script, a, b, mod)
  }

  // ---------------------------------------------------------------- step by step

  ghost predicate LeasesWithin(leases: map<nat, Lease>, mod: nat, ids: set<nat>) {
    forall l :: l in leases && leases[l].holder.mod == mod ==> l in ids
  }

  ghost predicate LanesWithin(lanes: map<nat, Lane>, mod: nat, ids: set<nat>) {
    forall id :: id in lanes && lanes[id].owner.mod == mod ==> id in ids
  }

  /** Nobody has lost anything but leases and lanes. */
  ghost predicate SourcesCalm(script: Script, a: State, b: State) {
    InStep(a, b) && b.mods == a.mods && b.listed == a.listed && SourcesKept(script, a, b, {})
  }

  /** Since `a` exactly those leases of the mod that are not in `rest` have been given back. */
  ghost predicate GivenBackBut(script: Script, a: State, b: State, mod: nat, rest: set<nat>) {
    && SourcesCalm(script, a, b) && LanesKept(a, b, {})
    && (forall l :: l in b.leases <==> l in a.leases && (a.leases[l].holder.mod != mod || l in rest))
    && (forall l :: l in b.leases ==> b.leases[l] == a.leases[l])
  }

  lemma GivenBackNext(script: Script, a: State, s: State, b: State, mod: nat, l: nat, rest: set<nat>)
    requires GivenBackBut(script, a, s, mod, rest + {l}) && l in a.leases && a.leases[l].holder.mod == mod && l !in rest
    requires CanGiveBack(s, l) && Calm(script, LeaseTakenOut(s, l), b)
    ensures GivenBackBut(script, a, b, mod, rest)
  {
    var t := LeaseTakenOut(s, l);
    SameSources(script, s, t);
    SourcesKeptTrans(script, s, t, b, {});
    SourcesKeptTrans(script, a, s, b, {});
  }

  lemma SameSources(script: Script, a: State, b: State)
    requires b.subs == a.subs && b.services == a.services && b.tasks == a.tasks && b.forms == a.forms
    requires InStep(a, b)
    ensures SourcesKept(script, a, b, {})
  {}

  /** Since `a` exactly those lanes of the mod that are not in `rest` have been retired. */
  ghost predicate RetiredBut(script: Script, a: State, b: State, mod: nat, rest: set<nat>) {
    && SourcesCalm(script, a, b)
    && (forall id :: id in a.lanes && (a.lanes[id].owner.mod != mod || id in rest) ==>
          id in b.lanes && SameLane(a.lanes[id], b.lanes[id]))
    && (forall l :: l in b.leases <==> l in a.leases && (!OnLaneOf(a, l, mod) || a.leases[l].laneId in rest))
    && (forall l :: l in b.leases ==> b.leases[l] == a.leases[l])
  }

  predicate OnLaneOf(s: State, l: nat, mod: nat)
    requires l in s.leases
  {
    s.leases[l].laneId in s.lanes && s.lanes[s.leases[l].laneId].owner.mod == mod
  }

  lemma RetiredNext(script: Script, a: State, s: State, b: State, mod: nat, id: nat, rest: set<nat>,
                    left: map<nat, Lease>)
    requires RetiredBut(script, a, s, mod, rest + {id}) && id in a.lanes && a.lanes[id].owner.mod == mod && id !in rest
    requires id in s.lanes && WithoutLane(s.leases, id, left) && Calm(script, TakenDown(s, id, left), b)
    ensures RetiredBut(script, a, b, mod, rest)
  {
    var t := TakenDown(s, id, left);
    SameSources(script, s, t);
    SourcesKeptTrans(script, s, t, b, {});
    SourcesKeptTrans(script, a, s, b, {});
  }

  /** Every lease is on a lane that is published. */
  ghost predicate LeasesHaveLanes(s: State) {
    forall l :: l in s.leases ==> s.leases[l].laneId in s.lanes
  }

  lemma LanesPurgedInOrder(script: Script, s0: State, s1: State, s2: State, mod: nat)
    requires mod in s0.dying && Evolves(s0, s1) && Evolves(s1, s2) && LeasesHaveLanes(s0)
    requires (!s1.rogue ==> NoLeases(s1.leases, mod)) && (NoLeases(s0.leases, mod) ==> s1 == s0)
    requires (!s2.rogue ==> NoLanes(s2.lanes, mod)) && (NoLanes(s1.lanes, mod) ==> s2 == s1)
    requires PlainSince(script, s0.calls, s1.calls) ==> GivenBackBut(script, s0, s1, mod, {})
    requires PlainSince(script, s1.calls, s2.calls) ==> RetiredBut(script, s1, s2, mod, {})
    ensures Evolves(s0, s2) && LanesPurged(script, s0, s2, mod)
  {
    EvolvesTrans(s0, s1, s2);
    if PlainSince(script, s0.calls, s2.calls) {
      BothPlain(script, s0.calls, s1.calls, s2.calls);
      OthersKeepLanes(script, s0, s1, s2, mod);
    }
    if !s2.rogue { StaysAway(s1, s2, mod); }
  }

  lemma BothPlain(script: Script, from: nat, mid: nat, to: nat)
    requires from <= mid <= to
    ensures PlainSince(script, from, to) <==> PlainSince(script, from, mid) && PlainSince(script, mid, to)
  {}

  lemma OthersKeepLanes(script: Script, s0: State, s1: State, s2: State, mod: nat)
    requires LeasesHaveLanes(s0) && GivenBackBut(script, s0, s1, mod, {}) && RetiredBut(script, s1, s2, mod, {})
    ensures OthersKeep(script, s0, s2, mod) && LeasesApart(s0, s2, mod)
  {
    SourcesKeptTrans(script, s0, s1, s2, {});
    AllKeptMeansOthersKept(script, s0, s2, mod);
    LeasesFallApart(script, s0, s1, s2, mod);
  }

  lemma AllKeptMeansOthersKept(script: Script, a: State, b: State, mod: nat)
    requires InStep(a, b) && SourcesKept(script, a, b, {})
    ensures SourcesKept(script, a, b, {mod})
  {
    forall m, k | m !in {mod} && IsSource(k)
      ensures SourceKept(script, a, b, m, k)
    {}
  }

  lemma LeasesFallApart(script: Script, s0: State, s1: State, s2: State, mod: nat)
    requires LeasesHaveLanes(s0) && GivenBackBut(script, s0, s1, mod, {}) && RetiredBut(script, s1, s2, mod, {})
    ensures LeasesApart(s0, s2, mod)
  {
    forall l | l in s1.leases
      ensures OnLaneOf(s1, l, mod) <==> OnLaneOf(s0, l, mod)
    {}
  }

  lemma StaysAway(a: State, b: State, mod: nat)
    requires Evolves(a, b) && !b.rogue && mod in a.dying
    ensures NoTickets(a.tasks, mod) ==> NoTickets(b.tasks, mod)
    ensures NoSubs(a.subs, mod) ==> NoSubs(b.subs, mod)
    ensures NoServices(a.services, mod) ==> NoServices(b.services, mod)
    ensures NoLaneOf(a, mod) ==> NoLaneOf(b, mod)
  {}

  lemma SourcesPurgedKeeps(script: Script, a: State, b: State, mod: nat)
    requires SourcesPurged(a, b, mod) || FormsPurged(a, b, mod)
    ensures OthersKeep(script, a, b, mod)
  {
    forall m, k | m !in {mod} && IsSource(k)
      ensures SourceKept(script, a, b, m, k)
    {}
  }

  /** The order of `onRustModGone`: what comes later brings nothing of a dying mod back. */
  lemma PurgedInOrder(script: Script, s0: State, s1: State, s2: State, s3: State, mod: nat)
    requires mod in s0.dying && Evolves(s0, s1) && Evolves(s1, s2) && Evolves(s2, s3)
    requires SourcesPurged(s0, s1, mod) && LanesPurged(script, s1, s2, mod) && FormsPurged(s2, s3, mod)
    ensures Purges(script, s0, s3, mod)
  {
    EvolvesTrans(s0, s1, s2);
    EvolvesTrans(s0, s2, s3);
    if !s3.rogue { NothingComesBack(s0, s1, s2, s3, mod); }
    if NoLaneOf(s0, mod) { assert s2 == s1; }
    if PlainSince(script, s0.calls, s3.calls) {
      OthersKeepAll(script, s0, s1, s2, s3, mod);
    }
  }

  lemma NothingComesBack(s0: State, s1: State, s2: State, s3: State, mod: nat)
    requires mod in s1.dying && Evolves(s1, s2) && !s3.rogue && NoLaneOf(s2, mod)
    requires SourcesPurged(s0, s1, mod) && FormsPurged(s2, s3, mod)
    ensures InNoTable(s3, mod)
  {
    StaysAway(s1, s2, mod);
  }

  lemma OthersKeepAll(script: Script, s0: State, s1: State, s2: State, s3: State, mod: nat)
    requires SourcesPurged(s0, s1, mod) && FormsPurged(s2, s3, mod)
    requires OthersKeep(script, s1, s2, mod) && LeasesApart(s1, s2, mod)
    ensures OthersKeep(script, s0, s3, mod) && LeasesApart(s0, s3, mod)
  {
    SourcesPurgedKeeps(script, s0, s1, mod);
    SourcesPurgedKeeps(script, s2, s3, mod);
    OthersKeepTrans(script, s0, s1, s2, mod);
    OthersKeepTrans(script, s0, s2, s3, mod);
    assert forall l :: l in s0.leases ==> (Concerns(s0, l, mod) <==> Concerns(s1, l, mod));
  }

  lemma PurgedOutside(script: Script, a: State, b: State, c: State, mod: nat)
    requires Purges(script, Purging(a, mod), b, mod) && Evolves(a, c) && c == b.(dying := a.dying)
    ensures Purges(script, a, c, mod)
  {
    if PlainSince(script, a.calls, c.calls) {
      OthersKeepOutside(script, a, b, c, mod);
    }
  }

  lemma OthersKeepOutside(script: Script, a: State, b: State, c: State, mod: nat)
    requires OthersKeep(script, Purging(a, mod), b, mod) && LeasesApart(Purging(a, mod), b, mod)
    requires c == b.(dying := a.dying)
    ensures OthersKeep(script, a, c, mod) && LeasesApart(a, c, mod)
  {
    forall m, k | m !in {mod} && IsSource(k)
      ensures SourceKept(script, a, c, m, k)
    {
      OutsideTheSame(script, Purging(a, mod), b, a, c, m, k);
    }
  }

  lemma OutsideTheSame(script: Script, a: State, b: State, a2: State, b2: State, mod: nat, k: Key)
    requires InStep(a, b) && SameTables(a, a2) && SameTables(b, b2) && IsSource(k)
    requires a2.log == a.log && a2.calls == a.calls && b2.log == b.log && b2.calls == b.calls
    requires SourceKept(script, a, b, mod, k)
    ensures InStep(a2, b2) && SourceKept(script, a2, b2, mod, k)
  {
    if WithdrawnBy(script, a, b, mod, k) {
      var i: nat :| WithdrawnAt(script, a, b, mod, k, i);
      assert WithdrawnAt(script, a2, b2, mod, k, i);
    }
  }
}
