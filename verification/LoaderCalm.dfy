/** What the callbacks made while a mod is purged leave to the others, when they only touch tables. */
module LoaderCalm {
  import opened Machine
  import opened Ownership
  import opened LaneBooks
  import opened LoaderState
  import opened LoaderSteps
  import opened LoaderKeeping
  import opened LoaderPurge
  import opened LoaderPrograms
  import opened LoaderEffects

  /** A dying mod has one lease less then. */
  lemma LeaseIsBack(script: Script, a: State, b: State, l: nat, mod: nat, rest: set<nat>, moments: seq<State>)
    requires ReturnRuns(script, a, l, moments, b)
    requires mod in a.dying && (!a.rogue ==> LeasesWithin(a.leases, mod, rest + {l}))
    ensures !b.rogue ==> LeasesWithin(b.leases, mod, rest)
  {
    var lane, given := a.lanes[a.leases[l].laneId], GivenBack(a, l);
    ContinuedIfEvolves(script, given, ToEnter(lane.owner, lane.desc.release), script(a.calls).prog, moments, b);
  }

  lemma LaneIsRetired(a: State, b: State, id: nat, left: map<nat, Lease>, mod: nat, rest: set<nat>)
    requires id in a.lanes && Retires(a, b, id, left)
    requires mod in a.dying && (!a.rogue ==> LanesWithin(a.lanes, mod, rest + {id}))
    ensures !b.rogue ==> LanesWithin(b.lanes, mod, rest)
  {
    var down := TakenDown(a, id, left);
    assert down.dying == a.dying && down.lanes == a.lanes - {id} && down.rogue == a.rogue;
    if !b.rogue {
      assert !a.rogue && LanesWithin(down.lanes, mod, rest);
      assert FadingLanes(down.dying, down.lanes, b.lanes);
    }
  }

  /** A callback that only touches tables takes nothing away from anybody else. */
  lemma ContinuedIsCalm(script: Script, s: State, o: Owner, mid: State, moments: seq<State>, b: State)
    requires FreshIds(s) && SameTables(s, mid) && mid.calls == s.calls + 1 && |mid.log| == |s.log| + 1
    requires s.log <= mid.log && mid.log[|s.log|].owner == o
    requires Continued(script, mid, o, script(s.calls).prog, moments, b) && AllPlain(script(s.calls).prog)
    ensures Calm(script, s, b) && FreshIds(b)
  {
    ContinuedComes(script, o, script(s.calls).prog, mid, moments, b);
    ProgramIsCalm(script, s, o, Deeper(mid), moments[|moments| - 1], b);
  }

  lemma ContinuedComes(script: Script, o: Owner, prog: seq<Op>, mid: State, moments: seq<State>, b: State)
    requires Continued(script, mid, o, prog, moments, b) && AllPlain(prog)
    ensures var t := moments[|moments| - 1];
            && (t == Deeper(mid) || t == Exec(Deeper(mid), o, prog))
            && SameTables(t, b) && b.log == t.log && b.calls == t.calls
  {
    assert prog[..|prog|] == prog;
    if Alive(mid.mods, o) {
      TraceOfPlain(script, o, prog, moments, |prog|);
    } else {
      TraceOfDead(script, o, prog, moments, |prog|);
    }
  }

  lemma ReturnIsCalm(script: Script, s: State, l: nat, moments: seq<State>, b: State)
    requires ReturnRuns(script, s, l, moments, b) && FreshIds(s) && PlainSince(script, s.calls, b.calls)
    ensures Calm(script, LeaseTakenOut(s, l), b) && FreshIds(b)
  {
    var t, id := LeaseTakenOut(s, l), s.leases[l].laneId;
    var lane := s.lanes[id];
    FreshWithoutLease(s, l);
    if lane.desc.release {
      assert GivenBack(s, l) == Begun(t, lane.owner, Release(id));
      BegunIsCalm(script, t, lane.owner, Release(id), moments, b);
    } else {
      CalmRefl(script, t);
    }
  }

  lemma FreshWithoutLease(s: State, l: nat)
    requires CanGiveBack(s, l) && FreshIds(s)
    ensures FreshIds(LeaseTakenOut(s, l)) && LeaseTakenOut(s, l).calls == s.calls
  {}

  lemma BegunIsCalm(script: Script, t: State, o: Owner, kind: Kind, moments: seq<State>, b: State)
    requires FreshIds(t) && Continued(script, Begun(t, o, kind), o, script(t.calls).prog, moments, b)
    requires PlainSince(script, t.calls, b.calls)
    ensures Calm(script, t, b) && FreshIds(b)
  {
    ContinuedIsCalm(script, t, o, Begun(t, o, kind), moments, b);
  }

  lemma PaidIsCalm(script: Script, s: State, id: nat, o: Owner, moments: seq<State>, t: State)
    requires Paid(script, s, id, o, moments, t) && FreshIds(s) && PlainSince(script, s.calls, t.calls)
    ensures Calm(script, s, t) && FreshIds(t)
  {
    ContinuedIsCalm(script, s, o, DueMade(s, id), moments, t);
  }

  lemma {:induction false} PaymentsAreCalm(script: Script, id: nat, o: Owner, steps: seq<State>, runs: seq<seq<State>>,
                                           k: nat)
    requires Payments(script, id, o, steps, runs) && k <= |runs|
    requires FreshIds(steps[0]) && PlainSince(script, steps[0].calls, steps[k].calls)
    ensures Calm(script, steps[0], steps[k]) && FreshIds(steps[k])
  {
    if k > 0 {
      PaymentsCount(script, id, o, steps, runs, k - 1);
      BothPlain(script, steps[0].calls, steps[k - 1].calls, steps[k].calls);
      PaymentsAreCalm(script, id, o, steps, runs, k - 1);
      OneMoreIsCalm(script, id, o, steps[0], steps[k - 1], runs[k - 1], steps[k]);
    } else {
      CalmRefl(script, steps[0]);
    }
  }

  lemma OneMoreIsCalm(script: Script, id: nat, o: Owner, a: State, s: State, run: seq<State>, t: State)
    requires Calm(script, a, s) && FreshIds(s) && a.calls <= s.calls
    requires Paid(script, s, id, o, run, t) && PlainSince(script, a.calls, t.calls)
    ensures Calm(script, a, t) && FreshIds(t)
  {
    PaidIsCalm(script, s, id, o, run, t);
    CalmTrans(script, a, s, t);
  }

  lemma {:induction false} PaymentsCount(script: Script, id: nat, o: Owner, steps: seq<State>, runs: seq<seq<State>>,
                                         k: nat)
    requires Payments(script, id, o, steps, runs) && k <= |runs|
    ensures steps[0].calls <= steps[k].calls
    ensures k < |runs| ==> steps[k].calls < steps[k + 1].calls && Paid(script, steps[k], id, o, runs[k], steps[k + 1])
  {
    if k < |runs| {
      assert Paid(script, steps[k], id, o, runs[k], steps[k + 1]);
      assert Continued(script, DueMade(steps[k], id), o, script(steps[k].calls).prog, runs[k], steps[k + 1]);
    }
    if k > 0 { PaymentsCount(script, id, o, steps, runs, k - 1); }
  }

  lemma RetireIsCalm(script: Script, a: State, id: nat, left: map<nat, Lease>, steps: seq<State>, runs: seq<seq<State>>,
                     b: State)
    requires RetireRuns(script, a, id, left, steps, runs, b) && FreshIds(a) && PlainSince(script, a.calls, b.calls)
    ensures Calm(script, TakenDown(a, id, left), b) && FreshIds(b)
  {
    PaymentsAreCalm(script, id, a.lanes[id].owner, steps, runs, |runs|);
  }

  /** The leases of a mod are given back one by one, each if it is still there. */
  lemma OneMoreGivenBack(script: Script, a: State, s: State, b: State, mod: nat, l: nat, rest: set<nat>,
                         moments: seq<State>)
    requires PlainSince(script, a.calls, s.calls) ==> GivenBackBut(script, a, s, mod, rest + {l})
    requires l in a.leases && a.leases[l].holder.mod == mod && l !in rest
    requires FreshIds(s) && a.calls <= s.calls <= b.calls
    requires if l in s.leases then ReturnRuns(script, s, l, moments, b) else b == s
    ensures PlainSince(script, a.calls, b.calls) ==> GivenBackBut(script, a, b, mod, rest)
  {
    if PlainSince(script, a.calls, b.calls) {
      BothPlain(script, a.calls, s.calls, b.calls);
      assert l in s.leases;
      ReturnIsCalm(script, s, l, moments, b);
      GivenBackNext(script, a, s, b, mod, l, rest);
    }
  }

  lemma OneMoreRetired(script: Script, a: State, s: State, b: State, mod: nat, id: nat, rest: set<nat>,
                       left: map<nat, Lease>, steps: seq<State>, runs: seq<seq<State>>)
    requires PlainSince(script, a.calls, s.calls) ==> RetiredBut(script, a, s, mod, rest + {id})
    requires id in a.lanes && a.lanes[id].owner.mod == mod && id !in rest
    requires FreshIds(s) && a.calls <= s.calls <= b.calls
    requires if id in s.lanes then RetireRuns(script, s, id, left, steps, runs, b) else b == s
    ensures PlainSince(script, a.calls, b.calls) ==> RetiredBut(script, a, b, mod, rest)
  {
    if PlainSince(script, a.calls, b.calls) {
      BothPlain(script, a.calls, s.calls, b.calls);
      assert id in s.lanes;
      RetireIsCalm(script, s, id, left, steps, runs, b);
      RetiredNext(script, a, s, b, mod, id, rest, left);
    }
  }
}
