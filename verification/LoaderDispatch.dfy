/** One dispatch of the cross-mod bus: what it reports, and who keeps silent. */
module LoaderDispatch {
  import opened Machine
  import opened Ownership
  import opened Bus
  import opened Services
  import opened LoaderState
  import opened LoaderSteps
  import opened LoaderEffects

  function Delivered(ids: seq<nat>, moments: seq<State>): nat
    requires |moments| > |ids|
  {
    if ids == [] then 0
    else Delivered(ids[..|ids| - 1], moments) + if Fires(moments[|ids| - 1], ids[|ids| - 1]) then 1 else 0
  }

  /** Every callback that ran is asked, whatever the earlier ones answered. */
  predicate Vetoed(ids: seq<nat>, moments: seq<State>, script: Script)
    requires |moments| > |ids|
  {
    exists k :: 0 <= k < |ids| && Fires(moments[k], ids[k]) && script(moments[k].calls).answer
  }

  /** What one turn keeps, the whole dispatch keeps. */
  lemma {:induction false} TurnsEvolve(script: Script, ids: seq<nat>, moments: seq<State>, runs: seq<seq<State>>,
                                       i: nat, j: nat)
    requires Turns(script, ids, moments, runs) && i <= j <= |ids|
    ensures Evolves(moments[i], moments[j])
  {
    if i < j {
      TurnsEvolve(script, ids, moments, runs, i, j - 1);
      assert Turn(script, moments[j - 1], ids[j - 1], runs[j - 1], moments[j]);
      EvolvesTrans(moments[i], moments[j - 1], moments[j]);
    } else {
      EvolvesRefl(moments[i]);
    }
  }

  /**
   * Whatever the subscribers do, a subscription that has gone by turn `i` stays silent, and one that runs
   * is the very subscription that was there when the dispatch began.
   */
  lemma DispatchIsASnapshot(script: Script, ids: seq<nat>, moments: seq<State>, runs: seq<seq<State>>, i: nat, k: nat)
    requires Turns(script, ids, moments, runs) && i <= k < |ids| && ids[k] < moments[0].nextSub
    ensures ids[k] !in moments[i].subs ==> !Fires(moments[k], ids[k])
    ensures Fires(moments[k], ids[k]) ==>
              ids[k] in moments[0].subs && moments[0].subs[ids[k]] == moments[k].subs[ids[k]]
  {
    TurnsEvolve(script, ids, moments, runs, 0, i);
    TurnsEvolve(script, ids, moments, runs, i, k);
    TurnsEvolve(script, ids, moments, runs, 0, k);
  }

  lemma {:induction false} DeliveredSoFar(ids: seq<nat>, moments: seq<State>, next: State)
    requires |moments| > |ids|
    ensures Delivered(ids, moments + [next]) == Delivered(ids, moments)
  {
    if ids != [] {
      DeliveredSoFar(ids[..|ids| - 1], moments, next);
    }
  }

  lemma TurnKeepsDepths(script: Script, a: State, id: nat, run: seq<State>, b: State)
    requires Turn(script, a, id, run, b)
    ensures SameDepths(a, b)
  {}

  lemma TurnsGrow(script: Script, ids: seq<nat>, moments: seq<State>, runs: seq<seq<State>>, id: nat, run: seq<State>,
                  next: State)
    requires Turns(script, ids, moments, runs) && Turn(script, moments[|ids|], id, run, next)
    ensures Turns(script, ids + [id], moments + [next], runs + [run])
  {
    var more, after, all := ids + [id], moments + [next], runs + [run];
    TurnKeepsDepths(script, moments[|ids|], id, run, next);
    forall k | 0 <= k < |after|
      ensures SameDepths(after[0], after[k])
    {
      if k <= |ids| { assert SameDepths(moments[0], moments[k]); }
    }
    forall k | 0 <= k < |more|
      ensures Turn(script, after[k], more[k], all[k], after[k + 1])
    {
      if k < |ids| { assert Turn(script, moments[k], ids[k], runs[k], moments[k + 1]); }
    }
  }

  lemma DeliveredGrows(ids: seq<nat>, moments: seq<State>, id: nat, next: State)
    requires |moments| == |ids| + 1
    ensures Delivered(ids + [id], moments + [next]) ==
            Delivered(ids, moments) + if Fires(moments[|ids|], id) then 1 else 0
  {
    assert (ids + [id])[..|ids|] == ids;
    DeliveredSoFar(ids, moments, next);
  }

  /** The subscriptions whose callbacks ran. */
  function Ran(ids: seq<nat>, moments: seq<State>): set<int>
    requires |moments| > |ids|
  {
    set k | 0 <= k < |ids| && Fires(moments[k], ids[k])
  }

  lemma RanBefore(ids: seq<nat>, moments: seq<State>, n: nat)
    requires |moments| > |ids| && |ids| == n + 1
    ensures var earlier := Ran(ids[..n], moments);
            n !in earlier && Ran(ids, moments) == if Fires(moments[n], ids[n]) then earlier + {n} else earlier
  {}

  /** What a dispatch reports as delivered is the number of callbacks that ran. */
  lemma {:induction false} DeliveredCounts(ids: seq<nat>, moments: seq<State>)
    requires |moments| > |ids|
    ensures Delivered(ids, moments) == |Ran(ids, moments)|
  {
    if ids != [] {
      RanBefore(ids, moments, |ids| - 1);
      DeliveredCounts(ids[..|ids| - 1], moments);
    }
  }

  lemma VetoGrows(ids: seq<nat>, moments: seq<State>, id: nat, next: State, script: Script)
    requires |moments| == |ids| + 1
    ensures Vetoed(ids + [id], moments + [next], script) <==>
            Vetoed(ids, moments, script) || (Fires(moments[|ids|], id) && script(moments[|ids|].calls).answer)
  {
    var more, after := ids + [id], moments + [next];
    if Vetoed(ids, moments, script) {
      var k :| 0 <= k < |ids| && Fires(moments[k], ids[k]) && script(moments[k].calls).answer;
      assert Fires(after[k], more[k]);
    }
    assert Fires(after[|ids|], more[|ids|]) <==> Fires(moments[|ids|], id);
  }

  /** What a dispatch reports. */
  ghost predicate Reports(script: Script, ids: seq<nat>, moments: seq<State>, runs: seq<seq<State>>, delivered: nat,
                          vetoed: bool)
  {
    && Turns(script, ids, moments, runs)
    && delivered == Delivered(ids, moments) && (vetoed <==> Vetoed(ids, moments, script))
  }

  lemma OneMoreTurn(script: Script, ids: seq<nat>, i: nat, moments: seq<State>, runs: seq<seq<State>>, run: seq<State>,
                    next: State, delivered: nat, vetoed: bool, ran: bool, veto: bool)
    requires i < |ids| && Reports(script, ids[..i], moments, runs, delivered, vetoed)
    requires Turn(script, moments[i], ids[i], run, next)
    requires ran <==> Fires(moments[i], ids[i])
    requires veto <==> ran && script(moments[i].calls).answer
    ensures Reports(script, ids[..i + 1], moments + [next], runs + [run], delivered + (if ran then 1 else 0),
                    vetoed || (ran && veto))
    ensures (moments + [next])[0] == moments[0] && (moments + [next])[i + 1] == next
  {
    assert ids[..i + 1] == ids[..i] + [ids[i]];
    TurnsGrow(script, ids[..i], moments, runs, ids[i], run, next);
    DeliveredGrows(ids[..i], moments, ids[i], next);
    VetoGrows(ids[..i], moments, ids[i], next, script);
  }
}
