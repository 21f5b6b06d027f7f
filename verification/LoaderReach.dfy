/** Whom an operation of a mod reaches: who is entered first, and when nobody is. */
module LoaderReach {
  import opened Machine
  import opened Ownership
  import opened Bus
  import opened LaneBooks
  import opened LoaderState
  import opened LoaderSteps
  import opened LoaderLifecycle
  import opened LoaderPurge
  import opened LoaderPrograms
  import opened LoaderEffects
  import opened LoaderDispatch
  import opened LoaderOutcomes

  /** The first entry after `a`, by the time of `b`, is into `o`. */
  ghost predicate EnteredNext(a: State, b: State, o: Owner, kind: Kind) {
    && a.log <= b.log && |a.log| < |b.log| && a.calls < b.calls
    && b.log[|a.log|].owner == o && b.log[|a.log|].kind == kind
  }

  /** What has begun with an entry. */
  lemma BegunIsEntered(a: State, begun: State, o: Owner, kind: Kind, b: State)
    requires a.log <= begun.log && |begun.log| == |a.log| + 1 && a.calls < begun.calls
    requires begun.log[|a.log|].owner == o && begun.log[|a.log|].kind == kind
    requires begun.log <= b.log && begun.calls <= b.calls
    ensures EnteredNext(a, b, o, kind)
  {
    assert b.log[|a.log|] == begun.log[|a.log|];
  }

  lemma PlayedIsEntered(script: Script, a: State, o: Owner, moments: seq<State>, b: State)
    requires Played(script, a, o, Ordinary, moments, b)
    ensures EnteredNext(a, b, o, Ordinary)
  {
    BegunIsEntered(a, Begun(a, o, Ordinary), o, Ordinary, b);
  }

  lemma CalledIsEntered(script: Script, a: State, o: Owner, kind: Kind, moments: seq<State>, b: State)
    requires Called(script, a, o, kind, moments, b)
    ensures EnteredNext(a, b, o, kind)
  {
    BegunIsEntered(a, Begun(a, o, kind), o, kind, b);
  }

  // ---------------------------------------------------------------- publishing

  /** An enabled mod other than the publisher has subscribed to the topic. */
  predicate Hears(s: State, publisher: nat, topic: string, id: nat) {
    Fires(s, id) && s.subs[id].topic == topic && s.subs[id].owner.mod != publisher
  }

  /** The oldest of these subscriptions. */
  ghost predicate HearsFirst(s: State, publisher: nat, topic: string, id: nat) {
    Hears(s, publisher, topic, id) && forall other :: Hears(s, publisher, topic, other) ==> id <= other
  }

  /** As long as no turn entered anybody, nothing has happened. */
  lemma {:induction false} SilentSoFar(script: Script, ids: seq<nat>, moments: seq<State>, runs: seq<seq<State>>,
                                       k: nat)
    requires Turns(script, ids, moments, runs) && k <= |ids|
    requires forall i :: 0 <= i < k ==> !Fires(moments[0], ids[i])
    ensures moments[k] == moments[0]
  {
    if k > 0 {
      SilentSoFar(script, ids, moments, runs, k - 1);
      assert Turn(script, moments[k - 1], ids[k - 1], runs[k - 1], moments[k]);
    }
  }

  lemma FirstTurn(script: Script, ids: seq<nat>, moments: seq<State>, runs: seq<seq<State>>, k: nat)
    requires Turns(script, ids, moments, runs) && k < |ids| && Fires(moments[0], ids[k])
    requires forall i :: 0 <= i < k ==> !Fires(moments[0], ids[i])
    ensures EnteredNext(moments[0], moments[|ids|], moments[0].subs[ids[k]].owner, Ordinary)
  {
    SilentSoFar(script, ids, moments, runs, k);
    assert Turn(script, moments[k], ids[k], runs[k], moments[k + 1]);
    PlayedIsEntered(script, moments[k], moments[k].subs[ids[k]].owner, runs[k], moments[k + 1]);
    TurnsEvolve(script, ids, moments, runs, k + 1, |ids|);
  }

  /** Publishing enters the oldest subscriber first; it does nothing at all if and only if nobody hears it. */
  lemma PublishReaches(script: Script, self: Owner, topic: string, a: State, b: State)
    requires GoodName(topic) && a.busDepth < MAX_DEPTH && Effect(script, self, Publish(topic), a, b)
    ensures forall id :: HearsFirst(a, self.mod, topic, id) ==> EnteredNext(a, b, a.subs[id].owner, Ordinary)
    ensures b == a <==> forall id :: !Hears(a, self.mod, topic, id)
  {
    assert PublishEffect(script, self.mod, topic, a, b);
    var ids, moments, runs :| Dispatched(script, self.mod, topic, a, ids, moments, runs, b);
    if id :| HearsFirst(a, self.mod, topic, id) {
      DispatchReaches(script, self.mod, topic, a, ids, moments, runs, b, id);
      forall other | HearsFirst(a, self.mod, topic, other)
        ensures other == id
      {}
    } else {
      NobodyFirst(a, self.mod, topic);
      NobodyReached(script, self.mod, topic, a, ids, moments, runs, b);
    }
  }

  lemma NobodyReached(script: Script, publisher: nat, topic: string, a: State, ids: seq<nat>, moments: seq<State>,
                      runs: seq<seq<State>>, b: State)
    requires Dispatched(script, publisher, topic, a, ids, moments, runs, b)
    requires forall id :: !Hears(a, publisher, topic, id)
    ensures b == a
  {
    assert Turns(script, ids, moments, runs);
    forall i | 0 <= i < |ids|
      ensures !Fires(moments[0], ids[i])
    {
      assert ids[i] in ids && !Hears(a, publisher, topic, ids[i]);
    }
    SilentSoFar(script, ids, moments, runs, |ids|);
  }

  lemma DispatchReaches(script: Script, publisher: nat, topic: string, a: State, ids: seq<nat>, moments: seq<State>,
                        runs: seq<seq<State>>, b: State, id: nat)
    requires Dispatched(script, publisher, topic, a, ids, moments, runs, b) && HearsFirst(a, publisher, topic, id)
    ensures EnteredNext(a, b, a.subs[id].owner, Ordinary)
  {
    assert id in ids;
    var k :| 0 <= k < |ids| && ids[k] == id;
    assert Turns(script, ids, moments, runs);
    forall i | 0 <= i < k
      ensures !Fires(moments[0], ids[i])
    {
      assert ids[i] in ids && ids[i] < id;
      assert !Hears(a, publisher, topic, ids[i]);
    }
    FirstTurn(script, ids, moments, runs, k);
  }

  /** Where anybody hears, somebody hears first. */
  lemma {:induction false} SomebodyFirst(a: State, publisher: nat, topic: string, id: nat)
    requires Hears(a, publisher, topic, id)
    ensures exists first :: HearsFirst(a, publisher, topic, first)
    decreases id
  {
    if !HearsFirst(a, publisher, topic, id) {
      var other: nat :| Hears(a, publisher, topic, other) && other < id;
      SomebodyFirst(a, publisher, topic, other);
    }
  }

  lemma NobodyFirst(a: State, publisher: nat, topic: string)
    requires forall id :: !HearsFirst(a, publisher, topic, id)
    ensures forall id :: !Hears(a, publisher, topic, id)
  {
    forall id
      ensures !Hears(a, publisher, topic, id)
    {
      if Hears(a, publisher, topic, id) { SomebodyFirst(a, publisher, topic, id); }
    }
  }

  // ---------------------------------------------------------------- calling a service

  /** Another mod that is alive provides the service, or the caller is nobody in particular. */
  predicate CanAnswer(s: State, caller: nat, name: string) {
    && name in s.serviceNames && s.serviceNames[name] in s.services
    && var o := s.services[s.serviceNames[name]].owner; Alive(s.mods, o) && (caller == 0 || o.mod != caller)
  }

  lemma CallableIs(s: State, caller: nat, name: string)
    requires GoodName(name) && s.serviceDepth < MAX_DEPTH
    ensures Callable(s, caller, name) <==> CanAnswer(s, caller, name)
    ensures CanAnswer(s, caller, name) ==> ProviderOf(s, name) == Some(s.services[s.serviceNames[name]].owner)
  {}

  /** A service call enters the provider; it does nothing at all if and only if there is none, or no room. */
  lemma CallReaches(script: Script, self: Owner, name: string, a: State, b: State)
    requires GoodName(name) && a.serviceDepth < MAX_DEPTH && Effect(script, self, CallService(name), a, b)
    ensures CanAnswer(a, self.mod, name) ==> EnteredNext(a, b, a.services[a.serviceNames[name]].owner, Ordinary)
    ensures b == a <==> !CanAnswer(a, self.mod, name)
  {
    assert CallEffect(script, self.mod, name, a, b);
    CallableIs(a, self.mod, name);
    if Callable(a, self.mod, name) {
      var o := ProviderOf(a, name).value;
      var moments :| Played(script, InService(a), o, Ordinary, moments, InService(b));
      PlayedIsEntered(script, InService(a), o, moments, InService(b));
    }
  }

  /** There is no ninth level of dispatches or calls. */
  lemma TooDeep(script: Script, self: Owner, topic: string, name: string, a: State, b: State)
    requires (a.busDepth >= 8 && Effect(script, self, Publish(topic), a, b))
          || (a.serviceDepth >= 8 && Effect(script, self, CallService(name), a, b))
    ensures b == a
  {
    if a.busDepth >= 8 && Effect(script, self, Publish(topic), a, b) {
      assert PublishEffect(script, self.mod, topic, a, b);
    } else {
      assert CallEffect(script, self.mod, name, a, b);
    }
  }

  // ---------------------------------------------------------------- lanes

  /** A living mod other than the consumer has published the lane, with this fingerprint, which is not 0. */
  predicate CanLend(s: State, consumer: nat, name: string, want: nat) {
    && name in s.laneNames && s.laneNames[name] in s.lanes
    && var lane := s.lanes[s.laneNames[name]];
       lane.owner.mod != consumer && Alive(s.mods, lane.owner) && lane.desc.fingerprint == want && want != 0
  }

  /** Taking a lease enters `retain` if there is one; it does nothing at all if and only if nobody lends. */
  lemma AcquireReaches(script: Script, self: Owner, name: string, want: nat, a: State, b: State)
    requires Good(a) && a.budget > 0 && GoodName(name) && Effect(script, self, AcquireLane(name, want), a, b)
    ensures b == a <==> !CanLend(a, self.mod, name, want)
    ensures CanLend(a, self.mod, name, want) && a.lanes[a.laneNames[name]].desc.retain ==>
              EnteredNext(a, b, a.lanes[a.laneNames[name]].owner, Retain(a.laneNames[name]))
  {
    assert AcquireEffect(script, self, name, want, a, b);
    if CanLend(a, self.mod, name, want) {
      var id := a.laneNames[name];
      LaneHasAccount(a, id);
      assert Grantable(a, self, name, want);
      var l, moments :| GrantRuns(script, a, self, id, l, moments, b);
      GrantReaches(script, a, self, id, l, moments, b);
    }
  }

  lemma GrantReaches(script: Script, a: State, self: Owner, id: nat, l: nat, moments: seq<State>, b: State)
    requires GrantRuns(script, a, self, id, l, moments, b)
    ensures b != a
    ensures a.lanes[id].desc.retain ==> EnteredNext(a, b, a.lanes[id].owner, Retain(id))
    ensures !a.lanes[id].desc.retain ==> b.leases == a.leases[l := Lease(self, id)] && b.log == a.log
  {
    var granted, lane := Granted(a, self, id, l), a.lanes[id];
    ContinuedIfEvolves(script, granted, ToEnter(lane.owner, lane.desc.retain), script(a.calls).prog, moments, b);
    if lane.desc.retain {
      BegunIsEntered(a, granted, lane.owner, Retain(id), b);
    } else {
      assert ContinuedIf(script, granted, None, script(a.calls).prog, moments, b);
      assert l in b.leases && l !in a.leases;
    }
  }

  /** A lease goes back, and `release` is entered if there is one, if and only if the mod holds it. */
  lemma ReleaseReaches(script: Script, self: Owner, l: nat, a: State, b: State)
    requires a.budget > 0 && Effect(script, self, ReleaseLane(l), a, b)
    ensures b == a <==> !(l in a.leases && a.leases[l].holder.mod == self.mod)
    ensures l in a.leases && a.leases[l].holder.mod == self.mod ==>
              && a.leases[l].laneId in a.lanes
              && (a.lanes[a.leases[l].laneId].desc.release ==>
                    EnteredNext(a, b, a.lanes[a.leases[l].laneId].owner, Release(a.leases[l].laneId)))
  {
    assert ReleaseEffect(script, self, l, a, b);
    if l in a.leases && a.leases[l].holder.mod == self.mod {
      var moments :| ReturnRuns(script, a, l, moments, b);
      ReturnReaches(script, a, l, moments, b);
    }
  }

  lemma ReturnReaches(script: Script, a: State, l: nat, moments: seq<State>, b: State)
    requires ReturnRuns(script, a, l, moments, b)
    ensures b != a
    ensures a.lanes[a.leases[l].laneId].desc.release ==>
              EnteredNext(a, b, a.lanes[a.leases[l].laneId].owner, Release(a.leases[l].laneId))
    ensures !a.lanes[a.leases[l].laneId].desc.release ==> b.leases == a.leases - {l} && b.log == a.log
  {
    var id := a.leases[l].laneId;
    var given, lane := GivenBack(a, l), a.lanes[id];
    ContinuedIfEvolves(script, given, ToEnter(lane.owner, lane.desc.release), script(a.calls).prog, moments, b);
    if lane.desc.release {
      BegunIsEntered(a, given, lane.owner, Release(id), b);
    } else {
      assert ContinuedIf(script, given, None, script(a.calls).prog, moments, b);
      assert l in a.leases && l !in b.leases;
    }
  }

  /** A lane goes with its leases if and only if the mod published it; its `release` is entered if there is one. */
  lemma WithdrawReaches(script: Script, self: Owner, id: nat, a: State, b: State)
    requires Good(a) && a.budget > 0 && Effect(script, self, UnpublishLane(id), a, b)
    ensures b == a <==> !(id in a.lanes && a.lanes[id].owner.mod == self.mod)
    ensures id in a.lanes && a.lanes[id].owner.mod == self.mod ==>
              && id !in b.lanes
              && (a.lanes[id].desc.release ==> EnteredNext(a, b, a.lanes[id].owner, Release(id)))
  {
    assert UnpublishEffect(script, self, id, a, b);
    if id in a.lanes && a.lanes[id].owner.mod == self.mod {
      var left, steps, runs :| RetireRuns(script, a, id, left, steps, runs, b);
      RetireReaches(script, a, id, left, steps, runs, b);
    }
  }

  lemma RetireReaches(script: Script, a: State, id: nat, left: map<nat, Lease>, steps: seq<State>,
                      runs: seq<seq<State>>, b: State)
    requires Good(a) && RetireRuns(script, a, id, left, steps, runs, b)
    ensures id !in b.lanes
    ensures a.lanes[id].desc.release ==> EnteredNext(a, b, a.lanes[id].owner, Release(id))
  {
    var o := a.lanes[id].owner;
    LaneHasAccount(a, id);
    assert Payments(script, id, o, steps, runs);
    PaymentsEvolve(script, id, o, steps, runs, |runs|);
    if a.lanes[id].desc.release {
      assert Paid(script, steps[0], id, o, runs[0], steps[1]);
      assert Continued(script, DueMade(steps[0], id), o, script(steps[0].calls).prog, runs[0], steps[1]);
      RestGrows(script, id, o, steps, runs, 1);
      BegunIsEntered(a, DueMade(steps[0], id), o, Release(id), b);
    }
  }

  lemma {:induction false} RestGrows(script: Script, id: nat, o: Owner, steps: seq<State>, runs: seq<seq<State>>,
                                     k: nat)
    requires Payments(script, id, o, steps, runs) && k <= |runs|
    ensures steps[k].log <= steps[|runs|].log && steps[k].calls <= steps[|runs|].calls
    decreases |runs| - k
  {
    if k < |runs| {
      assert Paid(script, steps[k], id, o, runs[k], steps[k + 1]);
      RestGrows(script, id, o, steps, runs, k + 1);
    }
  }

  // ---------------------------------------------------------------- loading

  /**
   * Loading enters the new mod; it does nothing at all if and only if the place is taken or nothing opens. A load
   * that fails leaves no mod behind, one that succeeds and may displace is listed.
   */
  lemma LoadReaches(script: Script, a: State, mod: nat, name: nat, opens: bool, compatible: bool, displaces: bool,
                    ok: bool, b: State)
    requires LoadTried(script, a, mod, name, opens, compatible, displaces, ok, b)
    ensures b == a <==> mod == 0 || mod in a.mods || mod in a.dying || !opens
    ensures b != a ==> EnteredNext(a, b, Owner(mod, a.nextBorn), Lifecycle(name)) && (!ok ==> mod !in b.mods)
    ensures ok && displaces ==> IsAt(b, name, Disabled) && Bearer(b, name) == Owner(mod, a.nextBorn)
  {
    if mod != 0 && mod !in a.mods && mod !in a.dying && opens {
      var moments, before :| LoadRuns(script, a, mod, name, compatible, displaces, ok, moments, before, b);
      LoadEnters(script, a, mod, name, compatible, displaces, ok, moments, before, b);
      if ok && displaces { AcceptedIsListed(before, b, mod, displaces, !HarmlessEntry(script, a, mod, name)); }
    }
  }

  lemma LoadEnters(script: Script, a: State, mod: nat, name: nat, compatible: bool, displaces: bool, ok: bool,
                   moments: seq<State>, before: State, b: State)
    requires LoadRuns(script, a, mod, name, compatible, displaces, ok, moments, before, b)
    ensures EnteredNext(a, b, Owner(mod, a.nextBorn), Lifecycle(name)) && (!ok ==> mod !in b.mods)
  {
    var born, o := Born(a, mod, name), Owner(mod, a.nextBorn);
    assert Called(script, born, o, Lifecycle(name), moments, before);
    var slip := !HarmlessEntry(script, a, mod, name);
    EndsKeepLog(before, b, mod, ok, displaces, slip);
    BegunIsEntered(a, Begun(born, o, Lifecycle(name)), o, Lifecycle(name), before);
    EndsKeepCalls(before, b, mod, ok, displaces, slip);
  }

  lemma EndsKeepCalls(s: State, b: State, mod: nat, ok: bool, displaces: bool, slip: bool)
    requires LoadEnds(s, b, mod, ok, displaces, slip)
    ensures b.calls == s.calls && (!ok ==> mod !in b.mods)
  {
    var name := s.mods[mod].name;
    if ok && name in s.listed && displaces {
      DisplacedKeepsCalls(s, b, mod, s.listed[name]);
    } else if !ok || name in s.listed {
      GoesKeepsCalls(s, b, mod, slip);
    }
  }

  lemma DisplacedKeepsCalls(s: State, t: State, mod: nat, bearer: nat)
    requires Displaced(s, t, mod, bearer)
    ensures t.calls == s.calls
  {
    assert Gone(s, bearer, !NothingOf(s, bearer), true).calls == s.calls;
  }

  lemma GoesKeepsCalls(s: State, t: State, mod: nat, slip: bool)
    requires Goes(s, t, mod, slip)
    ensures t.calls == s.calls && mod !in t.mods
  {}

  // ---------------------------------------------------------------- enabling and disabling

  /** Once a mod has been enabled all its subscriptions are heard, and once it has been disabled none. */
  lemma SwitchedHears(script: Script, a: State, name: nat, to: Phase, moments: seq<State>, before: State, b: State,
                      id: nat)
    requires !to.Loading? && SwitchRuns(script, a, name, to, true, moments, before, b)
    requires Alive(before.mods, Bearer(a, name)) && id in b.subs && b.subs[id].owner == Bearer(a, name)
    ensures Fires(b, id) <==> to == Enabled
  {}

  /** A mod told to switch does so if and only if it agrees, when its callback only touches tables. */
  lemma SwitchObeyed(script: Script, a: State, name: nat, from: Phase, to: Phase, ok: bool, b: State)
    requires SwitchTried(script, a, name, from, to, ok, b) && from != to
    requires a.budget > 0 && IsAt(a, name, from) && AllPlain(script(a.calls).prog)
    ensures IsAt(b, name, to) <==> script(a.calls).answer
    ensures !script(a.calls).answer ==> IsAt(b, name, from)
    ensures EnteredNext(a, b, Bearer(a, name), Ordinary)
  {
    var moments, before :| SwitchRuns(script, a, name, to, ok, moments, before, b);
    var o := Bearer(a, name);
    CalledPlain(script, a, o, Ordinary, moments, before);
    CalledIsEntered(script, a, o, Ordinary, moments, before);
  }

  lemma SwitchKeepsLog(script: Script, a: State, name: nat, from: Phase, to: Phase, ok: bool, b: State)
    requires SwitchTried(script, a, name, from, to, ok, b)
    ensures a.log <= b.log && a.calls <= b.calls
    ensures IsAt(a, name, from) ==> EnteredNext(a, b, Bearer(a, name), Ordinary)
  {
    if IsAt(a, name, from) {
      var moments, before :| SwitchRuns(script, a, name, to, ok, moments, before, b);
      SwitchEnters(script, a, name, to, ok, moments, before, b);
    }
  }

  lemma SwitchEnters(script: Script, a: State, name: nat, to: Phase, ok: bool, moments: seq<State>, before: State,
                     b: State)
    requires SwitchRuns(script, a, name, to, ok, moments, before, b)
    ensures EnteredNext(a, b, Bearer(a, name), Ordinary)
  {
    CalledIsEntered(script, a, Bearer(a, name), Ordinary, moments, before);
    SettledKeepsLog(before, b, Bearer(a, name), ok, to);
  }

  lemma SettledKeepsLog(s: State, t: State, o: Owner, ok: bool, phase: Phase)
    requires Settled(s, t, o, ok, phase)
    ensures t.log == s.log && t.calls == s.calls
  {}

  /** A mod that does not get enabled is taken down again. */
  lemma StartUndone(script: Script, a: State, name: nat, ok: bool, b: State)
    requires StartTried(script, a, name, true, ok, b) && a.budget > 0 && IsAt(a, name, Disabled)
    requires AllPlain(script(a.calls).prog) && !script(a.calls).answer
    requires GoesQuietly(script, PlainCall(script, a, Bearer(a, name), Ordinary), name)
    ensures !ok && name !in b.listed
  {
    var mid :|
      && SameDepths(a, mid) && SwitchTried(script, a, name, Disabled, Enabled, ok, mid)
      && if ok then b == mid else exists gone :: UnloadTried(script, mid, name, true, gone, b);
    assert SwitchTried(script, a, name, Disabled, Enabled, ok, mid);
    var moments, before :| SwitchRuns(script, a, name, Enabled, ok, moments, before, mid);
    CalledPlain(script, a, Bearer(a, name), Ordinary, moments, before);
    var gone :| UnloadTried(script, mid, name, true, gone, b);
    UnloadTriedInside(script, mid, name, gone, b);
  }

  // ---------------------------------------------------------------- unloading

  /** Unloading enters `on_unload` unless nobody bears the name, or one of the mod's lanes is in use. */
  lemma UnloadReaches(script: Script, a: State, name: nat, freed: bool, ok: bool, b: State)
    requires UnloadTried(script, a, name, freed, ok, b)
    ensures a.log <= b.log && a.calls <= b.calls && (b != a ==> IsListed(a, name))
    ensures IsListed(a, name) && (ok || NoLanes(a.lanes, a.listed[name])) ==>
              EnteredNext(a, b, Bearer(a, name), Lifecycle(name))
    ensures ok ==> freed && name !in b.listed
  {
    if IsListed(a, name) && !(b == a && !ok && !NoLanes(a.lanes, a.listed[name])) {
      var r, moments, asked, purged :|
        UnloadRuns(script, a, name, freed, r, moments, asked, purged, b) && (ok <==> r == Unloaded);
      UnloadEnters(script, a, name, freed, r, moments, asked, purged, b);
    }
  }

  lemma UnloadEnters(script: Script, a: State, name: nat, freed: bool, r: Unloading, moments: seq<State>,
                     asked: State, purged: State, b: State)
    requires UnloadRuns(script, a, name, freed, r, moments, asked, purged, b)
    ensures EnteredNext(a, b, Bearer(a, name), Lifecycle(name))
    ensures r == Unloaded ==> freed && name !in b.listed
  {
    var o := Bearer(a, name);
    CalledIsEntered(script, a, o, Lifecycle(name), moments, asked);
    if script(a.calls).answer { PurgesKeepsLog(script, asked, purged, a.listed[name]); }
    if script(a.calls).answer && freed {
      ErasedKeepsLog(purged, b, name, Disturbed(a, purged, name));
    }
  }

  lemma PurgesKeepsLog(script: Script, a: State, b: State, mod: nat)
    requires Purges(script, a, b, mod)
    ensures a.log <= b.log && a.calls <= b.calls
  {}

  lemma ErasedKeepsLog(s: State, t: State, name: nat, slip: bool)
    requires Erased(s, t, name, slip)
    ensures s.log <= t.log && t.calls == s.calls
  {
    if name in s.listed {
      GoesKeepsLog(s, t, s.listed[name], slip);
      GoesKeepsCalls(s, t, s.listed[name], slip);
    }
  }

  /** An enabled mod is asked to be disabled before anything else, and when it refuses it stays. */
  lemma TakeDownAsksFirst(script: Script, a: State, name: nat, freed: bool, ok: bool, b: State)
    requires TakeDownTried(script, a, name, freed, ok, b) && IsAt(a, name, Enabled)
    ensures EnteredNext(a, b, Bearer(a, name), Ordinary)
    ensures a.budget > 0 && AllPlain(script(a.calls).prog) && !script(a.calls).answer ==> !ok && IsAt(b, name, Enabled)
  {
    var agreed, mid :|
      && SameDepths(a, mid) && SwitchTried(script, a, name, Enabled, Phase.Disabled, agreed, mid)
      && if agreed then UnloadTried(script, mid, name, freed, ok, b) else !ok && b == mid;
    SwitchKeepsLog(script, a, name, Enabled, Phase.Disabled, agreed, mid);
    if agreed { UnloadReaches(script, mid, name, freed, ok, b); }
    if a.budget > 0 && AllPlain(script(a.calls).prog) && !script(a.calls).answer {
      SwitchObeyed(script, a, name, Enabled, Phase.Disabled, agreed, mid);
      RefusedToSwitch(script, a, name, agreed, mid);
    }
  }

  lemma RefusedToSwitch(script: Script, a: State, name: nat, agreed: bool, mid: State)
    requires SwitchTried(script, a, name, Enabled, Phase.Disabled, agreed, mid) && IsAt(a, name, Enabled)
    ensures agreed == script(a.calls).answer
  {}

  /** The orders a mod can give to that end. */
  lemma OrdersObeyed(script: Script, self: Owner, name: nat, a: State, b: State)
    requires a.budget > 0 && AllPlain(script(a.calls).prog) && IsListed(a, name)
    ensures Effect(script, self, Do(Enable(name)), a, b) && IsAt(a, name, Disabled) ==>
              (IsAt(b, name, Enabled) <==> script(a.calls).answer)
    ensures Effect(script, self, Do(Disable(name)), a, b) && IsAt(a, name, Enabled) ==>
              (IsAt(b, name, Disabled) <==> script(a.calls).answer)
  {
    if Effect(script, self, Do(Enable(name)), a, b) && IsAt(a, name, Disabled) {
      assert CommandEffect(script, Enable(name), a, b);
      var ok :| SwitchTried(script, a, name, Disabled, Enabled, ok, b);
      SwitchObeyed(script, a, name, Disabled, Enabled, ok, b);
    }
    if Effect(script, self, Do(Disable(name)), a, b) && IsAt(a, name, Enabled) {
      assert CommandEffect(script, Disable(name), a, b);
      var ok :| SwitchTried(script, a, name, Enabled, Phase.Disabled, ok, b);
      SwitchObeyed(script, a, name, Enabled, Phase.Disabled, ok, b);
    }
  }

  /** The load command does nothing if and only if the name is in use, the place is taken or nothing opens. */
  lemma LoadCommandReaches(script: Script, self: Owner, c: Command, a: State, b: State)
    requires c.ControlLoad? && a.budget > 0 && Effect(script, self, Do(c), a, b)
    ensures b == a <==> c.name in a.listed || c.mod == 0 || c.mod in a.mods || c.mod in a.dying || !c.opens
    ensures b != a ==> EnteredNext(a, b, Owner(c.mod, a.nextBorn), Lifecycle(c.name))
  {
    assert CommandEffect(script, c, a, b);
    if c.name !in a.listed {
      var ok :| BringUpTried(script, a, c.mod, c.name, c.opens, c.compatible, c.displaces, c.freed, ok, b);
      BringUpReaches(script, a, c.mod, c.name, c.opens, c.compatible, c.displaces, c.freed, ok, b);
    }
  }

  lemma BringUpReaches(script: Script, a: State, mod: nat, name: nat, opens: bool, compatible: bool, displaces: bool,
                       freed: bool, ok: bool, b: State)
    requires BringUpTried(script, a, mod, name, opens, compatible, displaces, freed, ok, b)
    ensures b == a <==> mod == 0 || mod in a.mods || mod in a.dying || !opens
    ensures b != a ==> EnteredNext(a, b, Owner(mod, a.nextBorn), Lifecycle(name))
  {
    var up, mid :|
      && SameDepths(a, mid) && LoadTried(script, a, mod, name, opens, compatible, displaces, up, mid)
      && if up then StartTried(script, mid, name, freed, ok, b) else !ok && b == mid;
    LoadReaches(script, a, mod, name, opens, compatible, displaces, up, mid);
    if up {
      assert !Refuses(a, mod, opens);
      StartKeepsLog(script, mid, name, freed, ok, b);
    }
  }

  lemma StartKeepsLog(script: Script, a: State, name: nat, freed: bool, ok: bool, b: State)
    requires StartTried(script, a, name, freed, ok, b)
    ensures a.log <= b.log && a.calls <= b.calls
  {
    var mid :|
      && SameDepths(a, mid) && SwitchTried(script, a, name, Disabled, Enabled, ok, mid)
      && if ok then b == mid else exists gone :: UnloadTried(script, mid, name, freed, gone, b);
    SwitchKeepsLog(script, a, name, Disabled, Enabled, ok, mid);
    if !ok {
      var gone :| UnloadTried(script, mid, name, freed, gone, b);
      UnloadReaches(script, mid, name, freed, gone, b);
    }
  }
}
