/** Runs in which the code does not keep what one would expect: each is a script of callbacks, played. */
module LoaderRuns {
  import opened Machine
  import opened Ownership
  import opened Bus
  import opened LaneBooks
  import opened LoaderState
  import opened LoaderSteps
  import opened LoaderLifecycle
  import opened LoaderPurge
  import opened LoaderPrograms
  import opened LoaderEffects
  import opened LoaderOutcomes
  import opened Loaders

  // ---------------------------------------------------------------- a load that fails

  lemma SubscriptionLeaves(s: State, o: Owner)
    ensures Leaves(s, o, [Subscribe("t")], 0, SubKey(s.nextSub))
  {
    var prog := [Subscribe("t")];
    assert prog[..0] == [] && Exec(s, o, []) == s;
    assert Registered(s, prog[0]) == Some(SubKey(s.nextSub));
  }

  lemma SubscriptionIsLeft(script: Script, a: State, moments: seq<State>, before: State, b: State)
    requires Good(a) && !a.leaked && a.budget > 0 && 1 !in a.mods && 1 !in a.dying
    requires script(a.calls) == Behaviour([Subscribe("t")], false)
    requires LoadRuns(script, a, 1, 7, true, true, false, moments, before, b)
    ensures b.leaked && !Clean(b)
  {
    var o, born := Owner(1, a.nextBorn), Born(a, 1, 7);
    var begun := Begun(Deeper(born), o, Lifecycle(7));
    SubscriptionLeaves(begun, o);
    assert LeavesKey(begun, o, [Subscribe("t")], SubKey(a.nextSub));
    assert !HarmlessEntry(script, a, 1, 7);
    FailedLoadLeaksIff(script, a, 1, 7, true, true, moments, before, b);
  }

  /** An entry point that subscribes and then reports failure: the subscription of a mod that is gone stays. */
  method FailedLoadLeaks() returns (loader: Loader)
    ensures loader.Valid() && loader.leaked && !Clean(loader.Now())
  {
    var script: Script := n => Behaviour([Subscribe("t")], false);
    loader := new Loader(script, 1);
    ghost var was := loader.Now();
    var ok, moments, before := loader.Load(1, 7, true, true, true);
    SubscriptionIsLeft(script, was, moments, before, loader.Now());
  }

  // ---------------------------------------------------------------- a mod that unloads itself

  /** Mod 1 alone is there, under the name 7, and has no lanes. */
  ghost predicate OnlyMod(s: State) {
    && IsAt(s, 7, Disabled) && s.listed == map[7 := 1] && s.mods.Keys == {1} && s.mods[1].name == 7
    && s.dying == {} && s.lanes == map[] && s.leases == map[]
  }

  /** Mod 1 is loaded under the name 7, and has registered nothing. */
  ghost predicate JustLoaded(s: State) {
    OnlyMod(s) && s.calls == 1 && s.budget == 3 && !s.leaked
  }

  lemma LoadedWithNothing(script: Script, moments: seq<State>, before: State, b: State)
    requires script(0) == Behaviour([], true)
    requires LoadRuns(script, Blank(3), 1, 7, true, true, true, moments, before, b)
    ensures JustLoaded(b)
  {
    CalledPlain(script, Born(Blank(3), 1, 7), Owner(1, 0), Lifecycle(7), moments, before);
  }

  method Started(script: Script) returns (loader: Loader)
    requires script(0) == Behaviour([], true)
    ensures loader.Valid() && JustLoaded(loader.Now()) && loader.script == script && fresh(loader)
    ensures fresh(loader.bus) && fresh(loader.services) && fresh(loader.lanes)
    ensures fresh(loader.tasks) && fresh(loader.forms)
  {
    loader := new Loader(script, 3);
    assert !Refuses(Blank(3), 1, true);
    var _, moments, before := loader.Load(1, 7, true, true, true);
    LoadedWithNothing(script, moments, before, loader.Now());
  }

  lemma GoneAfterEnabling(script: Script, a: State, moments: seq<State>, before: State, b: State)
    requires Good(a) && JustLoaded(a)
    requires script(a.calls).prog == [Do(Unload(7, true))] && script(a.calls + 1) == Behaviour([], true)
    requires Called(script, a, Bearer(a, 7), Ordinary, moments, before)
    requires Settled(before, b, Bearer(a, 7), true, Enabled)
    ensures !IsAt(b, 7, Enabled)
  {
    assert script(a.calls).prog == [] + [Do(Unload(7, true))];
    EnabledIffNotUnloaded(script, a, 7, [], moments, before, b);
  }

  /** An `on_enable` that unloads its own mod: enabling reports success, and there is no such mod. */
  method EnabledThoughGone() returns (loader: Loader, ok: bool)
    ensures loader.Valid() && ok && !IsAt(loader.Now(), 7, Enabled)
  {
    var script: Script := n => Behaviour(if n == 1 then [Do(Unload(7, true))] else [], true);
    assert script(0) == Behaviour([], true) && script(2) == Behaviour([], true);
    assert script(1) == Behaviour([Do(Unload(7, true))], true);
    loader := Started(script);
    ghost var loaded := loader.Now();
    ghost var moments, before;
    ok, moments, before := loader.Enable(7);
    GoneAfterEnabling(script, loaded, moments, before, loader.Now());
  }

  // ---------------------------------------------------------------- a mod that reloads itself

  const AGAIN := Reload(7, true, 2, true, true, true)

  /** What mod 2 does when it is loaded, and when it is enabled. */
  lemma SuccessorSubscribes(script: Script, s: State)
    requires GoesQuietly(script, s, 7)
    requires script(s.calls + 1).prog == [Subscribe("t")] && script(s.calls + 2).prog == []
    ensures exists k :: SuccessorLeaves(script, s, 7, 2, k)
  {
    var gone := QuietlyGone(script, s, 7);
    var begun, o := EntryBegins(gone, 2, 7), Owner(2, gone.nextBorn);
    SubscriptionLeaves(begun, o);
    assert LeavesKey(begun, o, script(gone.calls).prog, SubKey(begun.nextSub));
    assert SuccessorLeaves(script, s, 7, 2, SubKey(begun.nextSub));
  }

  /** The callbacks of the two mods, in order. */
  ghost predicate ReloadsOnce(script: Script) {
    && script(0) == Behaviour([], true) && script(1) == Behaviour([Do(AGAIN)], true)
    && script(2) == Behaviour([], true) && script(3) == Behaviour([Subscribe("t")], true)
    && script(4) == Behaviour([], true)
  }

  lemma ReloadIsQuiet(script: Script)
    requires ReloadsOnce(script)
    ensures script(1).prog == [] + [Do(AGAIN)] && script(1).answer && QuietReload(script, 2)
  {}

  lemma SuccessorIsLost(script: Script, a: State, r: Unloading, moments: seq<State>, asked: State, purged: State,
                        b: State)
    requires ReloadsOnce(script) && Good(a) && !a.leaked && a.calls == 1 && a.budget == 3 && CanReload(a, 7, 2)
    requires UnloadRuns(script, a, 7, true, r, moments, asked, purged, b)
    ensures b.leaked && !Clean(b)
  {
    ReloadIsQuiet(script);
    ReloadedUnloadLeaksIff(script, a, AGAIN, [], r, moments, asked, purged, b);
    SuccessorSubscribes(script, Inside(a, 7, []));
  }

  /**
   * An `on_unload` that reloads its own mod: the unloading that was under way then drops the new one, whose
   * entries stay, although no load has failed and no mod has registered anything while it was purged.
   */
  method SuccessorErased() returns (loader: Loader, r: Unloading)
    ensures loader.Valid() && r == Unloaded && loader.leaked && !Clean(loader.Now())
  {
    var script: Script := n => Behaviour(if n == 1 then [Do(AGAIN)] else if n == 3 then [Subscribe("t")] else [], true);
    assert ReloadsOnce(script);
    loader := Started(script);
    ghost var moments, asked, purged;
    r, moments, asked, purged := UnloadFirst(loader);
  }

  lemma AgreedSoUnloaded(script: Script, a: State, r: Unloading, moments: seq<State>, asked: State, purged: State,
                         b: State)
    requires script(a.calls).answer && UnloadRuns(script, a, 7, true, r, moments, asked, purged, b)
    ensures r == Unloaded
  {}

  lemma ReadyToReload(s: State)
    requires JustLoaded(s)
    ensures s.calls == 1 && s.budget == 3 && !s.leaked && CanReload(s, 7, 2)
  {}

  method UnloadFirst(loader: Loader)
    returns (r: Unloading, ghost moments: seq<State>, ghost asked: State, ghost purged: State)
    requires loader.Valid() && JustLoaded(loader.Now()) && ReloadsOnce(loader.script)
    modifies loader, loader.bus, loader.services, loader.lanes, loader.tasks, loader.forms
    ensures loader.Valid() && r == Unloaded && loader.leaked && !Clean(loader.Now())
  {
    ghost var loaded := loader.Now();
    ReadyToReload(loaded);
    r, moments, asked, purged := loader.Unload(7, true);
    AgreedSoUnloaded(loader.script, loaded, r, moments, asked, purged, loader.Now());
    SuccessorIsLost(loader.script, loaded, r, moments, asked, purged, loader.Now());
  }

  // ---------------------------------------------------------------- a mod that goes in the middle of being retired

  /** A mod has been loaded whose entry point does nothing. */
  function Idle(a: State, mod: nat, name: nat): State {
    Admitted(Begun(Born(a, mod, name), Owner(mod, a.nextBorn), Lifecycle(name)), mod)
  }

  lemma LoadedIdle(script: Script, a: State, mod: nat, name: nat, moments: seq<State>, before: State, b: State)
    requires a.budget > 0 && script(a.calls) == Behaviour([], true) && name !in a.listed
    requires LoadRuns(script, a, mod, name, true, true, true, moments, before, b)
    ensures b == Idle(a, mod, name)
  {
    IdleEntry(script, Born(a, mod, name), Owner(mod, a.nextBorn), Lifecycle(name), moments, before);
  }

  lemma IdleEntry(script: Script, a: State, o: Owner, kind: Kind, moments: seq<State>, b: State)
    requires Called(script, a, o, kind, moments, b) && script(a.calls).prog == [] && Alive(a.mods, o)
    ensures b == Begun(a, o, kind)
  {
    CalledPlain(script, a, o, kind, moments, b);
  }

  const PROVIDER := Owner(1, 0)
  const CONSUMER := Owner(2, 1)
  const TOLD := Desc(1, false, true)

  /** Mod 1 under the name 7 and mod 2 under the name 8 are there. */
  function Both(): State {
    Idle(Idle(Blank(3), 1, 7), 2, 8)
  }


  /** Mod 1 has published a lane with a `release`. */
  function Published(): State {
    LaneAdded(Both(), PROVIDER, "l", TOLD, true)
  }

  /** Mod 2 has taken a lease on it. */
  function Leased(l: nat): State {
    LeaseAdded(Published(), CONSUMER, 1, l)
  }

  /** Mod 1 is listed under the name 7, its lane is gone, and two calls of its `release` are due. */
  ghost predicate TwoDue(s: State) {
    && s.listed == map[7 := 1, 8 := 2] && s.mods == Both().mods && s.lanes == map[] && NoLeases(s.leases, 1)
    && s.dues == map[1 := Due(PROVIDER, 2)] && s.calls == 2 && s.budget == 3 && !s.leaked
  }

  lemma LeasedWithdrawn(l: nat, left: map<nat, Lease>)
    requires WithoutLane(Leased(l).leases, 1, left)
    ensures 1 in Leased(l).lanes && TwoDue(TakenDown(Leased(l), 1, left))
  {
    assert Leased(l).lanes[1].leases == 1 && Leased(l).leases == map[l := Lease(CONSUMER, 1)];
  }

  /** `release` unloads mod 1 when it is entered first. */
  ghost predicate UnloadsItself(script: Script) {
    && script(0) == Behaviour([], true) && script(1) == Behaviour([], true)
    && script(2) == Behaviour([Do(Unload(7, true))], true) && script(3) == Behaviour([], true)
    && script(4) == Behaviour([], true)
  }

  /** The state in which the unloading begins: one more release is due. */
  lemma OneStillDue(script: Script, s: State)
    requires UnloadsItself(script) && TwoDue(s)
    ensures var m := Deeper(DueMade(s, 1));
            && !m.leaked && m.listed == s.listed && m.mods == s.mods && m.calls == 3 && m.budget == 2
            && m.lanes == map[] && NoLeases(m.leases, 1) && m.dues == map[1 := Due(PROVIDER, 1)]
  {}

  /** Mod 1 agrees to go at once. */
  lemma AgreesToGo(script: Script, m: State)
    requires UnloadsItself(script) && m.listed == map[7 := 1, 8 := 2] && m.mods == Both().mods && m.calls == 3
    requires m.budget == 2 && m.lanes == map[] && NoLeases(m.leases, 1) && m.dues == map[1 := Due(PROVIDER, 1)]
    ensures GoesQuietly(script, m, 7) && m.listed[7] == 1 && Bearer(m, 7) == PROVIDER && !NoDues(m.dues, 1)
  {
    assert script(m.calls).prog == [];
  }

  lemma FirstEffect(script: Script, self: Owner, op: Op, moments: seq<State>)
    requires Trace(script, self, [op], moments) && Alive(moments[0].mods, self)
    ensures Effect(script, self, op, moments[0], moments[1])
  {}

  lemma UnloadEntered(script: Script, self: Owner, moments: seq<State>)
    requires Trace(script, self, [Do(Unload(7, true))], moments) && Alive(moments[0].mods, self)
    requires GoesQuietly(script, moments[0], 7)
    ensures moments[1] == QuietlyGone(script, moments[0], 7)
    ensures !moments[0].leaked && !NoDues(moments[0].dues, moments[0].listed[7]) ==> moments[1].leaked
  {
    FirstEffect(script, self, Do(Unload(7, true)), moments);
    UnloadInside(script, self, moments[0], moments[1]);
    UnloadedToIs(script, moments[0], 7, moments[1]);
    if !moments[0].leaked { QuietUnloadLeaksIff(script, moments[0], 7, moments[1]); }
  }

  lemma UnloadInside(script: Script, self: Owner, m: State, t: State)
    requires GoesQuietly(script, m, 7) && Effect(script, self, Do(Unload(7, true)), m, t)
    ensures UnloadedTo(script, m, 7, t)
  {
    assert CommandEffect(script, Unload(7, true), m, t);
    var ok :| UnloadTried(script, m, 7, true, ok, t);
    QuietlyTried(script, m, 7, ok, t);
  }

  /** Mod 1 goes inside its first `release`. */
  lemma GoesInside(script: Script, s: State, run: seq<State>, t: State)
    requires UnloadsItself(script) && TwoDue(s) && Paid(script, s, 1, PROVIDER, run, t)
    ensures t.leaked && 1 in t.dues && t.dues[1] == Due(PROVIDER, 1) && 1 !in t.mods
    ensures |t.log| > 0 && t.log[|t.log| - 1].kind.Freed? && t.log[|t.log| - 1].owner == PROVIDER
  {
    OneStillDue(script, s);
    AgreesToGo(script, run[0]);
    UnloadEntered(script, PROVIDER, run);
  }

  /** A mod that is gone has been entered. */
  ghost predicate EntersTheGone(log: seq<Entry>) {
    exists i, j :: 0 <= i < j < |log| && log[i].kind.Freed? && !log[j].kind.Freed? && log[j].owner == log[i].owner
  }

  /** The other release is made all the same. */
  lemma EnteredOnceMore(script: Script, t: State, run: seq<State>, b: State)
    requires Paid(script, t, 1, PROVIDER, run, b) && t.leaked
    requires |t.log| > 0 && t.log[|t.log| - 1].kind.Freed? && t.log[|t.log| - 1].owner == PROVIDER
    ensures b.leaked && EntersTheGone(b.log)
  {
    var made, n := DueMade(t, 1), |t.log|;
    assert made.log == t.log + [made.log[n]] && made.log <= b.log;
    assert b.log[n - 1] == t.log[n - 1] && b.log[n] == made.log[n];
  }

  lemma RetiredTheGone(script: Script, l: nat, left: map<nat, Lease>, steps: seq<State>, runs: seq<seq<State>>,
                       b: State)
    requires UnloadsItself(script) && RetireRuns(script, Leased(l), 1, left, steps, runs, b)
    ensures b.leaked && EntersTheGone(b.log)
  {
    LeasedWithdrawn(l, left);
    assert Leased(l).lanes[1].leases == 1 && |runs| == 2;
    assert Paid(script, steps[0], 1, PROVIDER, runs[0], steps[1]);
    assert Paid(script, steps[1], 1, PROVIDER, runs[1], steps[2]);
    GoesInside(script, steps[0], runs[0], steps[1]);
    EnteredOnceMore(script, steps[1], runs[1], steps[2]);
  }

  method LoadIdle(loader: Loader, mod: nat, name: nat)
    requires loader.Valid() && loader.budget > 0 && loader.script(loader.calls) == Behaviour([], true)
    requires !Refuses(loader.Now(), mod, true) && name !in loader.listed
    modifies loader, loader.bus, loader.services, loader.lanes, loader.tasks, loader.forms
    ensures loader.Valid() && loader.Now() == Idle(old(loader.Now()), mod, name)
  {
    ghost var was := loader.Now();
    var _, moments, before := loader.Load(mod, name, true, true, true);
    LoadedIdle(loader.script, was, mod, name, moments, before, loader.Now());
  }

  method LoadBoth(script: Script) returns (loader: Loader)
    requires UnloadsItself(script)
    ensures loader.Valid() && loader.Now() == Both() && loader.script == script && fresh(loader)
    ensures fresh(loader.bus) && fresh(loader.services) && fresh(loader.lanes)
    ensures fresh(loader.tasks) && fresh(loader.forms)
  {
    loader := new Loader(script, 3);
    LoadIdle(loader, 1, 7);
    LoadIdle(loader, 2, 8);
  }

  method PublishFirst(loader: Loader)
    requires loader.Valid() && loader.Now() == Both()
    modifies loader, loader.lanes
    ensures loader.Valid() && loader.Now() == Published()
  {
    loader.PublishLane(PROVIDER, "l", TOLD, true);
  }

  lemma CanBeLeased()
    ensures Grantable(Published(), CONSUMER, "l", 1) && Published().laneNames["l"] == 1
    ensures Alive(Published().mods, CONSUMER) && Published().budget > 0
  {}

  lemma GrantedIsLeased(script: Script, l: nat, moments: seq<State>, b: State)
    requires GrantRuns(script, Published(), CONSUMER, 1, l, moments, b)
    ensures b == Leased(l)
  {}

  method LeaseThen(loader: Loader) returns (ghost l: nat)
    requires loader.Valid() && loader.Now() == Published()
    modifies loader, loader.bus, loader.services, loader.lanes, loader.tasks, loader.forms
    ensures loader.Valid() && loader.Now() == Leased(l)
  {
    CanBeLeased();
    l := loader.lanes.nextLeaseId;
    ghost var moments := loader.AcquireLane(CONSUMER, "l", 1);
    GrantedIsLeased(loader.script, l, moments, loader.Now());
  }

  /**
   * A `release` that unloads its own mod while one more call of it is due: that call is made, into a mod that is
   * gone.
   */
  method ReleasedAfterGone() returns (loader: Loader)
    ensures loader.Valid() && loader.leaked && EntersTheGone(loader.log)
  {
    var script: Script := n => Behaviour(if n == 2 then [Do(Unload(7, true))] else [], true);
    assert UnloadsItself(script);
    loader := LoadBoth(script);
    PublishFirst(loader);
    ghost var l := LeaseThen(loader);
    ghost var left, steps, runs;
    left, steps, runs := loader.UnpublishLane(PROVIDER, 1);
    RetiredTheGone(script, l, left, steps, runs, loader.Now());
  }
}
