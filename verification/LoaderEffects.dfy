/**
 * What the operations of a mod come to: each one's effect on the whole state, with the callbacks it sets off, which
 * are programs of such operations themselves.
 */
module LoaderEffects {
  import opened Machine
  import opened Ownership
  import opened Bus
  import opened Services
  import opened LaneBooks
  import opened LoaderState
  import opened LoaderSteps
  import opened LoaderLifecycle
  import opened LoaderPurge
  import opened LoaderPrograms

  // ---------------------------------------------------------------- who is asked

  /** Does this subscription's callback run when its turn comes? */
  predicate Fires(s: State, id: nat) {
    id in s.subs && Runs(s.mods, s.subs[id].owner.mod)
  }

  /** Who provides the service of this name. */
  function ProviderOf(s: State, name: string): Option<Owner> {
    if name in s.serviceNames && s.serviceNames[name] in s.services then
      Some(s.services[s.serviceNames[name]].owner)
    else
      None
  }

  /** The call is refused: a bad name, too deep a nest, or a mod that calls itself. */
  predicate Unasked(s: State, caller: nat, name: string) {
    || !GoodName(name) || s.serviceDepth >= MAX_DEPTH
    || (caller != 0 && ProviderOf(s, name).Some? && ProviderOf(s, name).value.mod == caller)
  }

  /** The provider is entered. */
  predicate Callable(s: State, caller: nat, name: string) {
    !Unasked(s, caller, name) && ProviderOf(s, name).Some? && Alive(s.mods, ProviderOf(s, name).value)
  }

  /** May the mod take a lease under this name and fingerprint? */
  predicate Grantable(s: State, self: Owner, name: string, want: nat) {
    && GoodName(name) && name in s.laneNames && s.laneNames[name] in s.lanes && s.laneNames[name] in s.accounts
    && var lane := s.lanes[s.laneNames[name]];
       && lane.owner.mod != self.mod && Alive(s.mods, lane.owner)
       && want != 0 && want == lane.desc.fingerprint
  }

  /** How many releases retiring a lane makes. */
  function ReleasesDue(lane: Lane): nat {
    if lane.desc.release then 1 + lane.leases else 0
  }

  /** Whom to enter, if the callback was given. */
  function ToEnter(o: Owner, given: bool): Option<Owner> {
    if given then Some(o) else None
  }

  datatype Unloading = Unloaded | NotLoaded | Busy | RefusedByMod | StillMapped

  /** The entry point only touches tables, and withdraws all that it gets registered. */
  ghost predicate HarmlessEntry(script: Script, a: State, mod: nat, name: nat) {
    && a.budget > 0 && AllPlain(script(a.calls).prog)
    && var o := Owner(mod, a.nextBorn);
       forall k :: !LeavesKey(Begun(Deeper(Born(a, mod, name)), o, Lifecycle(name)), o, script(a.calls).prog, k)
  }

  /** The one entry under this name since `a` is the one recorded when the callback began. */
  ghost predicate OnlyOnce(a: State, b: State, name: nat) {
    Kinds(b.log)[Lifecycle(name)] == Kinds(a.log)[Lifecycle(name)] + 1
  }

  /** Releases into the mod were due when its unloading began, or its name was used by somebody else meanwhile. */
  ghost predicate Disturbed(a: State, purged: State, name: nat)
    requires IsListed(a, name)
  {
    !NoDues(a.dues, a.listed[name]) || !OnlyOnce(a, purged, name)
  }

  // ---------------------------------------------------------------- callbacks within callbacks

  // What a callback does is told by the effects of its operations, and those that enter other mods by what the
  // callbacks they set off do. The nesting ends, since each goes one level down in one of three bounded depths.

  function RoomUnder(depth: nat): nat {
    if depth <= MAX_DEPTH then MAX_DEPTH - depth else 0
  }

  /** How much room is left on the call stack for nested dispatches and calls. */
  function RoomIn(s: State): nat {
    RoomUnder(s.busDepth) + RoomUnder(s.serviceDepth)
  }

  function FirstBudget(moments: seq<State>): nat {
    if moments == [] then 0 else moments[0].budget
  }

  function FirstRoom(moments: seq<State>): nat {
    if moments == [] then 0 else RoomIn(moments[0])
  }

  /** A program runs operation by operation, for as long as the mod is there. */
  ghost predicate Trace(script: Script, self: Owner, prog: seq<Op>, moments: seq<State>)
    decreases FirstBudget(moments), FirstRoom(moments), 8
  {
    && |moments| == |prog| + 1
    && (forall k :: 0 <= k < |moments| ==> SameDepths(moments[0], moments[k]))
    && forall k :: 0 <= k < |prog| ==>
         if Alive(moments[k].mods, self) then Effect(script, self, prog[k], moments[k], moments[k + 1])
         else moments[k + 1] == moments[k]
  }

  /** What one operation of `self` does. */
  ghost predicate Effect(script: Script, self: Owner, op: Op, a: State, b: State)
    decreases a.budget, RoomIn(a), 7
  {
    match op
    case Publish(topic) => PublishEffect(script, self.mod, topic, a, b)
    case CallService(name) => CallEffect(script, self.mod, name, a, b)
    case AcquireLane(name, want) => AcquireEffect(script, self, name, want, a, b)
    case ReleaseLane(l) => ReleaseEffect(script, self, l, a, b)
    case UnpublishLane(id) => UnpublishEffect(script, self, id, a, b)
    case Do(c) => CommandEffect(script, c, a, b)
    case _ => b == After(a, self, op)
  }

  /** A callback has run from its beginning to its end. */
  ghost predicate Played(script: Script, a: State, o: Owner, kind: Kind, moments: seq<State>, b: State)
    decreases a.budget, RoomIn(a), 9
  {
    && moments != [] && moments[0] == Begun(a, o, kind) && moments[|moments| - 1] == b
    && Evolves(Begun(a, o, kind), b) && Trace(script, o, script(a.calls).prog, moments)
  }

  /** A callback that had begun at `mid` has run to its end, one level deeper. */
  ghost predicate Continued(script: Script, mid: State, o: Owner, prog: seq<Op>, moments: seq<State>, b: State)
    decreases mid.budget, RoomIn(mid), 0
  {
    && mid.budget > 0 && moments != [] && moments[0] == Deeper(mid)
    && b == moments[|moments| - 1].(budget := mid.budget) && Evolves(mid, b) && Trace(script, o, prog, moments)
  }

  ghost predicate ContinuedIf(script: Script, mid: State, provider: Option<Owner>, prog: seq<Op>, moments: seq<State>,
                              b: State)
    decreases mid.budget, RoomIn(mid), 1
  {
    if provider.Some? then Continued(script, mid, provider.value, prog, moments, b) else b == mid
  }

  /** The callback of kind `kind` has run and returned, one level deeper than its caller. */
  ghost predicate Called(script: Script, a: State, o: Owner, kind: Kind, moments: seq<State>, b: State)
    decreases a.budget, RoomIn(a), 0
  {
    && a.budget > 0 && moments != [] && moments[0] == Begun(Deeper(a), o, kind)
    && b == moments[|moments| - 1].(budget := a.budget) && Evolves(Begun(a, o, kind), b)
    && Trace(script, o, script(a.calls).prog, moments)
  }

  // ---------------------------------------------------------------- dispatches and service calls

  /** One turn: nothing at all, or one entry into the subscriber, which runs its program. */
  ghost predicate Turn(script: Script, a: State, id: nat, run: seq<State>, b: State)
    decreases a.budget, RoomIn(a), 10
  {
    && Evolves(a, b)
    && if Fires(a, id) then Played(script, a, a.subs[id].owner, Ordinary, run, b) else b == a
  }

  /** `moments[k]` is the state when the turn of `ids[k]` comes, and `runs[k]` what its callback does. */
  ghost predicate Turns(script: Script, ids: seq<nat>, moments: seq<State>, runs: seq<seq<State>>)
    decreases FirstBudget(moments), FirstRoom(moments), 11
  {
    && |moments| == |ids| + 1 && |runs| == |ids|
    && (forall k :: 0 <= k < |moments| ==> SameDepths(moments[0], moments[k]))
    && forall k :: 0 <= k < |ids| ==> Turn(script, moments[k], ids[k], runs[k], moments[k + 1])
  }

  /** Every subscription of the topic but the publisher's own has its turn, oldest first. */
  ghost predicate Dispatched(script: Script, publisher: nat, topic: string, a: State, ids: seq<nat>,
                             moments: seq<State>, runs: seq<seq<State>>, b: State)
    decreases a.budget, RoomIn(a), 5
  {
    && a.busDepth < MAX_DEPTH && Increasing(ids)
    && (forall id :: id in ids <==> id in a.subs && a.subs[id].topic == topic && a.subs[id].owner.mod != publisher)
    && |moments| == |ids| + 1 && moments[0] == InBus(a) && moments[|ids|] == InBus(b)
    && Turns(script, ids, moments, runs)
  }

  ghost predicate PublishEffect(script: Script, publisher: nat, topic: string, a: State, b: State)
    decreases a.budget, RoomIn(a), 6
  {
    if GoodName(topic) && a.busDepth < MAX_DEPTH then
      exists ids, moments, runs :: Dispatched(script, publisher, topic, a, ids, moments, runs, b)
    else
      b == a
  }

  ghost predicate CallEffect(script: Script, caller: nat, name: string, a: State, b: State)
    decreases a.budget, RoomIn(a), 6
  {
    if Callable(a, caller, name) then
      exists moments :: Played(script, InService(a), ProviderOf(a, name).value, Ordinary, moments, InService(b))
    else
      b == a
  }

  // ---------------------------------------------------------------- lanes

  /** A lease is taken, and `retain` runs if there is one. */
  ghost predicate GrantRuns(script: Script, s: State, self: Owner, id: nat, l: nat, moments: seq<State>, b: State)
    decreases s.budget, RoomIn(s), 2
  {
    && id in s.lanes && id in s.accounts && l !in s.leases
    && ContinuedIf(script, Granted(s, self, id, l), ToEnter(s.lanes[id].owner, s.lanes[id].desc.retain),
                   script(s.calls).prog, moments, b)
  }

  /** A lease is given back, and `release` runs if there is one. */
  ghost predicate ReturnRuns(script: Script, s: State, l: nat, moments: seq<State>, b: State)
    decreases s.budget, RoomIn(s), 2
  {
    && CanGiveBack(s, l)
    && var lane := s.lanes[s.leases[l].laneId];
       ContinuedIf(script, GivenBack(s, l), ToEnter(lane.owner, lane.desc.release), script(s.calls).prog, moments, b)
  }

  /** One of the releases that are due is made. */
  ghost predicate Paid(script: Script, s: State, id: nat, o: Owner, moments: seq<State>, t: State)
    decreases s.budget, RoomIn(s), 1
  {
    && id in s.dues && s.dues[id].owner == o && Grows(s, t)
    && Continued(script, DueMade(s, id), o, script(s.calls).prog, moments, t)
  }

  /** All of them, one after the other. */
  ghost predicate Payments(script: Script, id: nat, o: Owner, steps: seq<State>, runs: seq<seq<State>>)
    decreases FirstBudget(steps), FirstRoom(steps), 2
  {
    && |steps| == |runs| + 1
    && (forall k :: 0 <= k < |steps| ==> SameDepths(steps[0], steps[k]))
    && forall k :: 0 <= k < |runs| ==> Paid(script, steps[k], id, o, runs[k], steps[k + 1])
  }

  /** A lane is retired: taken down with its leases, and then all the releases due for it. */
  ghost predicate RetireRuns(script: Script, a: State, id: nat, left: map<nat, Lease>, steps: seq<State>,
                             runs: seq<seq<State>>, b: State)
    decreases a.budget, RoomIn(a), 3
  {
    && id in a.lanes && WithoutLane(a.leases, id, left) && |runs| == ReleasesDue(a.lanes[id]) && |steps| == |runs| + 1
    && steps[0] == TakenDown(a, id, left) && steps[|runs|] == b
    && Payments(script, id, a.lanes[id].owner, steps, runs)
  }

  /** A lease exactly when there is such a lane of another mod that is alive. */
  ghost predicate AcquireEffect(script: Script, self: Owner, name: string, want: nat, a: State, b: State)
    decreases a.budget, RoomIn(a), 6
  {
    if a.budget > 0 && Grantable(a, self, name, want) then
      exists l, moments :: GrantRuns(script, a, self, a.laneNames[name], l, moments, b)
    else
      b == a
  }

  ghost predicate ReleaseEffect(script: Script, self: Owner, l: nat, a: State, b: State)
    decreases a.budget, RoomIn(a), 6
  {
    if a.budget > 0 && l in a.leases && a.leases[l].holder.mod == self.mod then
      exists moments :: ReturnRuns(script, a, l, moments, b)
    else
      b == a
  }

  ghost predicate UnpublishEffect(script: Script, self: Owner, id: nat, a: State, b: State)
    decreases a.budget, RoomIn(a), 6
  {
    if a.budget > 0 && id in a.lanes && a.lanes[id].owner.mod == self.mod then
      exists left, steps, runs :: RetireRuns(script, a, id, left, steps, runs, b)
    else
      b == a
  }

  // ---------------------------------------------------------------- commands

  /** The mod is asked, and when it agrees and is still there its phase changes. */
  ghost predicate SwitchRuns(script: Script, a: State, name: nat, to: Phase, ok: bool, moments: seq<State>,
                             before: State, b: State)
    decreases a.budget, RoomIn(a), 1
  {
    && ok == script(a.calls).answer
    && IsListed(a, name) && Called(script, a, Bearer(a, name), Ordinary, moments, before)
    && Settled(before, b, Bearer(a, name), ok, to)
  }

  /** The entry point of the new mod; then how loading ends. */
  ghost predicate LoadRuns(script: Script, a: State, mod: nat, name: nat, compatible: bool, displaces: bool, ok: bool,
                           moments: seq<State>, before: State, b: State)
    decreases a.budget, RoomIn(a), 1
  {
    && (ok <==> script(a.calls).answer && compatible)
    && Called(script, Born(a, mod, name), Owner(mod, a.nextBorn), Lifecycle(name), moments, before)
    && mod in before.mods && before.mods[mod] == ModState(a.nextBorn, name, Loading)
    && LoadEnds(before, b, mod, ok, displaces, !HarmlessEntry(script, a, mod, name))
  }

  /** `on_unload`; then, if the mod agrees, every table lets go of it; then whoever bears its name goes. */
  ghost predicate UnloadRuns(script: Script, a: State, name: nat, freed: bool, r: Unloading, moments: seq<State>,
                             asked: State, purged: State, b: State)
    decreases a.budget, RoomIn(a), 1
  {
    && IsListed(a, name) && Called(script, a, Bearer(a, name), Lifecycle(name), moments, asked)
    && if !script(a.calls).answer then r == RefusedByMod && b == asked
       else
         && r == (if freed then Unloaded else StillMapped) && Purges(script, asked, purged, a.listed[name])
         && if freed then Erased(purged, b, name, Disturbed(a, purged, name)) && name !in b.listed else b == purged
  }

  /** Loading reports whether the mod came up; a place that is taken, or a library that does not open, refuses. */
  ghost predicate LoadTried(script: Script, a: State, mod: nat, name: nat, opens: bool, compatible: bool,
                            displaces: bool, ok: bool, b: State)
    decreases a.budget, RoomIn(a), 2
  {
    if Refuses(a, mod, opens) then !ok && b == a
    else exists moments, before :: LoadRuns(script, a, mod, name, compatible, displaces, ok, moments, before, b)
  }

  /** The mod is asked if it is at `from`; otherwise nothing happens. */
  ghost predicate SwitchTried(script: Script, a: State, name: nat, from: Phase, to: Phase, ok: bool, b: State)
    decreases a.budget, RoomIn(a), 2
  {
    if IsAt(a, name, from) then exists moments, before :: SwitchRuns(script, a, name, to, ok, moments, before, b)
    else !ok && b == a
  }

  /** An attempt to unload, which may find nobody of that name, or one of the mod's lanes in use. */
  ghost predicate UnloadTried(script: Script, a: State, name: nat, freed: bool, ok: bool, b: State)
    decreases a.budget, RoomIn(a), 2
  {
    if !IsListed(a, name) then !ok && b == a
    else
      || (!ok && b == a && !NoLanes(a.lanes, a.listed[name]))
      || exists r, moments, asked, purged ::
           UnloadRuns(script, a, name, freed, r, moments, asked, purged, b) && (ok <==> r == Unloaded)
  }

  /** Enabling, or else taking the mod down again. */
  ghost predicate StartTried(script: Script, a: State, name: nat, freed: bool, ok: bool, b: State)
    decreases a.budget, RoomIn(a), 3
  {
    exists mid ::
      && SameDepths(a, mid) && SwitchTried(script, a, name, Disabled, Enabled, ok, mid)
      && if ok then b == mid else exists gone :: UnloadTried(script, mid, name, freed, gone, b)
  }

  /** Load, then enable. */
  ghost predicate BringUpTried(script: Script, a: State, mod: nat, name: nat, opens: bool, compatible: bool,
                               displaces: bool, freed: bool, ok: bool, b: State)
    decreases a.budget, RoomIn(a), 4
  {
    exists up, mid ::
      && SameDepths(a, mid) && LoadTried(script, a, mod, name, opens, compatible, displaces, up, mid)
      && if up then StartTried(script, mid, name, freed, ok, b) else !ok && b == mid
  }

  /** An enabled mod is asked to be disabled first, and may refuse; then it is unloaded. */
  ghost predicate TakeDownTried(script: Script, a: State, name: nat, freed: bool, ok: bool, b: State)
    decreases a.budget, RoomIn(a), 3
  {
    if IsAt(a, name, Enabled) then
      exists agreed, mid ::
        && SameDepths(a, mid) && SwitchTried(script, a, name, Enabled, Phase.Disabled, agreed, mid)
        && if agreed then UnloadTried(script, mid, name, freed, ok, b) else !ok && b == mid
    else
      UnloadTried(script, a, name, freed, ok, b)
  }

  ghost predicate CommandEffect(script: Script, c: Command, a: State, b: State)
    decreases a.budget, RoomIn(a), 6
  {
    if a.budget == 0 then b == a
    else
      match c
      case Load(mod, name, opens, compatible, displaces) =>
        exists ok :: LoadTried(script, a, mod, name, opens, compatible, displaces, ok, b)
      case Enable(name) => exists ok :: SwitchTried(script, a, name, Disabled, Enabled, ok, b)
      case Disable(name) => exists ok :: SwitchTried(script, a, name, Enabled, Phase.Disabled, ok, b)
      case Unload(name, freed) => exists ok :: UnloadTried(script, a, name, freed, ok, b)
      case ControlLoad(mod, name, opens, compatible, displaces, freed) =>
        // The load command asks whether the name is in use, before it begins.
        if name in a.listed then b == a
        else exists ok :: BringUpTried(script, a, mod, name, opens, compatible, displaces, freed, ok, b)
      case ControlUnload(name, freed) => exists ok :: TakeDownTried(script, a, name, freed, ok, b)
      case Reload(name, freed, mod, opens, compatible, displaces) =>
        ReloadTried(script, a, name, freed, mod, opens, compatible, displaces, b)
  }

  /** One mod goes, and when it has gone another one is brought up; nothing is asked about the name in between. */
  ghost predicate ReloadTried(script: Script, a: State, name: nat, freed: bool, mod: nat, opens: bool, compatible: bool,
                              displaces: bool, b: State)
    decreases a.budget, RoomIn(a), 5
  {
    exists gone, mid ::
      && SameDepths(a, mid) && TakeDownTried(script, a, name, freed, gone, mid)
      && if gone then exists ok :: BringUpTried(script, mid, mod, name, opens, compatible, displaces, freed, ok, b)
         else b == mid
  }

  /** A ticket fires if it is pending and its mod there and enabled, and is gone in any case: `taken` is without it. */
  ghost predicate Fired(script: Script, pending: map<nat, Owner>, id: nat, a: State, taken: State, b: State) {
    if id in pending && Alive(a.mods, pending[id]) && Runs(a.mods, pending[id].mod) then
      exists moments :: Played(script, taken, pending[id], Ordinary, moments, b)
    else
      b == taken
  }

  /** What one event from outside brings about. */
  ghost predicate Reacts(script: Script, event: Event, a: State, b: State) {
    match event
    case TaskDue(id) => Fired(script, a.tasks, id, a, a.(tasks := a.tasks - {id}), b)
    case FormDone(id) => Fired(script, a.forms, id, a, a.(forms := a.forms - {id}), b)
    case Console(command) => CommandEffect(script, command, a, b)
    case Game(mod) =>
      if Runs(a.mods, mod) then exists moments :: Played(script, a, Owner(mod, a.mods[mod].born), Ordinary, moments, b)
      else b == a
  }

  // ---------------------------------------------------------------- how the effects come about

  lemma HasPublished(script: Script, self: Owner, op: Op, a: State, ids: seq<nat>, moments: seq<State>,
                     runs: seq<seq<State>>, b: State)
    requires op.Publish?
    requires if GoodName(op.topic) && a.busDepth < MAX_DEPTH then
               Dispatched(script, self.mod, op.topic, a, ids, moments, runs, b)
             else
               b == a
    ensures Effect(script, self, op, a, b)
  {
    assert PublishEffect(script, self.mod, op.topic, a, b);
  }

  lemma HasCalled(script: Script, self: Owner, op: Op, a: State, moments: seq<State>, b: State)
    requires op.CallService?
    requires if Callable(a, self.mod, op.name) then
               Played(script, InService(a), ProviderOf(a, op.name).value, Ordinary, moments, InService(b))
             else
               b == a
    ensures Effect(script, self, op, a, b)
  {
    assert CallEffect(script, self.mod, op.name, a, b);
  }

  lemma HasBorrowed(script: Script, self: Owner, op: Op, a: State, l: nat, moments: seq<State>, b: State)
    requires op.AcquireLane?
    requires if a.budget > 0 && Grantable(a, self, op.name, op.want) then
               GrantRuns(script, a, self, a.laneNames[op.name], l, moments, b)
             else
               b == a
    ensures Effect(script, self, op, a, b)
  {
    assert AcquireEffect(script, self, op.name, op.want, a, b);
  }

  lemma HasReturned(script: Script, self: Owner, op: Op, a: State, moments: seq<State>, b: State)
    requires op.ReleaseLane?
    requires if a.budget > 0 && op.lease in a.leases && a.leases[op.lease].holder.mod == self.mod then
               ReturnRuns(script, a, op.lease, moments, b)
             else
               b == a
    ensures Effect(script, self, op, a, b)
  {
    assert ReleaseEffect(script, self, op.lease, a, b);
  }

  lemma HasWithdrawn(script: Script, self: Owner, op: Op, a: State, left: map<nat, Lease>, steps: seq<State>,
                     runs: seq<seq<State>>, b: State)
    requires op.UnpublishLane?
    requires if a.budget > 0 && op.id in a.lanes && a.lanes[op.id].owner.mod == self.mod then
               RetireRuns(script, a, op.id, left, steps, runs, b)
             else
               b == a
    ensures Effect(script, self, op, a, b)
  {
    assert UnpublishEffect(script, self, op.id, a, b);
  }

  /** What the program is does not matter when nobody is entered. */
  lemma HasGivenBack(script: Script, s: State, l: nat, provider: Option<Owner>, prog: seq<Op>, moments: seq<State>,
                     b: State)
    requires CanGiveBack(s, l)
    requires provider == ToEnter(s.lanes[s.leases[l].laneId].owner, s.lanes[s.leases[l].laneId].desc.release)
    requires provider.Some? ==> prog == script(s.calls).prog
    requires ContinuedIf(script, GivenBack(s, l), provider, prog, moments, b)
    ensures ReturnRuns(script, s, l, moments, b)
  {
    assert ContinuedIf(script, GivenBack(s, l), provider, script(s.calls).prog, moments, b);
  }

  // ---------------------------------------------------------------- the releases of a lane

  /** The lane goes with its leases, and its `release` is entered once for the publisher and once a lease. */
  ghost predicate Retires(a: State, b: State, id: nat, left: map<nat, Lease>)
    requires id in a.lanes
  {
    && WithoutLane(a.leases, id, left)
    && if a.lanes[id].desc.release then
         && SameStack(a, b) && Grows(TakenDown(a, id, left), b)
         && Kinds(b.log)[Release(id)] == Kinds(a.log)[Release(id)] + 1 + a.lanes[id].leases
       else
         b == TakenDown(a, id, left)
  }

  /** When none of the releases is due any more, each has been made. */
  lemma AllPaid(a: State, b: State, id: nat)
    requires Good(a) && Good(b) && id in a.lanes && a.lanes[id].desc.release
    requires id in a.accounts && id in b.accounts && b.accounts[id] == a.accounts[id] && id !in b.lanes
    requires b.dues == a.dues - {id}
    ensures Kinds(b.log)[Release(id)] == Kinds(a.log)[Release(id)] + 1 + a.lanes[id].leases
    ensures b.dues == a.dues
  {
    ReleasesBalance(a, id);
    ReleasesBalance(b, id);
  }

  lemma DueAtFirst(a: State, id: nat, left: map<nat, Lease>)
    requires Good(a) && id in a.lanes
    ensures TakenDown(a, id, left).dues == StillDue(a.dues, id, a.lanes[id].owner, ReleasesDue(a.lanes[id]))
  {
    GoodIs(a);
    assert id !in a.dues;
  }

  lemma PaidInFull(a: State, down: State, b: State, id: nat, left: map<nat, Lease>)
    requires Good(a) && Good(b) && id in a.lanes && WithoutLane(a.leases, id, left)
    requires down == TakenDown(a, id, left) && Grows(a, down) && Retiring(down, b, a.dues - {id})
    requires ReleasesDue(a.lanes[id]) == 0 ==> b == down
    ensures Retires(a, b, id, left) && Evolves(a, b)
  {
    LaneHasAccount(a, id);
    DueAtFirst(a, id, left);
    if a.lanes[id].desc.release { AllPaid(a, b, id); }
    GrowsTrans(a, down, b);
  }

  lemma ContinuedIfEvolves(script: Script, mid: State, provider: Option<Owner>, prog: seq<Op>, moments: seq<State>,
                           b: State)
    requires ContinuedIf(script, mid, provider, prog, moments, b)
    ensures Evolves(mid, b)
  {
    if provider.Some? {
      assert Continued(script, mid, provider.value, prog, moments, b);
    } else {
      EvolvesRefl(mid);
    }
  }

  lemma PaymentsGrow(script: Script, id: nat, o: Owner, steps: seq<State>, runs: seq<seq<State>>, run: seq<State>,
                     next: State)
    requires Payments(script, id, o, steps, runs) && Paid(script, steps[|runs|], id, o, run, next)
    ensures Payments(script, id, o, steps + [next], runs + [run])
  {}

  lemma {:induction false} PaymentsEvolve(script: Script, id: nat, o: Owner, steps: seq<State>, runs: seq<seq<State>>,
                                          k: nat)
    requires Payments(script, id, o, steps, runs) && k <= |runs|
    ensures Grows(steps[0], steps[k]) && SameDepths(steps[0], steps[k]) && steps[k].loading == steps[0].loading
  {
    if k > 0 {
      PaymentsEvolve(script, id, o, steps, runs, k - 1);
      assert Paid(script, steps[k - 1], id, o, runs[k - 1], steps[k]);
      assert Continued(script, DueMade(steps[k - 1], id), o, script(steps[k - 1].calls).prog, runs[k - 1], steps[k]);
      GrowsTrans(steps[0], steps[k - 1], steps[k]);
    } else {
      EvolvesRefl(steps[0]);
    }
  }

  // ---------------------------------------------------------------- programs on the tables

  lemma BegunDeeper(a: State, o: Owner, kind: Kind)
    requires a.budget > 0
    ensures Begun(Deeper(a), o, kind) == Deeper(Begun(a, o, kind))
  {}

  /** What it comes to when its program only touches tables. */
  ghost function PlainCall(script: Script, a: State, o: Owner, kind: Kind): State
    requires a.budget > 0
  {
    Exec(Begun(Deeper(a), o, kind), o, script(a.calls).prog).(budget := a.budget)
  }

  lemma PlainEffect(script: Script, self: Owner, op: Op, a: State, b: State)
    requires Plain(op) && Effect(script, self, op, a, b)
    ensures b == After(a, self, op) && NoModMoves(a, b)
  {
    ModsStay(a, self, op);
  }

  lemma {:induction false} TraceOfPlain(script: Script, self: Owner, prog: seq<Op>, moments: seq<State>, k: nat)
    requires Trace(script, self, prog, moments) && Alive(moments[0].mods, self) && k <= |prog| && AllPlain(prog[..k])
    ensures moments[k] == Exec(moments[0], self, prog[..k]) && NoModMoves(moments[0], moments[k])
  {
    if k > 0 {
      assert prog[..k][..k - 1] == prog[..k - 1] && prog[..k][k - 1] == prog[k - 1];
      TraceOfPlain(script, self, prog, moments, k - 1);
      PlainEffect(script, self, prog[k - 1], moments[k - 1], moments[k]);
    }
  }

  lemma {:induction false} TraceOfDead(script: Script, self: Owner, prog: seq<Op>, moments: seq<State>, k: nat)
    requires Trace(script, self, prog, moments) && !Alive(moments[0].mods, self) && k <= |prog|
    ensures moments[k] == moments[0]
  {
    if k > 0 { TraceOfDead(script, self, prog, moments, k - 1); }
  }

  lemma CalledPlain(script: Script, a: State, o: Owner, kind: Kind, moments: seq<State>, b: State)
    requires Called(script, a, o, kind, moments, b) && AllPlain(script(a.calls).prog) && Alive(a.mods, o)
    ensures b == PlainCall(script, a, o, kind)
    ensures b.mods == a.mods && b.listed == a.listed && b.leaked == a.leaked && b.calls == a.calls + 1
    ensures b.leases == a.leases
  {
    var prog := script(a.calls).prog;
    assert prog[..|prog|] == prog;
    TraceOfPlain(script, o, prog, moments, |prog|);
  }

  lemma TraceGrows(script: Script, self: Owner, prog: seq<Op>, i: nat, moments: seq<State>, next: State,
                   after: seq<State>)
    requires i < |prog| && Trace(script, self, prog[..i], moments) && after == moments + [next]
    requires SameDepths(moments[i], next)
    requires if Alive(moments[i].mods, self) then Effect(script, self, prog[i], moments[i], next)
             else next == moments[i]
    ensures Trace(script, self, prog[..i + 1], after) && after[0] == moments[0] && after[i + 1] == next
  {
    assert prog[..i + 1] == prog[..i] + [prog[i]];
  }
}
