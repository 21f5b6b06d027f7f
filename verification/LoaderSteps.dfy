/** What every step of the loader keeps: from one moment to a later one at the same place of the call stack. */
module LoaderSteps {
  import opened Ownership
  import opened Bus
  import opened Services
  import opened LaneBooks
  import opened LoaderState

  ghost predicate SameDepths(a: State, b: State) {
    b.busDepth == a.busDepth && b.serviceDepth == a.serviceDepth && b.budget == a.budget && b.dying == a.dying
  }

  ghost predicate StackWith(a: State, b: State, dues: map<nat, Due>) {
    SameDepths(a, b) && b.loading == a.loading && b.dues == dues
  }

  ghost predicate SameStack(a: State, b: State) {
    StackWith(a, b, a.dues)
  }

  /** A mod whose entry point is running stays as it is. */
  ghost predicate LoadingStay(loading: set<nat>, before: Mods, after: Mods) {
    forall m :: m in loading && m in before ==> m in after && after[m] == before[m]
  }

  /** An entry point or `on_unload` has been entered for this name. */
  ghost predicate Announced(since: State, s: State, name: nat) {
    Kinds(s.log)[Lifecycle(name)] > Kinds(since.log)[Lifecycle(name)]
  }

  /** A listed mod stays unless an entry point or `on_unload` was entered for its name. */
  ghost predicate ListedStay(a: State, b: State) {
    forall m :: m in a.mods && m !in a.loading ==>
      || (m in b.mods && b.mods[m].born == a.mods[m].born && b.mods[m].name == a.mods[m].name && m !in b.loading)
      || Announced(a, b, a.mods[m].name)
  }

  /** A name is newly listed only after the entry point of a mod of that name was entered. */
  ghost predicate Newcomers(a: State, b: State) {
    forall n :: n in b.listed && n !in a.listed ==> Announced(a, b, n)
  }

  /** A lane's account stays open while it is published and is closed for ever after. */
  ghost predicate AccountsKept(a: State, b: State) {
    forall id :: id in a.accounts ==>
      && id in b.accounts && b.accounts[id].desc == a.accounts[id].desc && b.accounts[id].owner == a.accounts[id].owner
      && (id !in a.lanes ==> id !in b.lanes && b.accounts[id] == a.accounts[id])
  }

  // The entries of mods that are being purged only become fewer.

  ghost predicate FadingTickets(dying: set<nat>, before: map<nat, Owner>, after: map<nat, Owner>) {
    forall id :: id in after && after[id].mod in dying ==> id in before && before[id] == after[id]
  }

  ghost predicate FadingSubs(dying: set<nat>, before: map<nat, Subscription>, after: map<nat, Subscription>) {
    forall id :: id in after && after[id].owner.mod in dying ==> id in before && before[id] == after[id]
  }

  ghost predicate FadingServices(dying: set<nat>, before: map<nat, Service>, after: map<nat, Service>) {
    forall id :: id in after && after[id].owner.mod in dying ==> id in before && before[id] == after[id]
  }

  ghost predicate FadingLanes(dying: set<nat>, before: map<nat, Lane>, after: map<nat, Lane>) {
    forall id :: id in after && after[id].owner.mod in dying ==> id in before && before[id].owner == after[id].owner
  }

  ghost predicate FadingLeases(dying: set<nat>, before: map<nat, Lease>, after: map<nat, Lease>) {
    forall id :: id in after && after[id].holder.mod in dying ==> id in before && before[id] == after[id]
  }

  ghost predicate Fading(dying: set<nat>, a: State, b: State) {
    && FadingSubs(dying, a.subs, b.subs) && FadingServices(dying, a.services, b.services)
    && FadingLanes(dying, a.lanes, b.lanes) && FadingLeases(dying, a.leases, b.leases)
    && FadingTickets(dying, a.tasks, b.tasks) && FadingTickets(dying, a.forms, b.forms)
  }

  ghost predicate TablesAge(a: State, b: State) {
    && Aged(a.subs, a.nextSub, b.subs, b.nextSub)
    && Aged(a.tasks, a.nextTask, b.tasks, b.nextTask)
    && Aged(a.forms, a.nextForm, b.forms, b.nextForm)
  }

  ghost predicate Grows(a: State, b: State) {
    && a.nextBorn <= b.nextBorn && NoneReturns(a.mods, a.nextBorn, b.mods)
    && LoadingStay(a.loading, a.mods, b.mods) && ListedStay(a, b) && Newcomers(a, b)
    && a.calls <= b.calls && a.log <= b.log && (a.leaked ==> b.leaked)
    && (a.rogue ==> b.rogue) && (a.slips ==> b.slips)
    && TablesAge(a, b) && AccountsKept(a, b)
    && (!b.rogue ==> Fading(a.dying, a, b))
  }

  ghost predicate Evolves(a: State, b: State) {
    SameStack(a, b) && Grows(a, b)
  }

  lemma EvolvesRefl(a: State)
    ensures Evolves(a, a)
  {}

  lemma ListedStayTrans(a: State, b: State, c: State)
    requires ListedStay(a, b) && ListedStay(b, c) && a.log <= b.log <= c.log
    ensures ListedStay(a, c)
  {
    KindsGrow(a.log, b.log);
    KindsGrow(b.log, c.log);
  }

  lemma NewcomersTrans(a: State, b: State, c: State)
    requires Newcomers(a, b) && Newcomers(b, c) && a.log <= b.log <= c.log
    ensures Newcomers(a, c)
  {
    KindsGrow(a.log, b.log);
    KindsGrow(b.log, c.log);
  }

  lemma TablesAgeTrans(a: State, b: State, c: State)
    requires TablesAge(a, b) && TablesAge(b, c)
    ensures TablesAge(a, c)
  {
    AgedTrans(a.subs, a.nextSub, b.subs, b.nextSub, c.subs, c.nextSub);
    AgedTrans(a.tasks, a.nextTask, b.tasks, b.nextTask, c.tasks, c.nextTask);
    AgedTrans(a.forms, a.nextForm, b.forms, b.nextForm, c.forms, c.nextForm);
  }

  lemma FadingTrans(dying: set<nat>, a: State, b: State, c: State)
    requires Fading(dying, a, b) && Fading(dying, b, c)
    ensures Fading(dying, a, c)
  {}

  /** Growing composes; the stack may differ in between in what `Grows` does not read. */
  lemma GrowsTrans(a: State, b: State, c: State)
    requires Grows(a, b) && Grows(b, c) && b.loading == a.loading && b.dying == a.dying
    ensures Grows(a, c)
  {
    ListedStayTrans(a, b, c);
    NewcomersTrans(a, b, c);
    TablesAgeTrans(a, b, c);
    if !c.rogue { FadingTrans(a.dying, a, b, c); }
  }

  lemma EvolvesTrans(a: State, b: State, c: State)
    requires Evolves(a, b) && Evolves(b, c)
    ensures Evolves(a, c)
  {
    GrowsTrans(a, b, c);
  }

  ghost predicate Step(a: State, b: State) {
    Good(b) && Evolves(a, b)
  }

  // ---------------------------------------------------------------- one table changes

  // What is new in a table belongs to a mod that is alive.

  ghost predicate NewTickets(mods: Mods, before: map<nat, Owner>, after: map<nat, Owner>) {
    forall id :: id in after ==> (id in before && before[id] == after[id]) || Alive(mods, after[id])
  }

  ghost predicate NewSubs(mods: Mods, before: map<nat, Subscription>, after: map<nat, Subscription>) {
    forall id :: id in after ==> (id in before && before[id] == after[id]) || Alive(mods, after[id].owner)
  }

  ghost predicate NewServices(mods: Mods, before: map<nat, Service>, after: map<nat, Service>) {
    forall id :: id in after ==> (id in before && before[id] == after[id]) || Alive(mods, after[id].owner)
  }

  lemma SubsStep(s: State, subs: map<nat, Subscription>, next: nat, rogue: bool)
    requires Good(s) && Aged(s.subs, s.nextSub, subs, next) && NewSubs(s.mods, s.subs, subs)
    requires s.rogue ==> rogue
    requires !rogue ==> FadingSubs(s.dying, s.subs, subs)
    ensures Step(s, s.(subs := subs, nextSub := next, rogue := rogue))
  {
    GoodIs(s);
    assert Sane(s.(subs := subs, nextSub := next, rogue := rogue));
    GoodIs(s.(subs := subs, nextSub := next, rogue := rogue));
  }

  lemma ServicesStep(s: State, services: map<nat, Service>, names: map<string, nat>, next: nat, rogue: bool)
    requires Good(s) && NewServices(s.mods, s.services, services)
    requires s.rogue ==> rogue
    requires !rogue ==> FadingServices(s.dying, s.services, services)
    ensures Step(s, s.(services := services, serviceNames := names, nextService := next, rogue := rogue))
  {
    GoodIs(s);
    assert Sane(s.(services := services, serviceNames := names, nextService := next, rogue := rogue));
    GoodIs(s.(services := services, serviceNames := names, nextService := next, rogue := rogue));
  }

  lemma TasksStep(s: State, tasks: map<nat, Owner>, next: nat, rogue: bool)
    requires Good(s) && Aged(s.tasks, s.nextTask, tasks, next) && NewTickets(s.mods, s.tasks, tasks)
    requires s.rogue ==> rogue
    requires !rogue ==> FadingTickets(s.dying, s.tasks, tasks)
    ensures Step(s, s.(tasks := tasks, nextTask := next, rogue := rogue))
  {
    GoodIs(s);
    assert Sane(s.(tasks := tasks, nextTask := next, rogue := rogue));
    GoodIs(s.(tasks := tasks, nextTask := next, rogue := rogue));
  }

  lemma FormsStep(s: State, forms: map<nat, Owner>, next: nat, rogue: bool)
    requires Good(s) && Aged(s.forms, s.nextForm, forms, next) && NewTickets(s.mods, s.forms, forms)
    requires s.rogue ==> rogue
    requires !rogue ==> FadingTickets(s.dying, s.forms, forms)
    ensures Step(s, s.(forms := forms, nextForm := next, rogue := rogue))
  {
    GoodIs(s);
    assert Sane(s.(forms := forms, nextForm := next, rogue := rogue));
    GoodIs(s.(forms := forms, nextForm := next, rogue := rogue));
  }

  // ---------------------------------------------------------------- a callback begins

  function Entered(s: State, o: Owner, kind: Kind): Entry {
    Entry(kind, o, s.mods, s.nextBorn, s.leaked)
  }

  function Begun(s: State, o: Owner, kind: Kind): State {
    s.(log := s.log + [Entered(s, o, kind)], calls := s.calls + 1)
  }

  lemma LogGrowsSafely(log: seq<Entry>, e: Entry, mods: Mods, nextBorn: nat, leaked: bool)
    requires SafeLog(log, mods, nextBorn, leaked) && SafeEntry(e)
    requires e.mods == mods && e.nextBorn == nextBorn && (e.leaked ==> leaked)
    ensures SafeLog(log + [e], mods, nextBorn, leaked)
  {
    var all := log + [e];
    forall i | 0 <= i < |all|
      ensures SafeEntry(all[i]) && (all[i].leaked ==> leaked) && all[i].nextBorn <= nextBorn
      ensures NoneReturns(all[i].mods, all[i].nextBorn, mods)
    {
      if i < |log| {
        assert SafeEntry(log[i]) && NoneReturns(log[i].mods, log[i].nextBorn, mods);
      }
    }
    forall i, j | 0 <= i < j < |all|
      ensures NoneReturns(all[i].mods, all[i].nextBorn, all[j].mods)
    {
      if j < |log| {
        assert NoneReturns(log[i].mods, log[i].nextBorn, log[j].mods);
      } else {
        assert NoneReturns(log[i].mods, log[i].nextBorn, mods);
      }
    }
  }

  /** Entering a mod that is alive is safe. */
  lemma EnteringIsSafe(s: State, o: Owner, kind: Kind)
    requires Sane(s) && (s.leaked || Alive(s.mods, o)) && !kind.Freed?
    ensures Sane(Begun(s, o, kind)) && Evolves(s, Begun(s, o, kind))
    ensures Kinds(Begun(s, o, kind).log) == Kinds(s.log) + multiset{kind}
  {
    LogGrowsSafely(s.log, Entered(s, o, kind), s.mods, s.nextBorn, s.leaked);
    KindsAppend(s.log, Entered(s, o, kind));
  }

  ghost predicate SameProviders(before: map<nat, Account>, after: map<nat, Account>) {
    forall id :: id in before ==> id in after && after[id].owner == before[id].owner
  }

  lemma OwnProviderKept(log: seq<Entry>, accounts: map<nat, Account>, after: map<nat, Account>)
    requires OwnProvider(log, accounts) && SameProviders(accounts, after)
    ensures OwnProvider(log, after)
  {
    forall i | 0 <= i < |log|
      ensures OwnEntry(log[i], after)
    {
      assert OwnEntry(log[i], accounts);
    }
  }

  lemma OwnProviderGrows(log: seq<Entry>, accounts: map<nat, Account>, e: Entry, after: map<nat, Account>)
    requires OwnProvider(log, accounts) && SameProviders(accounts, after) && OwnEntry(e, after)
    ensures OwnProvider(log + [e], after)
  {
    OwnProviderKept(log, accounts, after);
    var all := log + [e];
    forall i | 0 <= i < |all|
      ensures OwnEntry(all[i], after)
    {
      if i < |log| { assert OwnEntry(log[i], after); }
    }
  }

  /** Entries that have nothing to do with lanes leave the books alone. */
  lemma BooksUnmoved(lanes: map<nat, Lane>, accounts: map<nat, Account>, dues: map<nat, Due>, nextLane: nat,
                     kinds: multiset<Kind>, kind: Kind)
    requires Books(lanes, accounts, dues, nextLane, kinds) && !kind.Retain? && !kind.Release?
    ensures Books(lanes, accounts, dues, nextLane, kinds + multiset{kind})
  {}

  lemma BeginStep(s: State, o: Owner, kind: Kind)
    requires Good(s) && (s.leaked || Alive(s.mods, o)) && (kind.Ordinary? || kind.Lifecycle?)
    ensures Step(s, Begun(s, o, kind))
  {
    GoodIs(s);
    EnteringIsSafe(s, o, kind);
    OwnProviderGrows(s.log, s.accounts, Entered(s, o, kind), s.accounts);
    BooksUnmoved(s.lanes, s.accounts, s.dues, s.nextLane, Kinds(s.log), kind);
    GoodIs(Begun(s, o, kind));
  }

  /** The same when there may be no callback to enter. */
  function Entering(s: State, o: Owner, kind: Kind, enters: bool): State {
    s.(log := if enters then s.log + [Entered(s, o, kind)] else s.log, calls := if enters then s.calls + 1 else s.calls)
  }

  // ---------------------------------------------------------------- lanes

  /** Has this registration shown a mod to register while it was being purged? */
  predicate RogueAfter(s: State, self: Owner) {
    s.rogue || self.mod in s.dying
  }

  function OneMoreTaken(accounts: map<nat, Account>, id: nat): map<nat, Account>
    requires id in accounts
  {
    accounts[id := accounts[id].(taken := accounts[id].taken + 1)]
  }

  /** A lease is taken, and then the provider's `retain`, if it gave one, is entered. */
  function LeaseAdded(s: State, self: Owner, id: nat, l: nat): State
    requires id in s.lanes && id in s.accounts
  {
    s.(lanes := WithLeases(s.lanes, id, s.lanes[id].leases + 1), leases := s.leases[l := Lease(self, id)],
       accounts := OneMoreTaken(s.accounts, id), rogue := RogueAfter(s, self))
  }

  function Granted(s: State, self: Owner, id: nat, l: nat): State
    requires id in s.lanes && id in s.accounts
  {
    Entering(LeaseAdded(s, self, id, l), s.lanes[id].owner, Retain(id), s.lanes[id].desc.retain)
  }

  /** A lease is given back, and then the provider's `release`, if it gave one, is entered. */
  predicate CanGiveBack(s: State, l: nat) {
    l in s.leases && s.leases[l].laneId in s.lanes && s.lanes[s.leases[l].laneId].leases > 0
  }

  function LeaseTakenOut(s: State, l: nat): State
    requires CanGiveBack(s, l)
  {
    var id := s.leases[l].laneId;
    s.(lanes := WithLeases(s.lanes, id, s.lanes[id].leases - 1), leases := s.leases - {l})
  }

  function GivenBack(s: State, l: nat): State
    requires CanGiveBack(s, l)
  {
    var id := s.leases[l].laneId;
    Entering(LeaseTakenOut(s, l), s.lanes[id].owner, Release(id), s.lanes[id].desc.release)
  }

  function WithDue(dues: map<nat, Due>, id: nat, lane: Lane): map<nat, Due> {
    if lane.desc.release then dues[id := Due(lane.owner, 1 + lane.leases)] else dues
  }

  /** A lane is withdrawn; one `release` for the publisher and one a lease are due. */
  function TakenDown(s: State, id: nat, left: map<nat, Lease>): State
    requires id in s.lanes
  {
    var lane := s.lanes[id];
    s.(lanes := s.lanes - {id}, laneNames := s.laneNames - {lane.name}, leases := left,
       dues := WithDue(s.dues, id, lane))
  }

  /** One of the releases due is made. */
  function DueMade(s: State, id: nat): State
    requires id in s.dues
  {
    Begun(s.(dues := OneLess(s.dues, id)), s.dues[id].owner, Release(id))
  }

  lemma GrantKeepsBalance(lanes: map<nat, Lane>, accounts: map<nat, Account>, dues: map<nat, Due>,
                          kinds: multiset<Kind>, id: nat, more: map<nat, Lane>, taken: map<nat, Account>)
    requires Balanced(lanes, accounts, dues, kinds) && id in lanes && id in accounts
    requires accounts[id].desc == lanes[id].desc
    requires more == WithLeases(lanes, id, lanes[id].leases + 1) && taken == OneMoreTaken(accounts, id)
    ensures Balanced(more, taken, dues, if lanes[id].desc.retain then kinds + multiset{Retain(id)} else kinds)
  {}

  lemma GrantKeepsBooks(lanes: map<nat, Lane>, accounts: map<nat, Account>, dues: map<nat, Due>, next: nat,
                        kinds: multiset<Kind>, id: nat, more: map<nat, Lane>, taken: map<nat, Account>)
    requires Books(lanes, accounts, dues, next, kinds) && id in lanes && id in accounts
    requires more == WithLeases(lanes, id, lanes[id].leases + 1)
    requires taken == OneMoreTaken(accounts, id)
    ensures lanes[id].desc.retain ==> Books(more, taken, dues, next, kinds + multiset{Retain(id)})
    ensures !lanes[id].desc.retain ==> Books(more, taken, dues, next, kinds)
  {
    GrantKeepsBalance(lanes, accounts, dues, kinds, id, more, taken);
    assert AccountsMatch(more, taken, dues, next);
  }

  lemma GiveBackKeepsBooks(lanes: map<nat, Lane>, accounts: map<nat, Account>, dues: map<nat, Due>, next: nat,
                           kinds: multiset<Kind>, id: nat, fewer: map<nat, Lane>)
    requires Books(lanes, accounts, dues, next, kinds) && id in lanes && lanes[id].leases > 0
    requires fewer == WithLeases(lanes, id, lanes[id].leases - 1)
    ensures lanes[id].desc.release ==> Books(fewer, accounts, dues, next, kinds + multiset{Release(id)})
    ensures !lanes[id].desc.release ==> Books(fewer, accounts, dues, next, kinds)
  {
    assert AccountsMatch(fewer, accounts, dues, next);
  }

  lemma TakeDownKeepsBooks(lanes: map<nat, Lane>, accounts: map<nat, Account>, dues: map<nat, Due>, next: nat,
                           kinds: multiset<Kind>, id: nat)
    requires Books(lanes, accounts, dues, next, kinds) && id in lanes
    ensures Books(lanes - {id}, accounts, WithDue(dues, id, lanes[id]), next, kinds)
  {}

  lemma DueKeepsBooks(lanes: map<nat, Lane>, accounts: map<nat, Account>, dues: map<nat, Due>, next: nat,
                      kinds: multiset<Kind>, id: nat)
    requires Books(lanes, accounts, dues, next, kinds) && id in dues
    ensures dues[id].left > 0
    ensures Books(lanes, accounts, OneLess(dues, id), next, kinds + multiset{Release(id)})
  {}

  function OneLess(dues: map<nat, Due>, id: nat): map<nat, Due>
    requires id in dues
  {
    if dues[id].left <= 1 then dues - {id} else dues[id := Due(dues[id].owner, dues[id].left - 1)]
  }

  lemma LeaseAddedStep(s: State, self: Owner, id: nat, l: nat)
    requires Sane(s) && Alive(s.mods, self) && id in s.lanes && id in s.accounts && l !in s.leases
    ensures Sane(LeaseAdded(s, self, id, l)) && Evolves(s, LeaseAdded(s, self, id, l))
  {}

  lemma GrantedBooks(s: State, self: Owner, id: nat, l: nat)
    requires BooksOf(s) && id in s.lanes && id in s.accounts
    ensures BooksOf(Granted(s, self, id, l))
  {
    var t := LeaseAdded(s, self, id, l);
    GrantKeepsBooks(s.lanes, s.accounts, s.dues, s.nextLane, Kinds(s.log), id, t.lanes, t.accounts);
    KindsAppend(s.log, Entered(t, s.lanes[id].owner, Retain(id)));
  }

  lemma GrantedIsSane(s: State, self: Owner, id: nat, l: nat)
    requires Sane(s) && Alive(s.mods, self) && id in s.lanes && id in s.accounts && l !in s.leases
    ensures Sane(Granted(s, self, id, l)) && Evolves(s, Granted(s, self, id, l))
  {
    var t, owner := LeaseAdded(s, self, id, l), s.lanes[id].owner;
    LeaseAddedStep(s, self, id, l);
    EnteringIsSafe(t, owner, Retain(id));
    EvolvesTrans(s, t, Begun(t, owner, Retain(id)));
  }

  lemma GrantStep(s: State, self: Owner, id: nat, l: nat)
    requires Good(s) && Alive(s.mods, self) && id in s.lanes && l !in s.leases
    ensures id in s.accounts && Step(s, Granted(s, self, id, l))
  {
    GoodIs(s);
    GrantedIsSane(s, self, id, l);
    GrantedBooks(s, self, id, l);
    var t := LeaseAdded(s, self, id, l);
    OwnProviderKept(s.log, s.accounts, t.accounts);
    OwnProviderGrows(s.log, s.accounts, Entered(t, s.lanes[id].owner, Retain(id)), t.accounts);
    GoodIs(Granted(s, self, id, l));
  }

  lemma LeaseTakenOutStep(s: State, l: nat)
    requires Sane(s) && CanGiveBack(s, l)
    ensures Sane(LeaseTakenOut(s, l)) && Evolves(s, LeaseTakenOut(s, l))
  {}

  lemma GivenBackBooks(s: State, l: nat)
    requires BooksOf(s) && CanGiveBack(s, l)
    ensures BooksOf(GivenBack(s, l))
  {
    var id := s.leases[l].laneId;
    var t := LeaseTakenOut(s, l);
    GiveBackKeepsBooks(s.lanes, s.accounts, s.dues, s.nextLane, Kinds(s.log), id, t.lanes);
    KindsAppend(s.log, Entered(t, s.lanes[id].owner, Release(id)));
  }

  lemma GivenBackIsSane(s: State, l: nat)
    requires Sane(s) && CanGiveBack(s, l)
    ensures Sane(GivenBack(s, l)) && Evolves(s, GivenBack(s, l))
  {
    var id, t := s.leases[l].laneId, LeaseTakenOut(s, l);
    LeaseTakenOutStep(s, l);
    EnteringIsSafe(t, s.lanes[id].owner, Release(id));
    EvolvesTrans(s, t, Begun(t, s.lanes[id].owner, Release(id)));
  }

  lemma GiveBackStep(s: State, l: nat)
    requires Good(s) && CanGiveBack(s, l)
    ensures Step(s, GivenBack(s, l))
  {
    GoodIs(s);
    GivenBackIsSane(s, l);
    GivenBackBooks(s, l);
    var id := s.leases[l].laneId;
    OwnProviderGrows(s.log, s.accounts, Entered(LeaseTakenOut(s, l), s.lanes[id].owner, Release(id)), s.accounts);
    GoodIs(GivenBack(s, l));
  }

  lemma TakeDownIsSane(s: State, id: nat, left: map<nat, Lease>)
    requires Sane(s) && id in s.lanes && WithoutLane(s.leases, id, left)
    ensures Sane(TakenDown(s, id, left)) && Grows(s, TakenDown(s, id, left))
  {}

  lemma TakenDownBooks(s: State, id: nat, left: map<nat, Lease>)
    requires BooksOf(s) && id in s.lanes
    ensures BooksOf(TakenDown(s, id, left))
  {
    TakeDownKeepsBooks(s.lanes, s.accounts, s.dues, s.nextLane, Kinds(s.log), id);
  }

  lemma TakeDownStep(s: State, id: nat, left: map<nat, Lease>)
    requires Good(s) && id in s.lanes && WithoutLane(s.leases, id, left)
    ensures Good(TakenDown(s, id, left)) && Grows(s, TakenDown(s, id, left))
  {
    GoodIs(s);
    TakeDownIsSane(s, id, left);
    TakenDownBooks(s, id, left);
    GoodIs(TakenDown(s, id, left));
  }

  lemma DuePaidIsSane(s: State, id: nat)
    requires Sane(s) && id in s.dues
    ensures Sane(s.(dues := OneLess(s.dues, id))) && Grows(s, s.(dues := OneLess(s.dues, id)))
  {}

  lemma DueStep(s: State, id: nat)
    requires Good(s) && id in s.dues
    ensures Good(DueMade(s, id)) && Grows(s, DueMade(s, id))
  {
    GoodIs(s);
    var owner, t := s.dues[id].owner, s.(dues := OneLess(s.dues, id));
    DuePaidIsSane(s, id);
    DueKeepsBooks(s.lanes, s.accounts, s.dues, s.nextLane, Kinds(s.log), id);
    EnteringIsSafe(t, owner, Release(id));
    OwnProviderGrows(s.log, s.accounts, Entered(t, owner, Release(id)), s.accounts);
    GrowsTrans(s, t, DueMade(s, id));
    GoodIs(DueMade(s, id));
  }

  /** What is due while a lane is being retired. */
  function StillDue(dues: map<nat, Due>, id: nat, owner: Owner, left: nat): map<nat, Due> {
    if left == 0 then dues - {id} else dues[id := Due(owner, left)]
  }

  lemma OneLessDue(dues: map<nat, Due>, id: nat, owner: Owner, left: nat)
    requires left > 0
    ensures OneLess(StillDue(dues, id, owner, left), id) == StillDue(dues, id, owner, left - 1)
  {}

  ghost predicate Retiring(down: State, b: State, dues: map<nat, Due>) {
    StackWith(down, b, dues) && Grows(down, b)
  }

  // ---------------------------------------------------------------- deeper on the call stack and back

  function InBus(s: State): State {
    s.(busDepth := s.busDepth + 1)
  }

  lemma IntoBus(s: State)
    requires Good(s) && s.busDepth < MAX_DEPTH
    ensures Good(InBus(s))
  {
    GoodIs(s);
    assert Sane(InBus(s));
    GoodIs(InBus(s));
  }

  lemma BackFromBus(a: State, b: State)
    requires Evolves(InBus(a), b) && Good(b)
    ensures Step(a, b.(busDepth := a.busDepth))
  {
    GoodIs(b);
    assert Sane(b.(busDepth := a.busDepth));
    GoodIs(b.(busDepth := a.busDepth));
  }

  function InService(s: State): State {
    s.(serviceDepth := s.serviceDepth + 1)
  }

  lemma IntoService(s: State)
    requires Good(s) && s.serviceDepth < MAX_DEPTH
    ensures Good(InService(s))
  {
    GoodIs(s);
    assert Sane(InService(s));
    GoodIs(InService(s));
  }

  lemma BackFromService(a: State, b: State)
    requires Evolves(InService(a), b) && Good(b)
    ensures Step(a, b.(serviceDepth := a.serviceDepth))
  {
    GoodIs(b);
    assert Sane(b.(serviceDepth := a.serviceDepth));
    GoodIs(b.(serviceDepth := a.serviceDepth));
  }

  /** Inside a callback made by a command or a lane. */
  function Deeper(s: State): State
    requires s.budget > 0
  {
    s.(budget := s.budget - 1)
  }

  lemma IntoDeeper(s: State)
    requires Good(s) && s.budget > 0
    ensures Good(Deeper(s))
  {
    GoodIs(s);
    assert Sane(Deeper(s));
    GoodIs(Deeper(s));
  }

  lemma BackFromDeeper(a: State, b: State)
    requires a.budget > 0 && Evolves(Deeper(a), b) && Good(b)
    ensures Step(a, b.(budget := a.budget))
  {
    GoodIs(b);
    assert Sane(b.(budget := a.budget));
    GoodIs(b.(budget := a.budget));
  }

  /** While the entries of a mod are being purged. */
  function Purging(s: State, mod: nat): State {
    s.(dying := s.dying + {mod})
  }

  lemma IntoPurge(s: State, mod: nat)
    requires Good(s)
    ensures Good(Purging(s, mod))
  {
    GoodIs(s);
    assert Sane(Purging(s, mod));
    GoodIs(Purging(s, mod));
  }

  lemma FadingFewer(dying: set<nat>, more: set<nat>, a: State, b: State)
    requires Fading(more, a, b) && dying <= more
    ensures Fading(dying, a, b)
  {}

  lemma GrowsOutsidePurge(a: State, mod: nat, b: State)
    requires Grows(Purging(a, mod), b)
    ensures Grows(a, b.(dying := a.dying))
  {
    if !b.rogue { FadingFewer(a.dying, Purging(a, mod).dying, Purging(a, mod), b); }
  }

  lemma BackFromPurge(a: State, mod: nat, b: State)
    requires Evolves(Purging(a, mod), b) && Good(b)
    ensures Step(a, b.(dying := a.dying))
  {
    GoodIs(b);
    GrowsOutsidePurge(a, mod, b);
    assert Sane(b.(dying := a.dying));
    GoodIs(b.(dying := a.dying));
  }

  // ---------------------------------------------------------------- mods come and go

  /** A mod changes between enabled and disabled. */
  function InPhase(s: State, mod: nat, phase: Phase): State
    requires mod in s.mods
  {
    s.(mods := s.mods[mod := s.mods[mod].(phase := phase)])
  }

  lemma LogUnderOthers(log: seq<Entry>, mods: Mods, nextBorn: nat, leaked: bool, after: Mods, next: nat)
    requires SafeLog(log, mods, nextBorn, leaked) && NoneReturns(mods, nextBorn, after) && nextBorn <= next
    ensures SafeLog(log, after, next, leaked)
  {
    forall i | 0 <= i < |log|
      ensures SafeEntry(log[i]) && (log[i].leaked ==> leaked) && log[i].nextBorn <= next
      ensures NoneReturns(log[i].mods, log[i].nextBorn, after)
    {
      assert SafeEntry(log[i]) && NoneReturns(log[i].mods, log[i].nextBorn, mods);
    }
  }

  lemma LogUnderLeak(log: seq<Entry>, mods: Mods, nextBorn: nat, before: bool, after: bool)
    requires SafeLog(log, mods, nextBorn, before) && (before ==> after)
    ensures SafeLog(log, mods, nextBorn, after)
  {}

  lemma ListingUnderPhase(mods: Mods, listed: map<nat, nat>, loading: set<nat>, mod: nat, after: ModState)
    requires Listing(mods, listed, loading) && mod in mods && mod !in loading
    requires after.name == mods[mod].name && !after.phase.Loading?
    ensures Listing(mods[mod := after], listed, loading)
  {}

  lemma PhaseStep(s: State, mod: nat, phase: Phase)
    requires Good(s) && mod in s.mods && mod !in s.loading && !phase.Loading?
    ensures Step(s, InPhase(s, mod, phase))
  {
    GoodIs(s);
    var t := InPhase(s, mod, phase);
    ListingUnderPhase(s.mods, s.listed, s.loading, mod, t.mods[mod]);
    LogUnderOthers(s.log, s.mods, s.nextBorn, s.leaked, t.mods, t.nextBorn);
    if !s.leaked { CleanWithMore(s, t.mods); }
    assert Sane(t);
    GoodIs(t);
  }

  /** A new mod object at a free address; its entry point comes next. */
  function Born(s: State, mod: nat, name: nat): State {
    s.(mods := s.mods[mod := ModState(s.nextBorn, name, Loading)], nextBorn := s.nextBorn + 1,
       loading := s.loading + {mod})
  }

  lemma ListingUnderBirth(mods: Mods, listed: map<nat, nat>, loading: set<nat>, mod: nat, newborn: ModState)
    requires Listing(mods, listed, loading) && mod !in mods && newborn.phase.Loading?
    ensures Listing(mods[mod := newborn], listed, loading + {mod})
  {}

  lemma BirthIsSane(s: State, mod: nat, name: nat)
    requires Sane(s) && mod !in s.mods
    ensures Sane(Born(s, mod, name))
  {
    var t := Born(s, mod, name);
    ListingUnderBirth(s.mods, s.listed, s.loading, mod, t.mods[mod]);
    LogUnderOthers(s.log, s.mods, s.nextBorn, s.leaked, t.mods, t.nextBorn);
    if !s.leaked { CleanWithMore(s, t.mods); }
  }

  lemma BirthStep(s: State, mod: nat, name: nat)
    requires Good(s) && mod !in s.mods
    ensures Good(Born(s, mod, name))
  {
    GoodIs(s);
    BirthIsSane(s, mod, name);
    assert BooksOf(Born(s, mod, name));
    GoodIs(Born(s, mod, name));
  }

  lemma GrowsSinceBirth(a: State, mod: nat, name: nat, b: State)
    requires mod !in a.mods && Good(a) && Grows(Born(a, mod, name), b)
    ensures mod !in a.loading && Grows(a, b)
  {
    GoodIs(a);
  }

  /** The manager lists the mod under its name. */
  function Admitted(s: State, mod: nat): State
    requires mod in s.mods
  {
    s.(mods := s.mods[mod := s.mods[mod].(phase := Disabled)], listed := s.listed[s.mods[mod].name := mod],
       loading := s.loading - {mod})
  }

  lemma ListingUnderAdmit(mods: Mods, listed: map<nat, nat>, loading: set<nat>, mod: nat, after: ModState)
    requires Listing(mods, listed, loading) && mod in loading && mod in mods
    requires after.name == mods[mod].name && after.name !in listed && !after.phase.Loading?
    ensures Listing(mods[mod := after], listed[after.name := mod], loading - {mod})
  {}

  lemma AdmitIsSane(s: State, mod: nat)
    requires Sane(s) && mod in s.loading && mod in s.mods && s.mods[mod].name !in s.listed
    ensures Sane(Admitted(s, mod))
  {
    var t := Admitted(s, mod);
    ListingUnderAdmit(s.mods, s.listed, s.loading, mod, t.mods[mod]);
    LogUnderOthers(s.log, s.mods, s.nextBorn, s.leaked, t.mods, t.nextBorn);
    if !s.leaked { CleanWithMore(s, t.mods); }
  }

  lemma AdmitGrows(since: State, s: State, mod: nat)
    requires Grows(since, s) && mod in s.mods && mod !in since.mods && mod !in since.loading
    requires Announced(since, s, s.mods[mod].name)
    ensures Grows(since, Admitted(s, mod))
  {}

  lemma AdmitStep(since: State, s: State, mod: nat)
    requires Good(s) && Grows(since, s) && mod in s.loading && mod in s.mods && s.mods[mod].name !in s.listed
    requires mod !in since.mods && mod !in since.loading && Announced(since, s, s.mods[mod].name)
    ensures Good(Admitted(s, mod)) && Grows(since, Admitted(s, mod))
  {
    GoodIs(s);
    AdmitIsSane(s, mod);
    AdmitGrows(since, s, mod);
    assert BooksOf(Admitted(s, mod));
    GoodIs(Admitted(s, mod));
  }

  function Unlisted(listed: map<nat, nat>, name: nat, mod: nat): map<nat, nat> {
    if name in listed && listed[name] == mod then listed - {name} else listed
  }

  /** A mod object goes: `leaked` from now on if something is left of it, a slip if it was not properly asked. */
  function Gone(s: State, mod: nat, leaks: bool, slip: bool): State
    requires mod in s.mods
  {
    var mods, name := s.mods - {mod}, s.mods[mod].name;
    s.(mods := mods, listed := Unlisted(s.listed, name, mod), loading := s.loading - {mod}, leaked := s.leaked || leaks,
       slips := s.slips || slip,
       log := s.log + [Entry(Freed, Owner(mod, s.mods[mod].born), mods, s.nextBorn, s.leaked || leaks)])
  }

  /** A mod may go without breaking what is kept since an earlier moment. */
  ghost predicate MayFree(since: State, s: State, mod: nat) {
    && mod in s.mods && mod !in since.loading
    && (mod in since.mods && since.mods[mod].born == s.mods[mod].born ==> Announced(since, s, since.mods[mod].name))
  }

  lemma DeathKeepsLog(s: State, mod: nat, leaks: bool, slip: bool)
    requires Sane(s) && mod in s.mods
    ensures var t := Gone(s, mod, leaks, slip); SafeLog(t.log, t.mods, t.nextBorn, t.leaked)
  {
    var t := Gone(s, mod, leaks, slip);
    LogUnderOthers(s.log, s.mods, s.nextBorn, s.leaked, t.mods, t.nextBorn);
    LogUnderLeak(s.log, t.mods, t.nextBorn, s.leaked, t.leaked);
    LogGrowsSafely(s.log, t.log[|s.log|], t.mods, t.nextBorn, t.leaked);
  }

  lemma DeathIsSane(s: State, mod: nat, leaks: bool, slip: bool)
    requires Sane(s) && mod in s.mods && (leaks <==> !NothingOf(s, mod)) && (leaks ==> slip || s.rogue || s.slips)
    ensures Sane(Gone(s, mod, leaks, slip))
    ensures Clean(s) ==> (Clean(Gone(s, mod, leaks, slip)) <==> !leaks)
  {
    DeathKeepsLog(s, mod, leaks, slip);
    if Clean(s) { MayGoIff(s, mod); }
  }

  lemma DeathGrows(since: State, s: State, mod: nat, leaks: bool, slip: bool)
    requires Grows(since, s) && MayFree(since, s, mod)
    requires Kinds(Gone(s, mod, leaks, slip).log) == Kinds(s.log) + multiset{Freed}
    ensures Grows(since, Gone(s, mod, leaks, slip))
  {}

  lemma DeathStep(since: State, s: State, mod: nat, leaks: bool, slip: bool)
    requires Good(s) && Grows(since, s) && MayFree(since, s, mod)
    requires (leaks <==> !NothingOf(s, mod)) && (leaks ==> slip || s.rogue || s.slips)
    ensures Good(Gone(s, mod, leaks, slip)) && Grows(since, Gone(s, mod, leaks, slip))
    ensures Clean(s) ==> (Clean(Gone(s, mod, leaks, slip)) <==> !leaks)
  {
    GoodIs(s);
    var t := Gone(s, mod, leaks, slip);
    DeathIsSane(s, mod, leaks, slip);
    KindsAppend(s.log, t.log[|s.log|]);
    OwnProviderGrows(s.log, s.accounts, t.log[|s.log|], s.accounts);
    BooksUnmoved(s.lanes, s.accounts, s.dues, s.nextLane, Kinds(s.log), Freed);
    DeathGrows(since, s, mod, leaks, slip);
    assert BooksOf(t);
    GoodIs(t);
  }
}
