/**
 * What all the tables of the loader hold at one moment, as one value: which mods are alive, who owns
 * what, and whose code has been entered so far.
 */
module LoaderState {
  import opened Machine
  import opened Ownership
  import opened Bus
  import opened Services
  import opened LaneBooks

  /** `Loading`: its entry point is running, and the mod manager does not list it yet. */
  datatype Phase = Loading | Disabled | Enabled

  datatype ModState = ModState(born: nat, name: nat, phase: Phase)

  /** The mod objects, by address. */
  type Mods = map<nat, ModState>

  /** What locking a weak pointer tells. */
  predicate Alive(mods: Mods, o: Owner) {
    o.mod in mods && mods[o.mod].born == o.born
  }

  function Living(mods: Mods): (living: set<Owner>)
    ensures forall o :: o in living <==> Alive(mods, o)
  {
    set m | m in mods :: Owner(m, mods[m].born)
  }

  predicate Runs(mods: Mods, mod: nat) {
    mod in mods && mods[mod].phase.Enabled?
  }

  /** Why a mod's code is entered; `Freed` marks the moment at which a mod goes. */
  datatype Kind =
    | Ordinary
    | Lifecycle(name: nat)  // the entry point or `on_unload` of the mod of that name
    | Retain(lane: nat)
    | Release(lane: nat)
    | Freed

  /** One entry of the record, with the mods alive at that moment. */
  datatype Entry = Entry(kind: Kind, owner: Owner, mods: Mods, nextBorn: nat, leaked: bool)

  /** A lane ever published: its provider, and how many leases have been taken on it so far. */
  datatype Account = Account(owner: Owner, desc: Desc, taken: nat)

  /** The calls of `release` that retiring a lane still has to make. */
  datatype Due = Due(owner: Owner, left: nat)

  datatype State = State(
    mods: Mods,
    /** The mod manager's table: names to addresses. */
    listed: map<nat, nat>,
    /** Distinguishes the mods that have lived at one address. */
    nextBorn: nat,
    /** How deep callbacks made by commands and lanes may still be nested: any number, but a finite one. */
    budget: nat,
    busDepth: nat,
    serviceDepth: nat,
    /** The mods in whose entry points we are, and those whose entries are just being purged. */
    loading: set<nat>,
    dying: set<nat>,
    dues: map<nat, Due>,
    /** Has a mod gone while a table, or a release still due, named it? */
    leaked: bool,
    /** Has a mod registered something while its entries were being purged? */
    rogue: bool,
    /**
     * Has a mod gone unasked: dropped after a load that failed, for another mod of its name, or unloaded with
     * releases into it still due or its name in use by somebody else meanwhile?
     */
    slips: bool,
    calls: nat,
    log: seq<Entry>,
    subs: map<nat, Subscription>,
    nextSub: nat,
    services: map<nat, Service>,
    serviceNames: map<string, nat>,
    nextService: nat,
    lanes: map<nat, Lane>,
    laneNames: map<string, nat>,
    nextLane: nat,
    leases: map<nat, Lease>,
    accounts: map<nat, Account>,
    tasks: map<nat, Owner>,
    nextTask: nat,
    forms: map<nat, Owner>,
    nextForm: nat
  )

  const MAX_DEPTH := 8

  /** Operations of the mod manager and of the runtime commands; the flags are what the system answers. */
  datatype Command =
    | Load(mod: nat, name: nat, opens: bool, compatible: bool, displaces: bool)
    | Enable(name: nat)
    | Disable(name: nat)
    | Unload(name: nat, freed: bool)
    | ControlLoad(mod: nat, name: nat, opens: bool, compatible: bool, displaces: bool, freed: bool)
    | ControlUnload(name: nat, freed: bool)
    | Reload(name: nat, freed: bool, mod: nat, opens: bool, compatible: bool, displaces: bool)

  /** What the world does to the loader. */
  datatype Event = TaskDue(id: nat) | FormDone(id: nat) | Console(command: Command) | Game(mod: nat)

  /** What a mod can do inside a callback. */
  datatype Op =
    | Subscribe(topic: string)
    | Unsubscribe(id: nat)
    | Publish(topic: string)
    | RegisterService(name: string)
    | UnregisterService(id: nat)
    | CallService(name: string)
    | Schedule
    | CancelTask(id: nat)
    | SendForm(shown: bool)
    | PublishLane(name: string, desc: Desc, wellFormed: bool)
    | UnpublishLane(id: nat)
    | AcquireLane(name: string, want: nat)
    | ReleaseLane(lease: nat)
    | EnterLane(id: nat)
    | LeaveLane(id: nat)
    | Do(command: Command)

  /** What one entry into a mod does, and what its callback returns. */
  datatype Behaviour = Behaviour(prog: seq<Op>, answer: bool)

  type Script = nat -> Behaviour

  // ---------------------------------------------------------------- ownership

  ghost predicate TicketsLive(mods: Mods, tickets: map<nat, Owner>) {
    forall id :: id in tickets ==> Alive(mods, tickets[id])
  }

  ghost predicate SubsLive(mods: Mods, subs: map<nat, Subscription>) {
    forall id :: id in subs ==> Alive(mods, subs[id].owner)
  }

  ghost predicate ServicesLive(mods: Mods, services: map<nat, Service>) {
    forall id :: id in services ==> Alive(mods, services[id].owner)
  }

  ghost predicate LanesLive(mods: Mods, lanes: map<nat, Lane>) {
    forall id :: id in lanes ==> Alive(mods, lanes[id].owner)
  }

  ghost predicate LeasesLive(mods: Mods, leases: map<nat, Lease>) {
    forall id :: id in leases ==> Alive(mods, leases[id].holder)
  }

  ghost predicate DuesLive(mods: Mods, dues: map<nat, Due>) {
    forall id :: id in dues ==> Alive(mods, dues[id].owner)
  }

  /** Every entry of every table, and every release still due, belongs to a mod that is alive. */
  ghost predicate Clean(s: State) {
    && SubsLive(s.mods, s.subs) && ServicesLive(s.mods, s.services)
    && LanesLive(s.mods, s.lanes) && LeasesLive(s.mods, s.leases) && DuesLive(s.mods, s.dues)
    && TicketsLive(s.mods, s.tasks) && TicketsLive(s.mods, s.forms)
  }

  ghost predicate NoTickets(tickets: map<nat, Owner>, mod: nat) {
    forall id :: id in tickets ==> tickets[id].mod != mod
  }

  ghost predicate NoSubs(subs: map<nat, Subscription>, mod: nat) {
    forall id :: id in subs ==> subs[id].owner.mod != mod
  }

  ghost predicate NoServices(services: map<nat, Service>, mod: nat) {
    forall id :: id in services ==> services[id].owner.mod != mod
  }

  ghost predicate NoLanes(lanes: map<nat, Lane>, mod: nat) {
    forall id :: id in lanes ==> lanes[id].owner.mod != mod
  }

  ghost predicate NoLeases(leases: map<nat, Lease>, mod: nat) {
    forall id :: id in leases ==> leases[id].holder.mod != mod
  }

  ghost predicate NoDues(dues: map<nat, Due>, mod: nat) {
    forall id :: id in dues ==> dues[id].owner.mod != mod
  }

  /** No table mentions the mod at this address. */
  ghost predicate InNoTable(s: State, mod: nat) {
    && NoSubs(s.subs, mod) && NoServices(s.services, mod) && NoLanes(s.lanes, mod) && NoLeases(s.leases, mod)
    && NoTickets(s.tasks, mod) && NoTickets(s.forms, mod)
  }

  ghost predicate NothingOf(s: State, mod: nat) {
    InNoTable(s, mod) && NoDues(s.dues, mod)
  }

  /** A mod can go, leaving the tables clean, exactly when nothing of it is left in them. */
  lemma MayGoIff(s: State, mod: nat)
    requires Clean(s)
    ensures Clean(s.(mods := s.mods - {mod})) <==> NothingOf(s, mod)
  {}

  /** Nothing belongs to an address at which no mod lives. */
  lemma NothingOfNobody(s: State, mod: nat)
    requires Clean(s) && mod !in s.mods
    ensures NothingOf(s, mod)
  {}

  /** `after` may have more mods, or the same at other phases. */
  lemma CleanWithMore(s: State, after: Mods)
    requires Clean(s) && forall m :: m in s.mods ==> m in after && after[m].born == s.mods[m].born
    ensures Clean(s.(mods := after))
  {}

  // ---------------------------------------------------------------- the record of entries

  /** The mods of `mods` that were born before `next` were alive in `earlier` already: none comes back. */
  ghost predicate NoneReturns(earlier: Mods, next: nat, mods: Mods) {
    forall m :: m in mods && mods[m].born < next ==> m in earlier && earlier[m].born == mods[m].born
  }

  /** One entry: into a mod alive at that moment, or the end of a mod, which is dead from then on. */
  ghost predicate SafeEntry(e: Entry) {
    if e.kind.Freed? then e.owner.born < e.nextBorn && !Alive(e.mods, e.owner)
    else e.leaked || Alive(e.mods, e.owner)
  }

  ghost predicate SafeLog(log: seq<Entry>, mods: Mods, nextBorn: nat, leaked: bool) {
    && (forall i {:trigger SafeEntry(log[i])} ::
          0 <= i < |log| ==> SafeEntry(log[i]) && (log[i].leaked ==> leaked) && log[i].nextBorn <= nextBorn)
    && (forall i {:trigger NoneReturns(log[i].mods, log[i].nextBorn, mods)} ::
          0 <= i < |log| ==> NoneReturns(log[i].mods, log[i].nextBorn, mods))
    && (forall i, j {:trigger NoneReturns(log[i].mods, log[i].nextBorn, log[j].mods)} ::
          0 <= i < j < |log| ==> NoneReturns(log[i].mods, log[i].nextBorn, log[j].mods))
  }

  /**
   * Once a mod has gone its code is never entered again, whoever lives at its address since: at least not
   * before some mod has gone leaving something behind.
   */
  lemma GoneIsNeverEntered(s: State, i: nat, j: nat)
    requires Good(s) && i < j < |s.log| && s.log[i].kind.Freed? && !s.log[j].kind.Freed?
    requires !s.log[j].leaked || (!s.rogue && !s.slips)
    ensures s.log[j].owner != s.log[i].owner
  {
    GoodIs(s);
    assert SafeEntry(s.log[i]) && SafeEntry(s.log[j]) && (s.log[j].leaked ==> s.leaked);
    assert NoneReturns(s.log[i].mods, s.log[i].nextBorn, s.log[j].mods);
  }

  /** How often each kind of entry is on record. */
  function Kinds(log: seq<Entry>): multiset<Kind> {
    multiset(seq(|log|, i requires 0 <= i < |log| => log[i].kind))
  }

  lemma KindsAppend(log: seq<Entry>, e: Entry)
    ensures Kinds(log + [e]) == Kinds(log) + multiset{e.kind}
  {
    var all := log + [e];
    assert seq(|all|, i requires 0 <= i < |all| => all[i].kind)
        == seq(|log|, i requires 0 <= i < |log| => log[i].kind) + [e.kind];
  }

  lemma {:induction false} KindsGrow(before: seq<Entry>, after: seq<Entry>)
    requires before <= after
    ensures Kinds(before) <= Kinds(after)
    decreases |after|
  {
    if before != after {
      var last := after[|after| - 1];
      KindsGrow(before, after[..|after| - 1]);
      KindsAppend(after[..|after| - 1], last);
      assert after == after[..|after| - 1] + [last];
    }
  }

  // ---------------------------------------------------------------- lanes and their references

  function DueOf(dues: map<nat, Due>, id: nat): nat {
    if id in dues then dues[id].left else 0
  }

  /** How often a lane's `retain` must have been entered, and its `release` must have been or is due to be. */
  function RetainsOf(accounts: map<nat, Account>, id: nat): nat
    requires id in accounts
  {
    if accounts[id].desc.retain then accounts[id].taken else 0
  }

  function ReleasesOf(lanes: map<nat, Lane>, accounts: map<nat, Account>, id: nat): int
    requires id in accounts
  {
    var taken: int := accounts[id].taken;
    if !accounts[id].desc.release then 0 else if id in lanes then taken - lanes[id].leases else taken + 1
  }

  ghost predicate AccountsMatch(lanes: map<nat, Lane>, accounts: map<nat, Account>, dues: map<nat, Due>,
                                nextLane: nat) {
    && (forall id :: id in lanes ==>
          && id in accounts && accounts[id].desc == lanes[id].desc && accounts[id].owner == lanes[id].owner
          && lanes[id].leases <= accounts[id].taken)
    && (forall id :: id in accounts ==> id < nextLane)
    && (forall id :: id in dues ==>
          && id in accounts && id !in lanes && accounts[id].desc.release
          && dues[id].left > 0 && dues[id].owner == accounts[id].owner)
  }

  /** The entries into `retain` and `release` on record are those the leases call for. */
  ghost predicate Balanced(lanes: map<nat, Lane>, accounts: map<nat, Account>, dues: map<nat, Due>,
                           kinds: multiset<Kind>) {
    forall id :: id in accounts ==>
      && kinds[Retain(id)] == RetainsOf(accounts, id)
      && kinds[Release(id)] + DueOf(dues, id) == ReleasesOf(lanes, accounts, id)
  }

  /** Nothing has been heard of lanes not yet published. */
  ghost predicate Unheard(kinds: multiset<Kind>, nextLane: nat) {
    forall id :: id >= nextLane ==> kinds[Retain(id)] == 0 && kinds[Release(id)] == 0
  }

  ghost predicate Books(lanes: map<nat, Lane>, accounts: map<nat, Account>, dues: map<nat, Due>, nextLane: nat,
                        kinds: multiset<Kind>) {
    && AccountsMatch(lanes, accounts, dues, nextLane)
    && Balanced(lanes, accounts, dues, kinds) && Unheard(kinds, nextLane)
  }

  /** Only its own provider is entered for a lane. */
  predicate OwnEntry(e: Entry, accounts: map<nat, Account>) {
    match e.kind
    case Retain(id) => id in accounts && e.owner == accounts[id].owner
    case Release(id) => id in accounts && e.owner == accounts[id].owner
    case _ => true
  }

  ghost predicate OwnProvider(log: seq<Entry>, accounts: map<nat, Account>) {
    forall i {:trigger OwnEntry(log[i], accounts)} :: 0 <= i < |log| ==> OwnEntry(log[i], accounts)
  }

  ghost predicate BooksOf(s: State) {
    Books(s.lanes, s.accounts, s.dues, s.nextLane, Kinds(s.log))
  }

  /** A provider's own count of the references to a lane: it starts with its own one. */
  function References(s: State, id: nat): int {
    var retains: int := Kinds(s.log)[Retain(id)];
    1 + retains - Kinds(s.log)[Release(id)]
  }

  /**
   * A provider that gave both callbacks counts one reference for itself and one for each lease while its
   * lane is published, and after that the releases that are still due: none once retiring is over.
   */
  lemma RefsConserved(s: State, id: nat)
    requires BooksOf(s) && id in s.accounts && s.accounts[id].desc.retain && s.accounts[id].desc.release
    ensures References(s, id) == if id in s.lanes then 1 + s.lanes[id].leases else DueOf(s.dues, id)
    ensures References(s, id) >= 0
  {}

  /**
   * What a provider counts when it gave one of the callbacks only, or none: right by chance while nothing
   * calls for the missing one.
   */
  lemma RefsRightIff(s: State, id: nat)
    requires BooksOf(s) && id in s.accounts && DueOf(s.dues, id) == 0
    ensures var d, taken := s.accounts[id].desc, s.accounts[id].taken;
            if id in s.lanes then
              References(s, id) == 1 + s.lanes[id].leases <==>
                if d.retain then d.release || s.lanes[id].leases == taken
                else if d.release then taken == 0 else s.lanes[id].leases == 0
            else
              References(s, id) == 0 <==> d.release && (d.retain || taken == 0)
  {
    var d, taken := s.accounts[id].desc, s.accounts[id].taken;
    assert Kinds(s.log)[Retain(id)] == RetainsOf(s.accounts, id);
    assert Kinds(s.log)[Release(id)] == ReleasesOf(s.lanes, s.accounts, id);
  }

  // ---------------------------------------------------------------- what holds at every moment

  ghost predicate Listing(mods: Mods, listed: map<nat, nat>, loading: set<nat>) {
    && (forall n :: n in listed ==> listed[n] in mods && mods[listed[n]].name == n && listed[n] !in loading)
    && (forall m :: m in mods && m !in loading ==> mods[m].name in listed && listed[mods[m].name] == m)
    && (forall m :: m in mods ==> (mods[m].phase.Loading? <==> m in loading))
    && (forall m :: m in loading ==> m in mods)
  }

  ghost predicate BornBefore(mods: Mods, nextBorn: nat) {
    forall m :: m in mods ==> mods[m].born < nextBorn
  }

  ghost predicate Sane(s: State) {
    && BornBefore(s.mods, s.nextBorn)
    && Listing(s.mods, s.listed, s.loading)
    && s.busDepth <= MAX_DEPTH && s.serviceDepth <= MAX_DEPTH
    && (!s.leaked ==> Clean(s)) && (s.leaked ==> s.rogue || s.slips)
    && SafeLog(s.log, s.mods, s.nextBorn, s.leaked)
  }

  /** The three things that hold at every moment. */
  datatype Aspect = Order | Accounting | Providers

  ghost predicate Holds(aspect: Aspect, s: State) {
    match aspect
    case Order => Sane(s)
    case Accounting => BooksOf(s)
    case Providers => OwnProvider(s.log, s.accounts)
  }

  ghost predicate Good(s: State) {
    forall aspect :: Holds(aspect, s)
  }

  lemma GoodIs(s: State)
    ensures Good(s) <==> Sane(s) && BooksOf(s) && OwnProvider(s.log, s.accounts)
  {
    assert Holds(Order, s) <==> Sane(s);
    assert Holds(Accounting, s) <==> BooksOf(s);
    assert Holds(Providers, s) <==> OwnProvider(s.log, s.accounts);
    if Sane(s) && BooksOf(s) && OwnProvider(s.log, s.accounts) {
      forall aspect
        ensures Holds(aspect, s)
      {
        match aspect {
          case Order =>
          case Accounting =>
          case Providers =>
        }
      }
    }
  }

  /** Who has subscribed is alive. */
  lemma SubscriberIsAlive(s: State, id: nat)
    requires Good(s) && id in s.subs
    ensures s.leaked || Alive(s.mods, s.subs[id].owner)
  {
    GoodIs(s);
  }

  /** The mods the manager lists are there. */
  lemma ListedIsThere(s: State, name: nat)
    requires Good(s) && name in s.listed
    ensures s.listed[name] in s.mods
  {
    GoodIs(s);
  }

  /** Every lane published has its account. */
  lemma LaneHasAccount(s: State, id: nat)
    requires Good(s) && id in s.lanes
    ensures id in s.accounts
  {
    GoodIs(s);
  }

  /** The releases made and due are those the leases call for; none is due while the lane is published. */
  lemma ReleasesBalance(s: State, id: nat)
    requires Good(s) && id in s.accounts
    ensures Kinds(s.log)[Release(id)] + DueOf(s.dues, id) == ReleasesOf(s.lanes, s.accounts, id)
    ensures id in s.lanes ==> id !in s.dues && s.accounts[id].desc == s.lanes[id].desc
  {
    GoodIs(s);
  }

  /** No mod was entered that was not alive, as long as no mod had gone and left something behind. */
  ghost predicate EntriesAlive(log: seq<Entry>) {
    forall i {:trigger log[i]} ::
      0 <= i < |log| && !log[i].kind.Freed? && !log[i].leaked ==> Alive(log[i].mods, log[i].owner)
  }

  ghost predicate GoneForGood(log: seq<Entry>) {
    forall i, j :: 0 <= i < j < |log| && log[i].kind.Freed? && !log[j].kind.Freed? && !log[j].leaked ==>
      log[j].owner != log[i].owner
  }

  ghost predicate RefsBalanced(s: State) {
    forall id :: id in s.accounts && s.accounts[id].desc.retain && s.accounts[id].desc.release ==>
      References(s, id) == if id in s.lanes then 1 + s.lanes[id].leases else DueOf(s.dues, id)
  }

  /** What it means that all is in order. */
  lemma GoodMeans(s: State)
    requires Good(s)
    ensures EntriesAlive(s.log) && GoneForGood(s.log) && RefsBalanced(s) && OwnProvider(s.log, s.accounts)
    ensures !s.rogue && !s.slips ==> !s.leaked
    ensures !s.leaked ==> Clean(s) && forall i :: 0 <= i < |s.log| ==> !s.log[i].leaked
  {
    GoodIs(s);
    forall i | 0 <= i < |s.log|
      ensures SafeEntry(s.log[i]) && (s.log[i].leaked ==> s.leaked)
    {}
    forall i, j | 0 <= i < j < |s.log| && s.log[i].kind.Freed? && !s.log[j].kind.Freed? && !s.log[j].leaked
      ensures s.log[j].owner != s.log[i].owner
    {
      GoneIsNeverEntered(s, i, j);
    }
    forall id | id in s.accounts && s.accounts[id].desc.retain && s.accounts[id].desc.release
      ensures References(s, id) == if id in s.lanes then 1 + s.lanes[id].leases else DueOf(s.dues, id)
    {
      RefsConserved(s, id);
    }
  }

  /** A loader that has just started. */
  function Blank(budget: nat): State {
    State(map[], map[], 0, budget, 0, 0, {}, {}, map[], false, false, false, 0, [], map[], 1, map[], map[], 1,
          map[], map[], 1, map[], map[], map[], 1, map[], 1)
  }

  lemma BlankIsGood(budget: nat)
    ensures Good(Blank(budget)) && Clean(Blank(budget))
  {
    GoodIs(Blank(budget));
  }
}
