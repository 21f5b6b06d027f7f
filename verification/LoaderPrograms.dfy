/** What the operations of a mod that only touch the tables do, one by one and in sequence. */
module LoaderPrograms {
  import opened Machine
  import opened Ownership
  import opened Bus
  import opened Services
  import opened LaneBooks
  import opened LoaderState
  import opened LoaderSteps

  // ---------------------------------------------------------------- operations on the tables alone

  /** Operations that enter no mod. */
  predicate Plain(op: Op) {
    match op
    case Subscribe(_) | Unsubscribe(_) | RegisterService(_) | UnregisterService(_) => true
    case Schedule | CancelTask(_) | SendForm(_) | PublishLane(_, _, _) | EnterLane(_) | LeaveLane(_) => true
    case _ => false
  }

  predicate AllPlain(prog: seq<Op>) {
    forall op :: op in prog ==> Plain(op)
  }

  predicate ServiceFree(s: State, name: string) {
    GoodName(name) && name !in s.serviceNames
  }

  predicate LaneAccepted(s: State, name: string, desc: Desc, wellFormed: bool) {
    wellFormed && desc.fingerprint != 0 && GoodName(name) && name !in s.laneNames
  }

  ghost predicate NoModMoves(a: State, b: State) {
    && b.mods == a.mods && b.listed == a.listed && b.leaked == a.leaked
    && b.calls == a.calls && b.budget == a.budget && b.leases == a.leases
  }

  // An operation that is refused changes nothing; `ok` says whether it is accepted.

  function PutIf<V>(m: map<nat, V>, ok: bool, id: nat, v: V): map<nat, V> {
    if ok then m[id := v] else m
  }

  function DropIf<V>(m: map<nat, V>, ok: bool, id: nat): map<nat, V> {
    if ok then m - {id} else m
  }

  function NameIf(names: map<string, nat>, ok: bool, name: string, id: nat): map<string, nat> {
    if ok then names[name := id] else names
  }

  function NextIf(next: nat, ok: bool): nat {
    if ok then next + 1 else next
  }

  function SubAdded(s: State, self: Owner, topic: string, ok: bool): State {
    s.(subs := PutIf(s.subs, ok, s.nextSub, Subscription(self, topic)), nextSub := NextIf(s.nextSub, ok),
       rogue := s.rogue || (ok && self.mod in s.dying))
  }

  function SubDropped(s: State, self: Owner, id: nat): State {
    s.(subs := DropIf(s.subs, id in s.subs && s.subs[id].owner.mod == self.mod, id))
  }

  function ServiceAdded(s: State, self: Owner, name: string, ok: bool): State {
    s.(services := PutIf(s.services, ok, s.nextService, Service(self, name)),
       serviceNames := NameIf(s.serviceNames, ok, name, s.nextService), nextService := NextIf(s.nextService, ok),
       rogue := s.rogue || (ok && self.mod in s.dying))
  }

  function NamesWithout(s: State, ok: bool, id: nat): map<string, nat>
    requires ok ==> id in s.services
  {
    if ok then s.serviceNames - {s.services[id].name} else s.serviceNames
  }

  function ServiceDropped(s: State, self: Owner, id: nat): State {
    var ok := id in s.services && s.services[id].owner.mod == self.mod;
    s.(services := DropIf(s.services, ok, id), serviceNames := NamesWithout(s, ok, id))
  }

  function TaskAdded(s: State, self: Owner): State {
    s.(tasks := s.tasks[s.nextTask := self], nextTask := s.nextTask + 1, rogue := RogueAfter(s, self))
  }

  function TaskDropped(s: State, self: Owner, id: nat): State {
    s.(tasks := DropIf(s.tasks, id in s.tasks && s.tasks[id].mod == self.mod, id))
  }

  /** The ticket of a form that cannot be shown is used up and gone. */
  function FormSent(s: State, self: Owner, shown: bool): State {
    s.(forms := PutIf(s.forms, shown, s.nextForm, self), nextForm := s.nextForm + 1,
       rogue := s.rogue || (shown && self.mod in s.dying))
  }

  function LaneAdded(s: State, self: Owner, name: string, desc: Desc, ok: bool): State {
    s.(lanes := PutIf(s.lanes, ok, s.nextLane, Lane(self, name, desc, 0)),
       laneNames := NameIf(s.laneNames, ok, name, s.nextLane), nextLane := NextIf(s.nextLane, ok),
       accounts := PutIf(s.accounts, ok, s.nextLane, Account(self, desc, 0)),
       rogue := s.rogue || (ok && self.mod in s.dying))
  }

  /** The state after such an operation of `self`. */
  ghost function After(s: State, self: Owner, op: Op): State {
    match op
    case Subscribe(topic) => SubAdded(s, self, topic, GoodName(topic))
    case Unsubscribe(id) => SubDropped(s, self, id)
    case RegisterService(name) => ServiceAdded(s, self, name, ServiceFree(s, name))
    case UnregisterService(id) => ServiceDropped(s, self, id)
    case Schedule => TaskAdded(s, self)
    case CancelTask(id) => TaskDropped(s, self, id)
    case SendForm(shown) => FormSent(s, self, shown)
    case PublishLane(name, desc, wellFormed) => LaneAdded(s, self, name, desc, LaneAccepted(s, name, desc, wellFormed))
    case _ => s
  }

  lemma PublishKeepsBooks(lanes: map<nat, Lane>, accounts: map<nat, Account>, dues: map<nat, Due>, next: nat,
                          kinds: multiset<Kind>, lane: Lane)
    requires Books(lanes, accounts, dues, next, kinds) && lane.leases == 0
    ensures next !in lanes && next !in accounts
    ensures Books(lanes[next := lane], accounts[next := Account(lane.owner, lane.desc, 0)], dues, next + 1, kinds)
  {
    assert AccountsMatch(lanes[next := lane], accounts[next := Account(lane.owner, lane.desc, 0)], dues, next + 1);
  }

  lemma LaneAddedIsSane(s: State, self: Owner, name: string, desc: Desc, ok: bool)
    requires Sane(s) && Alive(s.mods, self) && s.nextLane !in s.lanes && s.nextLane !in s.accounts
    ensures Sane(LaneAdded(s, self, name, desc, ok)) && Evolves(s, LaneAdded(s, self, name, desc, ok))
  {}

  lemma LaneAddedStep(s: State, self: Owner, name: string, desc: Desc, ok: bool)
    requires Good(s) && Alive(s.mods, self)
    ensures Step(s, LaneAdded(s, self, name, desc, ok))
  {
    GoodIs(s);
    PublishKeepsBooks(s.lanes, s.accounts, s.dues, s.nextLane, Kinds(s.log), Lane(self, name, desc, 0));
    LaneAddedIsSane(s, self, name, desc, ok);
    OwnProviderKept(s.log, s.accounts, LaneAdded(s, self, name, desc, ok).accounts);
    assert BooksOf(LaneAdded(s, self, name, desc, ok));
    GoodIs(LaneAdded(s, self, name, desc, ok));
  }

  // ---------------------------------------------------------------- programs of such operations

  ghost function Exec(s: State, self: Owner, prog: seq<Op>): State {
    if prog == [] then s else After(Exec(s, self, prog[..|prog| - 1]), self, prog[|prog| - 1])
  }

  /** The ways in which a table can mention a mod. */
  datatype Key =
    | SubKey(id: nat)
    | ServiceKey(id: nat)
    | TaskKey(id: nat)
    | FormKey(id: nat)
    | LaneKey(id: nat)
    | LeaseKey(id: nat)
    | DueKey(id: nat)

  predicate Has(s: State, mod: nat, k: Key) {
    match k
    case SubKey(id) => id in s.subs && s.subs[id].owner.mod == mod
    case ServiceKey(id) => id in s.services && s.services[id].owner.mod == mod
    case TaskKey(id) => id in s.tasks && s.tasks[id].mod == mod
    case FormKey(id) => id in s.forms && s.forms[id].mod == mod
    case LaneKey(id) => id in s.lanes && s.lanes[id].owner.mod == mod
    case LeaseKey(id) => id in s.leases && s.leases[id].holder.mod == mod
    case DueKey(id) => id in s.dues && s.dues[id].owner.mod == mod
  }

  lemma NothingMeansNoKey(s: State, mod: nat)
    ensures NothingOf(s, mod) <==> forall k :: !Has(s, mod, k)
  {
    if forall k :: !Has(s, mod, k) {
      forall id ensures id in s.subs ==> s.subs[id].owner.mod != mod { assert !Has(s, mod, SubKey(id)); }
      forall id ensures id in s.services ==> s.services[id].owner.mod != mod { assert !Has(s, mod, ServiceKey(id)); }
      forall id ensures id in s.tasks ==> s.tasks[id].mod != mod { assert !Has(s, mod, TaskKey(id)); }
      forall id ensures id in s.forms ==> s.forms[id].mod != mod { assert !Has(s, mod, FormKey(id)); }
      forall id ensures id in s.lanes ==> s.lanes[id].owner.mod != mod { assert !Has(s, mod, LaneKey(id)); }
      forall id ensures id in s.leases ==> s.leases[id].holder.mod != mod { assert !Has(s, mod, LeaseKey(id)); }
      forall id ensures id in s.dues ==> s.dues[id].owner.mod != mod { assert !Has(s, mod, DueKey(id)); }
    }
  }

  /** What an operation registers for the mod, when it is accepted. */
  ghost function Registered(s: State, op: Op): Option<Key> {
    match op
    case Subscribe(topic) => if GoodName(topic) then Some(SubKey(s.nextSub)) else None
    case RegisterService(name) => if ServiceFree(s, name) then Some(ServiceKey(s.nextService)) else None
    case Schedule => Some(TaskKey(s.nextTask))
    case SendForm(shown) => if shown then Some(FormKey(s.nextForm)) else None
    case PublishLane(name, desc, wellFormed) =>
      if LaneAccepted(s, name, desc, wellFormed) then Some(LaneKey(s.nextLane)) else None
    case _ => None
  }

  predicate Registers(op: Op) {
    op.Subscribe? || op.RegisterService? || op.Schedule? || op.SendForm? || op.PublishLane?
  }

  predicate Withdraws(op: Op, k: Key) {
    match op
    case Unsubscribe(id) => k == SubKey(id)
    case UnregisterService(id) => k == ServiceKey(id)
    case CancelTask(id) => k == TaskKey(id)
    case _ => false
  }

  /** What one operation does to what a mod has. */
  ghost predicate KeysMove(s: State, self: Owner, op: Op, k: Key) {
    Has(After(s, self, op), self.mod, k) <==>
      (Has(s, self.mod, k) && !Withdraws(op, k)) || Registered(s, op) == Some(k)
  }

  lemma SubscribeMoves(s: State, self: Owner, topic: string, k: Key)
    ensures KeysMove(s, self, Op.Subscribe(topic), k)
  {}

  lemma UnsubscribeMoves(s: State, self: Owner, id: nat, k: Key)
    ensures KeysMove(s, self, Op.Unsubscribe(id), k)
  {}

  lemma RegisterServiceMoves(s: State, self: Owner, name: string, k: Key)
    ensures KeysMove(s, self, Op.RegisterService(name), k)
  {}

  lemma UnregisterServiceMoves(s: State, self: Owner, id: nat, k: Key)
    ensures KeysMove(s, self, Op.UnregisterService(id), k)
  {}

  lemma ScheduleMoves(s: State, self: Owner, k: Key)
    ensures KeysMove(s, self, Op.Schedule, k)
  {}

  lemma CancelTaskMoves(s: State, self: Owner, id: nat, k: Key)
    ensures KeysMove(s, self, Op.CancelTask(id), k)
  {}

  lemma SendFormMoves(s: State, self: Owner, shown: bool, k: Key)
    ensures KeysMove(s, self, Op.SendForm(shown), k)
  {}

  lemma PublishLaneMoves(s: State, self: Owner, name: string, desc: Desc, wellFormed: bool, k: Key)
    ensures KeysMove(s, self, Op.PublishLane(name, desc, wellFormed), k)
  {}

  lemma KeysAfter(s: State, self: Owner, op: Op, k: Key)
    requires Plain(op)
    ensures KeysMove(s, self, op, k)
  {
    match op {
      case Subscribe(topic) => SubscribeMoves(s, self, topic, k);
      case Unsubscribe(id) => UnsubscribeMoves(s, self, id, k);
      case RegisterService(name) => RegisterServiceMoves(s, self, name, k);
      case UnregisterService(id) => UnregisterServiceMoves(s, self, id, k);
      case Schedule => ScheduleMoves(s, self, k);
      case CancelTask(id) => CancelTaskMoves(s, self, id, k);
      case SendForm(shown) => SendFormMoves(s, self, shown, k);
      case PublishLane(name, desc, wellFormed) => PublishLaneMoves(s, self, name, desc, wellFormed, k);
      case _ =>
    }
  }

  /** Everything but the tables of registrations is the same. */
  ghost predicate OnlyTablesMove(s: State, t: State) {
    && NoModMoves(s, t) && t.log == s.log && t.nextBorn == s.nextBorn && t.dues == s.dues && t.dying == s.dying
    && t.loading == s.loading && t.slips == s.slips
  }

  lemma SubsMoveOnly(s: State, self: Owner, topic: string, ok: bool, id: nat)
    ensures OnlyTablesMove(s, SubAdded(s, self, topic, ok)) && OnlyTablesMove(s, SubDropped(s, self, id))
  {}

  lemma ServicesMoveOnly(s: State, self: Owner, name: string, ok: bool, id: nat)
    ensures OnlyTablesMove(s, ServiceAdded(s, self, name, ok)) && OnlyTablesMove(s, ServiceDropped(s, self, id))
  {}

  lemma TicketsMoveOnly(s: State, self: Owner, shown: bool, id: nat)
    ensures OnlyTablesMove(s, TaskAdded(s, self)) && OnlyTablesMove(s, TaskDropped(s, self, id))
    ensures OnlyTablesMove(s, FormSent(s, self, shown))
  {}

  lemma LanesMoveOnly(s: State, self: Owner, name: string, desc: Desc, ok: bool)
    ensures OnlyTablesMove(s, LaneAdded(s, self, name, desc, ok))
  {}

  lemma AllStays(s: State, self: Owner, op: Op)
    ensures OnlyTablesMove(s, After(s, self, op))
  {
    match op {
      case Subscribe(_) | Unsubscribe(_) => AllStaysOnTheBus(s, self, op);
      case RegisterService(_) | UnregisterService(_) => AllStaysAtServices(s, self, op);
      case Schedule | CancelTask(_) | SendForm(_) => AllStaysWithTickets(s, self, op);
      case PublishLane(name, desc, wellFormed) =>
        LanesMoveOnly(s, self, name, desc, LaneAccepted(s, name, desc, wellFormed));
      case _ =>
    }
  }

  lemma AllStaysOnTheBus(s: State, self: Owner, op: Op)
    requires op.Subscribe? || op.Unsubscribe?
    ensures OnlyTablesMove(s, After(s, self, op))
  {
    match op {
      case Subscribe(topic) => SubsMoveOnly(s, self, topic, GoodName(topic), 0);
      case Unsubscribe(id) => SubsMoveOnly(s, self, "", false, id);
    }
  }

  lemma AllStaysAtServices(s: State, self: Owner, op: Op)
    requires op.RegisterService? || op.UnregisterService?
    ensures OnlyTablesMove(s, After(s, self, op))
  {
    match op {
      case RegisterService(name) => ServicesMoveOnly(s, self, name, ServiceFree(s, name), 0);
      case UnregisterService(id) => ServicesMoveOnly(s, self, "", false, id);
    }
  }

  lemma AllStaysWithTickets(s: State, self: Owner, op: Op)
    requires op.Schedule? || op.CancelTask? || op.SendForm?
    ensures OnlyTablesMove(s, After(s, self, op))
  {
    match op {
      case Schedule => TicketsMoveOnly(s, self, false, 0);
      case CancelTask(id) => TicketsMoveOnly(s, self, false, id);
      case SendForm(shown) => TicketsMoveOnly(s, self, shown, 0);
    }
  }

  lemma ModsStay(s: State, self: Owner, op: Op)
    ensures NoModMoves(s, After(s, self, op))
  {
    AllStays(s, self, op);
  }

  /** The `i`-th operation registers `k`, and no later one withdraws it. */
  ghost predicate Leaves(s: State, self: Owner, prog: seq<Op>, i: nat, k: Key) {
    && i < |prog| && Registered(Exec(s, self, prog[..i]), prog[i]) == Some(k)
    && forall j :: i < j < |prog| ==> !Withdraws(prog[j], k)
  }

  ghost predicate LeavesKey(s: State, self: Owner, prog: seq<Op>, k: Key) {
    exists i :: Leaves(s, self, prog, i, k)
  }

  lemma LeavesInFront(s: State, self: Owner, prog: seq<Op>, k: Key)
    requires prog != []
    ensures var n := |prog| - 1;
            LeavesKey(s, self, prog, k) <==>
              || (LeavesKey(s, self, prog[..n], k) && !Withdraws(prog[n], k))
              || Registered(Exec(s, self, prog[..n]), prog[n]) == Some(k)
  {
    var n := |prog| - 1;
    assert Leaves(s, self, prog, n, k) <==> Registered(Exec(s, self, prog[..n]), prog[n]) == Some(k);
    forall i: nat | i < n
      ensures Leaves(s, self, prog, i, k) <==> Leaves(s, self, prog[..n], i, k) && !Withdraws(prog[n], k)
    {
      LeavesLater(s, self, prog, i, k);
    }
  }

  lemma LeavesLater(s: State, self: Owner, prog: seq<Op>, i: nat, k: Key)
    requires i < |prog| - 1
    ensures var n := |prog| - 1;
            Leaves(s, self, prog, i, k) <==> Leaves(s, self, prog[..n], i, k) && !Withdraws(prog[n], k)
  {
    assert prog[..|prog| - 1][..i] == prog[..i];
  }

  predicate WithdrawsIn(prog: seq<Op>, k: Key) {
    exists i :: 0 <= i < |prog| && Withdraws(prog[i], k)
  }

  lemma WithdrawsInFront(prog: seq<Op>, k: Key)
    requires prog != []
    ensures var n := |prog| - 1; WithdrawsIn(prog, k) <==> WithdrawsIn(prog[..n], k) || Withdraws(prog[n], k)
  {
    var n := |prog| - 1;
    if WithdrawsIn(prog[..n], k) {
      var i :| 0 <= i < n && Withdraws(prog[..n][i], k);
      assert Withdraws(prog[i], k);
    }
    if WithdrawsIn(prog, k) && !Withdraws(prog[n], k) {
      var i :| 0 <= i < |prog| && Withdraws(prog[i], k);
      assert Withdraws(prog[..n][i], k);
    }
  }

  /** After a program a mod has exactly what it had or registered, and did not withdraw since. */
  lemma {:induction false} KeysThrough(s: State, self: Owner, prog: seq<Op>, k: Key)
    requires AllPlain(prog)
    ensures Has(Exec(s, self, prog), self.mod, k) <==>
              (Has(s, self.mod, k) && !WithdrawsIn(prog, k)) || LeavesKey(s, self, prog, k)
    decreases |prog|
  {
    if prog != [] {
      var n := |prog| - 1;
      KeysThrough(s, self, prog[..n], k);
      KeysAfter(Exec(s, self, prog[..n]), self, prog[n], k);
      LeavesInFront(s, self, prog, k);
      WithdrawsInFront(prog, k);
    }
  }

  /** So a mod that had nothing has exactly what it registered and did not withdraw. */
  lemma KeysLeft(s: State, self: Owner, prog: seq<Op>, k: Key)
    requires AllPlain(prog) && !Has(s, self.mod, k)
    ensures Has(Exec(s, self, prog), self.mod, k) <==> LeavesKey(s, self, prog, k)
  {
    KeysThrough(s, self, prog, k);
  }

  lemma StackStays(s: State, self: Owner, op: Op)
    ensures var t := After(s, self, op); t.dues == s.dues && t.dying == s.dying && t.nextBorn == s.nextBorn
    ensures var t := After(s, self, op); t.log == s.log && t.loading == s.loading && t.slips == s.slips
  {
    AllStays(s, self, op);
  }

  lemma {:induction false} StackStaysAll(s: State, self: Owner, prog: seq<Op>)
    ensures var t := Exec(s, self, prog); NoModMoves(s, t) && t.dues == s.dues && t.dying == s.dying
    ensures var t := Exec(s, self, prog); t.nextBorn == s.nextBorn && t.log == s.log
    decreases |prog|
  {
    if prog != [] {
      var n := |prog| - 1;
      StackStaysAll(s, self, prog[..n]);
      StackStays(Exec(s, self, prog[..n]), self, prog[n]);
      ModsStay(Exec(s, self, prog[..n]), self, prog[n]);
    }
  }

  /** Nobody else comes by anything. */
  lemma OthersGainNothing(s: State, self: Owner, op: Op, mod: nat, k: Key)
    requires mod != self.mod && Has(After(s, self, op), mod, k)
    ensures Has(s, mod, k)
  {}

  lemma {:induction false} OthersGainNothingAll(s: State, self: Owner, prog: seq<Op>, mod: nat)
    requires mod != self.mod && NothingOf(s, mod)
    ensures NothingOf(Exec(s, self, prog), mod)
    decreases |prog|
  {
    if prog != [] {
      var m, n := Exec(s, self, prog[..|prog| - 1]), |prog| - 1;
      OthersGainNothingAll(s, self, prog[..n], mod);
      NothingMeansNoKey(m, mod);
      NothingMeansNoKey(After(m, self, prog[n]), mod);
      forall k | Has(After(m, self, prog[n]), mod, k)
        ensures Has(m, mod, k)
      {
        OthersGainNothing(m, self, prog[n], mod, k);
      }
    }
  }

  /** So such a program leaves nothing behind if and only if it withdraws all it registered. */
  lemma NothingLeftIff(s: State, self: Owner, prog: seq<Op>)
    requires AllPlain(prog) && NothingOf(s, self.mod)
    ensures NothingOf(Exec(s, self, prog), self.mod) <==> forall k :: !LeavesKey(s, self, prog, k)
  {
    NothingMeansNoKey(s, self.mod);
    NothingMeansNoKey(Exec(s, self, prog), self.mod);
    forall k
      ensures Has(Exec(s, self, prog), self.mod, k) <==> LeavesKey(s, self, prog, k)
    {
      KeysLeft(s, self, prog, k);
    }
  }

  lemma NothingRegistered(s: State, op: Op)
    requires !Registers(op)
    ensures Registered(s, op) == None
  {}

  lemma NoRegistrationNothingLeft(s: State, self: Owner, prog: seq<Op>)
    requires AllPlain(prog) && NothingOf(s, self.mod) && forall op :: op in prog ==> !Registers(op)
    ensures NothingOf(Exec(s, self, prog), self.mod)
  {
    NothingLeftIff(s, self, prog);
    forall k, i: nat | i < |prog|
      ensures !Leaves(s, self, prog, i, k)
    {
      assert prog[i] in prog;
      NothingRegistered(Exec(s, self, prog[..i]), prog[i]);
    }
  }

  predicate PublishesNoLane(prog: seq<Op>) {
    forall op :: op in prog ==> !op.PublishLane?
  }

  lemma LanesStay(s: State, self: Owner, op: Op)
    requires !op.PublishLane?
    ensures After(s, self, op).lanes == s.lanes
  {}

  lemma {:induction false} LanesStayAll(s: State, self: Owner, prog: seq<Op>)
    requires PublishesNoLane(prog)
    ensures Exec(s, self, prog).lanes == s.lanes
    decreases |prog|
  {
    if prog != [] {
      LanesStayAll(s, self, prog[..|prog| - 1]);
      LanesStay(Exec(s, self, prog[..|prog| - 1]), self, prog[|prog| - 1]);
    }
  }
}
