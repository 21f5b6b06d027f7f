/**
 * The loader's tables under re-entrancy: mods whose callbacks are arbitrary finite programs over the
 * same interface, and the load, enable, disable and unload sequences of src/core/RustModManager.cpp.
 */
module Loaders {
  import opened Machine
  import opened Ownership
  import opened Bus
  import opened Services
  import opened LaneBooks
  import opened Lanes
  import opened Tickets
  import opened LoaderState
  import opened LoaderSteps
  import opened LoaderKeeping
  import opened LoaderLifecycle
  import opened LoaderPurge
  import opened LoaderPrograms
  import opened LoaderEffects
  import opened LoaderCalm
  import opened LoaderOutcomes
  import opened LoaderDispatch

  datatype Status = Answered | Failed | NotFound | Refused

  /** The tables, which are objects of their own. */
  datatype Part = BusPart | ServicePart | LanePart | TicketPart

  class Loader {
    const bus: BusTable
    const services: ServiceTable
    const lanes: LaneTable
    const tasks: TicketTable
    const forms: TicketTable
    /** The behaviour of each callback entry, in order: any mods at all. */
    const script: Script
    var calls: nat
    var mods: Mods
    var listed: map<nat, nat>
    var nextBorn: nat
    var budget: nat
    var busDepth: nat
    var serviceDepth: nat
    /** The mods whose objects an unload in progress still holds on to. */
    var dying: set<nat>
    ghost var loading: set<nat>
    ghost var dues: map<nat, Due>
    ghost var accounts: map<nat, Account>
    ghost var log: seq<Entry>
    ghost var leaked: bool
    ghost var rogue: bool
    ghost var slips: bool

    ghost function Now(): State
      reads this, bus, services, lanes, tasks, forms
    {
      State(mods, listed, nextBorn, budget, busDepth, serviceDepth, loading, dying, dues, leaked, rogue, slips,
            calls, log, bus.subs, bus.nextSubId, services.services, services.byName, services.nextId, lanes.lanes,
            lanes.byName, lanes.nextLaneId, lanes.leases, accounts, tasks.pending, tasks.nextId, forms.pending,
            forms.nextId)
    }

    ghost predicate Valid()
      reads this, bus, services, lanes, tasks, forms
    {
      TablesValid() && Good(Now())
    }

    ghost predicate TablesValid()
      reads bus, services, lanes, tasks, forms
    {
      forall part :: PartValid(part)
    }

    ghost predicate PartValid(part: Part)
      reads bus, services, lanes, tasks, forms
    {
      match part
      case BusPart => bus.Valid()
      case ServicePart => services.Valid()
      case LanePart => lanes.Valid()
      case TicketPart => tasks.Valid() && forms.Valid() && tasks != forms
    }

    lemma TablesAre()
      ensures TablesValid() <==>
                && bus.Valid() && services.Valid() && lanes.Valid() && tasks.Valid() && forms.Valid()
                && tasks != forms
    {
      assert PartValid(BusPart) <==> bus.Valid();
      assert PartValid(ServicePart) <==> services.Valid();
      assert PartValid(LanePart) <==> lanes.Valid();
      assert PartValid(TicketPart) <==> tasks.Valid() && forms.Valid() && tasks != forms;
      if PartValid(BusPart) && PartValid(ServicePart) && PartValid(LanePart) && PartValid(TicketPart) {
        forall part
          ensures PartValid(part)
        {
          match part {
            case BusPart =>
            case ServicePart =>
            case LanePart =>
            case TicketPart =>
          }
        }
      }
    }

    lemma NumbersAreFresh()
      requires TablesValid()
      ensures FreshIds(Now()) && LeasesHaveLanes(Now()) && lanes.nextLeaseId !in lanes.leases
    {
      TablesAre();
    }

    constructor (script: Script, budget: nat)
      ensures Valid() && Now() == Blank(budget) && this.script == script
      ensures fresh(bus) && fresh(services) && fresh(lanes) && fresh(tasks) && fresh(forms)
    {
      bus := new BusTable();
      services := new ServiceTable();
      lanes := new LaneTable();
      tasks := new TicketTable();
      forms := new TicketTable();
      this.script, this.budget := script, budget;
      mods, listed, nextBorn, log, leaked, rogue, slips := map[], map[], 0, [], false, false, false;
      calls, busDepth, serviceDepth := 0, 0, 0;
      loading, dying, dues, accounts := {}, {}, map[], map[];
      new;
      TablesAre();
      BlankIsGood(budget);
    }

    /** How much room is left on the call stack for nested dispatches and calls. */
    ghost function Room(): nat
      reads this
    {
      RoomUnder(busDepth) + RoomUnder(serviceDepth)
    }

    // -------------------------------------------------------------- entering a mod

    /** The record of entries grows, and the next behaviour of the script is played. */
    method Append(owner: Owner, kind: Kind) returns (b: Behaviour)
      modifies this`calls, this`log
      ensures b == script(old(calls)) && Now() == Begun(old(Now()), owner, kind)
    {
      log := log + [Entered(Now(), owner, kind)];
      b := script(calls);
      calls := calls + 1;
    }

    method Begin(owner: Owner, kind: Kind) returns (b: Behaviour)
      requires Valid() && (leaked || Alive(mods, owner)) && (kind.Ordinary? || kind.Lifecycle?)
      modifies this`calls, this`log
      ensures Valid() && b == script(old(calls))
      ensures Now() == Begun(old(Now()), owner, kind) && Evolves(old(Now()), Now())
    {
      BeginStep(Now(), owner, kind);
      b := Append(owner, kind);
    }

    /** A callback of a mod: it can do anything a mod can do, for as long as the mod is there. */
    method RunCallback(owner: Owner, kind: Kind) returns (answer: bool, ghost moments: seq<State>)
      requires Valid() && (leaked || Alive(mods, owner)) && (kind.Ordinary? || kind.Lifecycle?)
      modifies this, bus, services, lanes, tasks, forms
      decreases budget, Room(), 2, 0
      ensures Valid() && Evolves(old(Now()), Now())
      ensures answer == script(old(calls)).answer && Played(script, old(Now()), owner, kind, moments, Now())
    {
      var b := Begin(owner, kind);
      ghost var begun := Now();
      moments := Run(owner, b.prog);
      EvolvesTrans(old(Now()), begun, Now());
      answer := b.answer;
    }

    method Run(self: Owner, prog: seq<Op>) returns (ghost moments: seq<State>)
      requires Valid()
      modifies this, bus, services, lanes, tasks, forms
      decreases budget, Room(), 1, 0
      ensures Valid() && Evolves(old(Now()), Now())
      ensures Trace(script, self, prog, moments) && moments[0] == old(Now()) && moments[|prog|] == Now()
    {
      moments := [Now()];
      EvolvesRefl(Now());
      for i := 0 to |prog|
        invariant Valid() && Evolves(old(Now()), Now())
        invariant Trace(script, self, prog[..i], moments) && moments[0] == old(Now()) && moments[i] == Now()
      {
        ghost var before := Now();
        moments := RunNext(self, prog, i, moments);
        EvolvesTrans(old(Now()), before, Now());
      }
      assert prog[..|prog|] == prog;
    }

    method RunNext(self: Owner, prog: seq<Op>, i: nat, ghost moments0: seq<State>) returns (ghost moments: seq<State>)
      requires Valid() && i < |prog| && Trace(script, self, prog[..i], moments0) && moments0[i] == Now()
      modifies this, bus, services, lanes, tasks, forms
      decreases budget, Room(), 0, 24
      ensures Valid() && Evolves(old(Now()), Now())
      ensures Trace(script, self, prog[..i + 1], moments) && moments[0] == moments0[0] && moments[i + 1] == Now()
    {
      RunOne(self, prog[i]);
      moments := moments0 + [Now()];
      TraceGrows(script, self, prog, i, moments0, Now(), moments);
    }

    /** The next operation of a program, if its mod is still there. */
    method RunOne(self: Owner, op: Op)
      requires Valid()
      modifies this, bus, services, lanes, tasks, forms
      decreases budget, Room(), 0, 23
      ensures Valid() && Evolves(old(Now()), Now())
      ensures if Alive(old(mods), self) then Effect(script, self, op, old(Now()), Now()) else Now() == old(Now())
    {
      EvolvesRefl(Now());
      if Alive(mods, self) {
        Perform(self, op);
      }
    }

    method Perform(self: Owner, op: Op)
      requires Valid() && Alive(mods, self)
      modifies this, bus, services, lanes, tasks, forms
      decreases budget, Room(), 0, 22
      ensures Valid() && Evolves(old(Now()), Now())
      ensures Effect(script, self, op, old(Now()), Now())
    {
      match op {
        case Publish(_) => Announce(self, op);
        case CallService(_) => Inquire(self, op);
        case AcquireLane(_, _) => Borrow(self, op);
        case ReleaseLane(_) => Return(self, op);
        case UnpublishLane(_) => Withdraw(self, op);
        case Do(command) => Obey(command);
        case _ => Touch(self, op);
      }
    }

    method Announce(self: Owner, op: Op)
      requires Valid() && op.Publish?
      modifies this, bus, services, lanes, tasks, forms
      decreases budget, Room(), 0, 9
      ensures Valid() && Evolves(old(Now()), Now()) && Effect(script, self, op, old(Now()), Now())
    {
      ghost var was := Now();
      var _, _, ids, moments, runs := Publish(self.mod, op.topic);
      HasPublished(script, self, op, was, ids, moments, runs, Now());
    }

    method Inquire(self: Owner, op: Op)
      requires Valid() && op.CallService?
      modifies this, bus, services, lanes, tasks, forms
      decreases budget, Room(), 0, 9
      ensures Valid() && Evolves(old(Now()), Now()) && Effect(script, self, op, old(Now()), Now())
    {
      ghost var was := Now();
      var _, moments := CallService(self.mod, op.name);
      HasCalled(script, self, op, was, moments, Now());
    }

    method Borrow(self: Owner, op: Op)
      requires Valid() && Alive(mods, self) && op.AcquireLane?
      modifies this, bus, services, lanes, tasks, forms
      decreases budget, 0, 0, 4
      ensures Valid() && Evolves(old(Now()), Now()) && Effect(script, self, op, old(Now()), Now())
    {
      ghost var was, l := Now(), lanes.nextLeaseId;
      var moments := AcquireLane(self, op.name, op.want);
      HasBorrowed(script, self, op, was, l, moments, Now());
    }

    method Return(self: Owner, op: Op)
      requires Valid() && op.ReleaseLane?
      modifies this, bus, services, lanes, tasks, forms
      decreases budget, 0, 0, 4
      ensures Valid() && Evolves(old(Now()), Now()) && Effect(script, self, op, old(Now()), Now())
    {
      ghost var was := Now();
      var moments := ReleaseLane(self, op.lease);
      HasReturned(script, self, op, was, moments, Now());
    }

    method Withdraw(self: Owner, op: Op)
      requires Valid() && op.UnpublishLane?
      modifies this, bus, services, lanes, tasks, forms
      decreases budget, 0, 0, 7
      ensures Valid() && Evolves(old(Now()), Now()) && Effect(script, self, op, old(Now()), Now())
    {
      ghost var was := Now();
      var left, steps, runs := UnpublishLane(self, op.id);
      HasWithdrawn(script, self, op, was, left, steps, runs, Now());
    }

    /** The operations that only touch a table. */
    method Touch(self: Owner, op: Op)
      requires Valid() && Alive(mods, self) && Plain(op)
      modifies this`accounts, this`rogue, bus, services, lanes, tasks, forms
      ensures Valid() && Evolves(old(Now()), Now())
      ensures Now() == After(old(Now()), self, op)
    {
      match op {
        case Subscribe(topic) => this.Subscribe(self, topic);
        case Unsubscribe(id) => this.Unsubscribe(self, id);
        case RegisterService(name) => Register(self, name);
        case UnregisterService(id) => Unregister(self, id);
        case Schedule => AddTask(self);
        case CancelTask(id) => this.CancelTask(self, id);
        case SendForm(shown) => this.SendForm(self, shown);
        case PublishLane(name, desc, wellFormed) => this.PublishLane(self, name, desc, wellFormed);
        case EnterLane(id) => SetBusy(id, 1);
        case LeaveLane(id) => SetBusy(id, -1);
      }
    }

    // -------------------------------------------------------------- bus

    method Subscribe(self: Owner, topic: string)
      requires Valid() && Alive(mods, self)
      modifies this`rogue, bus
      ensures Valid() && Evolves(old(Now()), Now())
      ensures Now() == SubAdded(old(Now()), self, topic, GoodName(topic))
    {
      TablesAre();
      AddSub(self, topic);
      SubsStep(old(Now()), bus.subs, bus.nextSubId, rogue);
      TablesAre();
    }

    method AddSub(self: Owner, topic: string)
      requires bus.Valid()
      modifies this`rogue, bus
      ensures bus.Valid() && Now() == SubAdded(old(Now()), self, topic, GoodName(topic))
      ensures Aged(old(bus.subs), old(bus.nextSubId), bus.subs, bus.nextSubId)
    {
      var id := bus.Subscribe(self, topic);
      rogue := rogue || (id != 0 && self.mod in dying);
      assert Now() == SubAdded(old(Now()), self, topic, GoodName(topic));
    }

    method Unsubscribe(self: Owner, id: nat)
      requires Valid()
      modifies bus
      ensures Valid() && Evolves(old(Now()), Now())
      ensures Now() == SubDropped(old(Now()), self, id)
    {
      TablesAre();
      var _ := bus.Unsubscribe(self.mod, id);
      assert Now() == SubDropped(old(Now()), self, id);
      SubsStep(old(Now()), bus.subs, bus.nextSubId, rogue);
      TablesAre();
    }

    /**
     * Calls every subscriber of the topic but the publisher, oldest first. `ids` and `moments` tell what
     * happened: whose turn came when, and the state of everything at that moment.
     */
    method Publish(publisher: nat, topic: string)
      returns (vetoed: bool, delivered: nat, ghost ids: seq<nat>, ghost moments: seq<State>,
               ghost runs: seq<seq<State>>)
      requires Valid()
      modifies this, bus, services, lanes, tasks, forms
      decreases budget, Room(), 0, 8
      ensures Valid() && Evolves(old(Now()), Now())
      ensures !GoodName(topic) || old(busDepth) >= MAX_DEPTH ==>
                !vetoed && delivered == 0 && ids == [] && Now() == old(Now())
      ensures GoodName(topic) && old(busDepth) < MAX_DEPTH ==>
                && Dispatched(script, publisher, topic, old(Now()), ids, moments, runs, Now())
                && Reports(script, ids, moments, runs, delivered, vetoed)
    {
      vetoed, delivered, ids, moments, runs := false, 0, [], [], [];
      EvolvesRefl(Now());
      if !GoodName(topic) || busDepth >= MAX_DEPTH { return; }
      TablesAre();
      var order := bus.IdsFor(topic, publisher);
      ids := order;
      vetoed, delivered, moments, runs := Dispatch(order);
    }

    method Dispatch(ids: seq<nat>)
      returns (vetoed: bool, delivered: nat, ghost moments: seq<State>, ghost runs: seq<seq<State>>)
      requires Valid() && busDepth < MAX_DEPTH
      modifies this, bus, services, lanes, tasks, forms
      decreases budget, Room(), 0, 7
      ensures Valid() && Evolves(old(Now()), Now())
      ensures Reports(script, ids, moments, runs, delivered, vetoed)
      ensures moments[0] == InBus(old(Now())) && moments[|ids|] == InBus(Now())
    {
      PushBus();
      vetoed, delivered, moments, runs := FireAll(ids);
      PopBus(old(Now()));
    }

    method PushBus()
      requires Valid() && busDepth < MAX_DEPTH
      modifies this`busDepth
      ensures Valid() && Now() == InBus(old(Now()))
    {
      IntoBus(Now());
      MoreBus();
    }

    method MoreBus()
      modifies this`busDepth
      ensures Now() == InBus(old(Now()))
    {
      busDepth := busDepth + 1;
    }

    method PopBus(ghost outside: State)
      requires Valid() && Evolves(InBus(outside), Now())
      modifies this`busDepth
      ensures Valid() && Evolves(outside, Now()) && InBus(Now()) == old(Now())
    {
      BackFromBus(outside, Now());
      busDepth := busDepth - 1;
      assert Now() == old(Now()).(busDepth := outside.busDepth);
    }

    method FireAll(ids: seq<nat>)
      returns (vetoed: bool, delivered: nat, ghost moments: seq<State>, ghost runs: seq<seq<State>>)
      requires Valid()
      modifies this, bus, services, lanes, tasks, forms
      decreases budget, Room(), 4, 0
      ensures Valid() && Evolves(old(Now()), Now())
      ensures Reports(script, ids, moments, runs, delivered, vetoed)
      ensures moments[0] == old(Now()) && moments[|ids|] == Now()
    {
      vetoed, delivered, moments, runs := false, 0, [Now()], [];
      for i := 0 to |ids|
        invariant Valid() && SameDepths(old(Now()), Now())
        invariant Reports(script, ids[..i], moments, runs, delivered, vetoed)
        invariant moments[0] == old(Now()) && moments[i] == Now()
      {
        vetoed, delivered, moments, runs := FireNext(ids, i, vetoed, delivered, moments, runs);
      }
      assert ids[..|ids|] == ids;
      TurnsEvolve(script, ids, moments, runs, 0, |ids|);
    }

    method FireNext(ids: seq<nat>, i: nat, vetoed0: bool, delivered0: nat, ghost moments0: seq<State>,
                    ghost runs0: seq<seq<State>>)
      returns (vetoed: bool, delivered: nat, ghost moments: seq<State>, ghost runs: seq<seq<State>>)
      requires Valid() && i < |ids| && Reports(script, ids[..i], moments0, runs0, delivered0, vetoed0)
      requires moments0[i] == Now()
      modifies this, bus, services, lanes, tasks, forms
      decreases budget, Room(), 3, 1
      ensures Valid() && SameDepths(old(Now()), Now())
      ensures Reports(script, ids[..i + 1], moments, runs, delivered, vetoed)
      ensures moments[0] == moments0[0] && moments[i + 1] == Now()
    {
      var veto, ran;
      ghost var run;
      veto, ran, run := FireOne(ids[i]);
      moments, runs := moments0 + [Now()], runs0 + [run];
      OneMoreTurn(script, ids, i, moments0, runs0, run, Now(), delivered0, vetoed0, ran, veto);
      delivered, vetoed := delivered0 + (if ran then 1 else 0), vetoed0 || (ran && veto);
    }

    /** The subscription is looked up again when its turn comes; the mod behind it must be enabled. */
    method FireOne(id: nat) returns (veto: bool, ran: bool, ghost run: seq<State>)
      requires Valid()
      modifies this, bus, services, lanes, tasks, forms
      decreases budget, Room(), 3, 0
      ensures Valid() && Turn(script, old(Now()), id, run, Now())
      ensures ran <==> Fires(old(Now()), id)
      ensures veto <==> ran && script(old(calls)).answer
    {
      EvolvesRefl(Now());
      run := [];
      if id !in bus.subs { return false, false, run; }
      var owner := bus.subs[id].owner;
      if owner.mod !in mods || !mods[owner.mod].phase.Enabled? { return false, false, run; }
      ran := true;
      SubscriberIsAlive(Now(), id);
      veto, run := RunCallback(owner, Ordinary);
    }

    // -------------------------------------------------------------- services

    method Register(self: Owner, name: string)
      requires Valid() && Alive(mods, self)
      modifies this`rogue, services
      ensures Valid() && Evolves(old(Now()), Now())
      ensures Now() == ServiceAdded(old(Now()), self, name, ServiceFree(old(Now()), name))
    {
      TablesAre();
      AddService(self, name);
      ServicesStep(old(Now()), services.services, services.byName, services.nextId, rogue);
      TablesAre();
    }

    method AddService(self: Owner, name: string)
      requires services.Valid()
      modifies this`rogue, services
      ensures services.Valid() && Now() == ServiceAdded(old(Now()), self, name, ServiceFree(old(Now()), name))
    {
      var id := services.Register(self, name);
      rogue := rogue || (id != 0 && self.mod in dying);
      assert Now() == ServiceAdded(old(Now()), self, name, id != 0);
    }

    method Unregister(self: Owner, id: nat)
      requires Valid()
      modifies services
      ensures Valid() && Evolves(old(Now()), Now())
      ensures Now() == ServiceDropped(old(Now()), self, id)
    {
      TablesAre();
      var _ := services.Unregister(self.mod, id);
      assert Now() == ServiceDropped(old(Now()), self, id);
      ServicesStep(old(Now()), services.services, services.byName, services.nextId, rogue);
      TablesAre();
    }

    /** `caller` is 0 when there is none. */
    method CallService(caller: nat, name: string) returns (status: Status, ghost moments: seq<State>)
      requires Valid()
      modifies this, bus, services, lanes, tasks, forms
      decreases budget, Room(), 0, 8
      ensures Valid() && Evolves(old(Now()), Now())
      ensures if Callable(old(Now()), caller, name) then
                && status == (if script(old(calls)).answer then Answered else Failed)
                && Played(script, InService(old(Now())), ProviderOf(old(Now()), name).value, Ordinary, moments,
                          InService(Now()))
              else
                && Now() == old(Now())
                && status == if Unasked(old(Now()), caller, name) then Status.Refused else Status.NotFound
    {
      EvolvesRefl(Now());
      moments := [];
      if !GoodName(name) || serviceDepth >= MAX_DEPTH { return Status.Refused, moments; }
      var found := FindProvider(name);
      if found.None? { return Status.NotFound, moments; }
      if caller != 0 && found.value.mod == caller { return Status.Refused, moments; }
      if !Alive(mods, found.value) { return Status.NotFound, moments; }
      status, moments := Answer(found.value);
    }

    method FindProvider(name: string) returns (r: Option<Owner>)
      requires Valid()
      ensures r == ProviderOf(Now(), name)
    {
      TablesAre();
      var found := services.Lookup(name);
      return if found.Some? then Some(found.value.owner) else None;
    }

    method Answer(provider: Owner) returns (status: Status, ghost moments: seq<State>)
      requires Valid() && Alive(mods, provider) && serviceDepth < MAX_DEPTH
      modifies this, bus, services, lanes, tasks, forms
      decreases budget, Room(), 0, 7
      ensures Valid() && Evolves(old(Now()), Now())
      ensures status == if script(old(calls)).answer then Answered else Failed
      ensures Played(script, InService(old(Now())), provider, Ordinary, moments, InService(Now()))
    {
      var ok;
      ok, moments := EnterProvider(provider);
      status := if ok then Answered else Failed;
    }

    method EnterProvider(provider: Owner) returns (ok: bool, ghost moments: seq<State>)
      requires Valid() && Alive(mods, provider) && serviceDepth < MAX_DEPTH
      modifies this, bus, services, lanes, tasks, forms
      decreases budget, Room(), 0, 6
      ensures Valid() && Evolves(old(Now()), Now())
      ensures ok == script(old(calls)).answer
      ensures Played(script, InService(old(Now())), provider, Ordinary, moments, InService(Now()))
    {
      PushService();
      ok, moments := RunCallback(provider, Ordinary);
      PopService(old(Now()));
    }

    method PushService()
      requires Valid() && serviceDepth < MAX_DEPTH
      modifies this`serviceDepth
      ensures Valid() && Now() == InService(old(Now()))
    {
      IntoService(Now());
      MoreService();
    }

    method MoreService()
      modifies this`serviceDepth
      ensures Now() == InService(old(Now()))
    {
      serviceDepth := serviceDepth + 1;
    }

    method PopService(ghost outside: State)
      requires Valid() && Evolves(InService(outside), Now())
      modifies this`serviceDepth
      ensures Valid() && Evolves(outside, Now()) && InService(Now()) == old(Now())
    {
      BackFromService(outside, Now());
      serviceDepth := serviceDepth - 1;
      assert Now() == old(Now()).(serviceDepth := outside.serviceDepth);
    }

    // -------------------------------------------------------------- tickets

    method AddTask(self: Owner)
      requires Valid() && Alive(mods, self)
      modifies this`rogue, tasks
      ensures Valid() && Evolves(old(Now()), Now())
      ensures Now() == TaskAdded(old(Now()), self)
    {
      TablesAre();
      var _ := tasks.Register(self);
      rogue := RogueAfter(Now(), self);
      assert Now() == TaskAdded(old(Now()), self);
      TasksStep(old(Now()), tasks.pending, tasks.nextId, rogue);
      TablesAre();
    }

    method CancelTask(self: Owner, id: nat)
      requires Valid()
      modifies tasks
      ensures Valid() && Evolves(old(Now()), Now())
      ensures Now() == TaskDropped(old(Now()), self, id)
    {
      TablesAre();
      var _ := tasks.Cancel(self.mod, id);
      assert Now() == TaskDropped(old(Now()), self, id);
      TasksStep(old(Now()), tasks.pending, tasks.nextId, rogue);
      TablesAre();
    }

    /** When the form cannot be shown its ticket is withdrawn. */
    method SendForm(self: Owner, shown: bool)
      requires Valid() && Alive(mods, self)
      modifies this`rogue, forms
      ensures Valid() && Evolves(old(Now()), Now())
      ensures Now() == FormSent(old(Now()), self, shown)
    {
      TablesAre();
      forms.Offer(self, shown);
      rogue := rogue || (shown && self.mod in dying);
      FormsStep(old(Now()), forms.pending, forms.nextId, rogue);
      assert Now() == FormSent(old(Now()), self, shown);
      TablesAre();
    }

    /** A task comes due: it fires if it is still pending and its mod still there and enabled, and never again. */
    method RunTask(id: nat) returns (fired: bool, ghost moments: seq<State>)
      requires Valid()
      modifies this, bus, services, lanes, tasks, forms
      ensures Valid() && Evolves(old(Now()), Now())
      ensures fired <==> && id in old(tasks.pending)
                         && Alive(old(mods), old(tasks.pending)[id]) && Runs(old(mods), old(tasks.pending)[id].mod)
      ensures id !in tasks.pending
      ensures var taken := old(Now()).(tasks := old(tasks.pending) - {id});
              if fired then Played(script, taken, old(tasks.pending)[id], Ordinary, moments, Now()) else Now() == taken
    {
      var task := TakeTask(id);
      if task.None? { return false, []; }
      ghost var taken := Now();
      fired, moments := Deliver(tasks.armed[id], task.value);
      EvolvesTrans(old(Now()), taken, Now());
    }

    method TakeTask(id: nat) returns (task: Option<Owner>)
      requires Valid()
      modifies tasks
      ensures Valid() && Evolves(old(Now()), Now())
      ensures Now() == old(Now()).(tasks := old(tasks.pending) - {id})
      ensures task == if id in old(tasks.pending) then Some(old(tasks.pending)[id]) else None
      ensures task.Some? ==> id < tasks.nextId && id in tasks.armed && tasks.armed[id] == task.value
    {
      TablesAre();
      task := tasks.Take(id);
      assert Now() == old(Now()).(tasks := old(tasks.pending) - {id});
      TasksStep(old(Now()), tasks.pending, tasks.nextId, rogue);
      TablesAre();
    }

    method CompleteForm(id: nat) returns (fired: bool, ghost moments: seq<State>)
      requires Valid()
      modifies this, bus, services, lanes, tasks, forms
      ensures Valid() && Evolves(old(Now()), Now())
      ensures fired <==> && id in old(forms.pending)
                         && Alive(old(mods), old(forms.pending)[id]) && Runs(old(mods), old(forms.pending)[id].mod)
      ensures id !in forms.pending
      ensures var taken := old(Now()).(forms := old(forms.pending) - {id});
              if fired then Played(script, taken, old(forms.pending)[id], Ordinary, moments, Now()) else Now() == taken
    {
      var form := TakeForm(id);
      if form.None? { return false, []; }
      ghost var taken := Now();
      fired, moments := Deliver(forms.armed[id], form.value);
      EvolvesTrans(old(Now()), taken, Now());
    }

    method TakeForm(id: nat) returns (form: Option<Owner>)
      requires Valid()
      modifies forms
      ensures Valid() && Evolves(old(Now()), Now())
      ensures Now() == old(Now()).(forms := old(forms.pending) - {id})
      ensures form == if id in old(forms.pending) then Some(old(forms.pending)[id]) else None
      ensures form.Some? ==> id < forms.nextId && id in forms.armed && forms.armed[id] == form.value
    {
      TablesAre();
      form := forms.Take(id);
      assert Now() == old(Now()).(forms := old(forms.pending) - {id});
      FormsStep(old(Now()), forms.pending, forms.nextId, rogue);
      TablesAre();
    }

    /** What the closure does with its weak pointer and the owner found in the table. */
    method Deliver(weak: Owner, owner: Owner) returns (fired: bool, ghost moments: seq<State>)
      requires Valid() && weak == owner
      modifies this, bus, services, lanes, tasks, forms
      ensures Valid() && Evolves(old(Now()), Now())
      ensures fired <==> Alive(old(mods), owner) && Runs(old(mods), owner.mod)
      ensures if fired then Played(script, old(Now()), owner, Ordinary, moments, Now()) else Now() == old(Now())
    {
      EvolvesRefl(Now());
      if !Alive(mods, weak) || weak.mod != owner.mod { return false, []; }
      if !mods[weak.mod].phase.Enabled? { return false, []; }
      fired := true;
      var answer;
      answer, moments := RunCallback(owner, Ordinary);
    }

    // -------------------------------------------------------------- one level deeper

    method PushDeeper()
      requires Valid() && budget > 0
      modifies this`budget
      ensures Valid() && Now() == Deeper(old(Now()))
    {
      IntoDeeper(Now());
      budget := budget - 1;
      assert Now() == Deeper(old(Now()));
    }

    method PopDeeper(ghost outside: State)
      requires Valid() && outside.budget > 0 && Evolves(Deeper(outside), Now())
      modifies this`budget
      ensures Valid() && Evolves(outside, Now()) && Now() == old(Now()).(budget := outside.budget)
    {
      BackFromDeeper(outside, Now());
      budget := budget + 1;
      assert Now() == old(Now()).(budget := outside.budget);
    }

    /** A callback that has begun already runs to its end. */
    method RunDeeper(owner: Owner, prog: seq<Op>) returns (ghost moments: seq<State>)
      requires Valid() && budget > 0
      modifies this, bus, services, lanes, tasks, forms
      decreases budget, 0, 0, 0
      ensures Valid() && Continued(script, old(Now()), owner, prog, moments, Now())
    {
      PushDeeper();
      moments := Run(owner, prog);
      PopDeeper(old(Now()));
    }

    /** The same when there may be no callback. */
    method RunDeeperIf(provider: Option<Owner>, prog: seq<Op>) returns (ghost moments: seq<State>)
      requires Valid() && budget > 0
      modifies this, bus, services, lanes, tasks, forms
      decreases budget, 0, 0, 1
      ensures Valid() && Evolves(old(Now()), Now())
      ensures ContinuedIf(script, old(Now()), provider, prog, moments, Now())
    {
      EvolvesRefl(Now());
      moments := [];
      if provider.Some? {
        moments := RunDeeper(provider.value, prog);
      }
    }

    /** One of a mod's own lifecycle functions is run. */
    method CallDeeper(owner: Owner, kind: Kind) returns (answer: bool, ghost moments: seq<State>)
      requires Valid() && budget > 0 && (leaked || Alive(mods, owner)) && (kind.Ordinary? || kind.Lifecycle?)
      modifies this, bus, services, lanes, tasks, forms
      decreases budget, 0, 0, 0
      ensures Valid() && Evolves(old(Now()), Now())
      ensures answer == script(old(calls)).answer && Called(script, old(Now()), owner, kind, moments, Now())
    {
      ghost var was := Now();
      BeginStep(was, owner, kind);
      BegunDeeper(was, owner, kind);
      PushDeeper();
      answer, moments := RunCallback(owner, kind);
      PopDeeper(Begun(was, owner, kind));
      EvolvesTrans(was, Begun(was, owner, kind), Now());
    }

    // -------------------------------------------------------------- lanes

    method PublishLane(self: Owner, name: string, desc: Desc, wellFormed: bool)
      requires Valid() && Alive(mods, self)
      modifies this`accounts, this`rogue, lanes
      ensures Valid() && Evolves(old(Now()), Now())
      ensures Now() == LaneAdded(old(Now()), self, name, desc, LaneAccepted(old(Now()), name, desc, wellFormed))
    {
      TablesAre();
      LaneAddedStep(Now(), self, name, desc, LaneAccepted(Now(), name, desc, wellFormed));
      AddLane(self, name, desc, wellFormed);
      TablesAre();
    }

    method AddLane(self: Owner, name: string, desc: Desc, wellFormed: bool)
      requires lanes.Valid()
      modifies this`accounts, this`rogue, lanes
      ensures lanes.Valid()
      ensures Now() == LaneAdded(old(Now()), self, name, desc, LaneAccepted(old(Now()), name, desc, wellFormed))
    {
      var id := lanes.Publish(self, name, desc, wellFormed);
      Record(self, if id != 0 then accounts[id := Account(self, desc, 0)] else accounts, id != 0);
      assert Now() == LaneAdded(old(Now()), self, name, desc, id != 0);
    }

    /** `moments` is the run of `retain`. */
    method AcquireLane(self: Owner, name: string, want: nat) returns (ghost moments: seq<State>)
      requires Valid() && Alive(mods, self)
      modifies this, bus, services, lanes, tasks, forms
      decreases budget, 0, 0, 3
      ensures Valid() && Evolves(old(Now()), Now())
      ensures if old(budget) > 0 && Grantable(old(Now()), self, name, want) then
                GrantRuns(script, old(Now()), self, old(lanes.byName)[name], old(lanes.nextLeaseId), moments, Now())
              else
                Now() == old(Now())
    {
      EvolvesRefl(Now());
      moments := [];
      var grantable := CanAcquire(self, name, want);
      if budget > 0 && grantable {
        moments := Lend(self, name, want);
      }
    }

    method Lend(self: Owner, name: string, want: nat) returns (ghost moments: seq<State>)
      requires Valid() && budget > 0 && Alive(mods, self) && Grantable(Now(), self, name, want)
      modifies this, bus, services, lanes, tasks, forms
      decreases budget, 0, 0, 2
      ensures Valid() && Evolves(old(Now()), Now())
      ensures GrantRuns(script, old(Now()), self, old(lanes.byName)[name], old(lanes.nextLeaseId), moments, Now())
    {
      ghost var was := Now();
      NumbersAreFresh();
      GrantStep(was, self, lanes.byName[name], lanes.nextLeaseId);
      var provider, prog := Grant(self, name, want);
      ghost var granted := Now();
      moments := RunDeeperIf(provider, prog);
      EvolvesTrans(was, granted, Now());
    }

    method CanAcquire(self: Owner, name: string, want: nat) returns (ok: bool)
      requires Valid()
      ensures ok == Grantable(Now(), self, name, want)
    {
      TablesAre();
      if !GoodName(name) || name !in lanes.byName { return false; }
      LaneHasAccount(Now(), lanes.byName[name]);
      var lane := lanes.lanes[lanes.byName[name]];
      return lane.owner.mod != self.mod && Alive(mods, lane.owner) && want != 0 && want == lane.desc.fingerprint;
    }

    /** The lease, and the beginning of `retain`: whose and what it does, if the provider gave that callback. */
    method Grant(self: Owner, name: string, want: nat) returns (provider: Option<Owner>, prog: seq<Op>)
      requires TablesValid() && Grantable(Now(), self, name, want)
      requires Good(Granted(Now(), self, lanes.byName[name], lanes.nextLeaseId))
      modifies this`accounts, this`rogue, this`calls, this`log, lanes
      ensures Valid()
      ensures var id := old(lanes.byName)[name];
              && Now() == Granted(old(Now()), self, id, old(lanes.nextLeaseId))
              && provider == ToEnter(old(lanes.lanes)[id].owner, old(lanes.lanes)[id].desc.retain)
              && (provider.Some? ==> prog == script(old(calls)).prog)
    {
      var id := lanes.byName[name];
      var lane := lanes.lanes[id];
      AddLease(self, name, want);
      provider, prog := AppendIf(lane.owner, Retain(id), lane.desc.retain);
      assert Now() == Granted(old(Now()), self, id, old(lanes.nextLeaseId));
    }

    /** Enters a provider's callback if it gave one. */
    method AppendIf(owner: Owner, kind: Kind, enters: bool) returns (provider: Option<Owner>, prog: seq<Op>)
      modifies this`calls, this`log
      ensures Now() == Entering(old(Now()), owner, kind, enters)
      ensures provider == ToEnter(owner, enters) && (enters ==> prog == script(old(calls)).prog)
    {
      provider, prog := None, [];
      if enters {
        var b := Append(owner, kind);
        provider, prog := Some(owner), b.prog;
      }
      assert Now() == Entering(old(Now()), owner, kind, enters);
    }

    /** The table's part. */
    method AddLease(self: Owner, name: string, want: nat)
      requires TablesValid() && Grantable(Now(), self, name, want)
      modifies this`accounts, this`rogue, lanes
      ensures TablesValid()
      ensures Now() == LeaseAdded(old(Now()), self, old(lanes.byName)[name], old(lanes.nextLeaseId))
    {
      ghost var id := lanes.byName[name];
      TakeLease(self, name, want);
      Record(self, OneMoreTaken(accounts, id), true);
    }

    /** What only the proof keeps: the accounts, and whether a dying mod has registered something. */
    ghost method Record(self: Owner, after: map<nat, Account>, registered: bool)
      modifies this`accounts, this`rogue
      ensures Now() == old(Now()).(accounts := after, rogue := old(rogue) || (registered && self.mod in dying))
    {
      accounts := after;
      rogue := rogue || (registered && self.mod in dying);
    }

    method TakeLease(self: Owner, name: string, want: nat)
      requires TablesValid() && Grantable(Now(), self, name, want)
      modifies lanes
      ensures TablesValid()
      ensures var s, id, l := old(Now()), old(lanes.byName)[name], old(lanes.nextLeaseId);
              Now() == s.(lanes := WithLeases(s.lanes, id, s.lanes[id].leases + 1),
                          leases := s.leases[l := Lease(self, id)])
    {
      TablesAre();
      var r := lanes.Acquire(self, name, want, Living(mods));
      assert r == Acquired.Ok(old(lanes.nextLeaseId));
      TablesAre();
    }

    /** Gives back one lease of the caller; a lease already given back on its behalf is not released again. */
    method ReleaseLane(self: Owner, lease: nat) returns (ghost moments: seq<State>)
      requires Valid()
      modifies this, bus, services, lanes, tasks, forms
      decreases budget, 0, 0, 3
      ensures Valid() && Evolves(old(Now()), Now())
      ensures if old(budget) > 0 && lease in old(lanes.leases) && old(lanes.leases)[lease].holder.mod == self.mod then
                ReturnRuns(script, old(Now()), lease, moments, Now())
              else
                Now() == old(Now())
    {
      EvolvesRefl(Now());
      moments := [];
      if budget == 0 || lease !in lanes.leases || lanes.leases[lease].holder.mod != self.mod { return; }
      moments := GiveBack(lease);
    }

    method GiveBack(l: nat) returns (ghost moments: seq<State>)
      requires Valid() && budget > 0 && l in lanes.leases
      modifies this, bus, services, lanes, tasks, forms
      decreases budget, 0, 0, 2
      ensures Valid() && Evolves(old(Now()), Now()) && ReturnRuns(script, old(Now()), l, moments, Now())
    {
      ghost var was := Now();
      var provider, prog := BeginReturn(l);
      ghost var given := Now();
      moments := RunDeeperIf(provider, prog);
      HasGivenBack(script, was, l, provider, prog, moments, Now());
      EvolvesTrans(was, given, Now());
    }

    method BeginReturn(l: nat) returns (provider: Option<Owner>, prog: seq<Op>)
      requires Valid() && l in lanes.leases
      modifies this`calls, this`log, lanes
      ensures Valid() && CanGiveBack(old(Now()), l) && Now() == GivenBack(old(Now()), l)
      ensures Evolves(old(Now()), Now())
      ensures var lane := old(lanes.lanes)[old(lanes.leases)[l].laneId];
              provider == ToEnter(lane.owner, lane.desc.release) && (provider.Some? ==> prog == script(old(calls)).prog)
    {
      TablesAre();
      LeaseHasLane(lanes.lanes, lanes.leases, lanes.holders, l);
      GiveBackStep(Now(), l);
      provider, prog := TakeBack(l);
    }

    /** The lease goes, and `release` begins, if the provider gave that callback. */
    method TakeBack(l: nat) returns (provider: Option<Owner>, prog: seq<Op>)
      requires TablesValid() && CanGiveBack(Now(), l) && Good(GivenBack(Now(), l))
      modifies this`calls, this`log, lanes
      ensures Valid() && Now() == GivenBack(old(Now()), l)
      ensures var lane := old(lanes.lanes)[old(lanes.leases)[l].laneId];
              provider == ToEnter(lane.owner, lane.desc.release) && (provider.Some? ==> prog == script(old(calls)).prog)
    {
      var id := lanes.leases[l].laneId;
      var lane := lanes.lanes[id];
      DropLease(l);
      provider, prog := AppendIf(lane.owner, Release(id), lane.desc.release);
      assert Now() == GivenBack(old(Now()), l);
    }

    method DropLease(l: nat)
      requires TablesValid() && CanGiveBack(Now(), l)
      modifies lanes
      ensures TablesValid() && Now() == LeaseTakenOut(old(Now()), l)
    {
      TablesAre();
      DropFromTable(l);
      TablesAre();
    }

    method DropFromTable(l: nat)
      requires lanes.Valid() && CanGiveBack(Now(), l)
      modifies lanes
      ensures lanes.Valid() && Now() == LeaseTakenOut(old(Now()), l)
    {
      lanes.Drop(l);
      assert Now() == old(Now()).(lanes := lanes.lanes, leases := lanes.leases);
    }

    /** `steps` and `runs` tell what the releases do, one after the other. */
    method UnpublishLane(self: Owner, id: nat)
      returns (ghost left: map<nat, Lease>, ghost steps: seq<State>, ghost runs: seq<seq<State>>)
      requires Valid()
      modifies this, bus, services, lanes, tasks, forms
      decreases budget, 0, 0, 6
      ensures Valid() && Evolves(old(Now()), Now())
      ensures if old(budget) > 0 && id in old(lanes.lanes) && old(lanes.lanes)[id].owner.mod == self.mod then
                RetireRuns(script, old(Now()), id, left, steps, runs, Now())
              else
                Now() == old(Now())
    {
      EvolvesRefl(Now());
      left, steps, runs := map[], [], [];
      if budget == 0 || id !in lanes.lanes || lanes.lanes[id].owner.mod != self.mod { return; }
      left, steps, runs := RetireLane(id);
    }

    /** The lane goes with its leases; then `release` is entered once for the publisher and once a lease. */
    method RetireLane(id: nat)
      returns (ghost left: map<nat, Lease>, ghost steps: seq<State>, ghost runs: seq<seq<State>>)
      requires Valid() && budget > 0 && id in lanes.lanes
      modifies this, bus, services, lanes, tasks, forms
      decreases budget, 0, 0, 5
      ensures Valid() && Evolves(old(Now()), Now()) && Retires(old(Now()), Now(), id, left)
      ensures RetireRuns(script, old(Now()), id, left, steps, runs, Now())
    {
      ghost var was := Now();
      var owner, releases := lanes.lanes[id].owner, 0;
      releases, left := TakeDown(id);
      TakeDownStep(was, id, left);
      DueAtFirst(was, id, left);
      ghost var down := Now();
      steps, runs := PayAll(was.dues, id, owner, releases);
      PaidInFull(was, down, Now(), id, left);
    }

    method TakeDown(id: nat) returns (releases: nat, ghost left: map<nat, Lease>)
      requires TablesValid() && id in lanes.lanes
      modifies this`dues, lanes
      ensures TablesValid() && WithoutLane(old(lanes.leases), id, left) && Now() == TakenDown(old(Now()), id, left)
      ensures releases == ReleasesDue(old(lanes.lanes)[id])
    {
      var lane := lanes.lanes[id];
      releases, left := DropLane(id);
      dues := WithDue(dues, id, lane);
      assert Now() == TakenDown(old(Now()), id, left);
    }

    method DropLane(id: nat) returns (releases: nat, ghost left: map<nat, Lease>)
      requires TablesValid() && id in lanes.lanes
      modifies lanes
      ensures TablesValid() && WithoutLane(old(lanes.leases), id, left)
      ensures Now() == TakenDown(old(Now()), id, left).(dues := dues)
      ensures releases == ReleasesDue(old(lanes.lanes)[id])
    {
      TablesAre();
      var lane := lanes.lanes[id];
      var outstanding := lanes.Retire(id);
      left := lanes.leases;
      releases := if lane.desc.release then 1 + outstanding else 0;
      assert Now() == TakenDown(old(Now()), id, left).(dues := dues);
      TablesAre();
    }

    /** `release` is entered once for the publisher and once for each lease; in between anything may happen. */
    method PayAll(ghost others: map<nat, Due>, id: nat, owner: Owner, releases: nat)
      returns (ghost steps: seq<State>, ghost runs: seq<seq<State>>)
      requires Valid() && budget > 0 && dues == StillDue(others, id, owner, releases)
      modifies this, bus, services, lanes, tasks, forms
      decreases budget, 0, 0, 3
      ensures Valid() && Retiring(old(Now()), Now(), others - {id})
      ensures Payments(script, id, owner, steps, runs) && |runs| == releases
      ensures steps[0] == old(Now()) && steps[releases] == Now()
    {
      var left := releases;
      steps, runs := [Now()], [];
      while left > 0
        invariant Valid() && StackWith(old(Now()), Now(), StillDue(others, id, owner, left))
        invariant Payments(script, id, owner, steps, runs) && |runs| == releases - left
        invariant steps[0] == old(Now()) && steps[|runs|] == Now()
      {
        steps, runs := PayNext(others, id, owner, left, steps, runs);
        left := left - 1;
      }
      PaymentsEvolve(script, id, owner, steps, runs, releases);
    }

    method PayNext(ghost others: map<nat, Due>, id: nat, owner: Owner, ghost left: nat, ghost steps0: seq<State>,
                   ghost runs0: seq<seq<State>>)
      returns (ghost steps: seq<State>, ghost runs: seq<seq<State>>)
      requires Valid() && budget > 0 && left > 0 && dues == StillDue(others, id, owner, left)
      requires Payments(script, id, owner, steps0, runs0) && steps0[|runs0|] == Now()
      modifies this, bus, services, lanes, tasks, forms
      decreases budget, 0, 0, 2
      ensures Valid() && StackWith(old(Now()), Now(), StillDue(others, id, owner, left - 1))
      ensures Payments(script, id, owner, steps, runs) && |runs| == |runs0| + 1
      ensures steps[0] == steps0[0] && steps[|runs|] == Now()
    {
      OneLessDue(others, id, owner, left);
      ghost var run := PayOne(id, owner);
      PaymentsGrow(script, id, owner, steps0, runs0, run, Now());
      steps, runs := steps0 + [Now()], runs0 + [run];
    }

    /** One of the releases. */
    method PayOne(id: nat, owner: Owner) returns (ghost run: seq<State>)
      requires Valid() && budget > 0 && id in dues && dues[id].owner == owner
      modifies this, bus, services, lanes, tasks, forms
      decreases budget, 0, 0, 1
      ensures Valid() && StackWith(old(Now()), Now(), OneLess(old(dues), id))
      ensures Paid(script, old(Now()), id, owner, run, Now())
    {
      ghost var was := Now();
      DueStep(was, id);
      var prog := BeginDue(id, owner);
      ghost var made := Now();
      run := RunDeeper(owner, prog);
      GrowsTrans(was, made, Now());
    }

    method BeginDue(id: nat, owner: Owner) returns (prog: seq<Op>)
      requires TablesValid() && id in dues && dues[id].owner == owner && Good(DueMade(Now(), id))
      modifies this`dues, this`calls, this`log
      ensures Valid() && Now() == DueMade(old(Now()), id) && prog == script(old(calls)).prog
    {
      dues := OneLess(dues, id);
      var b := Append(owner, Release(id));
      prog := b.prog;
    }

    /** A consumer enters or leaves an entry of a lane. */
    method SetBusy(id: nat, change: int)
      requires Valid()
      modifies lanes
      ensures Valid() && Evolves(old(Now()), Now()) && Now() == old(Now())
    {
      TablesAre();
      if id in lanes.cells && lanes.cells[id].busy + change >= 0 {
        lanes.SetBusy(id, lanes.cells[id].busy + change);
      }
      assert Now() == old(Now());
      EvolvesRefl(Now());
      TablesAre();
    }

    // -------------------------------------------------------------- mods come and go

    method Bear(mod: nat, name: nat)
      requires TablesValid() && mod !in mods && Good(Born(Now(), mod, name))
      modifies this`mods, this`nextBorn, this`loading
      ensures Valid() && Now() == Born(old(Now()), mod, name)
    {
      MakeObject(mod, name);
    }

    method MakeObject(mod: nat, name: nat)
      modifies this`mods, this`nextBorn, this`loading
      ensures Now() == Born(old(Now()), mod, name)
    {
      mods := mods[mod := ModState(nextBorn, name, Loading)];
      nextBorn := nextBorn + 1;
      loading := loading + {mod};
    }

    method Admit(mod: nat)
      requires TablesValid() && mod in mods && Good(Admitted(Now(), mod))
      modifies this`mods, this`listed, this`loading
      ensures Valid() && Now() == Admitted(old(Now()), mod)
    {
      listed := listed[mods[mod].name := mod];
      mods := mods[mod := mods[mod].(phase := Disabled)];
      loading := loading - {mod};
      assert Now() == Admitted(old(Now()), mod);
    }

    /** The mod object goes; `leaks` if something in the tables, or a release still due, names it. */
    method Free(mod: nat, ghost leaks: bool, ghost slip: bool)
      requires TablesValid() && mod in mods && Good(Gone(Now(), mod, leaks, slip))
      modifies this`mods, this`listed, this`loading, this`leaked, this`slips, this`log
      ensures Valid() && Now() == Gone(old(Now()), mod, leaks, slip)
    {
      DropObject(mod, leaks, slip);
    }

    method DropObject(mod: nat, ghost leaks: bool, ghost slip: bool)
      requires mod in mods
      modifies this`mods, this`listed, this`loading, this`leaked, this`slips, this`log
      ensures Now() == Gone(old(Now()), mod, leaks, slip)
    {
      ghost var gone := Gone(Now(), mod, leaks, slip);
      listed := Unlisted(listed, mods[mod].name, mod);
      mods := mods - {mod};
      loading, leaked, slips, log := gone.loading, gone.leaked, gone.slips, gone.log;
      assert Now() == gone;
    }

    method SetPhase(mod: nat, phase: Phase)
      requires TablesValid() && mod in mods && Good(InPhase(Now(), mod, phase))
      modifies this`mods
      ensures Valid() && Now() == InPhase(old(Now()), mod, phase)
    {
      mods := mods[mod := mods[mod].(phase := phase)];
      assert Now() == InPhase(old(Now()), mod, phase);
    }

    /** `moments` is the run of the entry point; `before` is the state it left. */
    method Load(mod: nat, name: nat, opens: bool, compatible: bool, displaces: bool)
      returns (ok: bool, ghost moments: seq<State>, ghost before: State)
      requires Valid() && budget > 0
      modifies this, bus, services, lanes, tasks, forms
      decreases budget, 0, 0, 4
      ensures Valid() && Evolves(old(Now()), Now())
      ensures Refuses(old(Now()), mod, opens) ==> !ok && Now() == old(Now())
      ensures !Refuses(old(Now()), mod, opens) ==>
                && LoadRuns(script, old(Now()), mod, name, compatible, displaces, ok, moments, before, Now())
                && LoadedTo(script, old(Now()), mod, name, compatible, displaces, Now())
    {
      moments, before := [], Now();
      EvolvesRefl(Now());
      if mod == 0 || mod in mods || mod in dying || !opens { return false, moments, before; }
      ghost var was := Now();
      ok, moments, before := BringUp(mod, name, compatible, displaces);
      LoadIsLoadedTo(script, was, mod, name, compatible, displaces, ok, moments, before, Now());
    }

    method BringUp(mod: nat, name: nat, compatible: bool, displaces: bool)
      returns (ok: bool, ghost moments: seq<State>, ghost before: State)
      requires Valid() && budget > 0 && !Refuses(Now(), mod, true)
      modifies this, bus, services, lanes, tasks, forms
      decreases budget, 0, 0, 3
      ensures Valid() && Evolves(old(Now()), Now())
      ensures LoadRuns(script, old(Now()), mod, name, compatible, displaces, ok, moments, before, Now())
    {
      ghost var was := Now();
      var answer;
      answer, moments := RunEntry(mod, name);
      before := Now();
      ok := answer && compatible;
      LoadIsExcused(script, was, mod, name, moments, before);
      Conclude(was, mod, ok, displaces, !HarmlessEntry(script, was, mod, name));
    }

    method RunEntry(mod: nat, name: nat) returns (answer: bool, ghost moments: seq<State>)
      requires Valid() && budget > 0 && !Refuses(Now(), mod, true)
      modifies this, bus, services, lanes, tasks, forms
      decreases budget, 0, 0, 2
      ensures Valid()
      ensures Newborn(old(Now()), Now(), mod) && mods[mod] == ModState(old(nextBorn), name, Loading)
      ensures answer == script(old(calls)).answer
      ensures Called(script, Born(old(Now()), mod, name), Owner(mod, old(nextBorn)), Lifecycle(name), moments, Now())
    {
      ghost var was := Now();
      BirthStep(was, mod, name);
      Bear(mod, name);
      answer, moments := CallDeeper(Owner(mod, mods[mod].born), Lifecycle(name));
      NewbornCalled(was, mod, name, Now());
    }

    /** What the loader does once the entry point has returned. */
    method Conclude(ghost since: State, mod: nat, ok: bool, displaces: bool, ghost slip: bool)
      requires Valid() && Good(since) && Newborn(since, Now(), mod) && Excused(Now(), mod, slip)
      modifies this`mods, this`listed, this`loading, this`leaked, this`slips, this`log
      ensures Valid() && Evolves(since, Now()) && LoadEnds(old(Now()), Now(), mod, ok, displaces, slip)
    {
      var name := mods[mod].name;
      if ok && name !in listed {
        Accept(since, mod);
      } else if ok && displaces {
        Displace(since, mod, listed[name]);
      } else {
        Discard(since, mod, slip);
      }
    }

    method Accept(ghost since: State, mod: nat)
      requires Valid() && Good(since) && Newborn(since, Now(), mod) && mods[mod].name !in listed
      modifies this`mods, this`listed, this`loading
      ensures Valid() && Evolves(since, Now()) && Now() == Admitted(old(Now()), mod)
    {
      NewbornStays(since, Now(), mod);
      Admit(mod);
    }

    method Discard(ghost since: State, mod: nat, ghost slip: bool)
      requires Valid() && Good(since) && Newborn(since, Now(), mod) && Excused(Now(), mod, slip)
      modifies this`mods, this`listed, this`loading, this`leaked, this`slips, this`log
      ensures Valid() && Evolves(since, Now()) && Goes(old(Now()), Now(), mod, slip)
    {
      ghost var s, leaks := Now(), !NothingOf(Now(), mod);
      NewbornGoes(since, s, mod, Gone(s, mod, leaks, slip), slip);
      Free(mod, leaks, slip);
    }

    method Displace(ghost since: State, mod: nat, bearer: nat)
      requires Valid() && Good(since) && Newborn(since, Now(), mod)
      requires mods[mod].name in listed && bearer == listed[mods[mod].name]
      modifies this`mods, this`listed, this`loading, this`leaked, this`slips, this`log
      ensures Valid() && Evolves(since, Now()) && Displaced(old(Now()), Now(), mod, bearer)
    {
      ghost var s, leaks := Now(), !NothingOf(Now(), bearer);
      ListedIsThere(s, mods[mod].name);
      DisplaceStep(since, s, mod, bearer, Gone(s, bearer, leaks, true));
      Free(bearer, leaks, true);
      Accept(since, mod);
    }

    method Switch(name: nat, from: Phase, to: Phase)
      returns (ok: bool, ghost moments: seq<State>, ghost before: State)
      requires Valid() && budget > 0 && !to.Loading?
      modifies this, bus, services, lanes, tasks, forms
      decreases budget, 0, 0, 4
      ensures Valid() && Evolves(old(Now()), Now())
      ensures !IsAt(old(Now()), name, from) ==> !ok && Now() == old(Now())
      ensures IsAt(old(Now()), name, from) ==>
                SwitchRuns(script, old(Now()), name, to, ok, moments, before, Now())
      ensures ok && Quiet(old(Now()), Now(), name) ==>
                IsAt(Now(), name, to) && Bearer(Now(), name) == Bearer(old(Now()), name)
    {
      moments, before := [], Now();
      EvolvesRefl(Now());
      if name !in listed { return false, moments, before; }
      ListedIsThere(Now(), name);
      if mods[listed[name]].phase != from { return false, moments, before; }
      ok, moments, before := Ask(name, to);
    }

    method Ask(name: nat, to: Phase) returns (ok: bool, ghost moments: seq<State>, ghost before: State)
      requires Valid() && budget > 0 && !to.Loading? && IsListed(Now(), name)
      modifies this, bus, services, lanes, tasks, forms
      decreases budget, 0, 0, 3
      ensures Valid() && Evolves(old(Now()), Now())
      ensures SwitchRuns(script, old(Now()), name, to, ok, moments, before, Now())
      ensures ok && Quiet(old(Now()), Now(), name) ==>
                IsAt(Now(), name, to) && Bearer(Now(), name) == Bearer(old(Now()), name)
    {
      ghost var was := Now();
      var o := Owner(listed[name], mods[listed[name]].born);
      ok, moments := CallDeeper(o, Ordinary);
      before := Now();
      Settle(was, name, o, ok, to);
      if ok && Quiet(was, Now(), name) { SettledQuietly(was, before, Now(), name, to); }
    }

    method Settle(ghost was: State, name: nat, o: Owner, ok: bool, to: Phase)
      requires Valid() && Good(was) && Evolves(was, Now()) && !to.Loading?
      requires IsListed(was, name) && o == Bearer(was, name)
      modifies this`mods
      ensures Valid() && Evolves(was, Now()) && Settled(old(Now()), Now(), o, ok, to)
    {
      if ok && Alive(mods, o) {
        SettleStep(was, Now(), name, to);
        SetPhase(o.mod, to);
      }
    }

    /** When `on_enable` succeeds the mod is enabled, unless it has gone meanwhile: that is not asked. */
    method Enable(name: nat) returns (ok: bool, ghost moments: seq<State>, ghost before: State)
      requires Valid() && budget > 0
      modifies this, bus, services, lanes, tasks, forms
      decreases budget, 0, 0, 5
      ensures Valid() && Evolves(old(Now()), Now())
      ensures !IsAt(old(Now()), name, Disabled) ==> !ok && Now() == old(Now())
      ensures IsAt(old(Now()), name, Disabled) ==>
                SwitchRuns(script, old(Now()), name, Enabled, ok, moments, before, Now())
      ensures ok && Quiet(old(Now()), Now(), name) ==>
                IsAt(Now(), name, Enabled) && Bearer(Now(), name) == Bearer(old(Now()), name)
    {
      ok, moments, before := Switch(name, Disabled, Enabled);
    }

    method Disable(name: nat) returns (ok: bool, ghost moments: seq<State>, ghost before: State)
      requires Valid() && budget > 0
      modifies this, bus, services, lanes, tasks, forms
      decreases budget, 0, 0, 5
      ensures Valid() && Evolves(old(Now()), Now())
      ensures !IsAt(old(Now()), name, Enabled) ==> !ok && Now() == old(Now())
      ensures IsAt(old(Now()), name, Enabled) ==>
                SwitchRuns(script, old(Now()), name, Disabled, ok, moments, before, Now())
      ensures ok && Quiet(old(Now()), Now(), name) ==>
                IsAt(Now(), name, Disabled) && Bearer(Now(), name) == Bearer(old(Now()), name)
    {
      ok, moments, before := Switch(name, Enabled, Disabled);
    }

    // -------------------------------------------------------------- unloading

    method PushDying(mod: nat)
      requires Valid()
      modifies this`dying
      ensures Valid() && Now() == Purging(old(Now()), mod)
    {
      IntoPurge(Now(), mod);
      dying := dying + {mod};
      assert Now() == Purging(old(Now()), mod);
    }

    method PopDying(ghost outside: State, mod: nat, outer: set<nat>)
      requires Valid() && Evolves(Purging(outside, mod), Now()) && outer == outside.dying
      modifies this`dying
      ensures Valid() && Evolves(outside, Now()) && Now() == old(Now()).(dying := outer)
    {
      BackFromPurge(outside, mod, Now());
      dying := outer;
      assert Now() == old(Now()).(dying := outer);
    }

    /** Scheduler, bus, services, lanes, forms. */
    method Purge(mod: nat)
      requires Valid() && budget > 0
      modifies this, bus, services, lanes, tasks, forms
      decreases budget, 0, 0, 11
      ensures Valid() && Purges(script, old(Now()), Now(), mod)
    {
      ghost var was := Now();
      var outer := dying;
      PushDying(mod);
      PurgeAll(mod);
      ghost var purged := Now();
      PopDying(was, mod, outer);
      PurgedOutside(script, was, purged, Now(), mod);
    }

    method PurgeAll(mod: nat)
      requires Valid() && budget > 0 && mod in dying
      modifies this, bus, services, lanes, tasks, forms
      decreases budget, 0, 0, 10
      ensures Valid() && Purges(script, old(Now()), Now(), mod)
    {
      ghost var s0 := Now();
      PurgeSources(mod);
      ghost var s1 := Now();
      PurgeLanes(mod);
      ghost var s2 := Now();
      PurgeForms(mod);
      PurgedInOrder(script, s0, s1, s2, Now(), mod);
    }

    method PurgeSources(mod: nat)
      requires Valid()
      modifies tasks, bus, services
      ensures Valid() && Evolves(old(Now()), Now()) && SourcesPurged(old(Now()), Now(), mod)
    {
      ghost var s0 := Now();
      PurgeTasks(mod);
      ghost var s1 := Now();
      PurgeBus(mod);
      ghost var s2 := Now();
      EvolvesTrans(s0, s1, s2);
      PurgeServices(mod);
      EvolvesTrans(s0, s2, Now());
    }

    method PurgeTasks(mod: nat)
      requires Valid()
      modifies tasks
      ensures Valid() && Evolves(old(Now()), Now())
      ensures Now() == old(Now()).(tasks := tasks.pending) && TicketsWithout(old(tasks.pending), tasks.pending, mod)
    {
      TablesAre();
      var _ := tasks.OnRustModGone(mod);
      assert Now() == old(Now()).(tasks := tasks.pending);
      TasksStep(old(Now()), tasks.pending, tasks.nextId, rogue);
      TablesAre();
    }

    method PurgeBus(mod: nat)
      requires Valid()
      modifies bus
      ensures Valid() && Evolves(old(Now()), Now())
      ensures Now() == old(Now()).(subs := bus.subs) && SubsWithout(old(bus.subs), bus.subs, mod)
    {
      TablesAre();
      bus.OnRustModGone(mod);
      assert Now() == old(Now()).(subs := bus.subs);
      SubsStep(old(Now()), bus.subs, bus.nextSubId, rogue);
      TablesAre();
    }

    method PurgeServices(mod: nat)
      requires Valid()
      modifies services
      ensures Valid() && Evolves(old(Now()), Now())
      ensures Now() == old(Now()).(services := services.services, serviceNames := services.byName)
      ensures ServicesWithout(old(services.services), services.services, mod)
      ensures services.byName == NamesLeft(old(services.byName), services.services)
    {
      TablesAre();
      services.OnRustModGone(mod);
      assert Now() == old(Now()).(services := services.services, serviceNames := services.byName);
      ServicesStep(old(Now()), services.services, services.byName, services.nextId, rogue);
      TablesAre();
    }

    method PurgeForms(mod: nat)
      requires Valid()
      modifies forms
      ensures Valid() && Evolves(old(Now()), Now()) && FormsPurged(old(Now()), Now(), mod)
    {
      TablesAre();
      var _ := forms.OnRustModGone(mod);
      assert Now() == old(Now()).(forms := forms.pending);
      FormsStep(old(Now()), forms.pending, forms.nextId, rogue);
      TablesAre();
    }

    /**
     * The leases the mod holds first, while their providers are there; then the lanes it published. By now no
     * task, publication or service call leads into the mod any more, whatever its callbacks set off.
     */
    method PurgeLanes(mod: nat)
      requires Valid() && budget > 0 && mod in dying
      requires NoTickets(tasks.pending, mod) && NoSubs(bus.subs, mod) && NoServices(services.services, mod)
      modifies this, bus, services, lanes, tasks, forms
      decreases budget, 0, 0, 9
      ensures Valid() && Evolves(old(Now()), Now()) && LanesPurged(script, old(Now()), Now(), mod)
    {
      ghost var s0 := Now();
      NumbersAreFresh();
      GiveBackAll(mod);
      ghost var s1 := Now();
      RetireAll(mod);
      LanesPurgedInOrder(script, s0, s1, Now(), mod);
    }

    /** Each lease is looked up again when its turn comes: an earlier `release` may have taken it away. */
    method GiveBackAll(mod: nat)
      requires Valid() && budget > 0 && mod in dying
      modifies this, bus, services, lanes, tasks, forms
      decreases budget, 0, 0, 5
      ensures Valid() && Evolves(old(Now()), Now())
      ensures !rogue ==> NoLeases(lanes.leases, mod)
      ensures NoLeases(old(lanes.leases), mod) ==> Now() == old(Now())
      ensures PlainSince(script, old(calls), calls) ==> GivenBackBut(script, old(Now()), Now(), mod, {})
    {
      var rest := lanes.LeasesOf(mod);
      ghost var mine := rest;
      EvolvesRefl(Now());
      CalmRefl(script, Now());
      while rest != {}
        invariant Valid() && Evolves(old(Now()), Now()) && rest <= mine
        invariant !rogue ==> LeasesWithin(lanes.leases, mod, rest)
        invariant NoLeases(old(lanes.leases), mod) ==> rest == {} && Now() == old(Now())
        invariant PlainSince(script, old(calls), calls) ==> GivenBackBut(script, old(Now()), Now(), mod, rest)
        decreases rest
      {
        var l :| l in rest;
        GiveBackNext(old(Now()), mod, l, rest);
        rest := rest - {l};
      }
    }

    method GiveBackNext(ghost since: State, mod: nat, l: nat, ghost rest: set<nat>)
      requires Valid() && budget > 0 && mod in dying && Evolves(since, Now())
      requires !rogue ==> LeasesWithin(lanes.leases, mod, rest)
      requires l in since.leases && since.leases[l].holder.mod == mod && l in rest
      requires PlainSince(script, since.calls, calls) ==> GivenBackBut(script, since, Now(), mod, rest)
      modifies this, bus, services, lanes, tasks, forms
      decreases budget, 0, 0, 4
      ensures Valid() && Evolves(since, Now())
      ensures !rogue ==> LeasesWithin(lanes.leases, mod, rest - {l})
      ensures PlainSince(script, since.calls, calls) ==> GivenBackBut(script, since, Now(), mod, rest - {l})
    {
      ghost var s := Now();
      EvolvesRefl(s);
      assert rest - {l} + {l} == rest;
      NumbersAreFresh();
      ghost var moments := [];
      if l in lanes.leases {
        moments := GiveBackOne(mod, l, rest - {l});
      }
      OneMoreGivenBack(script, since, s, Now(), mod, l, rest - {l}, moments);
      EvolvesTrans(since, s, Now());
    }

    method GiveBackOne(mod: nat, l: nat, ghost rest: set<nat>) returns (ghost moments: seq<State>)
      requires Valid() && budget > 0 && mod in dying && l in lanes.leases
      requires !rogue ==> LeasesWithin(lanes.leases, mod, rest + {l})
      modifies this, bus, services, lanes, tasks, forms
      decreases budget, 0, 0, 3
      ensures Valid() && Evolves(old(Now()), Now()) && ReturnRuns(script, old(Now()), l, moments, Now())
      ensures !rogue ==> LeasesWithin(lanes.leases, mod, rest)
    {
      ghost var was := Now();
      moments := GiveBack(l);
      LeaseIsBack(script, was, Now(), l, mod, rest, moments);
    }

    method RetireAll(mod: nat)
      requires Valid() && budget > 0 && mod in dying
      modifies this, bus, services, lanes, tasks, forms
      decreases budget, 0, 0, 8
      ensures Valid() && Evolves(old(Now()), Now())
      ensures !rogue ==> NoLanes(lanes.lanes, mod)
      ensures NoLanes(old(lanes.lanes), mod) ==> Now() == old(Now())
      ensures PlainSince(script, old(calls), calls) ==> RetiredBut(script, old(Now()), Now(), mod, {})
    {
      var rest := lanes.LanesOf(mod);
      ghost var mine := rest;
      EvolvesRefl(Now());
      CalmRefl(script, Now());
      while rest != {}
        invariant Valid() && Evolves(old(Now()), Now()) && rest <= mine
        invariant !rogue ==> LanesWithin(lanes.lanes, mod, rest)
        invariant NoLanes(old(lanes.lanes), mod) ==> rest == {} && Now() == old(Now())
        invariant PlainSince(script, old(calls), calls) ==> RetiredBut(script, old(Now()), Now(), mod, rest)
        decreases rest
      {
        var id :| id in rest;
        RetireNext(old(Now()), mod, id, rest);
        rest := rest - {id};
      }
    }

    method RetireNext(ghost since: State, mod: nat, id: nat, ghost rest: set<nat>)
      requires Valid() && budget > 0 && mod in dying && Evolves(since, Now())
      requires !rogue ==> LanesWithin(lanes.lanes, mod, rest)
      requires id in since.lanes && since.lanes[id].owner.mod == mod && id in rest
      requires PlainSince(script, since.calls, calls) ==> RetiredBut(script, since, Now(), mod, rest)
      modifies this, bus, services, lanes, tasks, forms
      decreases budget, 0, 0, 7
      ensures Valid() && Evolves(since, Now())
      ensures !rogue ==> LanesWithin(lanes.lanes, mod, rest - {id})
      ensures PlainSince(script, since.calls, calls) ==> RetiredBut(script, since, Now(), mod, rest - {id})
    {
      ghost var s := Now();
      EvolvesRefl(s);
      assert rest - {id} + {id} == rest;
      NumbersAreFresh();
      ghost var left, steps, runs := map[], [], [];
      if id in lanes.lanes {
        left, steps, runs := RetireOne(mod, id, rest - {id});
      }
      OneMoreRetired(script, since, s, Now(), mod, id, rest - {id}, left, steps, runs);
      EvolvesTrans(since, s, Now());
    }

    method RetireOne(mod: nat, id: nat, ghost rest: set<nat>)
      returns (ghost left: map<nat, Lease>, ghost steps: seq<State>, ghost runs: seq<seq<State>>)
      requires Valid() && budget > 0 && mod in dying && id in lanes.lanes
      requires !rogue ==> LanesWithin(lanes.lanes, mod, rest + {id})
      modifies this, bus, services, lanes, tasks, forms
      decreases budget, 0, 0, 6
      ensures Valid() && Evolves(old(Now()), Now()) && RetireRuns(script, old(Now()), id, left, steps, runs, Now())
      ensures !rogue ==> LanesWithin(lanes.lanes, mod, rest)
    {
      ghost var was := Now();
      left, steps, runs := RetireLane(id);
      LaneIsRetired(was, Now(), id, left, mod, rest);
    }

    /**
     * Refused while some lane of the mod is being called, before the mod hears of it; then its own
     * `on_unload`; then every table lets go of it; and then its library and whoever bears its name go.
     * `asked` is the state `on_unload` left, `purged` the one in which the tables have let go.
     */
    method Unload(name: nat, freed: bool)
      returns (r: Unloading, ghost moments: seq<State>, ghost asked: State, ghost purged: State)
      requires Valid() && budget > 0
      modifies this, bus, services, lanes, tasks, forms
      decreases budget, 0, 0, 14, 0
      ensures Valid() && Evolves(old(Now()), Now())
      ensures r == NotLoaded <==> !IsListed(old(Now()), name)
      ensures r == Busy <==>
                IsListed(old(Now()), name) && InUse(old(lanes.lanes), old(lanes.cells), old(listed)[name])
      ensures r == NotLoaded || r == Busy ==> Now() == old(Now())
      ensures r != NotLoaded && r != Busy ==>
                UnloadRuns(script, old(Now()), name, freed, r, moments, asked, purged, Now())
    {
      moments, asked, purged := [], Now(), Now();
      EvolvesRefl(Now());
      var refusal := Refusal(name);
      if refusal.Some? { return refusal.value, moments, asked, purged; }
      r, moments, asked, purged := LetGo(name, freed);
    }

    method Refusal(name: nat) returns (r: Option<Unloading>)
      requires Valid()
      ensures r == Some(NotLoaded) <==> !IsListed(Now(), name)
      ensures r == Some(Busy) <==> IsListed(Now(), name) && InUse(lanes.lanes, lanes.cells, listed[name])
      ensures r.Some? ==> r.value == NotLoaded || r.value == Busy
    {
      TablesAre();
      if name !in listed { return Some(NotLoaded); }
      ListedIsThere(Now(), name);
      var busy := lanes.BusyName(listed[name]);
      return if busy.Some? then Some(Busy) else None;
    }

    method LetGo(name: nat, freed: bool)
      returns (r: Unloading, ghost moments: seq<State>, ghost asked: State, ghost purged: State)
      requires Valid() && budget > 0 && IsListed(Now(), name)
      modifies this, bus, services, lanes, tasks, forms
      decreases budget, 0, 0, 13
      ensures Valid() && Evolves(old(Now()), Now()) && r != NotLoaded && r != Busy
      ensures UnloadRuns(script, old(Now()), name, freed, r, moments, asked, purged, Now())
    {
      var mod := listed[name];
      var agreed;
      agreed, moments := AskToGo(name);
      asked, purged := Now(), Now();
      if !agreed { return RefusedByMod, moments, asked, purged; }
      purged := Dismantle(old(Now()), mod, name, freed);
      r := if freed then Unloaded else StillMapped;
    }

    method AskToGo(name: nat) returns (agreed: bool, ghost moments: seq<State>)
      requires Valid() && budget > 0 && IsListed(Now(), name)
      modifies this, bus, services, lanes, tasks, forms
      decreases budget, 0, 0, 12
      ensures Valid() && Evolves(old(Now()), Now()) && Announced(old(Now()), Now(), name)
      ensures agreed == script(old(calls)).answer
      ensures Called(script, old(Now()), Bearer(old(Now()), name), Lifecycle(name), moments, Now())
    {
      var o := Owner(listed[name], mods[listed[name]].born);
      agreed, moments := CallDeeper(o, Lifecycle(name));
      AnnouncedByEntry(old(Now()), Now(), o, name);
    }

    method Dismantle(ghost was: State, mod: nat, name: nat, freed: bool) returns (ghost purged: State)
      requires Valid() && budget > 0 && Good(was) && Evolves(was, Now()) && Announced(was, Now(), name)
      requires IsListed(was, name) && mod == was.listed[name]
      requires Evolves(Begun(was, Bearer(was, name), Lifecycle(name)), Now())
      modifies this, bus, services, lanes, tasks, forms
      decreases budget, 0, 0, 12
      ensures Valid() && Evolves(was, Now())
      ensures Purges(script, old(Now()), purged, mod)
      ensures if freed then Erased(purged, Now(), name, Disturbed(was, purged, name)) && name !in listed
              else Now() == purged
    {
      ghost var asked := Now();
      Purge(mod);
      purged := Now();
      EvolvesTrans(was, asked, purged);
      if freed {
        KindsGrow(asked.log, purged.log);
        if name in purged.listed { UnloadIsExcused(script, was, asked, purged, name); }
        Erase(was, name, Disturbed(was, purged, name));
      }
    }

    /** The mod manager drops whoever bears the name. */
    method Erase(ghost was: State, name: nat, ghost slip: bool)
      requires Valid() && Good(was) && Evolves(was, Now()) && Announced(was, Now(), name)
      requires name in listed ==> Excused(Now(), listed[name], slip)
      modifies this`mods, this`listed, this`loading, this`leaked, this`slips, this`log
      ensures Valid() && Evolves(was, Now()) && Erased(old(Now()), Now(), name, slip) && name !in listed
    {
      if name in listed {
        ghost var s, leaks := Now(), !NothingOf(Now(), listed[name]);
        ListedIsThere(s, name);
        EraseStep(was, s, Gone(s, listed[name], leaks, slip), name, slip);
        Free(listed[name], leaks, slip);
      }
    }

    // -------------------------------------------------------------- runtime control

    /**
     * Load, then enable; a mod that does not enable is unloaded again, if that works. Success means that
     * the mod runs, provided nobody else loads or unloads under its name meanwhile. `loaded` is the state
     * between the two.
     */
    method ControlLoad(mod: nat, name: nat, opens: bool, compatible: bool, displaces: bool, freed: bool)
      returns (ok: bool, ghost loaded: State, ghost undone: bool)
      requires Valid() && budget > 0
      modifies this, bus, services, lanes, tasks, forms
      decreases budget, 0, 0, 18
      ensures Valid() && Evolves(old(Now()), Now())
      ensures BringUpTried(script, old(Now()), mod, name, opens, compatible, displaces, freed, ok, Now())
      ensures Refuses(old(Now()), mod, opens) ==> !ok && Now() == old(Now())
      ensures !Refuses(old(Now()), mod, opens) ==>
                && LoadedTo(script, old(Now()), mod, name, compatible, displaces, loaded)
                && if script(old(calls)).answer && compatible then StartedTo(script, loaded, name, Now())
                   else !ok && Now() == loaded
      ensures ok && OnlyOnce(old(Now()), Now(), name) && (displaces || name !in old(listed)) ==>
                IsAt(Now(), name, Enabled) && Bearer(Now(), name) == Owner(mod, old(nextBorn))
      ensures undone ==> !ok && name !in listed
    {
      undone := false;
      ghost var was := Now();
      var up := TryToLoad(mod, name, opens, compatible, displaces);
      loaded, ok := Now(), up;
      if up {
        ghost var sure := displaces || name !in was.listed;
        ok, undone := StartLoaded(was, name, freed, Owner(mod, was.nextBorn), sure);
      }
      BroughtUp(script, was, mod, name, opens, compatible, displaces, freed, up, loaded, ok, Now());
    }

    method TryToLoad(mod: nat, name: nat, opens: bool, compatible: bool, displaces: bool) returns (ok: bool)
      requires Valid() && budget > 0
      modifies this, bus, services, lanes, tasks, forms
      decreases budget, 0, 0, 5
      ensures Valid() && Evolves(old(Now()), Now())
      ensures LoadTried(script, old(Now()), mod, name, opens, compatible, displaces, ok, Now())
      ensures if Refuses(old(Now()), mod, opens) then !ok && Now() == old(Now())
              else
                && ok == (script(old(calls)).answer && compatible)
                && LoadedTo(script, old(Now()), mod, name, compatible, displaces, Now())
      ensures ok ==> Announced(old(Now()), Now(), name)
      ensures ok && (displaces || name !in old(listed)) && OnlyOnce(old(Now()), Now(), name) ==>
                IsAt(Now(), name, Disabled) && Bearer(Now(), name) == Owner(mod, old(nextBorn))
    {
      ghost var was, moments, before := Now(), [], Now();
      ok, moments, before := Load(mod, name, opens, compatible, displaces);
      HasLoaded(script, was, mod, name, opens, compatible, displaces, ok, moments, before, Now());
    }

    /** `o` has been loaded under this name; `sure` if it is listed unless somebody else has used the name. */
    method StartLoaded(ghost was: State, name: nat, freed: bool, ghost o: Owner, ghost sure: bool)
      returns (ok: bool, ghost undone: bool)
      requires Valid() && budget > 0 && Evolves(was, Now()) && Announced(was, Now(), name)
      requires sure && OnlyOnce(was, Now(), name) ==> IsAt(Now(), name, Disabled) && Bearer(Now(), name) == o
      modifies this, bus, services, lanes, tasks, forms
      decreases budget, 0, 0, 17
      ensures Valid() && Evolves(was, Now())
      ensures StartTried(script, old(Now()), name, freed, ok, Now()) && StartedTo(script, old(Now()), name, Now())
      ensures ok && sure && OnlyOnce(was, Now(), name) ==> IsAt(Now(), name, Enabled) && Bearer(Now(), name) == o
      ensures undone ==> !ok && name !in listed
    {
      ghost var loaded := Now();
      ok, undone := Start(name, freed);
      if OnlyOnce(was, Now(), name) { OnceAtFirst(was, loaded, Now(), name); }
      EvolvesTrans(was, loaded, Now());
    }

    /** The second half: enabling, or else taking the mod down again. */
    method Start(name: nat, freed: bool) returns (ok: bool, ghost undone: bool)
      requires Valid() && budget > 0
      modifies this, bus, services, lanes, tasks, forms
      decreases budget, 0, 0, 16
      ensures Valid() && Evolves(old(Now()), Now())
      ensures StartTried(script, old(Now()), name, freed, ok, Now()) && StartedTo(script, old(Now()), name, Now())
      ensures ok && Quiet(old(Now()), Now(), name) ==>
                && IsListed(old(Now()), name) && IsAt(Now(), name, Enabled)
                && Bearer(Now(), name) == Bearer(old(Now()), name)
      ensures undone ==> !ok && name !in listed
    {
      ghost var was := Now();
      ok := TryToEnable(name);
      ghost var asked := Now();
      undone := false;
      if !ok {
        var gone := UnloadSince(was, name, freed);
        undone := gone;
      }
      SwitchThenUnload(script, was, name, freed, ok, asked, undone, Now());
    }

    method TryToEnable(name: nat) returns (ok: bool)
      requires Valid() && budget > 0
      modifies this, bus, services, lanes, tasks, forms
      decreases budget, 0, 0, 6
      ensures Valid() && Evolves(old(Now()), Now())
      ensures SwitchTried(script, old(Now()), name, Disabled, Enabled, ok, Now())
      ensures ok && Quiet(old(Now()), Now(), name) ==>
                && IsListed(old(Now()), name) && IsAt(Now(), name, Enabled)
                && Bearer(Now(), name) == Bearer(old(Now()), name)
    {
      ghost var was, moments, before := Now(), [], Now();
      ok, moments, before := Enable(name);
      assert IsAt(was, name, Disabled) ==> SwitchRuns(script, was, name, Enabled, ok, moments, before, Now());
    }

    method TryToDisable(name: nat) returns (ok: bool)
      requires Valid() && budget > 0
      modifies this, bus, services, lanes, tasks, forms
      decreases budget, 0, 0, 6
      ensures Valid() && Evolves(old(Now()), Now())
      ensures SwitchTried(script, old(Now()), name, Enabled, Phase.Disabled, ok, Now())
    {
      ghost var was, moments, before := Now(), [], Now();
      ok, moments, before := Disable(name);
      assert IsAt(was, name, Enabled) ==> SwitchRuns(script, was, name, Phase.Disabled, ok, moments, before, Now());
    }

    method UnloadSince(ghost was: State, name: nat, freed: bool) returns (gone: bool)
      requires Valid() && budget > 0 && Evolves(was, Now())
      modifies this, bus, services, lanes, tasks, forms
      decreases budget, 0, 0, 15
      ensures Valid() && Evolves(was, Now()) && UnloadTried(script, old(Now()), name, freed, gone, Now())
      ensures gone ==> name !in listed
    {
      ghost var asked := Now();
      gone := TryUnload(name, freed);
      EvolvesTrans(was, asked, Now());
    }

    method TryUnload(name: nat, freed: bool) returns (gone: bool)
      requires Valid() && budget > 0
      modifies this, bus, services, lanes, tasks, forms
      decreases budget, 0, 0, 14, 1
      ensures Valid() && Evolves(old(Now()), Now()) && UnloadTried(script, old(Now()), name, freed, gone, Now())
      ensures gone ==> name !in listed
    {
      ghost var was := Now();
      var r, moments, asked, purged := Unload(name, freed);
      gone := r == Unloaded;
      TriedToUnload(script, was, name, freed, r, moments, asked, purged, Now());
    }

    /** An enabled mod is disabled first, and may refuse. */
    method ControlUnload(name: nat, freed: bool) returns (ok: bool)
      requires Valid() && budget > 0
      modifies this, bus, services, lanes, tasks, forms
      decreases budget, 0, 0, 16
      ensures Valid() && Evolves(old(Now()), Now())
      ensures TakeDownTried(script, old(Now()), name, freed, ok, Now())
      ensures name !in old(listed) ==> !ok && Now() == old(Now())
      ensures ok ==> name !in listed
      ensures freed && IsAt(old(Now()), name, Disabled) && GoesQuietly(script, old(Now()), name) ==>
                ok && UnloadedTo(script, old(Now()), name, Now())
    {
      ghost var was := Now();
      EvolvesRefl(was);
      if name !in listed { return false; }
      ListedIsThere(was, name);
      ok := DisableFirst(name);
      ghost var agreed, mid := ok, Now();
      if ok { ok := UnloadSince(was, name, freed); }
      TakenDownAfter(script, was, name, freed, agreed, mid, ok, Now());
    }

    method DisableFirst(name: nat) returns (ok: bool)
      requires Valid() && budget > 0 && IsListed(Now(), name)
      modifies this, bus, services, lanes, tasks, forms
      decreases budget, 0, 0, 7
      ensures Valid() && Evolves(old(Now()), Now())
      ensures if IsAt(old(Now()), name, Enabled) then
                SwitchTried(script, old(Now()), name, Enabled, Phase.Disabled, ok, Now())
              else
                ok && Now() == old(Now())
    {
      EvolvesRefl(Now());
      ok := true;
      if mods[listed[name]].phase.Enabled? { ok := TryToDisable(name); }
    }

    // -------------------------------------------------------------- commands

    /** What a mod or the console orders; how deep such commands nest is limited by `budget` alone. */
    method Obey(command: Command)
      requires Valid()
      modifies this, bus, services, lanes, tasks, forms
      decreases budget, Room(), 0, 21
      ensures Valid() && Evolves(old(Now()), Now())
      ensures CommandEffect(script, command, old(Now()), Now())
    {
      EvolvesRefl(Now());
      if budget > 0 {
        match command {
          case Load(_, _, _, _, _) => ObeyLoad(command);
          case Reload(_, _, _, _, _, _) => ObeyReload(command);
          case ControlLoad(_, _, _, _, _, _) => ObeyControlLoad(command);
          case _ => ObeyOther(command);
        }
      }
    }

    method ObeyOther(c: Command)
      requires Valid() && budget > 0
      requires c.Enable? || c.Disable? || c.Unload? || c.ControlUnload?
      modifies this, bus, services, lanes, tasks, forms
      decreases budget, 0, 0, 20
      ensures Valid() && Evolves(old(Now()), Now()) && CommandEffect(script, c, old(Now()), Now())
    {
      match c {
        case Enable(name) => var _ := TryToEnable(name);
        case Disable(name) => var _ := TryToDisable(name);
        case Unload(name, freed) => var _ := TryUnload(name, freed);
        case ControlUnload(name, freed) => var _ := this.ControlUnload(name, freed);
      }
    }

    method ObeyLoad(c: Command)
      requires Valid() && c.Load? && budget > 0
      modifies this, bus, services, lanes, tasks, forms
      decreases budget, 0, 0, 20
      ensures Valid() && Evolves(old(Now()), Now()) && CommandEffect(script, c, old(Now()), Now())
    {
      var _ := TryToLoad(c.mod, c.name, c.opens, c.compatible, c.displaces);
    }

    /** The load command asks whether the name is in use, before it begins. */
    method ObeyControlLoad(c: Command)
      requires Valid() && c.ControlLoad? && budget > 0
      modifies this, bus, services, lanes, tasks, forms
      decreases budget, 0, 0, 20
      ensures Valid() && Evolves(old(Now()), Now()) && CommandEffect(script, c, old(Now()), Now())
    {
      EvolvesRefl(Now());
      if c.name !in listed {
        var _, _, _ := ControlLoad(c.mod, c.name, c.opens, c.compatible, c.displaces, c.freed);
      }
    }

    /** One mod goes and is brought back; nothing is asked about its name in between. */
    method ObeyReload(c: Command)
      requires Valid() && c.Reload? && budget > 0
      modifies this, bus, services, lanes, tasks, forms
      decreases budget, 0, 0, 20
      ensures Valid() && Evolves(old(Now()), Now()) && CommandEffect(script, c, old(Now()), Now())
    {
      ghost var was := Now();
      var gone := ControlUnload(c.name, c.freed);
      ghost var between, ok := Now(), false;
      if gone {
        ok := BringBack(was, c);
      }
      BroughtBack(script, was, c, gone, between, ok, Now());
    }

    method BringBack(ghost was: State, c: Command) returns (ok: bool)
      requires Valid() && c.Reload? && budget > 0 && Evolves(was, Now())
      modifies this, bus, services, lanes, tasks, forms
      decreases budget, 0, 0, 19
      ensures Valid() && Evolves(was, Now())
      ensures BringUpTried(script, old(Now()), c.mod, c.name, c.opens, c.compatible, c.displaces, c.freed, ok, Now())
    {
      ghost var between := Now();
      ghost var loaded, undone;
      ok, loaded, undone := ControlLoad(c.mod, c.name, c.opens, c.compatible, c.displaces, c.freed);
      EvolvesTrans(was, between, Now());
    }

    // -------------------------------------------------------------- whole runs

    /** The world does something, and whoever is concerned is entered, with all that follows. */
    method React(event: Event)
      requires Valid()
      modifies this, bus, services, lanes, tasks, forms
      ensures Valid() && Evolves(old(Now()), Now()) && Reacts(script, event, old(Now()), Now())
    {
      match event {
        case TaskDue(id) => FireTask(id);
        case FormDone(id) => FireForm(id);
        case Console(command) => Obey(command);
        case Game(mod) => Tick(mod);
      }
    }

    method FireTask(id: nat)
      requires Valid()
      modifies this, bus, services, lanes, tasks, forms
      ensures Valid() && Evolves(old(Now()), Now()) && Reacts(script, TaskDue(id), old(Now()), Now())
    {
      ghost var was := Now();
      var fired, moments := RunTask(id);
      assert fired ==> Played(script, was.(tasks := was.tasks - {id}), was.tasks[id], Ordinary, moments, Now());
    }

    method FireForm(id: nat)
      requires Valid()
      modifies this, bus, services, lanes, tasks, forms
      ensures Valid() && Evolves(old(Now()), Now()) && Reacts(script, FormDone(id), old(Now()), Now())
    {
      ghost var was := Now();
      var fired, moments := CompleteForm(id);
      assert fired ==> Played(script, was.(forms := was.forms - {id}), was.forms[id], Ordinary, moments, Now());
    }

    /** The game enters one of a mod's own event handlers or commands. */
    method Tick(mod: nat)
      requires Valid()
      modifies this, bus, services, lanes, tasks, forms
      ensures Valid() && Evolves(old(Now()), Now()) && Reacts(script, Game(mod), old(Now()), Now())
    {
      ghost var was := Now();
      EvolvesRefl(was);
      if mod in mods && mods[mod].phase.Enabled? {
        var _, moments := RunCallback(Owner(mod, mods[mod].born), Ordinary);
        assert Played(script, was, Owner(mod, was.mods[mod].born), Ordinary, moments, Now());
      }
    }

    /**
     * Any run, whatever the mods do. Every lane provider's references balance; and if no mod registers anything
     * while it is being purged and none goes unasked, then every entry was into a mod alive at that moment, a mod
     * that is gone is never entered again, and the tables name living mods only. Without that proviso these three
     * hold until a mod goes leaving something behind. `moments` are the states between the events.
     */
    method Drive(events: seq<Event>) returns (ghost moments: seq<State>)
      requires Valid()
      modifies this, bus, services, lanes, tasks, forms
      ensures Valid() && Evolves(old(Now()), Now())
      ensures |moments| == |events| + 1 && moments[0] == old(Now()) && moments[|events|] == Now()
      ensures forall k :: 0 <= k < |events| ==> Reacts(script, events[k], moments[k], moments[k + 1])
      ensures EntriesAlive(log) && GoneForGood(log) && RefsBalanced(Now()) && OwnProvider(log, accounts)
      ensures !rogue && !slips ==> !leaked
      ensures !leaked ==> Clean(Now()) && forall i :: 0 <= i < |log| ==> !log[i].leaked
    {
      moments := [Now()];
      EvolvesRefl(Now());
      for i := 0 to |events|
        invariant Valid() && Evolves(old(Now()), Now())
        invariant |moments| == i + 1 && moments[0] == old(Now()) && moments[i] == Now()
        invariant forall k :: 0 <= k < i ==> Reacts(script, events[k], moments[k], moments[k + 1])
      {
        ghost var before := Now();
        React(events[i]);
        EvolvesTrans(old(Now()), before, Now());
        moments := moments + [Now()];
      }
      GoodMeans(Now());
    }
  }
}
