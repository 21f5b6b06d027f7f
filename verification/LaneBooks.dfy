/**
 * The tables behind the fast lanes of src/bridge/core/Lane.cpp as values: when they are consistent, and
 * why every change the loader makes to them keeps them so.
 */
module LaneBooks {
  import opened Machine
  import opened Ownership

  /** What a provider publishes; `retain` and `release` say whether it gave those callbacks. */
  datatype Desc = Desc(fingerprint: nat, retain: bool, release: bool)

  datatype Lane = Lane(owner: Owner, name: string, desc: Desc, leases: nat)

  datatype Lease = Lease(holder: Owner, laneId: nat)

  datatype Acquired = Refused | NotFound | Fingerprint | Ok(lease: nat)

  // ---------------------------------------------------------------- consistency, on values

  ghost predicate NamesMatch(lanes: map<nat, Lane>, byName: map<string, nat>) {
    && (forall id :: id in lanes ==> lanes[id].name in byName && byName[lanes[id].name] == id)
    && (forall n :: n in byName ==> byName[n] in lanes && lanes[byName[n]].name == n)
  }

  /** Every lease is on a published lane of another mod; `holders` lists the leases of each lane. */
  ghost predicate LeasesMatch(lanes: map<nat, Lane>, leases: map<nat, Lease>, holders: map<nat, set<nat>>) {
    && (forall l :: l in leases ==> && leases[l].laneId in lanes && leases[l].laneId in holders
                                    && l in holders[leases[l].laneId]
                                    && leases[l].holder.mod != lanes[leases[l].laneId].owner.mod)
    && (forall id, l {:trigger l in holders[id]} ::
          id in holders && l in holders[id] ==> l in leases && leases[l].laneId == id)
    && (forall id :: id in lanes ==> id in holders && lanes[id].leases == |holders[id]|)
  }

  /** So a lane's counter is the number of table entries for it. */
  lemma LeaseCountExact(lanes: map<nat, Lane>, leases: map<nat, Lease>, holders: map<nat, set<nat>>, id: nat)
    requires LeasesMatch(lanes, leases, holders) && id in lanes
    ensures lanes[id].leases == |set l | l in leases && leases[l].laneId == id|
  {
    assert holders[id] == set l | l in leases && leases[l].laneId == id;
  }

  lemma LeaseHasLane(lanes: map<nat, Lane>, leases: map<nat, Lease>, holders: map<nat, set<nat>>, l: nat)
    requires LeasesMatch(lanes, leases, holders) && l in leases
    ensures leases[l].laneId in lanes && lanes[leases[l].laneId].leases > 0
  {}

  /** The cell handed to consumers: is the lane published, and how many calls are inside it. */
  datatype AliveCell = AliveCell(flag: bool, busy: nat)

  /** Every lane ever published keeps its cell, and the flag is on exactly while it is published. */
  ghost predicate CellsMatch(lanes: map<nat, Lane>, next: nat, cells: map<nat, AliveCell>) {
    && (forall id :: id in lanes ==> id in cells && cells[id].flag)
    && (forall id :: id in cells && cells[id].flag ==> id in lanes)
    && (forall id :: id in cells ==> id < next)
  }

  /** Is some lane of the mod being called right now? */
  ghost predicate InUse(lanes: map<nat, Lane>, cells: map<nat, AliveCell>, mod: nat) {
    exists id :: id in lanes && id in cells && lanes[id].owner.mod == mod && cells[id].busy != 0
  }

  /** All tables of the lanes. */
  datatype Tables = Tables(
    lanes: map<nat, Lane>,
    byName: map<string, nat>,
    leases: map<nat, Lease>,
    nextLaneId: nat,
    nextLeaseId: nat,
    cells: map<nat, AliveCell>,
    holders: map<nat, set<nat>>
  )

  ghost predicate Below(ids: set<nat>, next: nat) {
    forall id :: id in ids ==> id < next
  }

  /** The next ids have never been used. */
  ghost predicate Fresh(t: Tables) {
    && t.nextLaneId > 0 && t.nextLeaseId > 0
    && Below(t.leases.Keys, t.nextLeaseId) && 0 !in t.leases && Below(t.holders.Keys, t.nextLaneId)
  }

  ghost predicate Consistent(t: Tables) {
    && Fresh(t)
    && CellsMatch(t.lanes, t.nextLaneId, t.cells)
    && NamesMatch(t.lanes, t.byName)
    && LeasesMatch(t.lanes, t.leases, t.holders)
  }

  // ---------------------------------------------------------------- what each step does to it

  function WithLeases(lanes: map<nat, Lane>, id: nat, n: nat): map<nat, Lane>
    requires id in lanes
  {
    lanes[id := lanes[id].(leases := n)]
  }

  lemma CountKeepsRest(lanes: map<nat, Lane>, id: nat, n: nat, byName: map<string, nat>, next: nat,
                       cells: map<nat, AliveCell>)
    requires id in lanes && NamesMatch(lanes, byName) && CellsMatch(lanes, next, cells)
    ensures NamesMatch(WithLeases(lanes, id, n), byName)
    ensures CellsMatch(WithLeases(lanes, id, n), next, cells)
  {}

  lemma LeaseTaken(lanes: map<nat, Lane>, leases: map<nat, Lease>, holders: map<nat, set<nat>>, l: nat, self: Owner,
                   id: nat)
    requires LeasesMatch(lanes, leases, holders) && l !in leases && id in lanes && self.mod != lanes[id].owner.mod
    ensures LeasesMatch(WithLeases(lanes, id, lanes[id].leases + 1), leases[l := Lease(self, id)],
                        holders[id := holders[id] + {l}])
  {}

  lemma LeaseGivenBack(lanes: map<nat, Lane>, leases: map<nat, Lease>, holders: map<nat, set<nat>>, l: nat)
    requires LeasesMatch(lanes, leases, holders) && l in leases
    ensures var id := leases[l].laneId;
            && id in lanes && lanes[id].leases > 0
            && LeasesMatch(WithLeases(lanes, id, lanes[id].leases - 1), leases - {l}, holders[id := holders[id] - {l}])
  {}

  lemma BelowAfter<E>(m: map<nat, E>, next: nat, id: nat, e: E)
    requires Below(m.Keys, next)
    ensures next !in m && (id < next ==> Below(m[id := e].Keys, next))
    ensures id <= next ==> Below(m[id := e].Keys, next + 1)
  {}

  lemma CellsAfterPublish(lanes: map<nat, Lane>, next: nat, lane: Lane, cells: map<nat, AliveCell>)
    requires CellsMatch(lanes, next, cells)
    ensures next !in lanes && CellsMatch(lanes[next := lane], next + 1, cells[next := AliveCell(true, 0)])
  {}

  lemma NamesAfterRetire(lanes: map<nat, Lane>, id: nat, byName: map<string, nat>)
    requires id in lanes && NamesMatch(lanes, byName)
    ensures NamesMatch(lanes - {id}, byName - {lanes[id].name})
  {}

  lemma LeasesAfterRetire(lanes: map<nat, Lane>, id: nat, leases: map<nat, Lease>, left: map<nat, Lease>,
                          holders: map<nat, set<nat>>)
    requires id in lanes && LeasesMatch(lanes, leases, holders) && WithoutLane(leases, id, left)
    ensures LeasesMatch(lanes - {id}, left, holders[id := {}])
  {}

  lemma NamesAfterPublish(lanes: map<nat, Lane>, id: nat, lane: Lane, byName: map<string, nat>)
    requires id !in lanes && lane.name !in byName && NamesMatch(lanes, byName)
    ensures NamesMatch(lanes[id := lane], byName[lane.name := id])
  {}

  lemma LeasesAfterPublish(lanes: map<nat, Lane>, id: nat, lane: Lane, leases: map<nat, Lease>,
                           holders: map<nat, set<nat>>)
    requires id !in lanes && id !in holders && lane.leases == 0 && LeasesMatch(lanes, leases, holders)
    ensures LeasesMatch(lanes[id := lane], leases, holders[id := {}])
  {}

  // ---------------------------------------------------------------- whole steps

  function AfterPublish(t: Tables, owner: Owner, name: string, desc: Desc): Tables {
    var id := t.nextLaneId;
    Tables(t.lanes[id := Lane(owner, name, desc, 0)], t.byName[name := id], t.leases, id + 1, t.nextLeaseId,
           t.cells[id := AliveCell(true, 0)], t.holders[id := {}])
  }

  lemma PublishKeeps(t: Tables, owner: Owner, name: string, desc: Desc)
    requires Consistent(t) && name !in t.byName
    ensures Consistent(AfterPublish(t, owner, name, desc)) && t.nextLaneId !in t.lanes
  {
    var id, lane := t.nextLaneId, Lane(owner, name, desc, 0);
    BelowAfter(t.holders, id, id, {});
    CellsAfterPublish(t.lanes, id, lane, t.cells);
    NamesAfterPublish(t.lanes, id, lane, t.byName);
    LeasesAfterPublish(t.lanes, id, lane, t.leases, t.holders);
  }

  function AfterAcquire(t: Tables, self: Owner, id: nat): Tables
    requires id in t.lanes && id in t.holders
  {
    var l := t.nextLeaseId;
    Tables(WithLeases(t.lanes, id, t.lanes[id].leases + 1), t.byName, t.leases[l := Lease(self, id)], t.nextLaneId,
           l + 1, t.cells, t.holders[id := t.holders[id] + {l}])
  }

  lemma AcquireKeepsShape(t: Tables, self: Owner, id: nat)
    requires Consistent(t) && id in t.lanes && id in t.holders
    ensures var a := AfterAcquire(t, self, id);
            Fresh(a) && CellsMatch(a.lanes, a.nextLaneId, a.cells) && NamesMatch(a.lanes, a.byName)
  {
    BelowAfter(t.leases, t.nextLeaseId, t.nextLeaseId, Lease(self, id));
    BelowAfter(t.holders, t.nextLaneId, id, t.holders[id] + {t.nextLeaseId});
    CountKeepsRest(t.lanes, id, t.lanes[id].leases + 1, t.byName, t.nextLaneId, t.cells);
  }

  lemma AcquireKeeps(t: Tables, self: Owner, id: nat)
    requires Consistent(t) && id in t.lanes && t.lanes[id].owner.mod != self.mod
    ensures id in t.holders && Consistent(AfterAcquire(t, self, id)) && t.nextLeaseId !in t.leases
  {
    AcquireKeepsShape(t, self, id);
    LeaseTaken(t.lanes, t.leases, t.holders, t.nextLeaseId, self, id);
  }

  function AfterRelease(t: Tables, l: nat): Tables
    requires l in t.leases
    requires var id := t.leases[l].laneId; id in t.lanes && id in t.holders && t.lanes[id].leases > 0
  {
    var id := t.leases[l].laneId;
    Tables(WithLeases(t.lanes, id, t.lanes[id].leases - 1), t.byName, t.leases - {l}, t.nextLaneId, t.nextLeaseId,
           t.cells, t.holders[id := t.holders[id] - {l}])
  }

  lemma ReleaseKeepsShape(t: Tables, l: nat)
    requires Consistent(t) && l in t.leases
    requires var id := t.leases[l].laneId; id in t.lanes && id in t.holders && t.lanes[id].leases > 0
    ensures var a := AfterRelease(t, l);
            Fresh(a) && CellsMatch(a.lanes, a.nextLaneId, a.cells) && NamesMatch(a.lanes, a.byName)
  {
    var id := t.leases[l].laneId;
    CountKeepsRest(t.lanes, id, t.lanes[id].leases - 1, t.byName, t.nextLaneId, t.cells);
  }

  lemma ReleaseKeeps(t: Tables, l: nat)
    requires Consistent(t) && l in t.leases
    ensures var id := t.leases[l].laneId;
            id in t.lanes && id in t.holders && t.lanes[id].leases > 0 && Consistent(AfterRelease(t, l))
  {
    LeaseGivenBack(t.lanes, t.leases, t.holders, l);
    ReleaseKeepsShape(t, l);
  }

  /** Retiring: flag off, and the lane's leases are collected. */
  function AfterRetire(t: Tables, id: nat, left: map<nat, Lease>): Tables
    requires id in t.lanes && id in t.cells
  {
    Tables(t.lanes - {id}, t.byName - {t.lanes[id].name}, left, t.nextLaneId, t.nextLeaseId,
           t.cells[id := t.cells[id].(flag := false)], t.holders[id := {}])
  }

  ghost predicate WithoutLane(leases: map<nat, Lease>, id: nat, left: map<nat, Lease>) {
    && (forall l :: l in left <==> l in leases && leases[l].laneId != id)
    && (forall l :: l in left ==> left[l] == leases[l])
  }

  lemma RetireKeeps(t: Tables, id: nat, left: map<nat, Lease>)
    requires Consistent(t) && id in t.lanes && WithoutLane(t.leases, id, left)
    ensures id in t.cells && Consistent(AfterRetire(t, id, left))
  {
    NamesAfterRetire(t.lanes, id, t.byName);
    LeasesAfterRetire(t.lanes, id, t.leases, left, t.holders);
  }
}
