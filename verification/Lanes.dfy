/**
 * The table operations of the fast lanes of src/bridge/core/Lane.cpp: what each of them does under the
 * lock. The provider's `retain` and `release` are entered afterwards, without the lock, by the loader.
 */
module Lanes {
  import opened Machine
  import opened Ownership
  import opened LaneBooks

  class LaneTable {
    var lanes: map<nat, Lane>
    var byName: map<string, nat>
    var leases: map<nat, Lease>
    var nextLaneId: nat
    var nextLeaseId: nat
    /** The cells handed to consumers; they are never freed. */
    var cells: map<nat, AliveCell>
    /** The leases on each lane ever published. */
    ghost var holders: map<nat, set<nat>>

    ghost function Now(): Tables
      reads this
    {
      Tables(lanes, byName, leases, nextLaneId, nextLeaseId, cells, holders)
    }

    ghost predicate Valid()
      reads this
    {
      Consistent(Now())
    }

    constructor ()
      ensures Valid() && lanes == map[] && byName == map[] && leases == map[] && nextLaneId == 1
    {
      lanes, byName, leases, nextLaneId, nextLeaseId := map[], map[], map[], 1, 1;
      cells, holders := map[], map[];
    }

    /** `wellFormed` stands for the size, protocol and table checks of the descriptor. */
    method Publish(owner: Owner, name: string, desc: Desc, wellFormed: bool) returns (id: nat)
      requires Valid()
      modifies this
      ensures Valid() && leases == old(leases)
      ensures id == 0 <==> !wellFormed || desc.fingerprint == 0 || !GoodName(name) || name in old(byName)
      ensures lanes == if id == 0 then old(lanes) else old(lanes)[id := Lane(owner, name, desc, 0)]
      ensures byName == if id == 0 then old(byName) else old(byName)[name := id]
      ensures nextLaneId == old(nextLaneId) + if id == 0 then 0 else 1
      ensures id != 0 ==> id == old(nextLaneId) && id !in old(lanes)
    {
      if !wellFormed || desc.fingerprint == 0 { return 0; }
      if !GoodName(name) { return 0; }
      if name in byName { return 0; }
      PublishKeeps(Now(), owner, name, desc);
      id := AddLane(owner, name, desc);
    }

    method AddLane(owner: Owner, name: string, desc: Desc) returns (id: nat)
      modifies this
      ensures id == old(nextLaneId) && Now() == AfterPublish(old(Now()), owner, name, desc)
    {
      id := nextLaneId;
      nextLaneId := nextLaneId + 1;
      lanes, byName := lanes[id := Lane(owner, name, desc, 0)], byName[name := id];
      cells := cells[id := AliveCell(true, 0)];
      holders := holders[id := {}];
    }

    /** The consumer gets pointers only when the fingerprints agree. */
    method Acquire(self: Owner, name: string, want: nat, living: set<Owner>) returns (r: Acquired)
      requires Valid()
      modifies this
      ensures Valid() && nextLaneId == old(nextLaneId) && byName == old(byName)
      ensures r.Ok? <==> && GoodName(name) && name in old(byName)
                         && var lane := old(lanes)[old(byName)[name]];
                            && lane.owner.mod != self.mod && lane.owner in living
                            && want != 0 && want == lane.desc.fingerprint
      ensures !r.Ok? ==> lanes == old(lanes) && leases == old(leases)
      ensures r.Ok? ==> && var id := old(byName)[name];
                        && r.lease == old(nextLeaseId) && r.lease !in old(leases)
                        && leases == old(leases)[r.lease := Lease(self, id)]
                        && lanes == WithLeases(old(lanes), id, old(lanes)[id].leases + 1)
    {
      if !GoodName(name) { return Refused; }
      if name !in byName { return NotFound; }
      var id := byName[name];
      if id !in lanes { return NotFound; }
      var lane := lanes[id];
      if lane.owner.mod == self.mod { return Refused; }
      if lane.owner !in living { return NotFound; }
      if want == 0 || want != lane.desc.fingerprint { return Fingerprint; }
      AcquireKeeps(Now(), self, id);
      var l := TakeLease(self, id);
      return Ok(l);
    }

    method TakeLease(self: Owner, id: nat) returns (l: nat)
      requires id in lanes && id in holders
      modifies this
      ensures l == old(nextLeaseId) && Now() == AfterAcquire(old(Now()), self, id)
    {
      l := nextLeaseId;
      nextLeaseId := nextLeaseId + 1;
      leases, lanes := leases[l := Lease(self, id)], WithLeases(lanes, id, lanes[id].leases + 1);
      holders := holders[id := holders[id] + {l}];
    }

    /** Takes one lease out of the table. */
    method Drop(l: nat)
      requires Valid() && l in leases
      modifies this
      ensures Valid() && nextLaneId == old(nextLaneId) && byName == old(byName) && leases == old(leases) - {l}
      ensures var id := old(leases)[l].laneId;
              && id in old(lanes) && old(lanes)[id].leases > 0
              && lanes == WithLeases(old(lanes), id, old(lanes)[id].leases - 1)
    {
      ReleaseKeeps(Now(), l);
      GiveLeaseBack(l, leases[l].laneId);
    }

    method GiveLeaseBack(l: nat, id: nat)
      requires l in leases && leases[l].laneId == id && id in lanes && id in holders && lanes[id].leases > 0
      modifies this
      ensures Now() == AfterRelease(old(Now()), l)
    {
      leases, lanes := leases - {l}, WithLeases(lanes, id, lanes[id].leases - 1);
      holders := holders[id := holders[id] - {l}];
    }

    /** Alive flag off, and the lane goes with its leases, which are counted. */
    method Retire(id: nat) returns (outstanding: nat)
      requires Valid() && id in lanes
      modifies this
      ensures Valid() && nextLaneId == old(nextLaneId)
      ensures lanes == old(lanes) - {id} && byName == old(byName) - {old(lanes)[id].name}
      ensures WithoutLane(old(leases), id, leases) && outstanding == old(lanes)[id].leases
    {
      LeaseCountExact(lanes, leases, holders, id);
      outstanding := TakeDown(id);
      RetireKeeps(old(Now()), id, leases);
    }

    method TakeDown(id: nat) returns (outstanding: nat)
      requires id in lanes && id in cells
      modifies this
      ensures WithoutLane(old(leases), id, leases) && Now() == AfterRetire(old(Now()), id, leases)
      ensures outstanding == |set l | l in old(leases) && old(leases)[l].laneId == id|
    {
      var lane := lanes[id];
      cells := cells[id := cells[id].(flag := false)];
      outstanding := CollectLeases(id);
      byName := byName - {lane.name};
      lanes := lanes - {id};
      holders := holders[id := {}];
    }

    /** Erases the leases of one lane and counts them. */
    method CollectLeases(id: nat) returns (outstanding: nat)
      modifies this`leases
      ensures WithoutLane(old(leases), id, leases)
      ensures outstanding == |set l | l in old(leases) && old(leases)[l].laneId == id|
    {
      outstanding := 0;
      var rest := leases.Keys;
      ghost var gone: set<nat> := {};
      while rest != {}
        invariant rest <= old(leases).Keys && outstanding == |gone|
        invariant forall l :: l in gone <==> l in old(leases) && l !in rest && old(leases)[l].laneId == id
        invariant forall l :: l in leases <==> l in old(leases) && l !in gone
        invariant forall l :: l in leases ==> leases[l] == old(leases)[l]
      {
        var l :| l in rest;
        rest := rest - {l};
        if leases[l].laneId == id {
          outstanding := outstanding + 1;
          leases, gone := leases - {l}, gone + {l};
        }
      }
      assert gone == set l | l in old(leases) && old(leases)[l].laneId == id;
    }

    /** The leases a mod holds. */
    method LeasesOf(mod: nat) returns (mine: set<nat>)
      ensures mine == set l | l in leases && leases[l].holder.mod == mod
    {
      mine := set l | l in leases && leases[l].holder.mod == mod;
    }

    /** The lanes a mod has published. */
    method LanesOf(mod: nat) returns (published: set<nat>)
      ensures published == set id | id in lanes && lanes[id].owner.mod == mod
    {
      published := set id | id in lanes && lanes[id].owner.mod == mod;
    }

    /** The name of some lane of the mod that is being called right now. */
    method BusyName(mod: nat) returns (r: Option<string>)
      requires Valid()
      ensures r.Some? <==> InUse(lanes, cells, mod)
      ensures r.Some? ==>
                exists id :: && id in lanes && id in cells && lanes[id].owner.mod == mod && cells[id].busy != 0
                             && lanes[id].name == r.value
      ensures r.None? ==> forall id :: id in lanes && id in cells && lanes[id].owner.mod == mod ==> cells[id].busy == 0
    {
      var rest := lanes.Keys;
      while rest != {}
        invariant rest <= lanes.Keys
        invariant forall id :: id in lanes && id !in rest && lanes[id].owner.mod == mod ==>
                    id in cells && cells[id].busy == 0
      {
        var id :| id in rest;
        rest := rest - {id};
        if lanes[id].owner.mod == mod && cells[id].busy != 0 {
          return Some(lanes[id].name);
        }
      }
      return None;
    }

    /** A consumer enters or leaves a table entry; the cell outlives the lane. */
    method SetBusy(id: nat, n: nat)
      requires Valid() && id in cells
      modifies this`cells
      ensures Valid() && cells == old(cells)[id := old(cells)[id].(busy := n)]
    {
      cells := cells[id := cells[id].(busy := n)];
    }
  }
}
