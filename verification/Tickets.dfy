/**
 * The ticket tables behind scheduled tasks (src/bridge/core/LogScheduler.cpp) and open forms
 * (src/bridge/actors/Forms.cpp): the executor and the form hold a weak pointer and a number, never
 * the callback.
 */
module Tickets {
  import opened Machine
  import opened Ownership

  class TicketTable {
    var pending: map<nat, Owner>
    var nextId: nat
    /** What the closures out there hold; a closure outlives its ticket. */
    var armed: map<nat, Owner>

    ghost predicate Valid()
      reads this
    {
      && nextId > 0
      && (forall id :: id in pending ==> id in armed && armed[id] == pending[id])
      && (forall id :: id in armed ==> 0 < id < nextId)
    }

    constructor ()
      ensures Valid() && pending == map[] && nextId == 1
    {
      pending, nextId, armed := map[], 1, map[];
    }

    method Register(owner: Owner) returns (id: nat)
      requires Valid()
      modifies this
      ensures Valid() && id == old(nextId) && nextId == id + 1
      ensures pending == old(pending)[id := owner]
    {
      id := nextId;
      nextId := nextId + 1;
      pending := pending[id := owner];
      armed := armed[id := owner];
    }

    /** A closure comes due: its ticket is taken out, so it fires at most once. */
    method Take(id: nat) returns (r: Option<Owner>)
      requires Valid()
      modifies this`pending
      ensures Valid() && pending == old(pending) - {id}
      ensures r == if id in old(pending) then Some(old(pending)[id]) else None
    {
      if id !in pending { return None; }
      r := Some(pending[id]);
      pending := pending - {id};
    }

    /** The ticket of a form that cannot be shown is withdrawn at once. */
    method Offer(owner: Owner, shown: bool)
      requires Valid()
      modifies this
      ensures Valid() && nextId == old(nextId) + 1
      ensures pending == if shown then old(pending)[old(nextId) := owner] else old(pending)
    {
      var id := Register(owner);
      if !shown {
        var _ := Take(id);
        assert pending == old(pending);
      }
    }

    /** A mod can cancel its own tickets only. */
    method Cancel(mod: nat, id: nat) returns (ok: bool)
      requires Valid()
      modifies this`pending
      ensures Valid()
      ensures ok <==> id in old(pending) && old(pending)[id].mod == mod
      ensures pending == if ok then old(pending) - {id} else old(pending)
    {
      if id == 0 { return false; }
      if id !in pending || pending[id].mod != mod { return false; }
      pending := pending - {id};
      return true;
    }

    method PendingCount(mod: nat) returns (n: nat)
      requires Valid()
      ensures n == |set id | id in pending && pending[id].mod == mod|
    {
      n := 0;
      var rest := pending.Keys;
      ghost var counted: set<nat> := {};
      while rest != {}
        invariant rest <= pending.Keys && n == |counted|
        invariant counted == set id | id in pending && pending[id].mod == mod && id !in rest
      {
        var id :| id in rest;
        rest := rest - {id};
        if pending[id].mod == mod {
          n := n + 1;
          counted := counted + {id};
        }
      }
      assert counted == set id | id in pending && pending[id].mod == mod;
    }

    /** Drops every ticket of a mod and no other. */
    method OnRustModGone(mod: nat) returns (dropped: nat)
      requires Valid()
      modifies this`pending
      ensures Valid() && dropped == |set id | id in old(pending) && old(pending)[id].mod == mod|
      ensures forall id :: id in pending <==> id in old(pending) && old(pending)[id].mod != mod
      ensures forall id :: id in pending ==> pending[id] == old(pending)[id]
    {
      dropped := 0;
      var rest := pending.Keys;
      ghost var gone: set<nat> := {};
      while rest != {}
        invariant Valid() && rest <= old(pending).Keys && dropped == |gone|
        invariant gone == set id | id in old(pending) && old(pending)[id].mod == mod && id !in rest
        invariant forall id :: id in pending <==> id in old(pending) && (id in rest || old(pending)[id].mod != mod)
        invariant forall id :: id in pending ==> pending[id] == old(pending)[id]
      {
        var id :| id in rest;
        rest := rest - {id};
        if pending[id].mod == mod {
          pending := pending - {id};
          dropped := dropped + 1;
          gone := gone + {id};
        }
      }
      assert gone == set id | id in old(pending) && old(pending)[id].mod == mod;
    }
  }
}
