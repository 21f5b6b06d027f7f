/** The exclusive service registry of src/bridge/core/Services.cpp. */
module Services {
  import opened Machine
  import opened Ownership

  datatype Service = Service(owner: Owner, name: string)

  class ServiceTable {
    var services: map<nat, Service>
    var byName: map<string, nat>
    var nextId: nat

    /** Names and registrations correspond one to one. */
    ghost predicate Valid()
      reads this
    {
      && nextId > 0
      && (forall id :: id in services ==> 0 < id < nextId)
      && (forall id :: id in services ==> services[id].name in byName && byName[services[id].name] == id)
      && (forall n :: n in byName ==> byName[n] in services && services[byName[n]].name == n)
    }

    constructor ()
      ensures Valid() && services == map[] && byName == map[] && nextId == 1
    {
      services, byName, nextId := map[], map[], 1;
    }

    /** A name that is taken is refused; 0 means refused. */
    method Register(owner: Owner, name: string) returns (id: nat)
      requires Valid()
      modifies this
      ensures Valid() && Aged(old(services), old(nextId), services, nextId)
      ensures id == 0 <==> !GoodName(name) || name in old(byName)
      ensures services == if id == 0 then old(services) else old(services)[id := Service(owner, name)]
      ensures byName == if id == 0 then old(byName) else old(byName)[name := id]
      ensures nextId == old(nextId) + if id == 0 then 0 else 1
      ensures id != 0 ==> id == old(nextId)
    {
      if !GoodName(name) { return 0; }
      if name in byName { return 0; }
      id := nextId;
      nextId := nextId + 1;
      services := services[id := Service(owner, name)];
      byName := byName[name := id];
    }

    method Unregister(mod: nat, id: nat) returns (ok: bool)
      requires Valid()
      modifies this`services, this`byName
      ensures Valid()
      ensures ok <==> id in old(services) && old(services)[id].owner.mod == mod
      ensures services == if ok then old(services) - {id} else old(services)
      ensures byName == if ok then old(byName) - {old(services)[id].name} else old(byName)
    {
      if id == 0 { return false; }
      if id !in services || services[id].owner.mod != mod { return false; }
      byName := byName - {services[id].name};
      services := services - {id};
      return true;
    }

    /** The one provider of a name. */
    method Lookup(name: string) returns (r: Option<Service>)
      requires Valid()
      ensures r == if name in byName then Some(services[byName[name]]) else None
    {
      if name !in byName { return None; }
      if byName[name] !in services { return None; }
      return Some(services[byName[name]]);
    }

    method OnRustModGone(mod: nat)
      requires Valid()
      modifies this`services, this`byName
      ensures Valid()
      ensures forall id :: id in services <==> id in old(services) && old(services)[id].owner.mod != mod
      ensures forall id :: id in services ==> services[id] == old(services)[id]
      ensures byName == NamesLeft(old(byName), services)
    {
      var rest := services.Keys;
      while rest != {}
        invariant Valid() && rest <= old(services).Keys
        invariant forall id :: id in services <==>
                    id in old(services) && (id in rest || old(services)[id].owner.mod != mod)
        invariant forall id :: id in services ==> services[id] == old(services)[id]
        invariant byName == NamesLeft(old(byName), services)
      {
        var id :| id in rest;
        rest := rest - {id};
        if services[id].owner.mod == mod {
          byName := byName - {services[id].name};
          services := services - {id};
        }
      }
    }
  }

  /** The names of the services that are left. */
  function NamesLeft(names: map<string, nat>, services: map<nat, Service>): map<string, nat> {
    map name | name in names && names[name] in services :: names[name]
  }
}
