/** The subscription table of the cross-mod event bus, src/bridge/core/Bus.cpp. */
module Bus {
  import opened Machine
  import opened Ownership

  datatype Subscription = Subscription(owner: Owner, topic: string)

  ghost predicate Increasing(s: seq<nat>) {
    forall i, j :: 0 <= i < j < |s| ==> s[i] < s[j]
  }

  /** `std::remove` of one id. */
  function RemoveId(s: seq<nat>, id: nat): seq<nat> {
    if s == [] then [] else (if s[0] == id then [] else [s[0]]) + RemoveId(s[1..], id)
  }

  lemma {:induction false} RemoveIdKeepsOrder(s: seq<nat>, id: nat)
    requires Increasing(s)
    ensures Increasing(RemoveId(s, id))
    ensures forall x :: x in RemoveId(s, id) <==> x in s && x != id
  {
    if s != [] {
      RemoveIdKeepsOrder(s[1..], id);
      var t := RemoveId(s[1..], id);
      forall i | 0 <= i < |t|
        ensures s[0] < t[i]
      {
        assert t[i] in s[1..];
      }
    }
  }

  class BusTable {
    var subs: map<nat, Subscription>
    var byTopic: map<string, seq<nat>>
    var nextSubId: nat

    ghost predicate Valid()
      reads this
    {
      && nextSubId > 0
      && (forall id :: id in subs ==> 0 < id < nextSubId)
      && ExactIndex(subs, byTopic)
    }

    constructor ()
      ensures Valid() && subs == map[] && nextSubId == 1
    {
      subs, byTopic, nextSubId := map[], map[], 1;
    }

    method Subscribe(owner: Owner, topic: string) returns (id: nat)
      requires Valid()
      modifies this
      ensures Valid() && Aged(old(subs), old(nextSubId), subs, nextSubId)
      ensures id == 0 <==> !GoodName(topic)
      ensures subs == if id == 0 then old(subs) else old(subs)[id := Subscription(owner, topic)]
      ensures nextSubId == old(nextSubId) + if id == 0 then 0 else 1
      ensures id != 0 ==> id == old(nextSubId)
    {
      if !GoodName(topic) { return 0; }
      id := nextSubId;
      nextSubId := nextSubId + 1;
      IndexGrows(subs, byTopic, id, Subscription(owner, topic));
      subs := subs[id := Subscription(owner, topic)];
      byTopic := Longer(byTopic, topic, id);
    }

    /** One mod cannot silence another. */
    method Unsubscribe(mod: nat, id: nat) returns (ok: bool)
      requires Valid()
      modifies this`subs, this`byTopic
      ensures Valid()
      ensures ok <==> id in old(subs) && old(subs)[id].owner.mod == mod
      ensures subs == if ok then old(subs) - {id} else old(subs)
    {
      if id == 0 { return false; }
      if id !in subs || subs[id].owner.mod != mod { return false; }
      Drop(id);
      return true;
    }

    /** Takes one subscription out of the table and of its topic's list. */
    method Drop(id: nat)
      requires Valid() && id in subs
      modifies this`subs, this`byTopic
      ensures Valid() && subs == old(subs) - {id}
    {
      var topic := subs[id].topic;
      assert Indexed(byTopic, topic, id);
      RemoveIdKeepsOrder(byTopic[topic], id);
      var v := RemoveId(byTopic[topic], id);
      ghost var before := byTopic;
      byTopic := if v == [] then byTopic - {topic} else byTopic[topic := v];
      subs := subs - {id};
      forall t, x
        ensures Indexed(byTopic, t, x) <==> Indexed(before, t, x) && x != id
      {
        if t == topic && v == [] {
          assert x in v <==> x in before[topic] && x != id;
        }
      }
    }

    /** Everybody subscribed to the topic but the publisher, oldest subscription first. */
    method IdsFor(topic: string, publisher: nat) returns (out: seq<nat>)
      requires Valid()
      ensures Increasing(out)
      ensures forall id :: id in out <==> id in subs && subs[id].topic == topic && subs[id].owner.mod != publisher
    {
      out := [];
      if topic !in byTopic { return; }
      var list := byTopic[topic];
      assert Increasing(list) && forall id :: id in list <==> Indexed(byTopic, topic, id);
      for i := 0 to |list|
        invariant Increasing(out) && forall k, m :: 0 <= k < |out| && i <= m < |list| ==> out[k] < list[m]
        invariant forall id :: id in out <==> id in list[..i] && id in subs && subs[id].owner.mod != publisher
      {
        assert list[..i + 1] == list[..i] + [list[i]];
        if list[i] !in subs || subs[list[i]].owner.mod == publisher { continue; }
        out := out + [list[i]];
      }
      assert list[..|list|] == list;
    }

    ghost function SubscribersOf(topic: string): set<nat>
      reads this
    {
      set id | id in subs && subs[id].topic == topic
    }

    method SubscriberCount(topic: string) returns (n: nat)
      requires Valid()
      ensures n == |SubscribersOf(topic)|
    {
      ghost var ids := SubscribersOf(topic);
      if topic == "" || topic !in byTopic {
        assert forall id :: id in subs ==> subs[id].topic != topic;
        assert ids == {};
        return 0;
      }
      n := |byTopic[topic]|;
      assert forall id :: id in byTopic[topic] <==> Indexed(byTopic, topic, id);
      DistinctLength(byTopic[topic], ids);
    }

    method OnRustModGone(mod: nat)
      requires Valid()
      modifies this`subs, this`byTopic
      ensures Valid()
      ensures forall id :: id in subs <==> id in old(subs) && old(subs)[id].owner.mod != mod
      ensures forall id :: id in subs ==> subs[id] == old(subs)[id]
    {
      var rest := subs.Keys;
      while rest != {}
        invariant Valid() && rest <= old(subs).Keys
        invariant forall id :: id in subs <==> id in old(subs) && (id in rest || old(subs)[id].owner.mod != mod)
        invariant forall id :: id in subs ==> subs[id] == old(subs)[id]
      {
        var id :| id in rest;
        rest := rest - {id};
        if subs[id].owner.mod == mod {
          Drop(id);
        }
      }
    }
  }

  predicate Indexed(byTopic: map<string, seq<nat>>, topic: string, id: nat) {
    topic in byTopic && id in byTopic[topic]
  }

  /** The topic lists hold exactly the subscriptions, in subscription order, and no list is empty. */
  ghost predicate ExactIndex(subs: map<nat, Subscription>, byTopic: map<string, seq<nat>>) {
    && (forall t, id :: Indexed(byTopic, t, id) ==> id in subs && subs[id].topic == t)
    && (forall id :: id in subs ==> GoodName(subs[id].topic) && Indexed(byTopic, subs[id].topic, id))
    && (forall t :: t in byTopic ==> byTopic[t] != [] && Increasing(byTopic[t]))
  }

  /** The topic lists with a newer id at the end of one. */
  function Longer(byTopic: map<string, seq<nat>>, topic: string, id: nat): map<string, seq<nat>> {
    byTopic[topic := (if topic in byTopic then byTopic[topic] else []) + [id]]
  }

  lemma IndexedLonger(byTopic: map<string, seq<nat>>, topic: string, id: nat, t: string, x: nat)
    ensures Indexed(Longer(byTopic, topic, id), t, x) <==> Indexed(byTopic, t, x) || (t == topic && x == id)
  {
    var list := if topic in byTopic then byTopic[topic] else [];
    assert x in list + [id] <==> x in list || x == id;
  }

  lemma ListsStayIncreasing(byTopic: map<string, seq<nat>>, topic: string, id: nat)
    requires forall t :: t in byTopic ==> byTopic[t] != [] && Increasing(byTopic[t])
    requires forall t, x: nat :: Indexed(byTopic, t, x) ==> x < id
    ensures forall t :: t in Longer(byTopic, topic, id) ==>
              Longer(byTopic, topic, id)[t] != [] && Increasing(Longer(byTopic, topic, id)[t])
  {
    var list := if topic in byTopic then byTopic[topic] else [];
    forall i | 0 <= i < |list|
      ensures list[i] < id
    {
      assert Indexed(byTopic, topic, list[i]);
    }
  }

  /** A newer id goes to the end of its topic's list. */
  lemma IndexGrows(subs: map<nat, Subscription>, byTopic: map<string, seq<nat>>, id: nat, sub: Subscription)
    requires ExactIndex(subs, byTopic) && GoodName(sub.topic) && forall x :: x in subs ==> x < id
    ensures ExactIndex(subs[id := sub], Longer(byTopic, sub.topic, id))
  {
    ListsStayIncreasing(byTopic, sub.topic, id);
    forall t, x
      ensures Indexed(Longer(byTopic, sub.topic, id), t, x) <==> Indexed(byTopic, t, x) || (t == sub.topic && x == id)
    {
      IndexedLonger(byTopic, sub.topic, id, t, x);
    }
  }

  lemma {:induction false} DistinctLength(s: seq<nat>, ids: set<nat>)
    requires Increasing(s) && forall id :: id in ids <==> id in s
    ensures |s| == |ids|
  {
    if s == [] {
      assert ids == {};
    } else {
      DistinctLength(s[1..], ids - {s[0]});
    }
  }
}
