/** How a listener's edited event is written back (src/bridge/runtime/Events.cpp): a three-way merge. */
module EventMerge {
  import opened Machine

  /** The fields of an event. */
  type Tag<V> = map<string, V>

  function Get<V>(m: Tag<V>, k: string): Option<V> {
    if k in m then Some(m[k]) else None
  }

  /** Fields that the listener changed, set or deleted come from the edit, all others stay what they were. */
  function Merge<V(==)>(data: Tag<V>, snapshot: Tag<V>, edited: Tag<V>): (r: Tag<V>)
    ensures forall k :: Get(r, k) == if Get(snapshot, k) == Get(edited, k) then Get(data, k) else Get(edited, k)
  {
    map k | k in data.Keys + edited.Keys && (if Get(snapshot, k) == Get(edited, k) then k in data else k in edited) ::
      if Get(snapshot, k) == Get(edited, k) then data[k] else edited[k]
  }

  /** The write-back itself; a snapshot that cannot be parsed falls back to replacing everything. */
  method WriteBack<V(==)>(data0: Tag<V>, snapshot: Option<Tag<V>>, edited: Option<Tag<V>>) returns (data: Tag<V>)
    ensures edited.None? ==> data == data0
    ensures edited.Some? && snapshot.None? ==> data == edited.value
    ensures edited.Some? && snapshot.Some? ==>
              && data == Merge(data0, snapshot.value, edited.value)
              && forall k :: Get(data, k) ==
                   if Get(snapshot.value, k) == Get(edited.value, k) then Get(data0, k) else Get(edited.value, k)
    ensures edited.Some? && snapshot == Some(data0) ==> data == edited.value
  {
    data := data0;
    if edited.None? { return; }
    if snapshot.None? { return edited.value; }
    var base, edit := snapshot.value, edited.value;
    data := PutChanged(data, base, edit);
    data := EraseMissing(data, base, edit);
    assert forall k :: Get(data, k) == Get(Merge(data0, base, edit), k);
    SameFields(data, Merge(data0, base, edit));
    if base == data0 { FreshSnapshotAppliesEdit(data0, edit); }
  }

  method PutChanged<V(==)>(data0: Tag<V>, base: Tag<V>, edit: Tag<V>) returns (data: Tag<V>)
    ensures forall k ::
              Get(data, k) == if k in edit && Get(base, k) != Get(edit, k) then Get(edit, k) else Get(data0, k)
  {
    data := data0;
    var rest := edit.Keys;
    while rest != {}
      invariant rest <= edit.Keys
      invariant forall k ::
          Get(data, k) == if k in edit.Keys - rest && Get(base, k) != Get(edit, k) then Get(edit, k) else Get(data0, k)
    {
      var key :| key in rest;
      rest := rest - {key};
      if key !in base || base[key] != edit[key] {
        data := data[key := edit[key]];
      }
    }
  }

  method EraseMissing<V(==)>(data0: Tag<V>, base: Tag<V>, edit: Tag<V>) returns (data: Tag<V>)
    ensures forall k :: Get(data, k) == if k in base && k !in edit then None else Get(data0, k)
  {
    data := data0;
    var rest := base.Keys;
    while rest != {}
      invariant rest <= base.Keys
      invariant forall k :: Get(data, k) == if k in base.Keys - rest && k !in edit then None else Get(data0, k)
    {
      var key :| key in rest;
      rest := rest - {key};
      if key !in edit {
        data := data - {key};
      }
    }
  }

  lemma SameFields<V>(a: Tag<V>, b: Tag<V>)
    requires forall k :: Get(a, k) == Get(b, k)
    ensures a == b
  {
    forall k
      ensures k in a <==> k in b
    {
      assert Get(a, k) == Get(b, k);
    }
    forall k | k in a
      ensures a[k] == b[k]
    {
      assert Get(a, k) == Get(b, k);
    }
  }

  /** A snapshot of the present data makes the merge the edit itself. */
  lemma FreshSnapshotAppliesEdit<V>(data: Tag<V>, edited: Tag<V>)
    ensures Merge(data, data, edited) == edited
  {
    SameFields(Merge(data, data, edited), edited);
  }

  // ---------------------------------------------------------------- several listeners

  /** Listeners that were all given the same snapshot, writing back one after the other. */
  function MergeAll<V(==)>(data: Tag<V>, snapshot: Tag<V>, edits: seq<Tag<V>>): Tag<V>
    decreases |edits|
  {
    if edits == [] then data else MergeAll(Merge(data, snapshot, edits[0]), snapshot, edits[1..])
  }

  /** No field is changed by two listeners. */
  ghost predicate DisjointEdits<V>(snapshot: Tag<V>, edits: seq<Tag<V>>) {
    forall i, j, k :: 0 <= i < j < |edits| ==>
      Get(snapshot, k) == Get(edits[i], k) || Get(snapshot, k) == Get(edits[j], k)
  }

  /** A field holds what some listener that changed it wrote, or its old value if none did. */
  lemma {:induction false} EveryFieldHasAWriter<V>(data: Tag<V>, snapshot: Tag<V>, edits: seq<Tag<V>>, k: string)
    ensures var r := Get(MergeAll(data, snapshot, edits), k);
            if exists e :: e in edits && Get(snapshot, k) != Get(e, k)
            then exists e :: e in edits && Get(snapshot, k) != Get(e, k) && r == Get(e, k)
            else r == Get(data, k)
    decreases |edits|
  {
    if edits != [] {
      var next := Merge(data, snapshot, edits[0]);
      EveryFieldHasAWriter(next, snapshot, edits[1..], k);
      assert edits == [edits[0]] + edits[1..];
      assert Get(next, k) == if Get(snapshot, k) == Get(edits[0], k) then Get(data, k) else Get(edits[0], k);
      assert forall e :: e in edits <==> e == edits[0] || e in edits[1..];
    }
  }

  /** Disjoint edits all survive. */
  lemma EveryDisjointEditSurvives<V>(data: Tag<V>, snapshot: Tag<V>, edits: seq<Tag<V>>, i: nat, k: string)
    requires DisjointEdits(snapshot, edits) && i < |edits| && Get(snapshot, k) != Get(edits[i], k)
    ensures Get(MergeAll(data, snapshot, edits), k) == Get(edits[i], k)
  {
    EveryFieldHasAWriter(data, snapshot, edits, k);
    assert edits[i] in edits;
    var e :| e in edits && Get(snapshot, k) != Get(e, k) && Get(MergeAll(data, snapshot, edits), k) == Get(e, k);
    var j :| 0 <= j < |edits| && edits[j] == e;
    assert i == j;
  }

  /** The order in which listeners with disjoint edits run does not matter. */
  lemma MergeOrderIrrelevant<V>(data: Tag<V>, snapshot: Tag<V>, edits: seq<Tag<V>>, other: seq<Tag<V>>)
    requires DisjointEdits(snapshot, edits) && multiset(edits) == multiset(other)
    ensures MergeAll(data, snapshot, edits) == MergeAll(data, snapshot, other)
  {
    var a, b := MergeAll(data, snapshot, edits), MergeAll(data, snapshot, other);
    forall e
      ensures e in edits <==> e in other
    {
      assert e in edits <==> e in multiset(edits);
      assert e in other <==> e in multiset(other);
    }
    forall k
      ensures Get(a, k) == Get(b, k)
    {
      EveryFieldHasAWriter(data, snapshot, edits, k);
      EveryFieldHasAWriter(data, snapshot, other, k);
      if exists e :: e in other && Get(snapshot, k) != Get(e, k) {
        var e :| e in other && Get(snapshot, k) != Get(e, k) && Get(b, k) == Get(e, k);
        var i :| 0 <= i < |edits| && edits[i] == e;
        EveryDisjointEditSurvives(data, snapshot, edits, i, k);
      }
    }
    SameFields(a, b);
  }

  /**
   * A listener that writes back twice is compared with one snapshot both times: the last call alone
   * decides if and only if the first one changed nothing that the second one leaves alone.
   */
  lemma SecondCallWinsIff<V>(data: Tag<V>, snapshot: Tag<V>, first: Tag<V>, second: Tag<V>)
    ensures Merge(Merge(data, snapshot, first), snapshot, second) == Merge(data, snapshot, second) <==>
            forall k :: Get(snapshot, k) != Get(first, k) && Get(snapshot, k) == Get(second, k) ==>
              Get(first, k) == Get(data, k)
  {
    var a, b := Merge(Merge(data, snapshot, first), snapshot, second), Merge(data, snapshot, second);
    if forall k :: Get(snapshot, k) != Get(first, k) && Get(snapshot, k) == Get(second, k) ==>
         Get(first, k) == Get(data, k) {
      SameFields(a, b);
    }
    if a == b {
      forall k | Get(snapshot, k) != Get(first, k) && Get(snapshot, k) == Get(second, k)
        ensures Get(first, k) == Get(data, k)
      {
        assert Get(a, k) == Get(b, k);
      }
    }
  }
}
