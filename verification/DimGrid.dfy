/**
 * One dimension's grid with its merge table, root memo and oversized set
 * (`DimGrid` and `groupRootLocked` in src/more_dimensions/plot/PlotConfine.cpp).
 */
module DimGrids {
  import opened Machine
  import opened Walks
  import opened PlotGeometry
  import opened PlotArea

  class DimGrid {
    var plotSize: int
    var roadWidth: int
    var merges: Merges
    var roots: map<uint64, uint64>
    var oversized: set<uint64>

    function AsGrid(): Grid
      reads this
    {
      Grid(plotSize, roadWidth, merges)
    }

    ghost predicate Valid()
      reads this
    {
      1 <= plotSize <= 512 && 0 <= roadWidth <= 64 && MemoExact(merges, roots, oversized)
    }

    constructor (plotSize: int, roadWidth: int)
      requires 1 <= plotSize <= 512 && 0 <= roadWidth <= 64
      ensures Valid() && AsGrid() == Grid(plotSize, roadWidth, map[])
    {
      this.plotSize, this.roadWidth := plotSize, roadWidth;
      merges, roots, oversized := map[], map[], {};
    }

    /** Remembers one root for a whole group. */
    method RememberGroup(members: seq<uint64>, root: PlotXZ)
      requires Valid()
      requires forall i :: 0 <= i < |members| ==> GroupRoot(merges, Unpk(members[i])) == Some(root)
      modifies this`roots
      ensures Valid()
    {
      PackedKeysRoundTrip(root, 0);
      for i := 0 to |members|
        invariant Valid()
      {
        roots := roots[members[i] := KeyOf(root)];
      }
    }

    method HasConnection(id: PlotXZ) returns (anyEdge: bool)
      ensures anyEdge <==> exists d: Dir :: Connected(merges, id, d)
    {
      anyEdge := false;
      for d := 0 to 4
        invariant !anyEdge && forall e: Dir :: e < d ==> !Connected(merges, id, e)
      {
        if Connected(merges, id, d) {
          return true;
        }
      }
    }

    /** The inner loop: collects the neighbours of `cur`, or reports that the limit has been hit. */
    method LookAround(id: PlotXZ, cur: PlotXZ, ghost group0: set<PlotXZ>, seen0: set<uint64>,
                      members0: seq<uint64>, stack0: seq<PlotXZ>, best0: PlotXZ)
      returns (ghost group: set<PlotXZ>, seen: set<uint64>, members: seq<uint64>, stack: seq<PlotXZ>,
               best: PlotXZ, full: bool)
      requires Searching(merges, id, group0, seen0, members0, stack0, best0) && cur in group0
      ensures full ==> group <= Component(merges, id) && |group| > GROUP_SCAN_LIMIT && KeysOf(seen, group)
      ensures !full ==> && Searching(merges, id, group, seen, members, stack, best)
                        && Expanded(merges, cur, 4, group0, stack0, group, stack)
                        && (|group| > |group0| || (group == group0 && stack == stack0))
    {
      group, seen, members, stack, best, full := group0, seen0, members0, stack0, best0, false;
      for d := 0 to 4
        invariant Searching(merges, id, group, seen, members, stack, best)
        invariant Expanded(merges, cur, d, group0, stack0, group, stack)
        invariant |group| > |group0| || (group == group0 && stack == stack0)
      {
        if !Connected(merges, cur, d) {
          continue;
        }
        var nb := NeighbourOf(cur, d);
        var nk := KeyOf(nb);
        PackedKeysRoundTrip(nb, nk);
        if nk in seen {
          continue;
        }
        SearchSteps(merges, id, group, seen, members, stack, best, cur, d);
        seen, group := seen + {nk}, group + {nb};
        if |members| >= GROUP_SCAN_LIMIT {
          full := true;
          return;
        }
        members := members + [nk];
        stack := stack + [nb];
        if LessThan(nb, best) {
          best := nb;
        }
      }
    }

    /** The graph search itself: the whole group with its least plot, or more plots than the limit. */
    method SearchGroup(id: PlotXZ) returns (seen: set<uint64>, members: seq<uint64>, best: PlotXZ, full: bool)
      ensures GroupRoot(merges, id) == if full then None else Some(best)
      ensures full ==> forall k :: k in seen ==> GroupRoot(merges, Unpk(k)) == None
      ensures !full ==> forall i :: 0 <= i < |members| ==> GroupRoot(merges, Unpk(members[i])) == Some(best)
    {
      var stack := [id];
      ghost var group;
      group, seen, members, best, full := {id}, {KeyOf(id)}, [KeyOf(id)], id, false;
      SearchStarts(merges, id);
      while stack != []
        invariant Searching(merges, id, group, seen, members, stack, best)
        invariant Explored(merges, group, stack)
        decreases GROUP_SCAN_LIMIT - |group|, |stack|
      {
        var cur := stack[|stack| - 1];
        stack := stack[..|stack| - 1];
        ghost var before, rest := group, stack;
        group, seen, members, stack, best, full := LookAround(id, cur, group, seen, members, stack, best);
        if full {
          TooManyMembers(merges, id, group, seen);
          return;
        }
        CellExpanded(merges, cur, before, rest, group, stack);
      }
      WholeGroupRoot(merges, id, group, seen, members, best);
    }

    /** The cached, bounded search: the least plot of the group, or None beyond the limit. */
    method GroupRootLocked(id: PlotXZ) returns (r: Option<PlotXZ>)
      requires Valid()
      modifies this`roots, this`oversized
      ensures Valid()
      ensures r == GroupRoot(merges, id)
    {
      var key := KeyOf(id);
      PackedKeysRoundTrip(id, key);
      if key in oversized {
        return None;
      }
      if key in roots {
        return Some(Unpk(roots[key]));
      }

      var anyEdge := HasConnection(id);
      if !anyEdge {
        LonePlot(merges, id);
        roots := roots[key := key];
        return Some(id);
      }

      var seen, members, best, full := SearchGroup(id);
      if full {
        oversized := oversized + seen;
        return None;
      }
      RememberGroup(members, best);
      return Some(best);
    }

    /** `owningPlot` on this grid. */
    method OwningPlotLocked(x: int32, z: int32) returns (r: Option<PlotXZ>)
      ensures r == OwningPlot(AsGrid(), x, z)
    {
      r := OwningPlot(AsGrid(), x, z);
    }

    /** The part of `sameArea` after the grid has been found. */
    method SameAreaLocked(a: Column, b: Column) returns (r: bool)
      requires Valid()
      modifies this`roots, this`oversized
      ensures Valid()
      ensures r == SameArea(Some(AsGrid()), a, b)
    {
      var p := OwningPlotLocked(a.x, a.z);
      var q := OwningPlotLocked(b.x, b.z);
      if p.None? && q.None? { return true; }
      if p.None? != q.None? { return false; }
      if p == q { return true; }
      RootsAgreeIffLinked(merges, p.value, q.value);
      if Linked(merges, p.value, q.value) {
        LinkedSameComponent(merges, p.value, q.value);
      }
      var ra := GroupRootLocked(p.value);
      if ra.None? { return false; }
      var rb := GroupRootLocked(q.value);
      if rb.None? { return false; }
      return ra == rb;
    }

    /** New geometry; the merge table stays, the memo goes. */
    method SetGeometry(plotSize: int, roadWidth: int)
      requires Valid() && 1 <= plotSize <= 512 && 0 <= roadWidth <= 64
      modifies this
      ensures Valid() && AsGrid() == Grid(plotSize, roadWidth, old(merges))
    {
      if this.plotSize != plotSize || this.roadWidth != roadWidth {
        this.plotSize, this.roadWidth := plotSize, roadWidth;
        roots, oversized := map[], {};
      }
    }

    /** Replaces the merge table by `count` triples (x, z, mask). */
    method SetMerges(entries: seq<int32>, count: nat)
      requires Valid() && 3 * count <= |entries|
      modifies this
      ensures Valid() && plotSize == old(plotSize) && roadWidth == old(roadWidth)
      ensures TableHolds(merges, entries, count)
    {
      merges, roots, oversized := map[], map[], {};
      for i := 0 to count
        invariant Valid() && plotSize == old(plotSize) && roadWidth == old(roadWidth)
        invariant TableHolds(merges, entries, i)
      {
        var x, z, mask := entries[3 * i], entries[3 * i + 1], MaskOf(entries[3 * i + 2]);
        ghost var before := merges;
        if mask != {} {
          var k := Pk(x, z);
          merges := merges[k := (if k in merges then merges[k] else {}) + mask];
          roots, oversized := map[], {};
        }
        TableGrows(before, merges, entries, i);
      }
    }
  }

  /** Every remembered answer is the answer the merge table gives. */
  ghost predicate MemoExact(m: Merges, roots: map<uint64, uint64>, oversized: set<uint64>) {
    && (forall k :: k in roots ==> GroupRoot(m, Unpk(k)) == Some(Unpk(roots[k])))
    && (forall k :: k in oversized ==> GroupRoot(m, Unpk(k)) == None)
  }

  // ---------------------------------------------------------------- what the merge table holds

  /** Entry `j` claims direction `d` of plot `p`. */
  predicate EntryClaims(entries: seq<int32>, j: nat, p: PlotXZ, d: Dir)
    requires 3 * j + 2 < |entries|
  {
    entries[3 * j] == p.x && entries[3 * j + 1] == p.z && d in MaskOf(entries[3 * j + 2])
  }

  /** A plot claims a direction exactly when one of the first `count` entries says so. */
  ghost predicate TableHolds(m: Merges, entries: seq<int32>, count: nat)
    requires 3 * count <= |entries|
  {
    forall p, d: Dir :: Claims(m, p, d) <==> exists j: nat :: j < count && EntryClaims(entries, j, p, d)
  }

  /** Or-ing one entry into the table adds exactly what that entry claims. */
  lemma EntryAdded(before: Merges, after: Merges, q: PlotXZ, mask: Mask, p: PlotXZ, d: Dir)
    requires after == if mask == {} then before
                      else before[KeyOf(q) := (if KeyOf(q) in before then before[KeyOf(q)] else {}) + mask]
    ensures Claims(after, p, d) <==> Claims(before, p, d) || (p == q && d in mask)
  {
    if KeyOf(p) == KeyOf(q) {
      KeyInjective(p, q);
    }
  }

  lemma TableGrows(before: Merges, after: Merges, entries: seq<int32>, i: nat)
    requires 3 * i + 2 < |entries| && TableHolds(before, entries, i)
    requires var k, mask := Pk(entries[3 * i], entries[3 * i + 1]), MaskOf(entries[3 * i + 2]);
             after == if mask == {} then before
                      else before[k := (if k in before then before[k] else {}) + mask]
    ensures TableHolds(after, entries, i + 1)
  {
    forall p, d: Dir
      ensures Claims(after, p, d) <==> exists j: nat :: j < i + 1 && EntryClaims(entries, j, p, d)
    {
      EntryAdded(before, after, PlotXZ(entries[3 * i], entries[3 * i + 1]), MaskOf(entries[3 * i + 2]), p, d);
      assert Claims(after, p, d) <==> Claims(before, p, d) || EntryClaims(entries, i, p, d);
    }
  }

  // ---------------------------------------------------------------- steps of the search

  /** `seen` holds exactly the keys of the plots in `group`. */
  ghost predicate KeysOf(seen: set<uint64>, group: set<PlotXZ>) {
    forall k: uint64 :: k in seen <==> Unpk(k) in group
  }

  lemma KeysOfSingle(p: PlotXZ)
    ensures KeysOf({KeyOf(p)}, {p})
  {
    forall k: uint64
      ensures k == KeyOf(p) <==> Unpk(k) == p
    {
      PackedKeysRoundTrip(p, k);
    }
  }

  lemma KeysOfAdd(seen: set<uint64>, group: set<PlotXZ>, p: PlotXZ)
    requires KeysOf(seen, group)
    ensures KeysOf(seen + {KeyOf(p)}, group + {p})
  {
    forall k: uint64
      ensures k == KeyOf(p) <==> Unpk(k) == p
    {
      PackedKeysRoundTrip(p, k);
    }
  }

  /** What the search has collected: part of the group, its keys, its least plot, open ends. */
  ghost predicate Searching(m: Merges, id: PlotXZ, group: set<PlotXZ>, seen: set<uint64>, members: seq<uint64>,
                            stack: seq<PlotXZ>, best: PlotXZ)
  {
    && id in group && group <= Component(m, id)
    && KeysOf(seen, group)
    && |members| == |group| <= GROUP_SCAN_LIMIT
    && (forall i :: 0 <= i < |members| ==> members[i] in seen)
    && (forall p :: p in stack ==> p in group)
    && IsLeast(best, group)
  }

  /** Every collected plot that is not pending has all its merged neighbours collected. */
  ghost predicate Explored(m: Merges, group: set<PlotXZ>, pending: seq<PlotXZ>) {
    forall p, d: Dir :: p in group && p !in pending && Connected(m, p, d) ==> NeighbourOf(p, d) in group
  }

  /** `cur` has been looked around in the first `n` directions, growing `before` to `group`. */
  ghost predicate Expanded(m: Merges, cur: PlotXZ, n: int, before: set<PlotXZ>, rest: seq<PlotXZ>,
                           group: set<PlotXZ>, stack: seq<PlotXZ>)
  {
    && before <= group
    && (forall p :: p in rest ==> p in stack)
    && (forall p :: p in group ==> p in before || p in stack)
    && (forall e: Dir :: e < n && Connected(m, cur, e) ==> NeighbourOf(cur, e) in group)
  }

  lemma SearchStarts(m: Merges, id: PlotXZ)
    ensures Searching(m, id, {id}, {KeyOf(id)}, [KeyOf(id)], [id], id)
    ensures Explored(m, {id}, [id])
  {
    JoinedRefl(Edge(m), id);
    KeysOfSingle(id);
  }

  /** A merged neighbour not seen before is in the group; collecting it keeps the search on track. */
  lemma SearchSteps(m: Merges, id: PlotXZ, group: set<PlotXZ>, seen: set<uint64>, members: seq<uint64>,
                    stack: seq<PlotXZ>, best: PlotXZ, cur: PlotXZ, d: Dir)
    requires Searching(m, id, group, seen, members, stack, best) && cur in group && Connected(m, cur, d)
    requires KeyOf(NeighbourOf(cur, d)) !in seen
    ensures var nb := NeighbourOf(cur, d);
            && nb !in group && group + {nb} <= Component(m, id) && KeysOf(seen + {KeyOf(nb)}, group + {nb})
            && |group + {nb}| == |group| + 1
            && (|members| < GROUP_SCAN_LIMIT ==>
                Searching(m, id, group + {nb}, seen + {KeyOf(nb)}, members + [KeyOf(nb)], stack + [nb],
                          if LessThan(nb, best) then nb else best))
  {
    var nb := NeighbourOf(cur, d);
    PackedKeysRoundTrip(nb, 0);
    assert Edge(m)(cur, nb);
    JoinedStep(Edge(m), cur, nb);
    JoinedTrans(Edge(m), id, cur, nb);
    KeysOfAdd(seen, group, nb);
    LeastOfTwo(group, best, nb);
  }

  lemma LeastOfTwo(s: set<PlotXZ>, best: PlotXZ, p: PlotXZ)
    requires IsLeast(best, s)
    ensures IsLeast(if LessThan(p, best) then p else best, s + {p})
  {}

  lemma CellExpanded(m: Merges, cur: PlotXZ, before: set<PlotXZ>, rest: seq<PlotXZ>, group: set<PlotXZ>,
                     stack: seq<PlotXZ>)
    requires Explored(m, before, rest + [cur]) && Expanded(m, cur, 4, before, rest, group, stack)
    ensures Explored(m, group, stack)
  {}

  lemma {:induction false} SubsetSize<T>(a: set<T>, b: set<T>)
    requires a <= b
    ensures |a| <= |b| && (a != b ==> |a| < |b|)
  {
    assert b == a + (b - a);
    assert |b| == |a| + |b - a|;
    if a != b {
      assert b - a != {};
    }
  }

  /** A plot without any connection is its own group. */
  lemma LonePlot(m: Merges, id: PlotXZ)
    requires forall d: Dir :: !Connected(m, id, d)
    ensures GroupRoot(m, id) == Some(id)
  {
    assert Closed(Edge(m), {id});
    JoinedRefl(Edge(m), id);
    ClosedIsComponent(m, id, {id});
  }

  /** More linked plots than the limit: unknown, for every one of them. */
  lemma TooManyMembers(m: Merges, id: PlotXZ, group: set<PlotXZ>, seen: set<uint64>)
    requires group <= Component(m, id) && |group| > GROUP_SCAN_LIMIT && KeysOf(seen, group)
    ensures GroupRoot(m, id) == None
    ensures forall k :: k in seen ==> GroupRoot(m, Unpk(k)) == None
  {
    SubsetSize(group, Component(m, id));
    forall k | k in seen
      ensures GroupRoot(m, Unpk(k)) == None
    {
      LinkedSameComponent(m, id, Unpk(k));
    }
  }

  lemma LeastUnique(s: set<PlotXZ>, p: PlotXZ, q: PlotXZ)
    requires IsLeast(p, s) && IsLeast(q, s)
    ensures p == q
  {}

  /** The finished search found the group's root, and it is the root of every member. */
  lemma WholeGroupRoot(m: Merges, id: PlotXZ, group: set<PlotXZ>, seen: set<uint64>, members: seq<uint64>,
                       best: PlotXZ)
    requires Searching(m, id, group, seen, members, [], best) && Explored(m, group, [])
    ensures GroupRoot(m, id) == Some(best)
    ensures forall i :: 0 <= i < |members| ==> GroupRoot(m, Unpk(members[i])) == Some(best)
  {
    assert Closed(Edge(m), group);
    ClosedIsComponent(m, id, group);
    LeastUnique(group, best, Least(group));
    forall i | 0 <= i < |members|
      ensures GroupRoot(m, Unpk(members[i])) == Some(best)
    {
      LinkedSameComponent(m, id, Unpk(members[i]));
    }
  }
}
