/**
 * The unload planner: `dependentsOf` of src/core/ModControl.cpp, a breadth-first closure over the
 * reversed dependency edges followed by Kahn's algorithm on the affected mods.
 */
module Dependents {
  import opened Walks

  type Name = string

  /** Every loaded mod with its declared dependencies; the same name may be listed twice. */
  type DepMap = map<Name, seq<Name>>

  /** `a` declares a dependency on `b`. */
  predicate Lists(deps: DepMap, a: Name, b: Name) {
    a in deps && b in deps[a]
  }

  ghost function Needs(deps: DepMap): (Name, Name) -> bool {
    (a, b) => Lists(deps, a, b)
  }

  /** `m` directly or indirectly needs `target`. */
  ghost predicate Dependent(deps: DepMap, m: Name, target: Name) {
    Leads(Needs(deps), m, target)
  }

  ghost predicate NoDuplicates(s: seq<Name>) {
    forall i, j :: 0 <= i < j < |s| ==> s[i] != s[j]
  }

  /** A mod comes before everything in the list that it depends on. */
  ghost predicate UnloadOrder(deps: DepMap, s: seq<Name>) {
    forall i, j :: 0 <= i <= j < |s| ==> !Lists(deps, s[j], s[i])
  }

  ghost function NeedsWithin(deps: DepMap, s: set<Name>): (Name, Name) -> bool {
    (a, b) => a in s && b in s && Lists(deps, a, b)
  }

  /** No mod of `s` leads back to itself through mods of `s`. */
  ghost predicate AcyclicOn(deps: DepMap, s: set<Name>) {
    forall m :: !Leads(NeedsWithin(deps, s), m, m)
  }

  ghost predicate Acyclic(deps: DepMap) {
    forall m :: !Leads(Needs(deps), m, m)
  }

  // ---------------------------------------------------------------- reversed edges

  predicate InTable(dependedBy: map<Name, seq<Name>>, d: Name, m: Name) {
    d in dependedBy && m in dependedBy[d]
  }

  /** The table holds, under each name, exactly the mods among `done` that list it. */
  ghost predicate Reversed(deps: DepMap, done: set<Name>, dependedBy: map<Name, seq<Name>>) {
    forall d, m :: InTable(dependedBy, d, m) <==> m in done && Lists(deps, m, d)
  }

  method ReverseEdges(deps: DepMap) returns (dependedBy: map<Name, seq<Name>>)
    ensures Reversed(deps, deps.Keys, dependedBy)
  {
    dependedBy := map[];
    var done := {};
    while deps.Keys - done != {}
      invariant done <= deps.Keys && Reversed(deps, done, dependedBy)
      decreases deps.Keys - done
    {
      var mod :| mod in deps.Keys - done;
      var list := deps[mod];
      ghost var before := dependedBy;
      for i := 0 to |list|
        invariant forall d, m :: InTable(dependedBy, d, m) <==> InTable(before, d, m) || (m == mod && d in list[..i])
      {
        var d := list[i];
        ghost var prev := dependedBy;
        dependedBy := dependedBy[d := (if d in dependedBy then dependedBy[d] else []) + [mod]];
        assert list[..i + 1] == list[..i] + [d];
        assert forall e, m :: InTable(dependedBy, e, m) <==> InTable(prev, e, m) || (e == d && m == mod);
      }
      assert list[..|list|] == list;
      done := done + {mod};
    }
  }

  // ---------------------------------------------------------------- affected mods

  /** What the closure has found so far: dependents only, the queue among them. */
  ghost predicate Found(deps: DepMap, target: Name, affected: set<Name>, queue: seq<Name>) {
    && affected <= deps.Keys && target !in affected
    && (forall m :: m in affected ==> Dependent(deps, m, target))
    && (forall m :: m in queue ==> m in affected || m == target)
  }

  method Affected(deps: DepMap, dependedBy: map<Name, seq<Name>>, target: Name) returns (affected: set<Name>)
    requires Reversed(deps, deps.Keys, dependedBy)
    ensures affected <= deps.Keys && target !in affected
    ensures forall m :: m in affected <==> m != target && Dependent(deps, m, target)
  {
    affected := {};
    var queue := [target];
    while queue != []
      invariant Found(deps, target, affected, queue) && Expanded(deps, target, affected, queue)
      decreases |deps.Keys - affected|, |queue|
    {
      var cur := queue[0];
      ghost var before := affected;
      affected, queue := VisitDependents(deps, dependedBy, target, cur, affected, queue[1..]);
      assert before != affected ==> deps.Keys - affected < deps.Keys - before;
      if before != affected {
        SmallerSet(deps.Keys - affected, deps.Keys - before);
      }
    }
    forall m | m != target && Dependent(deps, m, target)
      ensures m in affected
    {
      ReachedBackwards(deps, target, affected, m);
    }
  }

  /** When all that list `cur` have been found, it need not wait any longer. */
  lemma AllVisited(deps: DepMap, target: Name, cur: Name, affected0: set<Name>, queue0: seq<Name>, affected: set<Name>,
                   queue: seq<Name>)
    requires Expanded(deps, target, affected0, [cur] + queue0) && affected0 <= affected
    requires forall m :: m in queue0 ==> m in queue
    requires forall m :: m in affected ==> m in affected0 || m in queue
    requires forall p :: Lists(deps, p, cur) ==> p == target || p in affected
    ensures Expanded(deps, target, affected, queue)
  {
    forall m, p | (m == target || m in affected) && m !in queue && Lists(deps, p, m)
      ensures p == target || p in affected
    {
      if m != cur { assert m !in [cur] + queue0; }
    }
  }

  /** One turn of the closure: queues the dependents of `cur` not met before. */
  method VisitDependents(deps: DepMap, dependedBy: map<Name, seq<Name>>, target: Name, cur: Name,
                         affected0: set<Name>, queue0: seq<Name>)
    returns (affected: set<Name>, queue: seq<Name>)
    requires Reversed(deps, deps.Keys, dependedBy)
    requires Found(deps, target, affected0, [cur] + queue0) && Expanded(deps, target, affected0, [cur] + queue0)
    ensures Found(deps, target, affected, queue) && Expanded(deps, target, affected, queue)
    ensures affected0 <= affected && (affected == affected0 ==> queue == queue0)
  {
    affected, queue := affected0, queue0;
    var list := if cur in dependedBy then dependedBy[cur] else [];
    assert cur in affected0 || cur == target by { assert cur in [cur] + queue0; }
    assert forall m :: m in queue0 ==> m in [cur] + queue0;
    for i := 0 to |list|
      invariant Found(deps, target, affected, queue)
      invariant affected0 <= affected && (affected == affected0 ==> queue == queue0)
      invariant forall m :: m in queue0 ==> m in queue
      invariant forall m :: m in affected ==> m in affected0 || m in queue
      invariant forall k :: 0 <= k < i ==> list[k] in affected || list[k] == target
    {
      var dep := list[i];
      assert InTable(dependedBy, cur, dep);
      if dep != target && dep !in affected {
        DependentStep(deps, dep, cur, target);
        affected, queue := affected + {dep}, queue + [dep];
      }
    }
    forall p | Lists(deps, p, cur)
      ensures p == target || p in affected
    {
      assert InTable(dependedBy, cur, p);
    }
    AllVisited(deps, target, cur, affected0, queue0, affected, queue);
  }

  /** Every visited mod that is not queued has all its direct dependents visited. */
  ghost predicate Expanded(deps: DepMap, target: Name, affected: set<Name>, queue: seq<Name>) {
    forall m, p :: (m == target || m in affected) && m !in queue && Lists(deps, p, m) ==> p == target || p in affected
  }

  lemma SmallerSet<T>(a: set<T>, b: set<T>)
    requires a < b
    ensures |a| < |b|
  {
    assert b == a + (b - a) && |b| == |a| + |b - a|;
    assert b - a != {};
  }

  lemma DependentStep(deps: DepMap, p: Name, m: Name, target: Name)
    requires Lists(deps, p, m) && (m == target || Dependent(deps, m, target))
    ensures Dependent(deps, p, target)
  {
    JoinedSplit(Needs(deps), m, target);
    assert Needs(deps)(p, m);
  }

  /** When the frontier is empty, walking a dependency chain forwards from `m` shows it was visited. */
  lemma ReachedBackwards(deps: DepMap, target: Name, affected: set<Name>, m: Name)
    requires Expanded(deps, target, affected, []) && Dependent(deps, m, target)
    ensures m == target || m in affected
  {
    LeadsJoined(Needs(deps), m, target);
    var w :| IsWalk(Needs(deps), w) && w[0] == m && w[|w| - 1] == target;
    for i := |w| - 1 downto 0
      invariant w[i] == target || w[i] in affected
    {
      assert Needs(deps)(w[i], w[i + 1]);
    }
  }

  // ---------------------------------------------------------------- counting dependency entries

  /** All dependency entries of the mods in `s`, duplicates kept. */
  ghost function EntriesOf(deps: DepMap, s: set<Name>): multiset<Name>
    requires s <= deps.Keys
  {
    if s == {} then multiset{}
    else
      var m :| m in s;
      EntriesOf(deps, s - {m}) + multiset(deps[m])
  }

  lemma {:induction false} EntriesSplit(deps: DepMap, s: set<Name>, m: Name)
    requires s <= deps.Keys && m in s
    ensures EntriesOf(deps, s) == EntriesOf(deps, s - {m}) + multiset(deps[m])
    decreases s
  {
    var x :| x in s && EntriesOf(deps, s) == EntriesOf(deps, s - {x}) + multiset(deps[x]);
    if x != m {
      EntriesSplit(deps, s - {x}, m);
      EntriesSplit(deps, s - {m}, x);
      assert s - {x} - {m} == s - {m} - {x};
    }
  }

  /** A name occurs among the entries exactly when one of the mods lists it. */
  lemma {:induction false} EntryMeansListed(deps: DepMap, s: set<Name>, d: Name)
    requires s <= deps.Keys
    ensures EntriesOf(deps, s)[d] > 0 <==> exists p :: p in s && Lists(deps, p, d)
    decreases s
  {
    if s != {} {
      var m :| m in s && EntriesOf(deps, s) == EntriesOf(deps, s - {m}) + multiset(deps[m]);
      EntryMeansListed(deps, s - {m}, d);
      assert multiset(deps[m])[d] > 0 <==> Lists(deps, m, d);
    }
  }

  ghost predicate Counts(affected: set<Name>, es: multiset<Name>, indeg: map<Name, int>) {
    indeg.Keys == affected && forall d :: d in affected ==> indeg[d] == es[d]
  }

  method InDegrees(deps: DepMap, affected: set<Name>) returns (indeg: map<Name, int>)
    requires affected <= deps.Keys
    ensures Counts(affected, EntriesOf(deps, affected), indeg)
  {
    indeg := map m | m in affected :: 0;
    var rest := affected;
    ghost var done := {};
    while rest != {}
      invariant done + rest == affected && done !! rest
      invariant Counts(affected, EntriesOf(deps, done), indeg)
    {
      var m :| m in rest;
      EntriesSplit(deps, done + {m}, m);
      assert done + {m} - {m} == done;
      indeg := CountList(affected, deps[m], EntriesOf(deps, done), indeg);
      rest, done := rest - {m}, done + {m};
    }
  }

  method CountList(affected: set<Name>, list: seq<Name>, ghost base: multiset<Name>, indeg0: map<Name, int>)
    returns (indeg: map<Name, int>)
    requires Counts(affected, base, indeg0)
    ensures Counts(affected, base + multiset(list), indeg)
  {
    indeg := indeg0;
    for i := 0 to |list|
      invariant Counts(affected, base + multiset(list[..i]), indeg)
    {
      assert list[..i + 1] == list[..i] + [list[i]];
      if list[i] in affected {
        indeg := indeg[list[i] := indeg[list[i]] + 1];
      }
    }
    assert list[..|list|] == list;
  }

  // ---------------------------------------------------------------- Kahn's algorithm

  /** The mods nobody waits for, in any order (the source sorts them, which only breaks ties). */
  method ZeroDegrees(affected: set<Name>, indeg: map<Name, int>) returns (ready: seq<Name>)
    requires indeg.Keys == affected
    ensures NoDuplicates(ready) && forall m :: m in ready <==> m in affected && indeg[m] == 0
  {
    ready := [];
    var rest := affected;
    while rest != {}
      invariant rest <= affected && NoDuplicates(ready)
      invariant forall m :: m in ready <==> m in affected - rest && indeg[m] == 0
    {
      var m :| m in rest;
      rest := rest - {m};
      if indeg[m] == 0 {
        ready := ready + [m];
      }
    }
  }

  /** All affected mods that list an emitted mod were emitted before it. */
  ghost predicate Settled(deps: DepMap, affected: set<Name>, ordered: seq<Name>) {
    forall j, p :: 0 <= j < |ordered| && p in affected && Lists(deps, p, ordered[j]) ==> p in ordered[..j]
  }

  /** Counts and ready list: a mod is ready when it is left and no entry naming it remains in `es`. */
  ghost predicate Degrees(affected: set<Name>, left: set<Name>, es: multiset<Name>, indeg: map<Name, int>,
                          ready: seq<Name>)
  {
    && Counts(affected, es, indeg)
    && NoDuplicates(ready) && (forall m :: m in ready ==> m in left)
    && (forall m :: m in affected ==> (indeg[m] == 0 <==> m in ready || m !in left))
  }

  /** What has been emitted: everything that is not left, dependents first. */
  ghost predicate Emitted(deps: DepMap, affected: set<Name>, left: set<Name>, ordered: seq<Name>) {
    && NoDuplicates(ordered) && (forall m :: m in ordered <==> m in affected && m !in left)
    && Settled(deps, affected, ordered)
  }

  method KahnOrder(deps: DepMap, affected: set<Name>) returns (ordered: seq<Name>)
    requires affected <= deps.Keys
    ensures NoDuplicates(ordered) && forall m :: m in ordered <==> m in affected
    ensures UnloadOrder(deps, ordered) <==> AcyclicOn(deps, affected)
  {
    ordered := Peel(deps, affected);
    ghost var emitted := ordered;
    ordered := AppendRest(affected, ordered);
    if AcyclicOn(deps, affected) {
      SettledIsUnloadOrder(deps, affected, ordered);
    }
    if UnloadOrder(deps, ordered) {
      OrderedIsAcyclic(deps, affected, ordered);
    }
  }

  /** The main loop; it empties the graph unless there is a cycle. */
  method Peel(deps: DepMap, affected: set<Name>) returns (ordered: seq<Name>)
    requires affected <= deps.Keys
    ensures NoDuplicates(ordered) && Settled(deps, affected, ordered) && forall m :: m in ordered ==> m in affected
    ensures AcyclicOn(deps, affected) ==> forall m :: m in affected ==> m in ordered
  {
    var indeg := InDegrees(deps, affected);
    var ready := ZeroDegrees(affected, indeg);
    ordered := [];
    ghost var left := affected;
    while ready != []
      invariant left <= affected && Degrees(affected, left, EntriesOf(deps, left), indeg, ready)
      invariant Emitted(deps, affected, left, ordered)
      decreases left
    {
      var cur := ready[|ready| - 1];
      ReadyIsSettled(deps, affected, left, indeg, ready, ordered);
      assert left == left - {cur} + {cur};
      ordered, ready, left := ordered + [cur], ready[..|ready| - 1], left - {cur};
      indeg, ready := TakeAway(deps, affected, left, indeg, ready, cur);
    }
    if AcyclicOn(deps, affected) {
      NothingLeft(deps, affected, left, indeg);
    }
  }

  /** The mod about to be emitted has all its dependents emitted. */
  lemma ReadyIsSettled(deps: DepMap, affected: set<Name>, left: set<Name>, indeg: map<Name, int>,
                       ready: seq<Name>, ordered: seq<Name>)
    requires left <= affected <= deps.Keys && ready != []
    requires Degrees(affected, left, EntriesOf(deps, left), indeg, ready)
    requires Emitted(deps, affected, left, ordered)
    ensures var cur := ready[|ready| - 1];
            && cur in left && !Lists(deps, cur, cur)
            && Emitted(deps, affected, left - {cur}, ordered + [cur])
  {
    var cur := ready[|ready| - 1];
    assert cur in ready && cur in left && cur !in ordered;
    EntryMeansListed(deps, left, cur);
    assert forall p :: p in affected && Lists(deps, p, cur) ==> p in ordered;
    forall j, p | 0 <= j < |ordered + [cur]| && p in affected && Lists(deps, p, (ordered + [cur])[j])
      ensures p in (ordered + [cur])[..j]
    {
      assert (ordered + [cur])[..j] == ordered[..j];
    }
  }

  /** Takes the entries of the emitted mod away; whoever nobody waits for any more becomes ready. */
  method TakeAway(deps: DepMap, affected: set<Name>, ghost left: set<Name>, indeg0: map<Name, int>,
                  ready0: seq<Name>, cur: Name)
    returns (indeg: map<Name, int>, ready: seq<Name>)
    requires left + {cur} <= affected <= deps.Keys && cur !in left
    requires Degrees(affected, left, EntriesOf(deps, left + {cur}), indeg0, ready0)
    ensures Degrees(affected, left, EntriesOf(deps, left), indeg, ready)
  {
    indeg, ready := indeg0, ready0;
    var list := deps[cur];
    ghost var base := EntriesOf(deps, left);
    EntriesSplit(deps, left + {cur}, cur);
    assert left + {cur} - {cur} == left && list[0..] == list;
    for i := 0 to |list|
      invariant Degrees(affected, left, base + multiset(list[i..]), indeg, ready)
    {
      var d := list[i];
      FrontEntry(base, list, i);
      OneEntryLess(affected, left, base + multiset(list[i + 1..]), d, indeg, ready);
      if d !in affected {
        continue;
      }
      ready := if indeg[d] == 1 then ready + [d] else ready;
      indeg := indeg[d := indeg[d] - 1];
    }
  }

  lemma FrontEntry(base: multiset<Name>, list: seq<Name>, i: nat)
    requires i < |list|
    ensures base + multiset(list[i..]) == base + multiset(list[i + 1..]) + multiset{list[i]}
  {
    assert list[i..] == [list[i]] + list[i + 1..];
  }

  lemma OneEntryLess(affected: set<Name>, left: set<Name>, es: multiset<Name>, d: Name, indeg: map<Name, int>,
                     ready: seq<Name>)
    requires Degrees(affected, left, es + multiset{d}, indeg, ready)
    ensures d !in affected ==> Degrees(affected, left, es, indeg, ready)
    ensures d in affected ==>
              Degrees(affected, left, es, indeg[d := indeg[d] - 1], if indeg[d] == 1 then ready + [d] else ready)
  {}

  /** Appends the members of a cycle rather than losing them. */
  method AppendRest(affected: set<Name>, ordered0: seq<Name>) returns (ordered: seq<Name>)
    requires NoDuplicates(ordered0) && forall m :: m in ordered0 ==> m in affected
    ensures NoDuplicates(ordered) && forall m :: m in ordered <==> m in affected
    ensures (forall m :: m in affected ==> m in ordered0) ==> ordered == ordered0
  {
    ordered := ordered0;
    var rest := affected;
    while rest != {}
      invariant rest <= affected && NoDuplicates(ordered)
      invariant forall m :: m in ordered <==> m in ordered0 || m in affected - rest
      invariant (forall m :: m in affected ==> m in ordered0) ==> ordered == ordered0
    {
      var m :| m in rest;
      rest := rest - {m};
      if m !in ordered {
        ordered := ordered + [m];
      }
    }
  }

  // ---------------------------------------------------------------- order and cycles

  lemma SettledIsUnloadOrder(deps: DepMap, affected: set<Name>, ordered: seq<Name>)
    requires Settled(deps, affected, ordered) && NoDuplicates(ordered)
    requires forall m :: m in ordered ==> m in affected
    ensures UnloadOrder(deps, ordered)
  {
    forall i, j | 0 <= i <= j < |ordered|
      ensures !Lists(deps, ordered[j], ordered[i])
    {
      assert ordered[j] in affected && ordered[j] !in ordered[..i];
    }
  }

  /** In a list where mods precede what they need, no chain inside the list returns to its start. */
  lemma OrderedIsAcyclic(deps: DepMap, s: set<Name>, ordered: seq<Name>)
    requires UnloadOrder(deps, ordered) && NoDuplicates(ordered) && forall m :: m in s <==> m in ordered
    ensures AcyclicOn(deps, s)
  {
    var edge := NeedsWithin(deps, s);
    forall m
      ensures !Leads(edge, m, m)
    {
      if Leads(edge, m, m) {
        var c :| edge(m, c) && Joined(edge, c, m);
        var w :| IsWalk(edge, w) && w[0] == c && w[|w| - 1] == m;
        var start :| 0 <= start < |ordered| && ordered[start] == m;
        var pos := PlaceAfter(deps, ordered, start, c);
        for i := 0 to |w| - 1
          invariant start < pos < |ordered| && ordered[pos] == w[i]
        {
          assert edge(w[i], w[i + 1]);
          pos := PlaceAfter(deps, ordered, pos, w[i + 1]);
        }
        assert false;
      }
    }
  }

  lemma PlaceAfter(deps: DepMap, ordered: seq<Name>, i: nat, b: Name) returns (j: nat)
    requires UnloadOrder(deps, ordered) && i < |ordered| && b in ordered && Lists(deps, ordered[i], b)
    ensures i < j < |ordered| && ordered[j] == b
  {
    j :| 0 <= j < |ordered| && ordered[j] == b;
  }

  ghost function Above(deps: DepMap, affected: set<Name>, left: set<Name>, m: Name): set<Name> {
    set p | p in left && Leads(NeedsWithin(deps, affected), p, m)
  }

  /** Going from dependent to dependent inside an acyclic set ends at a mod nobody waits for. */
  lemma {:induction false} SourceExists(deps: DepMap, affected: set<Name>, left: set<Name>, m: Name) returns (r: Name)
    requires left <= affected && m in left && AcyclicOn(deps, affected)
    ensures r in left && forall p :: p in left ==> !Lists(deps, p, r)
    decreases |Above(deps, affected, left, m)|
  {
    var edge := NeedsWithin(deps, affected);
    if p :| p in left && Lists(deps, p, m) {
      assert edge(p, m);
      JoinedRefl(edge, m);
      assert Leads(edge, p, m);
      forall q | Leads(edge, q, p)
        ensures Leads(edge, q, m)
      {
        LeadsTrans(edge, q, p, m);
      }
      assert p in Above(deps, affected, left, m) && p !in Above(deps, affected, left, p);
      SmallerSet(Above(deps, affected, left, p), Above(deps, affected, left, m));
      r := SourceExists(deps, affected, left, p);
    } else {
      r := m;
    }
  }

  /** Without cycles every affected mod has been emitted when no mod is ready. */
  lemma NothingLeft(deps: DepMap, affected: set<Name>, left: set<Name>, indeg: map<Name, int>)
    requires left <= affected <= deps.Keys && AcyclicOn(deps, affected)
    requires Degrees(affected, left, EntriesOf(deps, left), indeg, [])
    ensures left == {}
  {
    if m :| m in left {
      var r := SourceExists(deps, affected, left, m);
      EntryMeansListed(deps, left, r);
    }
  }

  // ---------------------------------------------------------------- the planner

  /**
   * Every loaded mod that directly or indirectly needs `target`, once each; dependents come before
   * what they depend on exactly when the affected mods form no cycle among themselves.
   */
  method DependentsOf(deps: DepMap, target: Name) returns (ordered: seq<Name>)
    ensures NoDuplicates(ordered)
    ensures forall m :: m in ordered <==> m != target && Dependent(deps, m, target)
    ensures UnloadOrder(deps, ordered) <==> AcyclicOn(deps, set m | m in ordered)
  {
    var dependedBy := ReverseEdges(deps);
    var affected := Affected(deps, dependedBy, target);
    ordered := KahnOrder(deps, affected);
    assert affected == set m | m in ordered;
  }
}
