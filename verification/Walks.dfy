/** Finite walks in a directed graph given by its edge relation. */
module Walks {
  ghost predicate IsWalk<T(!new)>(edge: (T, T) -> bool, w: seq<T>) {
    |w| > 0 && forall i :: 0 <= i < |w| - 1 ==> edge(w[i], w[i + 1])
  }

  /** `b` can be reached from `a` by zero or more edges. */
  ghost predicate Joined<T(!new)>(edge: (T, T) -> bool, a: T, b: T) {
    exists w :: IsWalk(edge, w) && w[0] == a && w[|w| - 1] == b
  }

  /** `b` can be reached from `a` by one or more edges. */
  ghost predicate Leads<T(!new)>(edge: (T, T) -> bool, a: T, b: T) {
    exists c :: edge(a, c) && Joined(edge, c, b)
  }

  ghost predicate Closed<T(!new)>(edge: (T, T) -> bool, s: set<T>) {
    forall a, b :: a in s && edge(a, b) ==> b in s
  }

  lemma JoinedRefl<T(!new)>(edge: (T, T) -> bool, a: T)
    ensures Joined(edge, a, a)
  {
    assert IsWalk(edge, [a]);
  }

  lemma JoinedTrans<T(!new)>(edge: (T, T) -> bool, a: T, b: T, c: T)
    requires Joined(edge, a, b) && Joined(edge, b, c)
    ensures Joined(edge, a, c)
  {
    var v :| IsWalk(edge, v) && v[0] == a && v[|v| - 1] == b;
    var w :| IsWalk(edge, w) && w[0] == b && w[|w| - 1] == c;
    var u := v + w[1..];
    forall i | 0 <= i < |u| - 1
      ensures edge(u[i], u[i + 1])
    {
      if i >= |v| - 1 {
        assert u[i] == w[i - (|v| - 1)];
        assert u[i + 1] == w[i - (|v| - 1) + 1];
      }
    }
    assert IsWalk(edge, u);
    assert u[|u| - 1] == c;
  }

  lemma JoinedStep<T(!new)>(edge: (T, T) -> bool, a: T, b: T)
    requires edge(a, b)
    ensures Joined(edge, a, b)
  {
    assert IsWalk(edge, [a, b]);
  }

  /** Walks can be reversed when every edge can. */
  lemma JoinedSym<T(!new)>(edge: (T, T) -> bool, a: T, b: T)
    requires forall x, y :: edge(x, y) ==> edge(y, x)
    requires Joined(edge, a, b)
    ensures Joined(edge, b, a)
  {
    var w :| IsWalk(edge, w) && w[0] == a && w[|w| - 1] == b;
    var r := seq(|w|, i requires 0 <= i < |w| => w[|w| - 1 - i]);
    forall i | 0 <= i < |r| - 1
      ensures edge(r[i], r[i + 1])
    {
      var j := |w| - 2 - i;
      assert edge(w[j], w[j + 1]);
    }
    assert IsWalk(edge, r);
  }

  /** A walk never leaves a set that is closed under the edges. */
  lemma {:induction false} ClosedKeepsWalk<T(!new)>(edge: (T, T) -> bool, s: set<T>, w: seq<T>)
    requires Closed(edge, s) && IsWalk(edge, w) && w[0] in s
    ensures w[|w| - 1] in s
    decreases |w|
  {
    if |w| > 1 {
      assert edge(w[0], w[1]);
      var t := w[1..];
      forall i | 0 <= i < |t| - 1
        ensures edge(t[i], t[i + 1])
      {
        assert edge(w[i + 1], w[i + 2]);
      }
      ClosedKeepsWalk(edge, s, t);
    }
  }

  lemma ClosedContains<T(!new)>(edge: (T, T) -> bool, s: set<T>, a: T, b: T)
    requires Closed(edge, s) && a in s && Joined(edge, a, b)
    ensures b in s
  {
    var w :| IsWalk(edge, w) && w[0] == a && w[|w| - 1] == b;
    ClosedKeepsWalk(edge, s, w);
  }

  lemma LeadsTrans<T(!new)>(edge: (T, T) -> bool, a: T, b: T, c: T)
    requires Leads(edge, a, b) && Leads(edge, b, c)
    ensures Leads(edge, a, c)
  {
    var x :| edge(a, x) && Joined(edge, x, b);
    LeadsJoined(edge, b, c);
    JoinedTrans(edge, x, b, c);
  }

  lemma LeadsJoined<T(!new)>(edge: (T, T) -> bool, a: T, b: T)
    requires Leads(edge, a, b)
    ensures Joined(edge, a, b)
  {
    var x :| edge(a, x) && Joined(edge, x, b);
    JoinedStep(edge, a, x);
    JoinedTrans(edge, a, x, b);
  }

  /** Zero or more edges, taken apart: nothing, or one edge and the rest. */
  lemma JoinedSplit<T(!new)>(edge: (T, T) -> bool, a: T, b: T)
    ensures Joined(edge, a, b) <==> a == b || Leads(edge, a, b)
  {
    if Joined(edge, a, b) && a != b {
      var w :| IsWalk(edge, w) && w[0] == a && w[|w| - 1] == b;
      var t := w[1..];
      forall i | 0 <= i < |t| - 1
        ensures edge(t[i], t[i + 1])
      {
        assert edge(w[i + 1], w[i + 2]);
      }
      assert IsWalk(edge, t);
      assert edge(w[0], w[1]) && Joined(edge, w[1], b);
    }
    if a == b {
      JoinedRefl(edge, a);
    }
    if Leads(edge, a, b) {
      LeadsJoined(edge, a, b);
    }
  }

  /** Reachability depends only on which edges there are. */
  lemma JoinedMono<T(!new)>(e: (T, T) -> bool, f: (T, T) -> bool, a: T, b: T)
    requires forall x, y :: e(x, y) ==> f(x, y)
    requires Joined(e, a, b)
    ensures Joined(f, a, b)
  {
    var w :| IsWalk(e, w) && w[0] == a && w[|w| - 1] == b;
    assert IsWalk(f, w);
  }

  lemma LeadsMono<T(!new)>(e: (T, T) -> bool, f: (T, T) -> bool, a: T, b: T)
    requires forall x, y :: e(x, y) ==> f(x, y)
    requires Leads(e, a, b)
    ensures Leads(f, a, b)
  {
    var c :| e(a, c) && Joined(e, c, b);
    JoinedMono(e, f, c, b);
  }
}
