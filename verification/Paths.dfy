/** Paths in a finite directed graph, given by its edge relation. */
module Paths {

  /** `p` is a non-empty walk along `edge`. */
  ghost predicate IsWalk<T(!new)>(edge: (T, T) -> bool, p: seq<T>)
  {
    p != [] && forall i :: 0 <= i < |p| - 1 ==> edge(p[i], p[i + 1])
  }

  ghost predicate Walk<T(!new)>(edge: (T, T) -> bool, p: seq<T>, a: T, b: T)
  {
    IsWalk(edge, p) && p[0] == a && p[|p| - 1] == b
  }

  /** `b` is reached from `a` by zero or more edges. */
  ghost predicate Reaches<T(!new)>(edge: (T, T) -> bool, a: T, b: T)
  {
    exists p :: Walk(edge, p, a, b)
  }

  /** `b` is reached from `a` by one or more edges. */
  ghost predicate ReachesBeyond<T(!new)>(edge: (T, T) -> bool, a: T, b: T)
  {
    exists p :: Walk(edge, p, a, b) && |p| >= 2
  }

  lemma ReachesSelf<T(!new)>(edge: (T, T) -> bool, a: T)
    ensures Reaches(edge, a, a)
  {
    assert Walk(edge, [a], a, a);
  }

  lemma Join<T(!new)>(edge: (T, T) -> bool, p: seq<T>, q: seq<T>, a: T, b: T, c: T)
    requires Walk(edge, p, a, b) && Walk(edge, q, b, c)
    ensures Walk(edge, p + q[1..], a, c) && |p + q[1..]| == |p| + |q| - 1
  {
    var r := p + q[1..];
    forall i | 0 <= i < |r| - 1
      ensures edge(r[i], r[i + 1])
    {
      if i >= |p| - 1 {
        assert r[i] == q[i - (|p| - 1)] && r[i + 1] == q[i - (|p| - 1) + 1];
      }
    }
  }

  lemma ReachesEdge<T(!new)>(edge: (T, T) -> bool, a: T, b: T, c: T)
    requires Reaches(edge, a, b) && edge(b, c)
    ensures ReachesBeyond(edge, a, c) && Reaches(edge, a, c)
  {
    var p :| Walk(edge, p, a, b);
    assert Walk(edge, [b, c], b, c);
    Join(edge, p, [b, c], a, b, c);
  }

  lemma ReachesTransitive<T(!new)>(edge: (T, T) -> bool, a: T, b: T, c: T)
    requires Reaches(edge, a, b) && Reaches(edge, b, c)
    ensures Reaches(edge, a, c)
    ensures ReachesBeyond(edge, a, b) || ReachesBeyond(edge, b, c) ==> ReachesBeyond(edge, a, c)
  {
    var p :| Walk(edge, p, a, b) && (ReachesBeyond(edge, a, b) ==> |p| >= 2);
    var q :| Walk(edge, q, b, c) && (ReachesBeyond(edge, b, c) ==> |q| >= 2);
    Join(edge, p, q, a, b, c);
  }

  /** A set closed under the edges holds all that is reached from it. */
  lemma {:induction false} ClosedHoldsReached<T(!new)>(edge: (T, T) -> bool, s: set<T>, p: seq<T>)
    requires forall x, y :: x in s && edge(x, y) ==> y in s
    requires IsWalk(edge, p) && p[0] in s
    ensures p[|p| - 1] in s
  {
    if |p| > 1 {
      assert edge(p[0], p[1]);
      assert IsWalk(edge, p[1..]) by {
        forall i | 0 <= i < |p[1..]| - 1
          ensures edge(p[1..][i], p[1..][i + 1])
        {
          assert edge(p[i + 1], p[i + 1 + 1]);
        }
      }
      ClosedHoldsReached(edge, s, p[1..]);
    }
  }
}
