/** Finite directed graphs over Agent ids, paths and reachability. */
module Digraph {
  type Id = string

  /** Outgoing targets in iteration order; a missing key has none. */
  type Edges = map<Id, seq<Id>>

  function Succ(g: Edges, v: Id): seq<Id> {
    if v in g then g[v] else []
  }

  ghost predicate IsPath(g: Edges, p: seq<Id>) {
    p != [] && forall i, j {:trigger p[i], p[j]} :: 0 <= i < j < |p| && j == i + 1 ==> p[j] in Succ(g, p[i])
  }

  ghost predicate Reaches(g: Edges, a: Id, b: Id) {
    exists p :: IsPath(g, p) && p[0] == a && p[|p| - 1] == b
  }

  ghost predicate Closed(g: Edges, s: set<Id>) {
    forall v, w :: v in s && w in Succ(g, v) ==> w in s
  }

  lemma ReachesSelf(g: Edges, a: Id)
    ensures Reaches(g, a, a)
  {
    assert IsPath(g, [a]);
  }

  lemma ReachesEdge(g: Edges, a: Id, b: Id)
    requires b in Succ(g, a)
    ensures Reaches(g, a, b)
  {
    assert IsPath(g, [a, b]);
  }

  lemma ReachesTrans(g: Edges, a: Id, b: Id, c: Id)
    requires Reaches(g, a, b) && Reaches(g, b, c)
    ensures Reaches(g, a, c)
  {
    var p :| IsPath(g, p) && p[0] == a && p[|p| - 1] == b;
    var q :| IsPath(g, q) && q[0] == b && q[|q| - 1] == c;
    var r := p + q[1..];
    forall i, j | 0 <= i < j < |r| && j == i + 1
      ensures r[j] in Succ(g, r[i])
    {
      if j < |p| {
        assert p[j] in Succ(g, p[i]);
      } else {
        assert r[i] == q[j - |p|];
        assert q[j - |p| + 1] in Succ(g, q[j - |p|]);
      }
    }
    assert r[|r| - 1] == c;
  }

  lemma {:induction false} ClosedAlong(g: Edges, s: set<Id>, p: seq<Id>)
    requires Closed(g, s) && IsPath(g, p) && p[0] in s
    ensures p[|p| - 1] in s
    decreases |p|
  {
    if |p| > 1 {
      var q := p[..|p| - 1];
      ClosedAlong(g, s, q);
      assert p[|p| - 1] in Succ(g, p[|p| - 2]);
    }
  }

  /** A closed set is never left. */
  lemma ClosedReaches(g: Edges, s: set<Id>, a: Id, b: Id)
    requires Closed(g, s) && a in s && Reaches(g, a, b)
    ensures b in s
  {
    var p :| IsPath(g, p) && p[0] == a && p[|p| - 1] == b;
    ClosedAlong(g, s, p);
  }

  /** Everything a graph and its roots mention. */
  ghost function Universe(g: Edges, roots: seq<Id>): (u: set<Id>)
    ensures Closed(g, u) && forall r :: r in roots ==> r in u
  {
    (set r | r in roots) + (set v, w | v in g.Keys && w in g[v] :: w)
  }

  /** Reachability only depends on which targets each vertex has. */
  lemma SubgraphReaches(g: Edges, h: Edges, a: Id, b: Id)
    requires forall v, w :: w in Succ(g, v) ==> w in Succ(h, v)
    requires Reaches(g, a, b)
    ensures Reaches(h, a, b)
  {
    var p :| IsPath(g, p) && p[0] == a && p[|p| - 1] == b;
    assert IsPath(h, p);
  }
}
