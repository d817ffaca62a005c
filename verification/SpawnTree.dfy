/**
 * Trees of agents by Direct Spawner, their preorder, and what a preorder list
 * alone says about the tree.
 */
module SpawnTree {
  type Id = string

  datatype Tree = Node(agent: Id, kids: seq<Tree>)

  /** Children lists, each agent's spawner and its distance from the root. */
  datatype Shape = Shape(root: Id, children: map<Id, seq<Id>>, spawner: map<Id, Id>, depth: map<Id, nat>)

  function Children(m: map<Id, seq<Id>>, p: Id): seq<Id> {
    if p in m then m[p] else []
  }

  function Roots(f: seq<Tree>): seq<Id> {
    seq(|f|, i requires 0 <= i < |f| => f[i].agent)
  }

  function Preorder(f: seq<Tree>): seq<Id> {
    if f == [] then [] else [f[0].agent] + Preorder(f[0].kids) + Preorder(f[1..])
  }

  /** Every node of the forest has exactly the children that the lists give it. */
  predicate Grown(children: map<Id, seq<Id>>, f: seq<Tree>) {
    || f == []
    || (Roots(f[0].kids) == Children(children, f[0].agent) && Grown(children, f[0].kids) && Grown(children, f[1..]))
  }

  ghost predicate Distinct(ids: seq<Id>) {
    forall i, j {:trigger ids[i], ids[j]} :: 0 <= i < j < |ids| ==> ids[i] != ids[j]
  }

  ghost predicate IsChild(s: Shape, p: Id, c: Id) {
    c in s.spawner && s.spawner[c] == p
  }

  ghost predicate OneBelow(s: Shape, c: Id, p: Id) {
    c in s.depth && p in s.depth && s.depth[c] == s.depth[p] + 1 && (p == s.root || p in s.spawner)
  }

  /** The lists hold each agent once, under its spawner, and distances grow by one downwards. */
  ghost predicate ShapeOk(s: Shape) {
    && s.root !in s.spawner && s.root in s.depth && s.depth[s.root] == 0
    && (forall p, c {:trigger IsChild(s, p, c)} :: c in Children(s.children, p) <==> IsChild(s, p, c))
    && (forall p {:trigger Children(s.children, p)} :: Distinct(Children(s.children, p)))
    && (forall c {:trigger s.spawner[c]} :: c in s.spawner ==> OneBelow(s, c, s.spawner[c]))
  }

  /** Trees whose roots are children of `p`. */
  ghost predicate Under(s: Shape, p: Id, f: seq<Tree>) {
    && p in s.depth && Grown(s.children, f) && Distinct(Roots(f))
    && forall i :: 0 <= i < |f| ==> IsChild(s, p, f[i].agent)
  }

  lemma RootIn(f: seq<Tree>, id: Id)
    ensures id in Roots(f) <==> exists i :: 0 <= i < |f| && f[i].agent == id
  {
    if i :| 0 <= i < |f| && f[i].agent == id {
      assert Roots(f)[i] == id;
    }
  }

  lemma UnderParts(s: Shape, p: Id, f: seq<Tree>)
    requires ShapeOk(s) && Under(s, p, f) && f != []
    ensures Under(s, f[0].agent, f[0].kids) && Under(s, p, f[1..])
    ensures f[0].agent in s.depth && s.depth[f[0].agent] == s.depth[p] + 1 && f[0].agent !in Roots(f[1..])
    ensures Roots(f[0].kids) == Children(s.children, f[0].agent) && Roots(f) == [f[0].agent] + Roots(f[1..])
  {
    var t, rest := f[0], f[1..];
    assert IsChild(s, p, t.agent);
    forall i | 0 <= i < |t.kids|
      ensures IsChild(s, t.agent, t.kids[i].agent)
    {
      assert Roots(t.kids)[i] in Children(s.children, t.agent);
    }
    assert Roots(f) == [t.agent] + Roots(rest);
    assert forall i :: 0 <= i < |rest| ==> rest[i] == f[i + 1];
    DistinctRest(t.agent, Roots(rest));
  }

  lemma DistinctRest(a: Id, ids: seq<Id>)
    requires Distinct([a] + ids)
    ensures a !in ids && Distinct(ids)
  {
    var list := [a] + ids;
    assert forall i {:trigger ids[i]} :: 0 <= i < |ids| ==> ids[i] == list[i + 1] && list[0] != list[i + 1];
  }

  // ------------------------------------------------ Where a preorder list sits

  /** The ancestor at distance `d` from the root. */
  function Ancestor(s: Shape, a: Id, d: nat): Id
    decreases if a in s.depth then s.depth[a] else 0
  {
    if a !in s.depth || s.depth[a] <= d || a !in s.spawner || s.spawner[a] !in s.depth
      || s.depth[s.spawner[a]] >= s.depth[a] then a
    else Ancestor(s, s.spawner[a], d)
  }

  lemma {:induction false} BelowRoots(s: Shape, p: Id, f: seq<Tree>, a: Id)
    requires ShapeOk(s) && Under(s, p, f) && a in Preorder(f)
    ensures a in s.spawner && a in s.depth && s.depth[a] > s.depth[p] && Ancestor(s, a, s.depth[p] + 1) in Roots(f)
    decreases f
  {
    UnderParts(s, p, f);
    var t, rest := f[0], f[1..];
    if a == t.agent {
    } else if a in Preorder(t.kids) {
      BelowRoots(s, t.agent, t.kids, a);
      AncestorStep(s, a, s.depth[p] + 1);
      RootsAreChildren(s, t.agent, t.kids, Ancestor(s, a, s.depth[p] + 2));
    } else {
      BelowRoots(s, p, rest, a);
    }
  }

  lemma RootsAreChildren(s: Shape, p: Id, f: seq<Tree>, a: Id)
    requires Under(s, p, f) && a in Roots(f)
    ensures IsChild(s, p, a)
  {
    RootIn(f, a);
  }

  /** One step further up. */
  lemma {:induction false} AncestorStep(s: Shape, a: Id, d: nat)
    requires ShapeOk(s) && a in s.spawner && a in s.depth && s.depth[a] > d
    ensures Ancestor(s, a, d + 1) in s.spawner && Ancestor(s, a, d) == s.spawner[Ancestor(s, a, d + 1)]
    decreases s.depth[a]
  {
    var q := s.spawner[a];
    if s.depth[a] > d + 1 {
      AncestorStep(s, q, d);
    }
  }

  /** Below the first tree, everyone descends from its root. */
  lemma BelowFirst(s: Shape, p: Id, f: seq<Tree>, a: Id)
    requires ShapeOk(s) && Under(s, p, f) && f != [] && a in Preorder(f[0].kids)
    ensures p in s.depth && a in s.depth && s.depth[a] > s.depth[p] + 1 && Ancestor(s, a, s.depth[p] + 1) == f[0].agent
  {
    hide Preorder, Grown;
    var t, d := f[0], s.depth[p] + 1;
    UnderParts(s, p, f);
    BelowRoots(s, t.agent, t.kids, a);
    AncestorStep(s, a, d);
    RootsAreChildren(s, t.agent, t.kids, Ancestor(s, a, d + 1));
  }

  lemma Apart(s: Shape, p: Id, f: seq<Tree>, a: Id)
    requires ShapeOk(s) && Under(s, p, f) && f != []
    ensures a in [f[0].agent] + Preorder(f[0].kids) ==> a !in Preorder(f[1..])
    ensures a in Preorder(f[0].kids) ==> a != f[0].agent && a != p
    ensures a in Preorder(f) ==> a != p
  {
    hide ShapeOk, Under;
    UnderParts(s, p, f);
    if a in Preorder(f[0].kids) {
      BelowFirst(s, p, f, a);
    }
    if a in Preorder(f[1..]) {
      BelowRoots(s, p, f[1..], a);
    }
  }

  /** No agent is listed twice. */
  lemma {:induction false} PreorderDistinct(s: Shape, p: Id, f: seq<Tree>)
    requires ShapeOk(s) && Under(s, p, f)
    ensures Distinct(Preorder(f))
    decreases f
  {
    if f != [] {
      UnderParts(s, p, f);
      PreorderDistinct(s, f[0].agent, f[0].kids);
      PreorderDistinct(s, p, f[1..]);
      forall a
        ensures a in [f[0].agent] + Preorder(f[0].kids) ==> a !in Preorder(f[1..])
        ensures a in Preorder(f[0].kids) ==> a != f[0].agent
      {
        Apart(s, p, f, a);
      }
      DistinctJoin([f[0].agent], Preorder(f[0].kids));
      DistinctJoin([f[0].agent] + Preorder(f[0].kids), Preorder(f[1..]));
    }
  }

  lemma DistinctJoin(a: seq<Id>, b: seq<Id>)
    requires Distinct(a) && Distinct(b) && forall x :: x in a ==> x !in b
    ensures Distinct(a + b)
  {
    var list := a + b;
    forall i, j | 0 <= i < j < |list|
      ensures list[i] != list[j]
    {
      if j < |a| {
        assert list[i] == a[i] && list[j] == a[j];
      } else if i < |a| {
        assert list[i] == a[i] && list[j] in b;
      } else {
        assert list[i] == b[i - |a|] && list[j] == b[j - |a|];
      }
    }
  }

  // ---------------------------------------------------- Reading the tree back

  /** The children of `q` in the order in which the list names them. */
  function KidsOf(list: seq<Id>, spawner: map<Id, Id>, q: Id): seq<Id> {
    if list == [] then []
    else
      var last := list[|list| - 1];
      KidsOf(list[..|list| - 1], spawner, q) + if last in spawner && spawner[last] == q then [last] else []
  }

  lemma {:induction false} KidsOfJoin(a: seq<Id>, b: seq<Id>, spawner: map<Id, Id>, q: Id)
    ensures KidsOf(a + b, spawner, q) == KidsOf(a, spawner, q) + KidsOf(b, spawner, q)
    decreases |b|
  {
    if b == [] {
      assert a + b == a;
    } else {
      var n := |b| - 1;
      assert (a + b)[..|a + b| - 1] == a + b[..n];
      KidsOfJoin(a, b[..n], spawner, q);
    }
  }

  lemma {:induction false} KidsIn(list: seq<Id>, spawner: map<Id, Id>, q: Id, x: Id)
    ensures x in KidsOf(list, spawner, q) <==> x in list && x in spawner && spawner[x] == q
  {
    if list != [] {
      var n := |list| - 1;
      KidsIn(list[..n], spawner, q, x);
      assert list == list[..n] + [list[n]];
    }
  }

  /** Grouping the preorder by spawner gives back every children list, in order. */
  lemma {:induction false} KidsOfPreorder(s: Shape, p: Id, f: seq<Tree>, q: Id)
    requires ShapeOk(s) && Under(s, p, f)
    ensures KidsOf(Preorder(f), s.spawner, q) ==
            if q == p then Roots(f) else if q in Preorder(f) then Children(s.children, q) else []
    decreases f
  {
    hide KidsOf, ShapeOk, Under;
    if f == [] {
      KidsOfNone(s.spawner, q);
    } else {
      UnderParts(s, p, f);
      var t, rest := f[0], f[1..];
      KidsOfPreorder(s, t.agent, t.kids, q);
      KidsOfPreorder(s, p, rest, q);
      KidsOfJoin([t.agent] + Preorder(t.kids), Preorder(rest), s.spawner, q);
      KidsOfJoin([t.agent], Preorder(t.kids), s.spawner, q);
      KidsOfOne(s, p, f, q);
      Apart(s, p, f, q);
    }
  }

  lemma KidsOfNone(spawner: map<Id, Id>, q: Id)
    ensures KidsOf([], spawner, q) == []
  {
  }

  lemma KidsOfOne(s: Shape, p: Id, f: seq<Tree>, q: Id)
    requires ShapeOk(s) && Under(s, p, f) && f != []
    ensures KidsOf([f[0].agent], s.spawner, q) == if q == p then [f[0].agent] else []
    ensures f[0].agent != p
  {
    assert [f[0].agent][..0] == [];
    assert IsChild(s, p, f[0].agent);
    UnderParts(s, p, f);
  }

  /** Everyone is listed after its spawner, unless that is the root itself. */
  ghost predicate SpawnersFirst(list: seq<Id>, spawner: map<Id, Id>, above: set<Id>) {
    forall i {:trigger list[i]} :: 0 <= i < |list| ==>
        list[i] in spawner && (spawner[list[i]] in above || spawner[list[i]] in list[..i])
  }

  lemma SpawnersFirstJoin(a: seq<Id>, b: seq<Id>, spawner: map<Id, Id>, above: set<Id>, more: set<Id>)
    requires SpawnersFirst(a, spawner, above) && SpawnersFirst(b, spawner, more)
    requires forall x :: x in more ==> x in above || x in a
    ensures SpawnersFirst(a + b, spawner, above)
  {
    var list := a + b;
    forall i | 0 <= i < |list|
      ensures list[i] in spawner && (spawner[list[i]] in above || spawner[list[i]] in list[..i])
    {
      if i < |a| {
        assert list[..i] == a[..i];
      } else {
        assert list[i] == b[i - |a|] && list[..i] == a + b[..i - |a|];
      }
    }
  }

  lemma {:induction false} PreorderSpawnersFirst(s: Shape, p: Id, f: seq<Tree>)
    requires ShapeOk(s) && Under(s, p, f)
    ensures SpawnersFirst(Preorder(f), s.spawner, {p})
    decreases f
  {
    if f != [] {
      UnderParts(s, p, f);
      var t, rest := f[0], f[1..];
      PreorderSpawnersFirst(s, t.agent, t.kids);
      PreorderSpawnersFirst(s, p, rest);
      assert IsChild(s, p, t.agent);
      SpawnersFirstJoin([t.agent], Preorder(t.kids), s.spawner, {p}, {t.agent});
      SpawnersFirstJoin([t.agent] + Preorder(t.kids), Preorder(rest), s.spawner, {p}, {p});
    }
  }

  /** The forest below the root lists every agent. */
  lemma {:induction false} PreorderComplete(s: Shape, f: seq<Tree>, a: Id)
    requires ShapeOk(s) && Under(s, s.root, f) && Roots(f) == Children(s.children, s.root) && a in s.spawner
    ensures a in Preorder(f)
    decreases s.depth[a]
  {
    var q := s.spawner[a];
    assert IsChild(s, q, a);
    if q != s.root {
      PreorderComplete(s, f, q);
    }
    KidsOfPreorder(s, s.root, f, q);
    KidsIn(Preorder(f), s.spawner, q, a);
  }
}
