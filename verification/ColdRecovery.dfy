/**
 * The accepted candidates in the order the Owner recovers them: grouped by
 * spawner, sorted by spawn order, and appended depth first
 * (src/bootstrap/cold-host-discovery.ts:258-275).
 */
module ColdRecovery {
  import opened SpawnerChains
  import T = SpawnTree

  function Agents(cs: seq<Candidate>): seq<Id> {
    seq(|cs|, i requires 0 <= i < |cs| => cs[i].agent)
  }

  predicate NotAfter(a: (nat, nat), b: (nat, nat)) {
    a.0 < b.0 || (a.0 == b.0 && a.1 <= b.1)
  }

  ghost predicate Sorted(cs: seq<Candidate>) {
    forall i, j {:trigger cs[i], cs[j]} :: 0 <= i < j < |cs| ==> NotAfter(cs[i].spawnOrder, cs[j].spawnOrder)
  }

  // -------------------------------------------------------------- Sorted groups

  predicate Kept(cs: seq<Candidate>, invalid: seq<bool>, i: nat)
    requires i < |cs| == |invalid|
  {
    cs[i].role == Ordinary && !invalid[i]
  }

  /** The first `n` candidates that were kept and name `p` as spawner, in file order. */
  function Group(cs: seq<Candidate>, invalid: seq<bool>, n: nat, p: Id): seq<Candidate>
    requires n <= |cs| == |invalid|
  {
    if n == 0 then []
    else Group(cs, invalid, n - 1, p) + if Kept(cs, invalid, n - 1) && cs[n - 1].spawner == p then [cs[n - 1]] else []
  }

  /** Stable insertion from the back. */
  function Insert(cs: seq<Candidate>, c: Candidate): seq<Candidate> {
    if cs == [] || NotAfter(cs[|cs| - 1].spawnOrder, c.spawnOrder) then cs + [c]
    else Insert(cs[..|cs| - 1], c) + [cs[|cs| - 1]]
  }

  function SortBySpawnOrder(cs: seq<Candidate>): seq<Candidate> {
    if cs == [] then [] else Insert(SortBySpawnOrder(cs[..|cs| - 1]), cs[|cs| - 1])
  }

  lemma {:induction false} InsertPermutes(cs: seq<Candidate>, c: Candidate)
    ensures multiset(Insert(cs, c)) == multiset(cs) + multiset{c}
  {
    if cs != [] && !NotAfter(cs[|cs| - 1].spawnOrder, c.spawnOrder) {
      InsertPermutes(cs[..|cs| - 1], c);
      assert cs == cs[..|cs| - 1] + [cs[|cs| - 1]];
    }
  }

  lemma InsertMembers(cs: seq<Candidate>, c: Candidate, x: Candidate)
    ensures x in Insert(cs, c) <==> x == c || x in cs
  {
    InsertPermutes(cs, c);
    assert x in Insert(cs, c) <==> x in multiset(Insert(cs, c));
  }

  lemma {:induction false} InsertSorts(cs: seq<Candidate>, c: Candidate)
    requires Sorted(cs)
    ensures Sorted(Insert(cs, c)) && multiset(Insert(cs, c)) == multiset(cs) + multiset{c}
  {
    InsertPermutes(cs, c);
    if cs != [] && !NotAfter(cs[|cs| - 1].spawnOrder, c.spawnOrder) {
      var init, last := cs[..|cs| - 1], cs[|cs| - 1];
      InsertSorts(init, c);
      forall x | x in Insert(init, c)
        ensures NotAfter(x.spawnOrder, last.spawnOrder)
      {
        InsertMembers(init, c, x);
      }
    }
  }

  lemma EmptySorted()
    ensures Sorted([])
  {
  }

  lemma {:induction false} SortSorts(cs: seq<Candidate>)
    ensures Sorted(SortBySpawnOrder(cs)) && multiset(SortBySpawnOrder(cs)) == multiset(cs)
  {
    hide Insert, Sorted;
    EmptySorted();
    if cs != [] {
      var init := cs[..|cs| - 1];
      SortSorts(init);
      InsertSorts(SortBySpawnOrder(init), cs[|cs| - 1]);
      assert cs == init + [cs[|cs| - 1]];
    }
  }

  lemma SortedMembers(cs: seq<Candidate>, c: Candidate)
    ensures c in SortBySpawnOrder(cs) <==> c in cs
  {
    SortSorts(cs);
    assert c in multiset(SortBySpawnOrder(cs)) <==> c in multiset(cs);
  }

  lemma {:induction false} GroupMembers(cs: seq<Candidate>, invalid: seq<bool>, n: nat, p: Id, c: Candidate)
    requires n <= |cs| == |invalid|
    ensures c in Group(cs, invalid, n, p) <==>
              exists i :: 0 <= i < n && cs[i] == c && Kept(cs, invalid, i) && c.spawner == p
  {
    if n > 0 {
      GroupMembers(cs, invalid, n - 1, p, c);
    }
  }

  lemma NoGroups(cs: seq<Candidate>, invalid: seq<bool>)
    requires |cs| == |invalid|
    ensures forall p :: Group(cs, invalid, 0, p) == []
  {
  }

  lemma OneMoreGrouped(cs: seq<Candidate>, invalid: seq<bool>, n: nat)
    requires n < |cs| == |invalid|
    ensures forall p :: Group(cs, invalid, n + 1, p) ==
              if Kept(cs, invalid, n) && cs[n].spawner == p then Group(cs, invalid, n, p) + [cs[n]]
              else Group(cs, invalid, n, p)
  {
    hide Kept;
    forall p
      ensures Group(cs, invalid, n, p) + [] == Group(cs, invalid, n, p)
    {
    }
  }

  method GroupBySpawner(cs: seq<Candidate>, invalid: seq<bool>) returns (children: map<Id, seq<Candidate>>)
    requires |cs| == |invalid|
    ensures forall p :: (if p in children then children[p] else []) == Group(cs, invalid, |cs|, p)
  {
    hide Group, Kept;
    children := map[];
    NoGroups(cs, invalid);
    for i := 0 to |cs|
      invariant forall p :: (if p in children then children[p] else []) == Group(cs, invalid, i, p)
    {
      OneMoreGrouped(cs, invalid, i);
      if !Kept(cs, invalid, i) {
        continue;
      }
      var siblings := if cs[i].spawner in children then children[cs[i].spawner] else [];
      children := children[cs[i].spawner := siblings + [cs[i]]];
    }
  }

  method SortChildren(children: map<Id, seq<Candidate>>) returns (sorted: map<Id, seq<Candidate>>)
    ensures sorted.Keys == children.Keys && forall p :: p in children ==> sorted[p] == SortBySpawnOrder(children[p])
  {
    sorted := children;
    var left := children.Keys;
    while left != {}
      invariant left <= children.Keys && sorted.Keys == children.Keys
      invariant forall p :: p in children ==>
                  sorted[p] == if p in left then children[p] else SortBySpawnOrder(children[p])
      decreases left
    {
      var p :| p in left;
      sorted := sorted[p := SortBySpawnOrder(sorted[p])];
      left := left - {p};
    }
  }

  // ------------------------------------------------------------ The spawn tree

  /** Distance from the Owner, along a chain of at most `n` spawners. */
  ghost function Depth(cs: seq<Candidate>, owner: Owner, i: nat, n: nat): nat
    requires i < |cs| && Rooted(cs, owner, i, n)
    decreases n
  {
    if cs[i].spawner == owner.agent then 1 else 1 + Depth(cs, owner, Spawner(cs, i).value, n - 1)
  }

  lemma {:induction false} DepthIsUnique(cs: seq<Candidate>, owner: Owner, i: nat, n: nat, m: nat)
    requires i < |cs| && Rooted(cs, owner, i, n) && Rooted(cs, owner, i, m)
    ensures Depth(cs, owner, i, n) == Depth(cs, owner, i, m)
    decreases n
  {
    if cs[i].spawner != owner.agent {
      DepthIsUnique(cs, owner, Spawner(cs, i).value, n - 1, m - 1);
    }
  }

  ghost function DepthOf(cs: seq<Candidate>, owner: Owner, i: nat): nat
    requires i < |cs| && Accepted(cs, owner, i)
  {
    var n: nat :| Rooted(cs, owner, i, n);
    Depth(cs, owner, i, n)
  }

  lemma DepthBelow(cs: seq<Candidate>, owner: Owner, i: nat)
    requires i < |cs| && Accepted(cs, owner, i)
    ensures cs[i].spawner == owner.agent ==> DepthOf(cs, owner, i) == 1
    ensures cs[i].spawner != owner.agent ==>
              && Spawner(cs, i).Some? && Accepted(cs, owner, Spawner(cs, i).value)
              && DepthOf(cs, owner, i) == 1 + DepthOf(cs, owner, Spawner(cs, i).value)
  {
    var n: nat :| Rooted(cs, owner, i, n);
    var m: nat :| Rooted(cs, owner, i, m) && DepthOf(cs, owner, i) == Depth(cs, owner, i, m);
    if cs[i].spawner == owner.agent {
      assert Depth(cs, owner, i, m) == 1;
    } else {
      var p := Spawner(cs, i).value;
      assert Rooted(cs, owner, p, m - 1);
      assert Depth(cs, owner, i, m) == 1 + Depth(cs, owner, p, m - 1);
      var k: nat :| Rooted(cs, owner, p, k) && DepthOf(cs, owner, p) == Depth(cs, owner, p, k);
      DepthIsUnique(cs, owner, p, m - 1, k);
    }
  }

  ghost predicate Recovers(cs: seq<Candidate>, owner: Owner, a: Id) {
    IndexOf(cs, a).Some? && Accepted(cs, owner, IndexOf(cs, a).value)
  }

  ghost function Spawners(cs: seq<Candidate>, owner: Owner): map<Id, Id> {
    map c | c in cs && Recovers(cs, owner, c.agent) :: c.agent := cs[IndexOf(cs, c.agent).value].spawner
  }

  /** The accepted agents as a tree below the Owner, with the given children lists. */
  ghost function ShapeOf(cs: seq<Candidate>, owner: Owner, children: map<Id, seq<Candidate>>): T.Shape {
    var spawner := Spawners(cs, owner);
    var depth := map a | a in spawner.Keys + {owner.agent} :: if a in spawner then DepthIn(cs, owner, a) else 0;
    T.Shape(owner.agent, map p | p in children :: Agents(children[p]), spawner, depth)
  }

  ghost function DepthIn(cs: seq<Candidate>, owner: Owner, a: Id): nat
    requires Recovers(cs, owner, a)
  {
    DepthOf(cs, owner, IndexOf(cs, a).value)
  }

  /** No accepted candidate carries the Owner's own id. */
  ghost predicate NoOwnerClaim(cs: seq<Candidate>, owner: Owner) {
    !Recovers(cs, owner, owner.agent)
  }

  lemma UniqueIndex(cs: seq<Candidate>, owner: Owner, i: nat)
    requires i < |cs| && cs[i].role == Ordinary && UniqueAgent(cs, i)
    ensures IndexOf(cs, cs[i].agent) == Some(i)
  {
    assert Claims(cs, i, cs[i].agent);
  }

  lemma AcceptedIndex(cs: seq<Candidate>, owner: Owner, i: nat)
    requires i < |cs| && Accepted(cs, owner, i)
    ensures cs[i].role == Ordinary && Individually(cs, owner, i) && IndexOf(cs, cs[i].agent) == Some(i)
    ensures Recovers(cs, owner, cs[i].agent)
  {
    hide Accepted;
    assert cs[i].role == Ordinary && Individually(cs, owner, i) by { AcceptedIndividually(cs, owner, i); }
    UniqueIndex(cs, owner, i);
  }

  lemma AcceptedIndividually(cs: seq<Candidate>, owner: Owner, i: nat)
    requires i < |cs| && Accepted(cs, owner, i)
    ensures cs[i].role == Ordinary && Individually(cs, owner, i)
  {
    hide Individually;
  }

  /** An agent has one spawner: that of its one accepted candidate. */
  lemma SpawnerOf(cs: seq<Candidate>, owner: Owner, a: Id)
    ensures a in Spawners(cs, owner) <==> Recovers(cs, owner, a)
    ensures Recovers(cs, owner, a) ==> Spawners(cs, owner)[a] == cs[IndexOf(cs, a).value].spawner
  {
    if Recovers(cs, owner, a) {
      assert cs[IndexOf(cs, a).value] in cs;
    }
  }

  ghost predicate Verified(cs: seq<Candidate>, owner: Owner, invalid: seq<bool>) {
    |invalid| == |cs| && forall i :: 0 <= i < |cs| && cs[i].role == Ordinary ==>
        (invalid[i] <==> !Accepted(cs, owner, i))
  }

  /** The children lists hold exactly the accepted candidates of each spawner. */
  lemma ChildOf(cs: seq<Candidate>, owner: Owner, invalid: seq<bool>, p: Id, a: Id)
    requires Verified(cs, owner, invalid)
    ensures a in Agents(SortBySpawnOrder(Group(cs, invalid, |cs|, p))) <==>
              a in Spawners(cs, owner) && Spawners(cs, owner)[a] == p
  {
    hide Accepted, SortBySpawnOrder, Individually, Group;
    var g := Group(cs, invalid, |cs|, p);
    SpawnerOf(cs, owner, a);
    if a in Agents(SortBySpawnOrder(g)) {
      var k :| 0 <= k < |SortBySpawnOrder(g)| && SortBySpawnOrder(g)[k].agent == a;
      var c := SortBySpawnOrder(g)[k];
      SortedMembers(g, c);
      GroupMembers(cs, invalid, |cs|, p, c);
      var i :| 0 <= i < |cs| && cs[i] == c && Kept(cs, invalid, i) && c.spawner == p;
      AcceptedIndex(cs, owner, i);
    }
    if Recovers(cs, owner, a) && cs[IndexOf(cs, a).value].spawner == p {
      var i := IndexOf(cs, a).value;
      AcceptedIndex(cs, owner, i);
      assert Kept(cs, invalid, i);
      GroupMembers(cs, invalid, |cs|, p, cs[i]);
      SortedMembers(g, cs[i]);
      var k :| 0 <= k < |SortBySpawnOrder(g)| && SortBySpawnOrder(g)[k] == cs[i];
      assert Agents(SortBySpawnOrder(g))[k] == a;
    }
  }

  lemma {:induction false} GroupOnce(cs: seq<Candidate>, owner: Owner, invalid: seq<bool>, n: nat, p: Id)
    requires n <= |cs| && Verified(cs, owner, invalid)
    ensures T.Distinct(Agents(Group(cs, invalid, n, p)))
  {
    hide Accepted, Individually;
    if n > 0 {
      GroupOnce(cs, owner, invalid, n - 1, p);
      var before := Group(cs, invalid, n - 1, p);
      assert before + [] == before;
      if Kept(cs, invalid, n - 1) {
        AcceptedIndex(cs, owner, n - 1);
        forall k | 0 <= k < |before|
          ensures before[k].agent != cs[n - 1].agent
        {
          GroupMembers(cs, invalid, n - 1, p, before[k]);
          IndividuallyUnique(cs, owner, n - 1);
        }
        assert Agents(before + [cs[n - 1]]) == Agents(before) + [cs[n - 1].agent];
        T.DistinctJoin(Agents(before), [cs[n - 1].agent]);
      }
    }
  }

  lemma IndividuallyUnique(cs: seq<Candidate>, owner: Owner, i: nat)
    requires i < |cs| && Individually(cs, owner, i)
    ensures UniqueAgent(cs, i)
  {
  }

  lemma {:induction false} CountOnce(cs: seq<Candidate>, c: Candidate)
    requires T.Distinct(Agents(cs))
    ensures multiset(cs)[c] <= 1
  {
    if cs != [] {
      var n := |cs| - 1;
      assert forall k :: 0 <= k < n ==> Agents(cs[..n])[k] == Agents(cs)[k];
      CountOnce(cs[..n], c);
      assert cs == cs[..n] + [cs[n]];
      if c == cs[n] {
        assert forall k :: 0 <= k < n ==> Agents(cs)[k] != Agents(cs)[n] && cs[..n][k] == cs[k];
      }
    }
  }

  lemma CountTwice(cs: seq<Candidate>, i: nat, j: nat)
    requires i < j < |cs|
    ensures cs[i] == cs[j] ==> multiset(cs)[cs[i]] >= 2
  {
    assert cs == cs[..j] + ([cs[j]] + cs[j + 1..]);
    assert cs[i] == cs[..j][i];
  }

  lemma SortedOnce(cs: seq<Candidate>)
    requires T.Distinct(Agents(cs))
    ensures T.Distinct(Agents(SortBySpawnOrder(cs)))
  {
    hide SortBySpawnOrder;
    SortSorts(cs);
    var l := SortBySpawnOrder(cs);
    forall i, j | 0 <= i < j < |l|
      ensures Agents(l)[i] != Agents(l)[j]
    {
      SortedMembers(cs, l[i]);
      SortedMembers(cs, l[j]);
      var x :| 0 <= x < |cs| && cs[x] == l[i];
      var y :| 0 <= y < |cs| && cs[y] == l[j];
      CountOnce(cs, l[i]);
      CountTwice(l, i, j);
      assert x != y;
      var a, b := Agents(cs)[x], Agents(cs)[y];
    }
  }

  ghost predicate Grouped(cs: seq<Candidate>, invalid: seq<bool>, children: map<Id, seq<Candidate>>)
    requires |cs| == |invalid|
  {
    forall p {:trigger Lookup(children, p)} :: Lookup(children, p) == SortBySpawnOrder(Group(cs, invalid, |cs|, p))
  }

  function Lookup(children: map<Id, seq<Candidate>>, p: Id): seq<Candidate> {
    if p in children then children[p] else []
  }

  lemma LookupAgents(cs: seq<Candidate>, owner: Owner, children: map<Id, seq<Candidate>>, p: Id)
    ensures T.Children(ShapeOf(cs, owner, children).children, p) == Agents(Lookup(children, p))
  {
  }

  lemma OneBelowSpawner(cs: seq<Candidate>, owner: Owner, children: map<Id, seq<Candidate>>, a: Id)
    requires a in Spawners(cs, owner) && NoOwnerClaim(cs, owner)
    ensures T.OneBelow(ShapeOf(cs, owner, children), a, Spawners(cs, owner)[a])
    ensures a != owner.agent
  {
    hide Accepted, DepthOf, Individually;
    SpawnerOf(cs, owner, a);
    var i := IndexOf(cs, a).value;
    DepthBelow(cs, owner, i);
    assert cs[i].agent == a;
    if cs[i].spawner != owner.agent {
      var j := Spawner(cs, i).value;
      SpawnerOf(cs, owner, cs[i].spawner);
      assert IndexOf(cs, cs[i].spawner) == Some(j);
    }
  }

  lemma ShapeIsOk(cs: seq<Candidate>, owner: Owner, invalid: seq<bool>, children: map<Id, seq<Candidate>>)
    requires Verified(cs, owner, invalid) && NoOwnerClaim(cs, owner) && Grouped(cs, invalid, children)
    ensures T.ShapeOk(ShapeOf(cs, owner, children))
  {
    hide Accepted, DepthIn, Group, SortBySpawnOrder, Spawners, NoOwnerClaim;
    var s := ShapeOf(cs, owner, children);
    forall p
      ensures T.Distinct(T.Children(s.children, p))
      ensures forall c :: c in T.Children(s.children, p) <==> T.IsChild(s, p, c)
    {
      LookupAgents(cs, owner, children, p);
      GroupOnce(cs, owner, invalid, |cs|, p);
      SortedOnce(Group(cs, invalid, |cs|, p));
      forall c
        ensures c in T.Children(s.children, p) <==> T.IsChild(s, p, c)
      {
        ChildOf(cs, owner, invalid, p, c);
      }
    }
    forall a | a in s.spawner
      ensures T.OneBelow(s, a, s.spawner[a]) && a != s.root
    {
      OneBelowSpawner(cs, owner, children, a);
    }
  }

  // ------------------------------------------------------------ Appending depth first

  /** What appending below `parent` adds, in at most `depth` nested calls; `None` when those do not suffice. */
  function Appends(children: map<Id, seq<Candidate>>, parent: Id, depth: nat): Option<seq<Candidate>>
    decreases depth, 0
  {
    if depth == 0 then None else AppendsAll(children, Lookup(children, parent), depth - 1)
  }

  function AppendsAll(children: map<Id, seq<Candidate>>, siblings: seq<Candidate>, depth: nat): Option<seq<Candidate>>
    decreases depth, |siblings| + 1
  {
    if siblings == [] then Some([])
    else
      var n := |siblings| - 1;
      var before := AppendsAll(children, siblings[..n], depth);
      var below := Appends(children, siblings[n].agent, depth);
      if before.Some? && below.Some? then Some(before.value + [siblings[n]] + below.value) else None
  }

  lemma AppendsSnoc(children: map<Id, seq<Candidate>>, siblings: seq<Candidate>, c: Candidate, depth: nat)
    ensures var (before, below) := (AppendsAll(children, siblings, depth), Appends(children, c.agent, depth));
            AppendsAll(children, siblings + [c], depth) ==
            if before.Some? && below.Some? then Some(before.value + [c] + below.value) else None
  {
    assert (siblings + [c])[..|siblings|] == siblings;
  }

  lemma {:induction false} AppendsBelow(children: map<Id, seq<Candidate>>, siblings: seq<Candidate>, depth: nat, a: Id)
    requires AppendsAll(children, siblings, depth).Some? && a in Agents(siblings)
    ensures Appends(children, a, depth).Some?
  {
    var k :| 0 <= k < |siblings| && Agents(siblings)[k] == a;
    var n := |siblings| - 1;
    if k < n {
      assert Agents(siblings[..n])[k] == a;
      AppendsBelow(children, siblings[..n], depth, a);
    }
  }

  /** Appending below the Owner ends only if it ends, with fewer nested calls left, below every accepted candidate. */
  lemma {:induction false} AppendsDown(cs: seq<Candidate>, owner: Owner, invalid: seq<bool>,
                                       children: map<Id, seq<Candidate>>, i: nat, n: nat, depth: nat)
    returns (left: nat)
    requires Verified(cs, owner, invalid) && Grouped(cs, invalid, children)
    requires i < |cs| && Rooted(cs, owner, i, n) && Appends(children, owner.agent, depth).Some?
    ensures left < depth && Appends(children, cs[i].agent, left).Some?
    decreases n
  {
    hide Verified, Grouped, Individually, AppendsAll, Lookup, Accepted;
    var parent, over := owner.agent, depth;
    if cs[i].spawner != owner.agent {
      var j := Spawner(cs, i).value;
      over := AppendsDown(cs, owner, invalid, children, j, n - 1, depth);
      parent := cs[j].agent;
    }
    left := over - 1;
    ListedBelow(cs, owner, invalid, children, i, n);
    AppendsBelow(children, Lookup(children, parent), left, cs[i].agent);
  }

  lemma ListedBelow(cs: seq<Candidate>, owner: Owner, invalid: seq<bool>, children: map<Id, seq<Candidate>>, i: nat,
                    n: nat)
    requires Verified(cs, owner, invalid) && Grouped(cs, invalid, children) && i < |cs| && Rooted(cs, owner, i, n)
    ensures cs[i].agent in Agents(Lookup(children, cs[i].spawner))
  {
    hide Individually, Group, SortBySpawnOrder, Lookup;
    assert Accepted(cs, owner, i);
    AcceptedIndex(cs, owner, i);
    SpawnerOf(cs, owner, cs[i].agent);
    ChildOf(cs, owner, invalid, cs[i].spawner, cs[i].agent);
    assert Lookup(children, cs[i].spawner) == SortBySpawnOrder(Group(cs, invalid, |cs|, cs[i].spawner));
  }

  /** An accepted candidate with the Owner's id is below the Owner, and so is the Owner. */
  lemma {:induction false} AppendsForever(cs: seq<Candidate>, owner: Owner, invalid: seq<bool>,
                                          children: map<Id, seq<Candidate>>, depth: nat)
    requires Verified(cs, owner, invalid) && Grouped(cs, invalid, children) && !NoOwnerClaim(cs, owner)
    ensures Appends(children, owner.agent, depth).None?
    decreases depth
  {
    hide Verified, Grouped, Individually, Appends;
    if Appends(children, owner.agent, depth).Some? {
      var i := IndexOf(cs, owner.agent).value;
      var n: nat :| Rooted(cs, owner, i, n);
      var left := AppendsDown(cs, owner, invalid, children, i, n, depth);
      AppendsForever(cs, owner, invalid, children, left);
    }
  }

  ghost predicate Listed(children: map<Id, seq<Candidate>>, c: Candidate) {
    exists p :: p in children && c in children[p]
  }

  /** Appending below `parent`, a tree's agent, with the agents `above` on the way down to it. */
  ghost predicate Descends(s: T.Shape, children: map<Id, seq<Candidate>>, parent: Id, above: set<Id>) {
    && T.ShapeOk(s) && s.children == (map p | p in children :: Agents(children[p]))
    && parent in s.depth && forall a :: a in above ==> a in s.depth && s.depth[a] <= s.depth[parent]
  }

  ghost function Further(s: T.Shape, above: set<Id>): nat {
    |s.spawner.Keys - above|
  }

  lemma LookupListed(children: map<Id, seq<Candidate>>, p: Id, i: nat)
    requires i < |Lookup(children, p)|
    ensures Listed(children, Lookup(children, p)[i])
  {
  }

  /**
   * On a tree, appending ends within as many nested calls as there are agents
   * further down, and what it adds is the preorder of the subtrees.
   */
  lemma {:induction false} AppendsPreorder(s: T.Shape, children: map<Id, seq<Candidate>>, parent: Id, above: set<Id>,
                                           siblings: seq<Candidate>)
    returns (f: seq<T.Tree>)
    requires Descends(s, children, parent, above) && siblings <= Lookup(children, parent)
    ensures AppendsAll(children, siblings, Further(s, above)).Some?
    ensures var list := AppendsAll(children, siblings, Further(s, above)).value;
            Agents(list) == T.Preorder(f) && forall c :: c in list ==> Listed(children, c)
    ensures T.Grown(s.children, f) && T.Roots(f) == Agents(siblings)
    decreases Further(s, above), |siblings|
  {
    hide Descends, Further, Agents, Lookup, Listed, T.Grown, T.Preorder, T.Roots;
    f := [];
    EmptyForest(s.children);
    if siblings != [] {
      var n := |siblings| - 1;
      var c := siblings[n];
      FewerBelow(s, children, parent, above, n);
      LookupListed(children, parent, n);
      var before := AppendsPreorder(s, children, parent, above, siblings[..n]);
      var kids := AppendsPreorder(s, children, c.agent, above + {c.agent}, Lookup(children, c.agent));
      SameChildren(s, children, c.agent, above + {c.agent});
      f := before + [T.Node(c.agent, kids)];
      GrownSnoc(s.children, before, T.Node(c.agent, kids));
      RootsSnoc(before, T.Node(c.agent, kids));
      PreorderSnoc(before, T.Node(c.agent, kids));
      AgentsSnoc(siblings[..n], c);
      assert siblings == siblings[..n] + [c];
      AgentsJoin(AppendsAll(children, siblings[..n], Further(s, above)).value, c,
          Appends(children, c.agent, Further(s, above)).value);
    }
  }

  lemma AgentsJoin(a: seq<Candidate>, c: Candidate, b: seq<Candidate>)
    ensures Agents(a + [c] + b) == Agents(a) + [c.agent] + Agents(b)
  {
  }

  lemma FewerBelow(s: T.Shape, children: map<Id, seq<Candidate>>, parent: Id, above: set<Id>, i: nat)
    requires Descends(s, children, parent, above) && i < |Lookup(children, parent)|
    ensures var c := Lookup(children, parent)[i].agent;
            Descends(s, children, c, above + {c}) && Further(s, above) == Further(s, above + {c}) + 1
  {
    ChildBelow(s, children, parent, i);
    var c := Lookup(children, parent)[i].agent;
    assert c in s.spawner.Keys && c !in above;
    assert s.spawner.Keys - above == s.spawner.Keys - (above + {c}) + {c};
  }

  /** Appending below the Owner ends exactly when no accepted candidate carries the Owner's id. */
  lemma AppendingEndsIffOwnerUnclaimed(cs: seq<Candidate>, owner: Owner, invalid: seq<bool>,
                                       children: map<Id, seq<Candidate>>)
    requires Verified(cs, owner, invalid) && Grouped(cs, invalid, children)
    ensures (exists depth :: Appends(children, owner.agent, depth).Some?) <==> NoOwnerClaim(cs, owner)
  {
    hide Verified, Grouped, Appends, T.ShapeOk, NoOwnerClaim, AppendsAll, Spawners, DepthIn, Further, Descends, ShapeOf,
         Lookup;
    if NoOwnerClaim(cs, owner) {
      ShapeIsOk(cs, owner, invalid, children);
      var s := ShapeOf(cs, owner, children);
      RootDescends(cs, owner, children);
      var f := AppendsPreorder(s, children, owner.agent, {owner.agent}, Lookup(children, owner.agent));
      AppendsUnfold(children, owner.agent, Further(s, {owner.agent}));
    } else {
      forall depth
        ensures Appends(children, owner.agent, depth).None?
      {
        AppendsForever(cs, owner, invalid, children, depth);
      }
    }
  }

  /** One sound session that names the Owner both as itself and as its spawner is accepted, and appending never ends. */
  lemma OwnOwnerNeverEnds(owner: Owner, source: Id, order: (nat, nat), depth: nat)
    ensures var c := Candidate(Ordinary, owner.agent, owner.workflow, owner.agent, source, order, true);
            && Verified([c], owner, [false]) && Grouped([c], [false], map[owner.agent := [c]])
            && Appends(map[owner.agent := [c]], owner.agent, depth).None?
  {
    hide Individually;
    var c := Candidate(Ordinary, owner.agent, owner.workflow, owner.agent, source, order, true);
    var cs, children := [c], map[owner.agent := [c]];
    assert Individually(cs, owner, 0) by { AloneIsValid(owner, c); }
    assert Rooted(cs, owner, 0, 0);
    assert Accepted(cs, owner, 0);
    assert UniqueAgent(cs, 0);
    UniqueIndex(cs, owner, 0);
    forall p
      ensures Lookup(children, p) == SortBySpawnOrder(Group(cs, [false], 1, p))
    {
      assert Group(cs, [false], 0, p) == [];
      assert [c][..0] == [];
    }
    AppendsForever(cs, owner, [false], children, depth);
  }

  lemma AloneIsValid(owner: Owner, c: Candidate)
    requires c.workflow == owner.workflow && c.spawner == owner.agent && c.sound
    ensures Individually([c], owner, 0)
  {
  }

  lemma PreorderSnoc(f: seq<T.Tree>, t: T.Tree)
    ensures T.Preorder(f + [t]) == T.Preorder(f) + [t.agent] + T.Preorder(t.kids)
  {
    if f == [] {
      assert f + [t] == [t];
      assert [t][1..] == [];
    } else {
      assert (f + [t])[1..] == f[1..] + [t] && (f + [t])[0] == f[0];
      PreorderSnoc(f[1..], t);
    }
  }

  lemma AgentsSnoc(cs: seq<Candidate>, c: Candidate)
    ensures Agents(cs + [c]) == Agents(cs) + [c.agent]
  {
  }

  lemma RootsSnoc(f: seq<T.Tree>, t: T.Tree)
    ensures T.Roots(f + [t]) == T.Roots(f) + [t.agent]
  {
  }

  lemma GrownSnoc(children: map<Id, seq<Id>>, f: seq<T.Tree>, t: T.Tree)
    requires T.Grown(children, f) && T.Grown(children, t.kids) && T.Roots(t.kids) == T.Children(children, t.agent)
    ensures T.Grown(children, f + [t])
  {
    if f == [] {
      assert f + [t] == [t];
      assert [t][1..] == [];
    } else {
      assert (f + [t])[1..] == f[1..] + [t] && (f + [t])[0] == f[0];
      GrownSnoc(children, f[1..], t);
    }
  }

  class RecoveryOrder {
    const verifiedChildren: map<Id, seq<Candidate>>
    var ordered: seq<Candidate>

    constructor (verifiedChildren: map<Id, seq<Candidate>>)
      ensures this.verifiedChildren == verifiedChildren && ordered == []
    {
      this.verifiedChildren, ordered := verifiedChildren, [];
    }

    /** Appends the parent's subtree; `above` are the agents on the way down to it. */
    method AppendDescendants(parent: Id, ghost s: T.Shape, ghost above: set<Id>) returns (ghost f: seq<T.Tree>)
      requires Descends(s, verifiedChildren, parent, above)
      modifies this
      ensures var added := Appends(verifiedChildren, parent, Further(s, above) + 1);
              && added.Some? && ordered == old(ordered) + added.value
              && Agents(added.value) == T.Preorder(f) && forall c :: c in added.value ==> Listed(verifiedChildren, c)
      ensures T.Grown(s.children, f) && T.Roots(f) == T.Children(s.children, parent)
      decreases Further(s, above)
    {
      hide T.Grown, T.Preorder, Agents, T.Roots, T.Children, Descends, Further, AppendsAll, Appends, Listed, Lookup;
      AppendsUnfold(verifiedChildren, parent, Further(s, above));
      var children := Lookup(verifiedChildren, parent);
      NothingAppended(verifiedChildren, Further(s, above));
      for i := 0 to |children|
        invariant AppendsAll(verifiedChildren, children[..i], Further(s, above)).Some?
        invariant ordered == old(ordered) + AppendsAll(verifiedChildren, children[..i], Further(s, above)).value
      {
        var child := children[i];
        FewerBelow(s, verifiedChildren, parent, above, i);
        AppendsSnoc(verifiedChildren, children[..i], child, Further(s, above));
        assert children[..i + 1] == children[..i] + [child];
        ordered := ordered + [child];
        ghost var kids := AppendDescendants(child.agent, s, above + {child.agent});
      }
      assert children[..|children|] == children;
      f := AppendsPreorder(s, verifiedChildren, parent, above, children);
      SameChildren(s, verifiedChildren, parent, above);
    }
  }

  lemma RootDescends(cs: seq<Candidate>, owner: Owner, children: map<Id, seq<Candidate>>)
    requires T.ShapeOk(ShapeOf(cs, owner, children))
    ensures Descends(ShapeOf(cs, owner, children), children, owner.agent, {owner.agent})
  {
    hide Accepted, Spawners, DepthIn, Agents;
  }

  lemma SameChildren(s: T.Shape, children: map<Id, seq<Candidate>>, p: Id, above: set<Id>)
    requires Descends(s, children, p, above)
    ensures T.Children(s.children, p) == Agents(Lookup(children, p))
  {
    ChildrenOf(s, children, p);
  }

  lemma AppendsUnfold(children: map<Id, seq<Candidate>>, parent: Id, depth: nat)
    ensures Appends(children, parent, depth + 1) == AppendsAll(children, Lookup(children, parent), depth)
  {
  }

  lemma NothingAppended(children: map<Id, seq<Candidate>>, depth: nat)
    ensures AppendsAll(children, [], depth) == Some([])
  {
  }

  lemma EmptyForest(children: map<Id, seq<Id>>)
    ensures T.Grown(children, []) && T.Preorder([]) == [] && T.Roots([]) == [] && Agents([]) == []
  {
  }

  lemma ChildrenOf(s: T.Shape, children: map<Id, seq<Candidate>>, p: Id)
    requires s.children == (map q | q in children :: Agents(children[q]))
    ensures T.Children(s.children, p) == Agents(Lookup(children, p))
  {
  }

  lemma ChildBelow(s: T.Shape, children: map<Id, seq<Candidate>>, p: Id, i: nat)
    requires T.ShapeOk(s) && s.children == (map q | q in children :: Agents(children[q]))
    requires p in s.depth && i < |Lookup(children, p)|
    ensures var c := Lookup(children, p)[i].agent;
            T.IsChild(s, p, c) && c in s.depth && s.depth[c] == s.depth[p] + 1 && p in children
  {
    var c := Lookup(children, p)[i].agent;
    assert T.Children(s.children, p)[i] == c;
    assert T.IsChild(s, p, c);
  }

  // ------------------------------------------------------------------ The result

  /** Two listed children of one spawner stand in the same order among that spawner's children. */
  lemma {:induction false} KidsPositions(list: seq<Id>, spawner: map<Id, Id>, q: Id, i: nat, j: nat)
    returns (x: nat, y: nat)
    requires i < j < |list| && list[i] in spawner && spawner[list[i]] == q && list[j] in spawner
    requires spawner[list[j]] == q
    ensures x < y < |T.KidsOf(list, spawner, q)| && T.KidsOf(list, spawner, q)[x] == list[i]
    ensures T.KidsOf(list, spawner, q)[y] == list[j]
  {
    var n := |list| - 1;
    if j < n {
      x, y := KidsPositions(list[..n], spawner, q, i, j);
    } else {
      T.KidsIn(list[..n], spawner, q, list[i]);
      assert list[..n][i] == list[i];
      x :| 0 <= x < |T.KidsOf(list[..n], spawner, q)| && T.KidsOf(list[..n], spawner, q)[x] == list[i];
      y := |T.KidsOf(list[..n], spawner, q)|;
    }
  }

  /** Siblings stand in spawn order. */
  ghost predicate SiblingsSorted(ordered: seq<Candidate>) {
    forall i, j {:trigger ordered[i], ordered[j]} ::
      0 <= i < j < |ordered| && ordered[i].spawner == ordered[j].spawner ==>
        var (a, b) := (ordered[i].spawnOrder, ordered[j].spawnOrder);
        !(b.0 < a.0) && (a.0 == b.0 ==> !(b.1 < a.1))
  }

  ghost predicate IsAccepted(cs: seq<Candidate>, owner: Owner, c: Candidate) {
    exists i :: 0 <= i < |cs| && cs[i] == c && Accepted(cs, owner, i)
  }

  /** The accepted candidates, each once, after its spawner, siblings in spawn order. */
  ghost predicate IsRecoveryOrder(cs: seq<Candidate>, owner: Owner, ordered: seq<Candidate>) {
    && (forall c :: c in ordered <==> IsAccepted(cs, owner, c))
    && T.Distinct(Agents(ordered))
    && T.SpawnersFirst(Agents(ordered), Spawners(cs, owner), {owner.agent})
    && SiblingsSorted(ordered)
  }

  /** Two accepted candidates with one agent are one candidate. */
  lemma OneCandidate(cs: seq<Candidate>, owner: Owner, c: Candidate, d: Candidate)
    requires IsAccepted(cs, owner, c) && IsAccepted(cs, owner, d) && c.agent == d.agent
    ensures c == d && Recovers(cs, owner, c.agent) && Spawners(cs, owner)[c.agent] == c.spawner
  {
    hide Accepted, Individually;
    var i :| 0 <= i < |cs| && cs[i] == c && Accepted(cs, owner, i);
    var j :| 0 <= j < |cs| && cs[j] == d && Accepted(cs, owner, j);
    AcceptedIndex(cs, owner, i);
    AcceptedIndex(cs, owner, j);
    SpawnerOf(cs, owner, c.agent);
  }

  lemma GroupAccepted(cs: seq<Candidate>, owner: Owner, invalid: seq<bool>, p: Id, c: Candidate)
    requires Verified(cs, owner, invalid) && c in SortBySpawnOrder(Group(cs, invalid, |cs|, p))
    ensures IsAccepted(cs, owner, c) && c.spawner == p
  {
    hide Accepted, SortBySpawnOrder;
    SortedMembers(Group(cs, invalid, |cs|, p), c);
    GroupMembers(cs, invalid, |cs|, p, c);
  }

  lemma RecoveryOrderIsRight(cs: seq<Candidate>, owner: Owner, invalid: seq<bool>, children: map<Id, seq<Candidate>>,
                             ordered: seq<Candidate>, f: seq<T.Tree>)
    requires Verified(cs, owner, invalid) && NoOwnerClaim(cs, owner) && Grouped(cs, invalid, children)
    requires var s := ShapeOf(cs, owner, children);
             Agents(ordered) == T.Preorder(f) && T.Grown(s.children, f)
               && T.Roots(f) == T.Children(s.children, owner.agent)
    requires forall c :: c in ordered ==> exists p :: p in children && c in children[p]
    ensures IsRecoveryOrder(cs, owner, ordered)
  {
    hide Accepted, Group, SortBySpawnOrder, Individually, T.Grown, T.Preorder;
    var s := ShapeOf(cs, owner, children);
    ShapeIsOk(cs, owner, invalid, children);
    assert T.Under(s, owner.agent, f) by { RootForest(s, f); }
    T.PreorderDistinct(s, owner.agent, f);
    T.PreorderSpawnersFirst(s, owner.agent, f);
    forall c | c in ordered
      ensures IsAccepted(cs, owner, c)
    {
      var p :| p in children && c in children[p];
      assert Lookup(children, p) == children[p];
      GroupAccepted(cs, owner, invalid, p, c);
    }
    forall c | IsAccepted(cs, owner, c)
      ensures c in ordered
    {
      OneCandidate(cs, owner, c, c);
      SpawnerOf(cs, owner, c.agent);
      T.PreorderComplete(s, f, c.agent);
      var k :| 0 <= k < |Agents(ordered)| && Agents(ordered)[k] == c.agent;
      OneCandidate(cs, owner, c, ordered[k]);
    }
    forall i, j | 0 <= i < j < |ordered| && ordered[i].spawner == ordered[j].spawner
      ensures NotAfter(ordered[i].spawnOrder, ordered[j].spawnOrder)
    {
      SiblingsInOrder(cs, owner, invalid, children, ordered, f, i, j);
    }
  }

  lemma RootForest(s: T.Shape, f: seq<T.Tree>)
    requires T.ShapeOk(s) && T.Grown(s.children, f) && T.Roots(f) == T.Children(s.children, s.root)
    ensures T.Under(s, s.root, f)
  {
    hide T.Grown;
    forall i | 0 <= i < |f|
      ensures T.IsChild(s, s.root, f[i].agent)
    {
      assert T.Roots(f)[i] in T.Children(s.children, s.root);
    }
  }

  lemma SiblingsInOrder(cs: seq<Candidate>, owner: Owner, invalid: seq<bool>, children: map<Id, seq<Candidate>>,
                        ordered: seq<Candidate>, f: seq<T.Tree>, i: nat, j: nat)
    requires Verified(cs, owner, invalid) && Grouped(cs, invalid, children)
    requires var s := ShapeOf(cs, owner, children);
             T.ShapeOk(s) && T.Under(s, owner.agent, f) && Agents(ordered) == T.Preorder(f)
               && T.Roots(f) == T.Children(s.children, owner.agent)
    requires forall c :: c in ordered ==> IsAccepted(cs, owner, c)
    requires T.SpawnersFirst(T.Preorder(f), Spawners(cs, owner), {owner.agent})
    requires i < j < |ordered| && ordered[i].spawner == ordered[j].spawner
    ensures NotAfter(ordered[i].spawnOrder, ordered[j].spawnOrder)
  {
    hide Accepted, Group, SortBySpawnOrder, Individually, T.Grown, T.Preorder, T.ShapeOk, T.Under, T.KidsOf;
    var s, q, list := ShapeOf(cs, owner, children), ordered[i].spawner, Agents(ordered);
    OneCandidate(cs, owner, ordered[i], ordered[i]);
    OneCandidate(cs, owner, ordered[j], ordered[j]);
    SpawnerOf(cs, owner, list[i]);
    SpawnerOf(cs, owner, list[j]);
    var x, y := KidsPositions(list, s.spawner, q, i, j);
    T.KidsOfPreorder(s, owner.agent, f, q);
    LookupAgents(cs, owner, children, q);
    var sorted := Lookup(children, q);
    assert T.KidsOf(list, s.spawner, q) == Agents(sorted);
    SortSorts(Group(cs, invalid, |cs|, q));
    GroupAccepted(cs, owner, invalid, q, sorted[x]);
    GroupAccepted(cs, owner, invalid, q, sorted[y]);
    OneCandidate(cs, owner, sorted[x], ordered[i]);
    OneCandidate(cs, owner, sorted[y], ordered[j]);
  }

  /** The valid Moderator candidates, in file order. */
  function Moderators(cs: seq<Candidate>, invalid: seq<bool>, n: nat): seq<Id>
    requires n <= |cs| == |invalid|
  {
    if n == 0 then []
    else
      Moderators(cs, invalid, n - 1)
      + if cs[n - 1].role == Moderator && !invalid[n - 1] then [cs[n - 1].agent] else []
  }

  ghost predicate IsModerator(cs: seq<Candidate>, owner: Owner, a: Id) {
    exists i :: 0 <= i < |cs| && cs[i].agent == a && cs[i].role == Moderator && Individually(cs, owner, i)
  }

  /** A Moderator is recovered exactly when it is the only claim of its agent and of this Workflow. */
  lemma ModeratorExactly(cs: seq<Candidate>, owner: Owner, a: Id)
    ensures IsModerator(cs, owner, a) <==>
              exists i :: 0 <= i < |cs| && cs[i].agent == a && cs[i].role == Moderator
                && cs[i].workflow == owner.workflow
                && forall j :: 0 <= j < |cs| && cs[j].agent == a ==> j == i
  {
  }

  lemma {:induction false} ModeratorsOnce(cs: seq<Candidate>, owner: Owner, invalid: seq<bool>, n: nat)
    requires n <= |cs| == |invalid|
    requires forall i :: 0 <= i < |cs| && cs[i].role == Moderator ==> (invalid[i] <==> !Individually(cs, owner, i))
    ensures T.Distinct(Moderators(cs, invalid, n))
    ensures forall a :: a in Moderators(cs, invalid, n) <==>
              exists i :: 0 <= i < n && cs[i].agent == a && cs[i].role == Moderator && Individually(cs, owner, i)
  {
    hide Individually;
    if n > 0 {
      ModeratorsOnce(cs, owner, invalid, n - 1);
      if cs[n - 1].role == Moderator && !invalid[n - 1] {
        IndividuallyUnique(cs, owner, n - 1);
        T.DistinctJoin(Moderators(cs, invalid, n - 1), [cs[n - 1].agent]);
      }
    }
  }

  /**
   * Verifies and orders what was found in the Workflow's directory. `quarantined`
   * names every agent with an unaccepted ordinary or an invalid Moderator
   * candidate; `f` is the tree whose preorder `ordered` is.
   */
  method DiscoverColdWorkflow(cs: seq<Candidate>, owner: Owner)
    returns (ordered: seq<Candidate>, moderators: seq<Id>, quarantined: set<Id>, ghost s: T.Shape, ghost f: seq<T.Tree>)
    requires NoOwnerClaim(cs, owner)
    ensures IsRecoveryOrder(cs, owner, ordered)
    ensures T.Distinct(moderators) && forall a :: a in moderators <==> IsModerator(cs, owner, a)
    ensures forall a :: a in quarantined <==>
              exists i :: 0 <= i < |cs| && cs[i].agent == a
                          && !(if cs[i].role == Ordinary then Accepted(cs, owner, i) else Individually(cs, owner, i))
    ensures T.ShapeOk(s) && s.root == owner.agent && s.spawner == Spawners(cs, owner)
    ensures T.Under(s, s.root, f) && T.Roots(f) == T.Children(s.children, s.root) && Agents(ordered) == T.Preorder(f)
  {
    hide Accepted, Individually, IsRecoveryOrder, Group, SortBySpawnOrder, T.ShapeOk, T.Grown, T.Preorder, NoOwnerClaim,
         T.Under, Moderators, Appends, Agents, T.Roots, Descends, Further, Grouped, Spawners, DepthIn;
    var v := new SpawnerVerification(cs, owner);
    v.MarkInvalid();
    v.VerifyPaths();
    var children := GroupBySpawner(cs, v.invalid);
    var sorted := SortChildren(children);
    GroupedSorted(cs, v.invalid, children, sorted);
    ShapeIsOk(cs, owner, v.invalid, sorted);
    var o := new RecoveryOrder(sorted);
    s := ShapeOf(cs, owner, sorted);
    RootDescends(cs, owner, sorted);
    f := o.AppendDescendants(owner.agent, s, {owner.agent});
    assert o.ordered == Appends(sorted, owner.agent, Further(s, {owner.agent}) + 1).value;
    RecoveryOrderIsRight(cs, owner, v.invalid, sorted, o.ordered, f);
    RootForest(s, f);
    ModeratorsOnce(cs, owner, v.invalid, |cs|);
    ordered, moderators, quarantined := o.ordered, Moderators(cs, v.invalid, |cs|), v.quarantined;
  }

  lemma GroupedSorted(cs: seq<Candidate>, invalid: seq<bool>, children: map<Id, seq<Candidate>>,
                      sorted: map<Id, seq<Candidate>>)
    requires |cs| == |invalid| && forall p :: (if p in children then children[p] else []) == Group(cs, invalid, |cs|, p)
    requires sorted.Keys == children.Keys && forall p :: p in children ==> sorted[p] == SortBySpawnOrder(children[p])
    ensures Grouped(cs, invalid, sorted)
  {
    hide Group;
    forall p
      ensures Lookup(sorted, p) == SortBySpawnOrder(Group(cs, invalid, |cs|, p))
    {
      assert p in children ==> children[p] == Group(cs, invalid, |cs|, p);
    }
  }
}
