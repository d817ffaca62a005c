/**
 * The Owner's roster after cold recovery: children lists rebuilt from the
 * recovered order, and the authority order read back with an explicit stack
 * (src/coordination/workflow-coordinator.ts:402-433, 1046-1064).
 */
module WorkflowRoster {
  import opened SpawnTree

  datatype Option<T> = None | Some(value: T)

  datatype Recovered = RecoveredAgent(agent: Id, spawner: Id) | RecoveredModerator(agent: Id)

  /** Ordinary agents in preorder, then Moderators. */
  function RecoveryOf(s: Shape, list: seq<Id>, moderators: seq<Id>): seq<Recovered>
    requires forall a :: a in list ==> a in s.spawner
  {
    seq(|list|, i requires 0 <= i < |list| && forall a :: a in list ==>
        a in s.spawner => RecoveredAgent(list[i], s.spawner[list[i]]))
    + seq(|moderators|, i requires 0 <= i < |moderators| => RecoveredModerator(moderators[i]))
  }

  /** A recovered Workflow: a tree of accepted agents below the Owner, and Moderators of other ids. */
  ghost predicate IsRecovered(s: Shape, f: seq<Tree>, moderators: seq<Id>) {
    && ShapeOk(s) && Under(s, s.root, f) && Roots(f) == Children(s.children, s.root)
    && Distinct(moderators) && forall a :: a in moderators ==> a != s.root && a !in Preorder(f)
  }

  // ------------------------------------------------- The stack, seen as trees

  /** What is left to list: the preorder of the stack's trees, from its top down. */
  function Unwound(stack: seq<Tree>): seq<Id> {
    if stack == [] then []
    else
      var top := stack[|stack| - 1];
      [top.agent] + Preorder(top.kids) + Unwound(stack[..|stack| - 1])
  }

  function Reversed<T>(s: seq<T>): seq<T> {
    if s == [] then [] else Reversed(s[1..]) + [s[0]]
  }

  lemma UnwoundSnoc(base: seq<Tree>, t: Tree)
    ensures Unwound(base + [t]) == [t.agent] + Preorder(t.kids) + Unwound(base)
  {
    var stack := base + [t];
    assert stack[|stack| - 1] == t && stack[..|stack| - 1] == base;
  }

  lemma {:induction false} PushReversed(base: seq<Tree>, kids: seq<Tree>)
    ensures Unwound(base + Reversed(kids)) == Preorder(kids) + Unwound(base)
    decreases kids
  {
    hide Unwound;
    if kids == [] {
      assert base + Reversed(kids) == base;
    } else {
      var below := base + Reversed(kids[1..]);
      PushReversed(base, kids[1..]);
      UnwoundSnoc(below, kids[0]);
      assert base + Reversed(kids) == below + [kids[0]];
      Associates([kids[0].agent] + Preorder(kids[0].kids), Preorder(kids[1..]), Unwound(base));
    }
  }

  lemma Associates(a: seq<Id>, b: seq<Id>, c: seq<Id>)
    ensures a + (b + c) == (a + b) + c
  {
  }

  lemma {:induction false} RootsReversed(base: seq<Tree>, kids: seq<Tree>)
    ensures Roots(base + Reversed(kids)) == Roots(base) + Reversed(Roots(kids))
    decreases kids
  {
    if kids == [] {
      assert base + Reversed(kids) == base;
      assert Roots(kids) == [];
    } else {
      RootsReversed(base, kids[1..]);
      var below := base + Reversed(kids[1..]);
      assert base + Reversed(kids) == below + [kids[0]];
      assert Roots(below + [kids[0]]) == Roots(below) + [kids[0].agent];
      assert Roots(kids)[1..] == Roots(kids[1..]) && Roots(kids)[0] == kids[0].agent;
    }
  }

  /** The roster knows every tree of the stack down to its leaves. */
  ghost predicate AllGrown(children: map<Id, seq<Id>>, stack: seq<Tree>) {
    forall t :: t in stack ==> Roots(t.kids) == Children(children, t.agent) && Grown(children, t.kids)
  }

  lemma {:induction false} KidsGrown(children: map<Id, seq<Id>>, f: seq<Tree>)
    requires Grown(children, f)
    ensures AllGrown(children, f)
    decreases f
  {
    if f != [] {
      KidsGrown(children, f[1..]);
      assert forall t :: t in f ==> t == f[0] || t in f[1..];
    }
  }

  lemma {:induction false} ReversedMembers<T>(s: seq<T>, x: T)
    ensures x in Reversed(s) <==> x in s
  {
    if s != [] {
      ReversedMembers(s[1..], x);
      assert x in s <==> x == s[0] || x in s[1..];
    }
  }

  /** Replacing the top of the stack by its children, last child first. */
  lemma Unstack(children: map<Id, seq<Id>>, stack: seq<Tree>)
    requires stack != [] && AllGrown(children, stack)
    ensures var n := |stack| - 1;
            var next := stack[..n] + Reversed(stack[n].kids);
            && AllGrown(children, next)
            && Unwound(stack) == [stack[n].agent] + Unwound(next)
            && Roots(next) == Roots(stack)[..n] + Reversed(Children(children, stack[n].agent))
  {
    var n := |stack| - 1;
    var top := stack[n];
    assert top in stack;
    assert stack == stack[..n] + [top];
    UnwoundSnoc(stack[..n], top);
    PushReversed(stack[..n], top.kids);
    RootsReversed(stack[..n], top.kids);
    Associates([top.agent], Preorder(top.kids), Unwound(stack[..n]));
    KidsGrown(children, top.kids);
    assert Roots(stack)[..n] == Roots(stack[..n]);
    forall t | t in stack[..n] + Reversed(top.kids)
      ensures Roots(t.kids) == Children(children, t.agent) && Grown(children, t.kids)
    {
      ReversedMembers(top.kids, t);
    }
  }

  /** Lists that agree on every agent of a forest grow the same forest. */
  lemma {:induction false} GrownAlike(a: map<Id, seq<Id>>, b: map<Id, seq<Id>>, f: seq<Tree>)
    requires Grown(a, f) && forall q :: q in Preorder(f) ==> Children(a, q) == Children(b, q)
    ensures Grown(b, f)
    decreases f
  {
    if f != [] {
      GrownAlike(a, b, f[0].kids);
      GrownAlike(a, b, f[1..]);
    }
  }

  lemma RootNotListed(s: Shape, f: seq<Tree>)
    requires ShapeOk(s) && Under(s, s.root, f)
    ensures s.root !in Preorder(f)
    ensures Distinct([s.root] + Preorder(f))
  {
    hide ShapeOk, Under, Preorder;
    PreorderDistinct(s, s.root, f);
    forall q | q in Preorder(f)
      ensures q != s.root
    {
      BelowRoots(s, s.root, f, q);
    }
    DistinctJoin([s.root], Preorder(f));
  }

  lemma RebuiltChildren(s: Shape, f: seq<Tree>, children: map<Id, seq<Id>>)
    requires ShapeOk(s) && Under(s, s.root, f) && s.root !in Preorder(f)
    requires forall q :: Children(children, q) == KidsOf(Preorder(f), s.spawner, q)
    ensures Children(children, s.root) == Roots(f)
    ensures forall q :: q in Preorder(f) ==> Children(s.children, q) == Children(children, q)
  {
    hide ShapeOk, Under, KidsOf, Preorder, Children, Roots;
    KidsOfPreorder(s, s.root, f, s.root);
    forall q | q in Preorder(f)
      ensures Children(s.children, q) == Children(children, q)
    {
      KidsOfPreorder(s, s.root, f, q);
    }
  }

  /** Children rebuilt from the list are the children of the tree. */
  lemma RebuiltGrown(s: Shape, f: seq<Tree>, moderators: seq<Id>, children: map<Id, seq<Id>>)
    requires IsRecovered(s, f, moderators)
    requires forall q :: Children(children, q) == KidsOf(Preorder(f), s.spawner, q)
    ensures AllGrown(children, [Node(s.root, f)])
    ensures Distinct([s.root] + Preorder(f))
  {
    hide KidsOf, Preorder, ShapeOk, Children, Roots;
    RootNotListed(s, f);
    RebuiltChildren(s, f, children);
    GrownAlike(s.children, children, f);
  }

  /** What the top of the stack adds to the list, and what it leaves of the tree. */
  ghost predicate Unwinds(children: map<Id, seq<Id>>, stack: seq<Tree>, pending: seq<Id>, listed: seq<Id>,
                          tree: seq<Id>) {
    pending == Roots(stack) && AllGrown(children, stack) && listed + Unwound(stack) == tree
  }

  lemma UnwindTop(children: map<Id, seq<Id>>, stack: seq<Tree>, pending: seq<Id>, listed: seq<Id>, tree: seq<Id>)
    returns (next: seq<Tree>)
    requires Unwinds(children, stack, pending, listed, tree) && pending != [] && Distinct(tree)
    ensures var (below, agent) := (pending[..|pending| - 1], pending[|pending| - 1]);
            && Unwinds(children, next, below + Reversed(Children(children, agent)), listed + [agent], tree)
            && agent !in listed && agent in tree && |Unwound(next)| < |Unwound(stack)|
  {
    hide AllGrown, Unwound, Distinct, Children, Reversed;
    var agent := pending[|pending| - 1];
    Unstack(children, stack);
    next := stack[..|stack| - 1] + Reversed(stack[|stack| - 1].kids);
    NotBefore(listed, agent, Unwound(next), tree);
    assert listed + [agent] + Unwound(next) == listed + ([agent] + Unwound(next));
  }

  lemma UnwindEmpty(children: map<Id, seq<Id>>, stack: seq<Tree>, listed: seq<Id>, tree: seq<Id>)
    requires Unwinds(children, stack, [], listed, tree)
    ensures listed == tree
  {
    assert |Roots(stack)| == |stack|;
  }

  lemma UnwindOwner(s: Shape, f: seq<Tree>, moderators: seq<Id>, children: map<Id, seq<Id>>)
    requires IsRecovered(s, f, moderators)
    requires forall q :: Children(children, q) == KidsOf(Preorder(f), s.spawner, q)
    ensures Unwinds(children, [Node(s.root, f)], [s.root], [], [s.root] + Preorder(f))
    ensures Distinct([s.root] + Preorder(f))
  {
    hide KidsOf, Preorder, Distinct, IsRecovered, AllGrown, Unwound;
    var t := Node(s.root, f);
    RebuiltGrown(s, f, moderators, children);
    UnwoundOne(t);
    assert [] + Unwound([t]) == [s.root] + Preorder(f);
    assert Roots([t]) == [s.root];
  }

  /** In a list without repetitions, nothing stands both before and after. */
  lemma NotBefore(before: seq<Id>, a: Id, after: seq<Id>, whole: seq<Id>)
    requires before + ([a] + after) == whole && Distinct(whole)
    ensures a !in before && a in whole
  {
    assert whole[|before|] == a;
    forall i | 0 <= i < |before|
      ensures before[i] != a
    {
      assert whole[i] == before[i] && whole[i] != whole[|before|];
    }
  }

  class Roster {
    const owner: Id
    /** The roster's keys in insertion order, and every record's children. */
    var agents: seq<Id>
    var children: map<Id, seq<Id>>

    constructor (owner: Id)
      ensures this.owner == owner && agents == [owner] && children == map[]
    {
      this.owner, agents, children := owner, [owner], map[];
    }

    /** Stops at an agent whose Direct Spawner is not in the roster yet; of a recovered Workflow there is none. */
    method Integrate(recovered: seq<Recovered>, ghost s: Shape, ghost f: seq<Tree>, ghost moderators: seq<Id>)
      returns (missing: Option<Id>)
      requires agents == [owner] && children == map[]
      requires IsRecovered(s, f, moderators) && owner == s.root
      requires (forall a :: a in Preorder(f) ==> a in s.spawner) && recovered == RecoveryOf(s, Preorder(f), moderators)
      modifies this
      ensures missing.None?
      ensures agents == [owner] + Preorder(f) + moderators
      ensures forall q :: Children(children, q) == KidsOf(Preorder(f), s.spawner, q)
    {
      hide IsRecovered, Preorder, RecoveryOf, KidsOf;
      ghost var list := Preorder(f);
      ListedAfterSpawner(s, f, moderators);
      assert |recovered| == |list| + |moderators| by { RecoveryLength(s, list, moderators); }
      KidsOfNothing(s.spawner);
      missing := None;
      var i := 0;
      while i < |recovered| && missing.None?
        invariant 0 <= i <= |recovered| && missing.None?
        invariant agents == [owner] + if i <= |list| then list[..i] else list + moderators[..i - |list|]
        invariant forall q :: Children(children, q) == KidsOf(list[..if i <= |list| then i else |list|], s.spawner, q)
      {
        var r := recovered[i];
        RecoveredAt(s, list, moderators, i);
        match r {
          case RecoveredModerator(agent) =>
            assert moderators[..i - |list| + 1] == moderators[..i - |list|] + [moderators[i - |list|]];
            assert list[..|list|] == list;
            agents := agents + [agent];
          case RecoveredAgent(agent, spawner) =>
            assert list[..i + 1] == list[..i] + [list[i]];
            assert spawner in {s.root} || spawner in list[..i];
            if spawner !in agents {
              missing := Some(agent);
            } else {
              ghost var before := children;
              agents := agents + [agent];
              children := children[spawner := Children(children, spawner) + [agent]];
              forall q
                ensures Children(children, q) == KidsOf(list[..i + 1], s.spawner, q)
              {
                KidsOfNext(list, s.spawner, i, q);
                assert Children(before, q) == KidsOf(list[..i], s.spawner, q);
                assert KidsOf(list[..i], s.spawner, q) + [] == KidsOf(list[..i], s.spawner, q);
              }
            }
        }
        i := i + 1;
      }
      assert list[..|list|] == list && moderators[..|moderators|] == moderators;
    }

    /** Nothing at a repeated agent or one not in the roster; a rebuilt roster has neither. */
    method AgentAuthorityOrder(ghost s: Shape, ghost f: seq<Tree>, ghost moderators: seq<Id>)
      returns (order: Option<seq<Id>>)
      requires IsRecovered(s, f, moderators) && owner == s.root
      requires agents == [owner] + Preorder(f) + moderators
      requires forall q :: Children(children, q) == KidsOf(Preorder(f), s.spawner, q)
      ensures order == Some([owner] + Preorder(f) + moderators)
    {
      hide IsRecovered, KidsOf, Preorder, Unwinds, Unwound, Distinct, Children;
      ghost var stack, tree := [Node(owner, f)], [owner] + Preorder(f);
      UnwindOwner(s, f, moderators, children);
      var authorityOrder: seq<Id> := [];
      var included: set<Id> := {};
      var pending, failed := [owner], false;
      while pending != [] && !failed
        invariant Unwinds(children, stack, pending, authorityOrder, tree) && !failed
        invariant forall a :: a in included <==> a in authorityOrder
        decreases |Unwound(stack)|
      {
        var agent := pending[|pending| - 1];
        ghost var next := UnwindTop(children, stack, pending, authorityOrder, tree);
        pending := pending[..|pending| - 1];
        failed := agent !in agents || agent in included;
        included := included + {agent};
        authorityOrder := authorityOrder + [agent];
        var kids := Children(children, agent);
        ghost var below := pending;
        for index := |kids| downto 0
          invariant pending == below + Reversed(kids[index..])
        {
          assert kids[index..][1..] == kids[index + 1..];
          pending := pending + [kids[index]];
        }
        assert kids[0..] == kids;
        stack := next;
      }
      UnwindEmpty(children, stack, authorityOrder, tree);
      order := AppendRest(authorityOrder, included, failed, s, f, moderators);
    }

    /** Whoever is not below the Owner comes last, in roster order. */
    method AppendRest(listed: seq<Id>, included: set<Id>, failed: bool, ghost s: Shape, ghost f: seq<Tree>,
                      ghost moderators: seq<Id>)
      returns (order: Option<seq<Id>>)
      requires IsRecovered(s, f, moderators) && owner == s.root && listed == [owner] + Preorder(f)
      requires agents == listed + moderators
      requires forall a :: a in included <==> a in listed
      ensures order == if failed then None else Some(listed + moderators)
    {
      hide Preorder, Under, ShapeOk;
      var authorityOrder := listed;
      for i := 0 to |agents|
        invariant authorityOrder == listed + if i <= |listed| then [] else moderators[..i - |listed|]
      {
        if i < |listed| {
          assert agents[i] == listed[i];
        } else {
          assert moderators[i - |listed|] in moderators && agents[i] == moderators[i - |listed|];
          assert moderators[..i - |listed| + 1] == moderators[..i - |listed|] + [agents[i]];
        }
        if agents[i] !in included {
          authorityOrder := authorityOrder + [agents[i]];
        }
      }
      assert moderators[..|moderators|] == moderators;
      order := if failed then None else Some(authorityOrder);
    }
  }

  lemma RecoveredAt(s: Shape, list: seq<Id>, moderators: seq<Id>, i: nat)
    requires (forall a :: a in list ==> a in s.spawner) && i < |list| + |moderators|
    ensures i < |list| ==>
              list[i] in s.spawner && RecoveryOf(s, list, moderators)[i] == RecoveredAgent(list[i], s.spawner[list[i]])
    ensures i >= |list| ==> RecoveryOf(s, list, moderators)[i] == RecoveredModerator(moderators[i - |list|])
  {
    assert i < |list| ==> list[i] in list;
  }

  lemma KidsOfNothing(spawner: map<Id, Id>)
    ensures forall q :: KidsOf([], spawner, q) == []
  {
  }

  lemma KidsOfNext(list: seq<Id>, spawner: map<Id, Id>, i: nat, q: Id)
    requires i < |list|
    ensures KidsOf(list[..i + 1], spawner, q) == KidsOf(list[..i], spawner, q) + if list[i] in spawner
            && spawner[list[i]] == q then [list[i]] else []
  {
    assert list[..i + 1][..i] == list[..i];
  }

  lemma RecoveryLength(s: Shape, list: seq<Id>, moderators: seq<Id>)
    requires forall a :: a in list ==> a in s.spawner
    ensures |RecoveryOf(s, list, moderators)| == |list| + |moderators|
  {
  }

  lemma UnwoundOne(t: Tree)
    ensures Unwound([t]) == [t.agent] + Preorder(t.kids)
  {
    assert [t][..0] == [];
  }

  lemma ListedAfterSpawner(s: Shape, f: seq<Tree>, moderators: seq<Id>)
    requires IsRecovered(s, f, moderators)
    ensures SpawnersFirst(Preorder(f), s.spawner, {s.root})
  {
    PreorderSpawnersFirst(s, s.root, f);
  }
}
