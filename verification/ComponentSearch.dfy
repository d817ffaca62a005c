/**
 * Strongly connected components by Tarjan's algorithm
 * (src/coordination/progress-verdict.ts:253-296).
 *
 * The class keeps the source's mutable fields. The proof works on snapshots of
 * them, so that each step of a visit is one small lemma on values.
 */
module ComponentSearch {
  import opened Digraph

  /** A snapshot: visit indices, the stacked vertices and the ones in finished components. */
  datatype View = View(next: nat, index: map<Id, nat>, stacked: set<Id>, done: set<Id>)

  // ------------------------------------------------------------- Invariant

  ghost predicate IndexOk(s: View) {
    && s.index.Keys == s.stacked + s.done
    && s.stacked !! s.done
    && (forall v :: v in s.index ==> s.index[v] < s.next)
  }

  /** An earlier stacked vertex reaches every later one. */
  ghost predicate StackLinked(g: Edges, s: View)
    requires IndexOk(s)
  {
    forall a, b :: a in s.stacked && b in s.stacked && s.index[a] <= s.index[b] ==> Reaches(g, a, b)
  }

  /** `v` reaches an unfinished visit that started no later than `v`. */
  ghost predicate ReachesGray(g: Edges, s: View, gray: set<Id>, v: Id) {
    exists x :: x in gray && x in s.index && v in s.index && s.index[x] <= s.index[v] && Reaches(g, v, x)
  }

  /** Vertices whose visit returned have only visited targets. */
  ghost predicate Explored(g: Edges, s: View, gray: set<Id>) {
    forall v, w :: v in s.stacked && v !in gray && w in Succ(g, v) ==> w in s.index
  }

  /** `gray` are the vertices whose visit is still running. */
  ghost predicate Inv(g: Edges, s: View, gray: set<Id>) {
    && Closed(g, s.done)
    && IndexOk(s) && StackLinked(g, s)
    && gray <= s.stacked
    && (forall v {:trigger ReachesGray(g, s, gray, v)} :: v in s.stacked ==> ReachesGray(g, s, gray, v))
    && Explored(g, s, gray)
  }

  /** `s1` continues `s0`: old indices and stacked vertices stay, new indices are larger. */
  ghost predicate Continues(s0: View, s1: View) {
    && s0.next <= s1.next
    && (forall v :: v in s0.index ==> v in s1.index && s1.index[v] == s0.index[v])
    && (forall v :: v in s1.index && v !in s0.index ==> s1.index[v] >= s0.next)
    && s0.stacked <= s1.stacked
    && (forall v :: v in s1.stacked && v in s0.index ==> v in s0.stacked)
  }

  /** `v` reaches an older stacked vertex whose index is `low`. */
  ghost predicate LowWitness(g: Edges, s: View, v: Id, low: nat) {
    exists w :: w in s.stacked && w in s.index && s.index[w] == low && Reaches(g, v, w)
  }

  /** Edges back into `s0.stacked` from vertices stacked since, except `v`, do not go below `low`. */
  ghost predicate LowBounds(g: Edges, s0: View, s1: View, v: Id, low: nat) {
    forall y, w ::
      y in s1.stacked && y !in s0.stacked && y != v && w in Succ(g, y) && w in s0.stacked && w in s0.index ==>
        low <= s0.index[w]
  }

  /** What a finished visit of `v` leaves behind. */
  ghost predicate Visited(g: Edges, s0: View, s1: View, v: Id, low: nat) {
    && Continues(s0, s1)
    && v in s1.index && s1.index[v] == s0.next < s1.next
    && LowBounds(g, s0, s1, v, low)
    && (forall w :: w in Succ(g, v) && v in s1.stacked && w in s0.stacked && w in s0.index ==> low <= s0.index[w])
    && (|| (s1.stacked == s0.stacked && low == s0.next)
        || (low < s0.next && LowWitness(g, s0, v, low)))
  }

  /** How far a running visit of `v` has come after its first `i` targets. */
  ghost predicate Visiting(g: Edges, s0: View, s: View, v: Id, low: nat, i: nat)
    requires i <= |Succ(g, v)|
  {
    && v !in s0.index && IndexOk(s)
    && Continues(s0, s)
    && v in s.stacked && s.index[v] == s0.next < s.next
    && (low == s0.next || (low < s0.next && LowWitness(g, s0, v, low)))
    && LowBounds(g, s0, s, v, low)
    && (forall j :: 0 <= j < i ==> Succ(g, v)[j] in s.index)
    && (forall j :: 0 <= j < i && Succ(g, v)[j] in s0.stacked && Succ(g, v)[j] in s0.index ==>
         low <= s0.index[Succ(g, v)[j]])
  }

  function Min(a: nat, b: nat): nat {
    if b < a then b else a
  }

  // ------------------------------------------------------------ Step lemmas

  lemma Push(g: Edges, s0: View, gray: set<Id>, v: Id)
    requires Inv(g, s0, gray) && v !in s0.index
    requires forall x :: x in gray ==> Reaches(g, x, v)
    ensures var s := View(s0.next + 1, s0.index[v := s0.next], s0.stacked + {v}, s0.done);
            Inv(g, s, gray + {v}) && Visiting(g, s0, s, v, s0.next, 0)
  {
    var s := View(s0.next + 1, s0.index[v := s0.next], s0.stacked + {v}, s0.done);
    ReachesSelf(g, v);
    assert ReachesGray(g, s, gray + {v}, v);
    forall y | y in s0.stacked
      ensures ReachesGray(g, s, gray + {v}, y) && Reaches(g, y, v)
    {
      PushLinked(g, s0, gray, v, y);
    }
    assert StackLinked(g, s);
  }

  lemma PushLinked(g: Edges, s0: View, gray: set<Id>, v: Id, y: Id)
    requires IndexOk(s0) && v !in s0.index && ReachesGray(g, s0, gray, y)
    requires forall x :: x in gray ==> Reaches(g, x, v)
    ensures ReachesGray(g, View(s0.next + 1, s0.index[v := s0.next], s0.stacked + {v}, s0.done), gray + {v}, y)
    ensures Reaches(g, y, v)
  {
    var x :| x in gray && x in s0.index && s0.index[x] <= s0.index[y] && Reaches(g, y, x);
    ReachesTrans(g, y, x, v);
    assert x in gray + {v};
  }

  lemma AfterChild(g: Edges, s0: View, s: View, s': View, v: Id, low: nat, i: nat, lowChild: nat)
    requires i < |Succ(g, v)| && IndexOk(s0)
    requires Visiting(g, s0, s, v, low, i)
    requires Succ(g, v)[i] !in s.index
    requires IndexOk(s')
    requires Visited(g, s, s', Succ(g, v)[i], lowChild)
    ensures Visiting(g, s0, s', v, Min(low, lowChild), i + 1)
  {
    hide LowBounds, LowWitness;
    assert Continues(s0, s');
    if lowChild < low {
      ChildWitness(g, s0, s, v, low, i, lowChild);
    }
    ChildBounds(g, s0, s, s', v, Succ(g, v)[i], low, lowChild);
  }

  lemma ChildBounds(g: Edges, s0: View, s: View, s': View, v: Id, u: Id, low: nat, lowChild: nat)
    requires IndexOk(s0) && IndexOk(s) && Continues(s0, s)
    requires LowBounds(g, s0, s, v, low) && Visited(g, s, s', u, lowChild)
    ensures LowBounds(g, s0, s', v, Min(low, lowChild))
  {
    forall y, w | y in s'.stacked && y !in s0.stacked && y != v && w in Succ(g, y) && w in s0.stacked && w in s0.index
      ensures Min(low, lowChild) <= s0.index[w]
    {
      assert w in s.stacked && w in s.index;
      if y in s.stacked {
        assert low <= s0.index[w];
      }
    }
  }

  lemma ChildWitness(g: Edges, s0: View, s: View, v: Id, low: nat, i: nat, lowChild: nat)
    requires i < |Succ(g, v)| && IndexOk(s0)
    requires Visiting(g, s0, s, v, low, i)
    requires lowChild < low && LowWitness(g, s, Succ(g, v)[i], lowChild)
    ensures LowWitness(g, s0, v, lowChild)
  {
    var u := Succ(g, v)[i];
    ReachesEdge(g, v, u);
    var w :| w in s.stacked && w in s.index && s.index[w] == lowChild && Reaches(g, u, w);
    ReachesTrans(g, v, u, w);
    assert w in s0.index;
  }

  lemma AfterSeen(g: Edges, s0: View, s: View, v: Id, low: nat, i: nat)
    requires i < |Succ(g, v)| && IndexOk(s0)
    requires Visiting(g, s0, s, v, low, i)
    requires Succ(g, v)[i] in s.index
    ensures var u := Succ(g, v)[i];
            var low' := if u in s.stacked then Min(low, s.index[u]) else low;
            Visiting(g, s0, s, v, low', i + 1)
  {
    var u := Succ(g, v)[i];
    if u in s.stacked && s.index[u] < low {
      assert u in s0.stacked;
      ReachesEdge(g, v, u);
      assert LowWitness(g, s0, v, s.index[u]);
    }
  }

  lemma SettledTargets(g: Edges, s0: View, s: View, gray: set<Id>, v: Id, low: nat)
    requires Inv(g, s0, gray)
    requires Inv(g, s, gray + {v}) && Visiting(g, s0, s, v, low, |Succ(g, v)|)
    ensures Explored(g, s, gray)
    ensures forall w :: w in Succ(g, v) ==> w in s.index && (w in s0.stacked ==> low <= s0.index[w])
  {
  }

  /** The visit returns with `v` still on the stack. */
  lemma Retreat(g: Edges, s0: View, s: View, gray: set<Id>, v: Id, low: nat)
    requires Inv(g, s0, gray)
    requires Inv(g, s, gray + {v}) && Visiting(g, s0, s, v, low, |Succ(g, v)|)
    requires low != s.index[v]
    ensures Inv(g, s, gray) && Visited(g, s0, s, v, low)
  {
    SettledTargets(g, s0, s, gray, v, low);
    assert Visited(g, s0, s, v, low);
    RetreatGray(g, s0, s, gray, v, low);
  }

  lemma RetreatGray(g: Edges, s0: View, s: View, gray: set<Id>, v: Id, low: nat)
    requires Continues(s0, s) && low < s0.next && LowWitness(g, s0, v, low)
    requires v in s.index && s.index[v] == s0.next
    requires forall w {:trigger ReachesGray(g, s0, gray, w)} :: w in s0.stacked ==> ReachesGray(g, s0, gray, w)
    requires forall y {:trigger ReachesGray(g, s, gray + {v}, y)} :: y in s.stacked ==> ReachesGray(g, s, gray + {v}, y)
    ensures forall y {:trigger ReachesGray(g, s, gray, y)} :: y in s.stacked ==> ReachesGray(g, s, gray, y)
  {
    var w :| w in s0.stacked && w in s0.index && s0.index[w] == low && Reaches(g, v, w);
    assert ReachesGray(g, s0, gray, w);
    forall y | y in s.stacked
      ensures ReachesGray(g, s, gray, y)
    {
      assert ReachesGray(g, s, gray + {v}, y);
      GrayBelow(g, s0, s, gray, v, w, y);
    }
  }

  lemma GrayBelow(g: Edges, s0: View, s: View, gray: set<Id>, v: Id, w: Id, y: Id)
    requires w in s0.index && ReachesGray(g, s0, gray, w) && Continues(s0, s) && ReachesGray(g, s, gray + {v}, y)
    requires v in s.index && s0.index[w] < s.index[v] && Reaches(g, v, w)
    ensures ReachesGray(g, s, gray, y)
  {
    var z :| z in gray + {v} && z in s.index && s.index[z] <= s.index[y] && Reaches(g, y, z);
    if z !in gray {
      var x :| x in gray && x in s0.index && s0.index[x] <= s0.index[w] && Reaches(g, w, x);
      ReachesTrans(g, v, w, x);
      ReachesTrans(g, y, v, x);
    }
  }

  ghost predicate StronglyLinked(g: Edges, c: set<Id>) {
    forall a, b :: a in c && b in c ==> Reaches(g, a, b)
  }

  /** The visit pops `v` and everything stacked since: one strongly linked component. */
  lemma Emit(g: Edges, s0: View, s: View, gray: set<Id>, v: Id, low: nat)
    requires Inv(g, s0, gray)
    requires Inv(g, s, gray + {v}) && Visiting(g, s0, s, v, low, |Succ(g, v)|)
    requires forall x :: x in gray ==> Reaches(g, x, v)
    requires low == s.index[v]
    ensures var c := s.stacked - s0.stacked;
            var s' := View(s.next, s.index, s0.stacked, s.done + c);
            v in c && StronglyLinked(g, c) && Inv(g, s', gray) && Visited(g, s0, s', v, low)
  {
    var c := s.stacked - s0.stacked;
    var s' := View(s.next, s.index, s0.stacked, s.done + c);
    SettledTargets(g, s0, s, gray, v, low);
    PopLinked(g, s0, s, gray, v, low);
    PopClosed(g, s0, s, gray, v, low);
    forall y | y in s0.stacked
      ensures ReachesGray(g, s', gray, y)
    {
      assert ReachesGray(g, s0, gray, y);
      KeepsGray(g, s0, s', gray, y);
    }
  }

  lemma KeepsGray(g: Edges, s0: View, s: View, gray: set<Id>, y: Id)
    requires ReachesGray(g, s0, gray, y)
    requires forall v :: v in s0.index ==> v in s.index && s.index[v] == s0.index[v]
    ensures ReachesGray(g, s, gray, y)
  {
  }

  lemma PopClosed(g: Edges, s0: View, s: View, gray: set<Id>, v: Id, low: nat)
    requires IndexOk(s0) && gray <= s0.stacked && Closed(g, s.done)
    requires Visiting(g, s0, s, v, low, |Succ(g, v)|) && Explored(g, s, gray)
    requires low == s.index[v]
    requires forall w :: w in Succ(g, v) ==> w in s.index && (w in s0.stacked ==> low <= s0.index[w])
    ensures Closed(g, s.done + (s.stacked - s0.stacked))
  {
  }

  lemma PopLinked(g: Edges, s0: View, s: View, gray: set<Id>, v: Id, low: nat)
    requires Inv(g, s0, gray)
    requires Inv(g, s, gray + {v}) && Visiting(g, s0, s, v, low, |Succ(g, v)|)
    requires forall x :: x in gray ==> Reaches(g, x, v)
    ensures StronglyLinked(g, s.stacked - s0.stacked)
  {
    ReachesSelf(g, v);
    forall a, b | a in s.stacked - s0.stacked && b in s.stacked - s0.stacked
      ensures Reaches(g, a, b)
    {
      assert ReachesGray(g, s, gray + {v}, a);
      var x :| x in gray + {v} && Reaches(g, a, x);
      ReachesTrans(g, a, x, v);
      assert Reaches(g, v, b);
      ReachesTrans(g, a, v, b);
    }
  }

  // -------------------------------------------------------------- The search

  ghost function Members(c: seq<Id>): set<Id> {
    set v | v in c
  }

  ghost predicate Distinct(c: seq<Id>) {
    forall i, j :: 0 <= i < j < |c| ==> c[i] != c[j]
  }

  /** Members of the first components, in emission order. */
  ghost function Done(comps: seq<seq<Id>>): set<Id> {
    if comps == [] then {} else Done(comps[..|comps| - 1]) + Members(comps[|comps| - 1])
  }

  /** Each component is strongly linked and new, and each emission leaves a closed set. */
  ghost predicate CompsOk(g: Edges, comps: seq<seq<Id>>) {
    comps == [] || (
      var init, last := comps[..|comps| - 1], comps[|comps| - 1];
      && CompsOk(g, init)
      && last != [] && Distinct(last) && StronglyLinked(g, Members(last))
      && Members(last) !! Done(init)
      && Closed(g, Done(comps)))
  }

  lemma InvIndex(g: Edges, s: View, gray: set<Id>)
    requires Inv(g, s, gray)
    ensures IndexOk(s) && Closed(g, s.done)
  {
  }

  lemma VisitingIndex(g: Edges, s0: View, s: View, v: Id, low: nat, i: nat)
    requires i <= |Succ(g, v)| && Visiting(g, s0, s, v, low, i)
    ensures v in s.index && s.index[v] == s0.next
  {
  }

  lemma OrderedPrefix(stack: seq<Id>, index: map<Id, nat>, below: seq<Id>)
    requires Ordered(stack, index) && below <= stack
    ensures Ordered(below, index)
    ensures forall i, j :: 0 <= i < j < |stack| ==> stack[i] != stack[j]
  {
    forall i, j | 0 <= i < j < |below|
      ensures below[i] in index && below[j] in index && index[below[i]] < index[below[j]]
    {
      var a, b := stack[i], stack[j];
      assert below[i] == a && below[j] == b;
    }
    forall i, j | 0 <= i < j < |stack|
      ensures stack[i] != stack[j]
    {
      var a, b := stack[i], stack[j];
      assert index[a] < index[b];
    }
  }

  lemma Emitted(g: Edges, comps: seq<seq<Id>>, c: seq<Id>)
    requires CompsOk(g, comps) && c != [] && Distinct(c) && StronglyLinked(g, Members(c))
    requires Members(c) !! Done(comps) && Closed(g, Done(comps) + Members(c))
    ensures CompsOk(g, comps + [c]) && Done(comps + [c]) == Done(comps) + Members(c)
  {
    hide StronglyLinked, Closed, Distinct, Done;
    var more := comps + [c];
    assert more[..|more| - 1] == comps && more[|more| - 1] == c;
    DoneSnoc(comps, c);
  }

  lemma DoneSnoc(comps: seq<seq<Id>>, c: seq<Id>)
    ensures Done(comps + [c]) == Done(comps) + Members(c)
  {
    assert (comps + [c])[..|comps + [c]| - 1] == comps;
  }

  ghost predicate Ordered(stack: seq<Id>, index: map<Id, nat>) {
    forall i, j {:trigger stack[i], stack[j]} :: 0 <= i < j < |stack| ==>
      stack[i] in index && stack[j] in index && index[stack[i]] < index[stack[j]]
  }

  class Search {
    const targets: Edges
    var nextIndex: nat
    var indexByAgentId: map<Id, nat>
    var lowLinkByAgentId: map<Id, nat>
    var stack: seq<Id>
    var stacked: set<Id>
    var components: seq<seq<Id>>

    ghost function Snapshot(): View
      reads this
    {
      View(nextIndex, indexByAgentId, stacked, Done(components))
    }

    ghost predicate Valid()
      reads this
    {
      && CompsOk(targets, components)
      && Ordered(stack, indexByAgentId)
      && stacked == Members(stack)
      && lowLinkByAgentId.Keys == indexByAgentId.Keys
    }

    constructor (targets: Edges)
      ensures this.targets == targets && Valid() && Inv(targets, Snapshot(), {})
      ensures indexByAgentId == map[] && components == [] && stack == []
    {
      this.targets := targets;
      nextIndex, indexByAgentId, lowLinkByAgentId := 0, map[], map[];
      stack, stacked, components := [], {}, [];
    }

    /** Explores `agentId`; `gray` are the visits still running and `universe` bounds the graph. */
    method Visit(agentId: Id, ghost gray: set<Id>, ghost universe: set<Id>)
      requires Valid() && Inv(targets, Snapshot(), gray) && agentId !in indexByAgentId
      requires Closed(targets, universe) && agentId in universe && indexByAgentId.Keys <= universe
      requires forall x :: x in gray ==> Reaches(targets, x, agentId)
      modifies this
      ensures Valid() && Inv(targets, Snapshot(), gray) && indexByAgentId.Keys <= universe
      ensures agentId in lowLinkByAgentId
      ensures Visited(targets, old(Snapshot()), Snapshot(), agentId, lowLinkByAgentId[agentId])
      ensures forall v :: v in old(lowLinkByAgentId) ==>
                v in lowLinkByAgentId && lowLinkByAgentId[v] == old(lowLinkByAgentId[v])
      ensures old(stack) <= stack
      decreases universe - indexByAgentId.Keys, 0
    {
      hide CompsOk, Done, Inv, Visiting, Visited, Reaches;
      ghost var s0, stack0, lows := Snapshot(), stack, lowLinkByAgentId;
      InvIndex(targets, s0, gray);
      var index := Enter(agentId, gray);
      var ts := Succ(targets, agentId);
      for i := 0 to |ts|
        invariant Valid() && Inv(targets, Snapshot(), gray + {agentId}) && indexByAgentId.Keys <= universe
        invariant stack0 + [agentId] <= stack && agentId in indexByAgentId
        invariant Visiting(targets, s0, Snapshot(), agentId, lowLinkByAgentId[agentId], i)
        invariant forall v :: v in lows ==> v in lowLinkByAgentId && lowLinkByAgentId[v] == lows[v]
      {
        Follow(agentId, i, gray, s0, universe);
      }
      VisitingIndex(targets, s0, Snapshot(), agentId, lowLinkByAgentId[agentId], |ts|);
      Leave(agentId, index, gray, s0, stack0);
    }

    method Enter(agentId: Id, ghost gray: set<Id>) returns (index: nat)
      requires Valid() && Inv(targets, Snapshot(), gray) && agentId !in indexByAgentId
      requires forall x :: x in gray ==> Reaches(targets, x, agentId)
      modifies this
      ensures Valid() && Inv(targets, Snapshot(), gray + {agentId})
      ensures index == old(nextIndex) && indexByAgentId == old(indexByAgentId)[agentId := index]
      ensures lowLinkByAgentId == old(lowLinkByAgentId)[agentId := index] && stack == old(stack) + [agentId]
      ensures Visiting(targets, old(Snapshot()), Snapshot(), agentId, index, 0)
    {
      hide CompsOk, Done, Inv, Visiting, Reaches;
      InvIndex(targets, Snapshot(), gray);
      Push(targets, Snapshot(), gray, agentId);
      index := nextIndex;
      nextIndex := nextIndex + 1;
      indexByAgentId := indexByAgentId[agentId := index];
      lowLinkByAgentId := lowLinkByAgentId[agentId := index];
      stack := stack + [agentId];
      stacked := stacked + {agentId};
    }

    /** One iteration of the source's loop over the targets of `agentId`. */
    method Follow(agentId: Id, i: nat, ghost gray: set<Id>, ghost s0: View, ghost universe: set<Id>)
      requires i < |Succ(targets, agentId)|
      requires Valid() && Inv(targets, Snapshot(), gray + {agentId}) && IndexOk(s0)
      requires agentId in indexByAgentId && Visiting(targets, s0, Snapshot(), agentId, lowLinkByAgentId[agentId], i)
      requires Closed(targets, universe) && agentId in universe && indexByAgentId.Keys <= universe
      requires forall x :: x in gray ==> Reaches(targets, x, agentId)
      modifies this
      ensures Valid() && Inv(targets, Snapshot(), gray + {agentId}) && indexByAgentId.Keys <= universe
      ensures agentId in indexByAgentId && Visiting(targets, s0, Snapshot(), agentId, lowLinkByAgentId[agentId], i + 1)
      ensures forall v :: v in old(lowLinkByAgentId) && v != agentId ==>
                v in lowLinkByAgentId && lowLinkByAgentId[v] == old(lowLinkByAgentId[v])
      ensures old(stack) <= stack
      decreases universe - indexByAgentId.Keys, 1
    {
      hide CompsOk, Done, Inv, Visiting, Visited, Reaches, IndexOk, Ordered, Succ;
      var target := Succ(targets, agentId)[i];
      ghost var s, low := Snapshot(), lowLinkByAgentId[agentId];
      if target !in indexByAgentId {
        GrayReach(targets, gray, agentId, target);
        Visit(target, gray + {agentId}, universe);
        InvIndex(targets, Snapshot(), gray + {agentId});
        AfterChild(targets, s0, s, Snapshot(), agentId, low, i, lowLinkByAgentId[target]);
        lowLinkByAgentId := lowLinkByAgentId[agentId := Min(lowLinkByAgentId[agentId], lowLinkByAgentId[target])];
      } else {
        AfterSeen(targets, s0, s, agentId, low, i);
        if target in stacked {
          lowLinkByAgentId := lowLinkByAgentId[agentId := Min(lowLinkByAgentId[agentId], indexByAgentId[target])];
        }
      }
    }

    method Leave(agentId: Id, index: nat, ghost gray: set<Id>, ghost s0: View, ghost stack0: seq<Id>)
      requires Valid() && Inv(targets, Snapshot(), gray + {agentId}) && Inv(targets, s0, gray)
      requires agentId in indexByAgentId && index == indexByAgentId[agentId]
      requires Visiting(targets, s0, Snapshot(), agentId, lowLinkByAgentId[agentId], |Succ(targets, agentId)|)
      requires stack0 + [agentId] <= stack && s0.stacked == Members(stack0)
      requires forall x :: x in gray ==> Reaches(targets, x, agentId)
      modifies this
      ensures Valid() && Inv(targets, Snapshot(), gray) && stack0 <= stack
      ensures indexByAgentId == old(indexByAgentId) && lowLinkByAgentId == old(lowLinkByAgentId)
      ensures Visited(targets, s0, Snapshot(), agentId, lowLinkByAgentId[agentId])
    {
      hide CompsOk, Done, Inv, Visiting, Visited, Reaches, StronglyLinked;
      ghost var s, comps := Snapshot(), components;
      if lowLinkByAgentId[agentId] != index {
        Retreat(targets, s0, s, gray, agentId, lowLinkByAgentId[agentId]);
        return;
      }
      Emit(targets, s0, s, gray, agentId, index);
      InvIndex(targets, s, gray + {agentId});
      InvIndex(targets, View(s.next, s.index, s0.stacked, s.done + (s.stacked - s0.stacked)), gray);
      var component := PopComponent(agentId, stack0);
      Emitted(targets, components, component);
      components := components + [component];
    }

    /** Pops everything stacked since `below`, ending with `agentId`. */
    method PopComponent(agentId: Id, ghost below: seq<Id>) returns (component: seq<Id>)
      requires below + [agentId] <= stack && Ordered(stack, indexByAgentId) && stacked == Members(stack)
      modifies this`stack, this`stacked
      ensures stack == below && stacked == Members(below) && Ordered(below, indexByAgentId)
      ensures component != [] && Distinct(component) && Members(component) == old(stacked) - Members(below)
    {
      component := [];
      ghost var before := stack;
      OrderedPrefix(stack, indexByAgentId, below);
      assert before[|below|] == agentId;
      while |stack| > 0
        invariant |below| < |stack| <= |before| && stack == before[..|stack|]
        invariant stacked == Members(stack)
        invariant |component| == |before| - |stack|
        invariant forall k :: 0 <= k < |component| ==> component[k] == before[|before| - 1 - k]
      {
        var member := stack[|stack| - 1];
        stack := stack[..|stack| - 1];
        stacked := stacked - {member};
        component := component + [member];
        assert member == before[|stack|];
        if member == agentId {
          assert |stack| == |below|;
          break;
        }
      }
      assert before[..|below|] == below;
      Reversal(before, |below|, component);
    }
  }

  lemma GrayReach(g: Edges, gray: set<Id>, v: Id, u: Id)
    requires u in Succ(g, v) && forall x :: x in gray ==> Reaches(g, x, v)
    ensures forall x :: x in gray + {v} ==> Reaches(g, x, u)
  {
    ReachesEdge(g, v, u);
    forall x | x in gray
      ensures Reaches(g, x, u)
    {
      ReachesTrans(g, x, v, u);
    }
  }

  lemma Reversal(before: seq<Id>, n: nat, c: seq<Id>)
    requires n < |before| && |c| == |before| - n && forall i, j :: 0 <= i < j < |before| ==> before[i] != before[j]
    requires forall k :: 0 <= k < |c| ==> c[k] == before[|before| - 1 - k]
    ensures Distinct(c) && Members(c) == Members(before) - Members(before[..n])
  {
    forall k | n <= k < |before|
      ensures before[k] in c
    {
      assert c[|before| - 1 - k] == before[k];
    }
  }

  // ---------------------------------------------------------------- Result

  ghost predicate Mutual(g: Edges, a: Id, b: Id) {
    Reaches(g, a, b) && Reaches(g, b, a)
  }

  ghost predicate FromRoots(g: Edges, roots: seq<Id>, v: Id) {
    exists r :: r in roots && Reaches(g, r, v)
  }

  /**
   * The strongly connected components of everything reachable from `roots`:
   * nonempty, pairwise disjoint, covering, and equal to mutual reachability.
   */
  ghost predicate AreComponents(g: Edges, roots: seq<Id>, comps: seq<seq<Id>>) {
    && (forall c :: c in comps ==> c != [] && Distinct(c))
    && (forall i, j :: 0 <= i < j < |comps| ==> Members(comps[i]) !! Members(comps[j]))
    && (forall v {:trigger FromRoots(g, roots, v)} :: FromRoots(g, roots, v) <==> exists c :: c in comps && v in c)
    && (forall c, a, b :: c in comps && a in c ==> (b in c <==> Mutual(g, a, b)))
  }

  lemma {:induction false} PrefixOk(g: Edges, comps: seq<seq<Id>>, n: nat)
    requires CompsOk(g, comps) && n <= |comps|
    ensures CompsOk(g, comps[..n])
    decreases |comps|
  {
    if n == |comps| {
      assert comps[..n] == comps;
    } else {
      var init := comps[..|comps| - 1];
      PrefixOk(g, init, n);
      assert init[..n] == comps[..n];
    }
  }

  lemma {:induction false} DoneIff(comps: seq<seq<Id>>, v: Id)
    ensures v in Done(comps) <==> exists c :: c in comps && v in c
  {
    if comps != [] {
      var init, last := comps[..|comps| - 1], comps[|comps| - 1];
      DoneIff(init, v);
      assert comps == init + [last];
    }
  }

  lemma SplitAt(g: Edges, comps: seq<seq<Id>>, i: nat)
    requires CompsOk(g, comps) && i < |comps|
    ensures var pre, c := comps[..i], comps[i];
            && c != [] && Distinct(c) && StronglyLinked(g, Members(c))
            && Members(c) !! Done(pre)
            && (Closed(g, Done(pre))) && Closed(g, Done(pre) + Members(c))
  {
    PrefixOk(g, comps, i);
    PrefixOk(g, comps, i + 1);
    assert comps[..i + 1][..i] == comps[..i];
  }

  lemma MutualMember(g: Edges, comps: seq<seq<Id>>, i: nat, a: Id, b: Id)
    requires CompsOk(g, comps) && i < |comps| && a in comps[i]
    ensures b in comps[i] <==> Mutual(g, a, b)
  {
    SplitAt(g, comps, i);
    var pre, c := comps[..i], comps[i];
    if b in c {
      assert a in Members(c) && b in Members(c);
    } else if Mutual(g, a, b) {
      ClosedReaches(g, Done(pre) + Members(c), a, b);
      ClosedReaches(g, Done(pre), b, a);
    }
  }

  lemma EmittedAreComponents(g: Edges, roots: seq<Id>, comps: seq<seq<Id>>)
    requires CompsOk(g, comps) && Closed(g, Done(comps))
    requires forall r :: r in roots ==> r in Done(comps)
    requires forall v :: v in Done(comps) ==> FromRoots(g, roots, v)
    ensures AreComponents(g, roots, comps)
  {
    forall i | 0 <= i < |comps|
      ensures comps[i] != [] && Distinct(comps[i])
    {
      SplitAt(g, comps, i);
    }
    forall i, j | 0 <= i < j < |comps|
      ensures Members(comps[i]) !! Members(comps[j])
    {
      SplitAt(g, comps, j);
      forall v | v in comps[i]
        ensures v in Done(comps[..j])
      {
        DoneIff(comps[..j], v);
        assert comps[..j][i] == comps[i];
      }
    }
    forall v
      ensures FromRoots(g, roots, v) <==> exists c :: c in comps && v in c
    {
      DoneIff(comps, v);
      if FromRoots(g, roots, v) {
        var r :| r in roots && Reaches(g, r, v);
        ClosedReaches(g, Done(comps), r, v);
      }
    }
    forall c, a, b | c in comps && a in c
      ensures b in c <==> Mutual(g, a, b)
    {
      var i :| 0 <= i < |comps| && comps[i] == c;
      MutualMember(g, comps, i, a, b);
    }
  }

  ghost function Reachable(g: Edges, roots: seq<Id>): (u: set<Id>)
    ensures Closed(g, u) && forall v :: v in u <==> FromRoots(g, roots, v)
  {
    var u := set v | v in Universe(g, roots) && FromRoots(g, roots, v);
    assert Closed(g, u) && forall v {:trigger FromRoots(g, roots, v)} :: FromRoots(g, roots, v) ==> v in u by {
      ReachableClosed(g, roots);
    }
    u
  }

  lemma ReachableClosed(g: Edges, roots: seq<Id>)
    ensures forall v {:trigger FromRoots(g, roots, v)} :: FromRoots(g, roots, v) ==> v in Universe(g, roots)
    ensures forall v, w :: FromRoots(g, roots, v) && w in Succ(g, v) ==> FromRoots(g, roots, w)
  {
    forall v | FromRoots(g, roots, v)
      ensures v in Universe(g, roots)
    {
      var r :| r in roots && Reaches(g, r, v);
      ClosedReaches(g, Universe(g, roots), r, v);
    }
    forall v, w | FromRoots(g, roots, v) && w in Succ(g, v)
      ensures FromRoots(g, roots, w)
    {
      var r :| r in roots && Reaches(g, r, v);
      ReachesEdge(g, v, w);
      ReachesTrans(g, r, v, w);
    }
  }

  lemma NothingStacked(g: Edges, s: View)
    requires Inv(g, s, {})
    ensures s.index.Keys == s.done
  {
    forall v
      ensures v !in s.stacked
    {
      var gray := ReachesGray(g, s, {}, v);
    }
  }

  method StronglyConnectedComponents(agentIds: seq<Id>, targetsByAgentId: Edges) returns (components: seq<seq<Id>>)
    ensures AreComponents(targetsByAgentId, agentIds, components)
  {
    hide CompsOk, Done, Inv, Visited, Closed, Reaches;
    ghost var universe := Reachable(targetsByAgentId, agentIds);
    var search := new Search(targetsByAgentId);
    for i := 0 to |agentIds|
      invariant search.targets == targetsByAgentId && search.Valid() && Inv(targetsByAgentId, search.Snapshot(), {})
      invariant search.indexByAgentId.Keys <= universe
      invariant forall j :: 0 <= j < i ==> agentIds[j] in search.indexByAgentId
    {
      if agentIds[i] !in search.indexByAgentId {
        ReachesSelf(targetsByAgentId, agentIds[i]);
        assert FromRoots(targetsByAgentId, agentIds, agentIds[i]);
        label before:
        search.Visit(agentIds[i], {}, universe);
        VisitedGrows(targetsByAgentId, old@before(search.Snapshot()), search.Snapshot(), agentIds[i],
            search.lowLinkByAgentId[agentIds[i]]);
      }
    }
    components := search.components;
    NothingStacked(targetsByAgentId, search.Snapshot());
    InvIndex(targetsByAgentId, search.Snapshot(), {});
    EmittedAreComponents(targetsByAgentId, agentIds, components);
  }

  lemma VisitedGrows(g: Edges, s0: View, s1: View, v: Id, low: nat)
    requires Visited(g, s0, s1, v, low)
    ensures s0.index.Keys <= s1.index.Keys && v in s1.index
  {
  }
}
