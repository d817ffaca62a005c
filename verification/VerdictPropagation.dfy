/**
 * Combining dependencies: a stalled Agent takes the best verdict it can reach
 * (src/coordination/progress-verdict.ts:99-130).
 */
module VerdictPropagation {
  import opened Digraph
  import opened ProgressFacts

  type Verdicts = map<Id, Verdict>

  /** A verdict as a progress source; unknown and inactive targets are none. */
  function AsDependency(verdicts: Verdicts, id: Id): Verdict {
    if id !in verdicts || verdicts[id] == Inactive then Stalled else verdicts[id]
  }

  function Rank(v: Verdict): nat {
    match v
    case Progressing => 2
    case Waiting => 1
    case _ => 0
  }

  predicate IsDependent(local: Verdicts, f: Facts) {
    f.agentId in local && local[f.agentId] == Stalled
  }

  function Best(verdicts: Verdicts, requests: seq<Request>, current: Verdict): (best: Verdict)
    ensures Rank(best) >= Rank(current)
    ensures forall q :: q in requests ==> Rank(best) >= Rank(AsDependency(verdicts, q.targetAgentId))
    ensures best == current || exists q :: q in requests && best == AsDependency(verdicts, q.targetAgentId)
    ensures best != current ==> Rank(best) > Rank(current)
  {
    if requests == [] then current
    else
      var left := Best(verdicts, requests[..|requests| - 1], current);
      var right := AsDependency(verdicts, requests[|requests| - 1].targetAgentId);
      assert requests == requests[..|requests| - 1] + [requests[|requests| - 1]];
      if Rank(right) > Rank(left) then right else left
  }

  // --------------------------------------------------------- Specification

  ghost function StalledIds(local: Verdicts): set<Id> {
    set id | id in local && local[id] == Stalled
  }

  /** Dependencies that may be followed: Requests of locally stalled Agents. */
  ghost function StallGraph(agents: seq<Facts>, local: Verdicts): Edges {
    GraphOf(SentBy(AllRequests(agents), StalledIds(local)))
  }

  /** `verdict` is the best local verdict that `a` reaches through locally stalled Agents. */
  ghost predicate IsBestReachable(g: Edges, local: Verdicts, a: Id, verdict: Verdict) {
    && (exists b :: Reaches(g, a, b) && AsDependency(local, b) == verdict)
    && (forall b :: Reaches(g, a, b) ==> Rank(AsDependency(local, b)) <= Rank(verdict))
  }

  /** The whole result: only stalled Agents change, each to its best reachable verdict. */
  ghost predicate Combined(agents: seq<Facts>, local: Verdicts, verdicts: Verdicts) {
    && verdicts.Keys == local.Keys
    && (forall id :: id in local && local[id] != Stalled ==> verdicts[id] == local[id])
    && (forall f :: f in agents && IsDependent(local, f) ==>
          f.agentId in verdicts && IsBestReachable(StallGraph(agents, local), local, f.agentId, verdicts[f.agentId]))
  }

  // ------------------------------------------------------------- Invariant

  ghost predicate Witnessed(g: Edges, local: Verdicts, verdicts: Verdicts, id: Id) {
    exists b :: Reaches(g, id, b) && AsDependency(local, b) == AsDependency(verdicts, id)
  }

  ghost predicate Sound(g: Edges, local: Verdicts, verdicts: Verdicts) {
    && verdicts.Keys == local.Keys
    && (forall id :: id in local && local[id] != Stalled ==> verdicts[id] == local[id])
    && (forall id :: id in local && local[id] == Stalled ==> verdicts[id] != Inactive)
    && (forall id {:trigger Witnessed(g, local, verdicts, id)} :: Witnessed(g, local, verdicts, id))
  }

  /** No edge of `f` leads to a better verdict any more. */
  ghost predicate Stable(verdicts: Verdicts, f: Facts) {
    forall q :: q in f.unansweredRequests ==>
        Rank(AsDependency(verdicts, q.targetAgentId)) <= Rank(AsDependency(verdicts, f.agentId))
  }

  lemma DependencyEdge(agents: seq<Facts>, local: Verdicts, f: Facts, q: Request)
    requires f in agents && IsDependent(local, f) && q in f.unansweredRequests
    ensures q.targetAgentId in Succ(StallGraph(agents, local), f.agentId)
  {
    var e := Edge(q.requestId, f.agentId, q.targetAgentId);
    assert e in RequestsOf(f);
    assert e in SentBy(AllRequests(agents), StalledIds(local));
  }

  lemma RaiseSound(agents: seq<Facts>, local: Verdicts, verdicts: Verdicts, f: Facts, best: Verdict)
    requires Sound(StallGraph(agents, local), local, verdicts) && f in agents && IsDependent(local, f)
    requires best == Best(verdicts, f.unansweredRequests, AsDependency(verdicts, f.agentId)) != AsDependency(verdicts,
               f.agentId)
    ensures Sound(StallGraph(agents, local), local, verdicts[f.agentId := best])
  {
    hide Reaches, StallGraph;
    var g := StallGraph(agents, local);
    var verdicts' := verdicts[f.agentId := best];
    forall id
      ensures Witnessed(g, local, verdicts', id)
    {
      if id == f.agentId {
        var q :| q in f.unansweredRequests && best == AsDependency(verdicts, q.targetAgentId);
        assert Witnessed(g, local, verdicts, q.targetAgentId);
        var b :| Reaches(g, q.targetAgentId, b) && AsDependency(local, b) == AsDependency(verdicts, q.targetAgentId);
        DependencyEdge(agents, local, f, q);
        ReachesEdge(g, id, q.targetAgentId);
        ReachesTrans(g, id, q.targetAgentId, b);
      } else {
        assert Witnessed(g, local, verdicts, id);
      }
    }
  }

  lemma {:induction false} NoBetterAhead(agents: seq<Facts>, local: Verdicts, verdicts: Verdicts, p: seq<Id>)
    requires IsPath(StallGraph(agents, local), p)
    requires forall f :: f in agents && IsDependent(local, f) ==> Stable(verdicts, f)
    ensures Rank(AsDependency(verdicts, p[|p| - 1])) <= Rank(AsDependency(verdicts, p[0]))
    decreases |p|
  {
    if |p| > 1 {
      var q := p[..|p| - 1];
      NoBetterAhead(agents, local, verdicts, q);
      var a, b := p[|p| - 2], p[|p| - 1];
      assert b in Succ(StallGraph(agents, local), a);
      var e :| e in SentBy(AllRequests(agents), StalledIds(local)) && e.fromAgentId == a && e.targetAgentId == b;
      var f :| f in agents && e in RequestsOf(f);
      assert Stable(verdicts, f);
    }
  }

  lemma FixedPointCombined(agents: seq<Facts>, local: Verdicts, verdicts: Verdicts)
    requires Sound(StallGraph(agents, local), local, verdicts)
    requires forall f :: f in agents && IsDependent(local, f) ==> Stable(verdicts, f)
    ensures Combined(agents, local, verdicts)
  {
    var g := StallGraph(agents, local);
    forall f | f in agents && IsDependent(local, f)
      ensures IsBestReachable(g, local, f.agentId, verdicts[f.agentId])
    {
      assert Witnessed(g, local, verdicts, f.agentId);
      forall b | Reaches(g, f.agentId, b)
        ensures Rank(AsDependency(local, b)) <= Rank(verdicts[f.agentId])
      {
        var p :| IsPath(g, p) && p[0] == f.agentId && p[|p| - 1] == b;
        NoBetterAhead(agents, local, verdicts, p);
      }
    }
  }

  // ------------------------------------------------------------ Termination

  /** Stalled Agents whose current verdict ranks below `r`. */
  ghost function Below(local: Verdicts, verdicts: Verdicts, r: nat): set<Id> {
    set id | id in local && local[id] == Stalled && Rank(AsDependency(verdicts, id)) < r
  }

  ghost function Room(local: Verdicts, verdicts: Verdicts): nat {
    |Below(local, verdicts, 1)| + |Below(local, verdicts, 2)|
  }

  lemma RaiseUsesRoom(local: Verdicts, verdicts: Verdicts, id: Id, best: Verdict)
    requires id in local && local[id] == Stalled && id in verdicts
    requires best != Inactive && Rank(best) > Rank(AsDependency(verdicts, id))
    ensures Room(local, verdicts[id := best]) < Room(local, verdicts)
  {
    var v' := verdicts[id := best];
    forall r | r == 1 || r == 2
      ensures Below(local, v', r) <= Below(local, verdicts, r) && |Below(local, v', r)| <= |Below(local, verdicts, r)|
      ensures Rank(AsDependency(verdicts, id)) < r <= Rank(best) ==> |Below(local, v', r)| < |Below(local, verdicts, r)|
    {
      var A, B := Below(local, v', r), Below(local, verdicts, r);
      assert A <= B;
      SubsetSize(A, B);
      if Rank(AsDependency(verdicts, id)) < r <= Rank(best) {
        assert id in B && id !in A;
        SubsetSize(A, B - {id});
      }
    }
  }

  lemma {:induction false} SubsetSize<T>(a: set<T>, b: set<T>)
    requires a <= b
    ensures |a| <= |b|
    decreases a
  {
    if x :| x in a {
      SubsetSize(a - {x}, b - {x});
    }
  }

  method CombineDependencies(agents: seq<Facts>, local: Verdicts) returns (verdicts: Verdicts)
    ensures Combined(agents, local, verdicts)
  {
    hide StallGraph, Witnessed, Combined;
    verdicts := local;
    InitiallySound(agents, local);
    var changed := true;
    while changed
      invariant Sound(StallGraph(agents, local), local, verdicts)
      invariant !changed ==> forall f :: f in agents && IsDependent(local, f) ==> Stable(verdicts, f)
      decreases Room(local, verdicts), changed
    {
      changed := false;
      ghost var before := verdicts;
      for i := 0 to |agents|
        invariant Sound(StallGraph(agents, local), local, verdicts)
        invariant if changed then Room(local, verdicts) < Room(local, before) else verdicts == before
        invariant !changed ==> forall k :: 0 <= k < i && IsDependent(local, agents[k]) ==> Stable(verdicts, agents[k])
      {
        var f := agents[i];
        if IsDependent(local, f) {
          var current := AsDependency(verdicts, f.agentId);
          var best := Best(verdicts, f.unansweredRequests, current);
          if best != current {
            RaiseSound(agents, local, verdicts, f, best);
            RaiseUsesRoom(local, verdicts, f.agentId, best);
            verdicts := verdicts[f.agentId := best];
            changed := true;
          }
        }
      }
    }
    FixedPointCombined(agents, local, verdicts);
  }

  lemma InitiallySound(agents: seq<Facts>, local: Verdicts)
    ensures Sound(StallGraph(agents, local), local, local)
  {
    var g := StallGraph(agents, local);
    forall id
      ensures Witnessed(g, local, local, id)
    {
      ReachesSelf(g, id);
    }
  }

  /** A final verdict is Progressing only if a reachable local one is. */
  lemma ProgressComesFromSomewhere(agents: seq<Facts>, local: Verdicts, verdicts: Verdicts, id: Id)
    requires Combined(agents, local, verdicts) && UniqueIds(agents) && local == LocalVerdicts(agents)
    requires id in verdicts && verdicts[id] == Progressing
    ensures exists b :: b in local && local[b] == Progressing && Reaches(StallGraph(agents, local), id, b)
  {
    ReachesSelf(StallGraph(agents, local), id);
    if local[id] == Stalled {
      var f :| f in agents && f.agentId == id;
      assert IsBestReachable(StallGraph(agents, local), local, id, verdicts[id]);
    }
  }

  /** The result does not depend on the order, or repetition, of snapshot entries. */
  lemma OrderIrrelevant(agents: seq<Facts>, agents': seq<Facts>, local: Verdicts, v: Verdicts, v': Verdicts, f: Facts)
    requires forall h :: h in agents <==> h in agents'
    requires Combined(agents, local, v) && Combined(agents', local, v')
    requires f in agents && f.agentId in local
    ensures v[f.agentId] == v'[f.agentId]
  {
    var g, g' := StallGraph(agents, local), StallGraph(agents', local);
    assert forall a, b :: b in Succ(g, a) <==> b in Succ(g', a);
    if IsDependent(local, f) {
      var b :| Reaches(g, f.agentId, b) && AsDependency(local, b) == v[f.agentId];
      SubgraphReaches(g, g', f.agentId, b);
      var b' :| Reaches(g', f.agentId, b') && AsDependency(local, b') == v'[f.agentId];
      SubgraphReaches(g', g, f.agentId, b');
    }
  }
}
