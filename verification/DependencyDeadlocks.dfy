/**
 * Dependency Deadlocks: closed cycles of locally stalled Agents that only each
 * other's Answers could release (src/coordination/progress-verdict.ts:202-251).
 */
module DependencyDeadlocks {
  import opened Digraph
  import opened ProgressFacts
  import opened ComponentSearch
  import opened VerdictPropagation

  datatype Deadlock = Deadlock(agentIds: seq<Id>, requestIds: seq<string>)

  predicate IsDeadlockEligible(f: Facts, local: Verdicts) {
    && f.agentId in local && local[f.agentId] == Stalled
    && |f.retentionReasons| > 0
    && forall r :: r in f.retentionReasons ==> r == AwaitingAnswer || r == AnswerOwed || r == PendingDelivery
  }

  function EligibleIds(agents: seq<Facts>, local: Verdicts): (ids: seq<Id>)
    ensures forall id :: id in ids <==> exists f :: f in agents && IsDeadlockEligible(f, local) && f.agentId == id
  {
    if agents == [] then [] else
      var init, last := agents[..|agents| - 1], agents[|agents| - 1];
      assert agents == init + [last];
      EligibleIds(init, local) + (if IsDeadlockEligible(last, local) then [last.agentId] else [])
  }

  function RequestIds(edges: seq<Edge>): (ids: seq<string>)
    ensures |ids| == |edges| && forall i :: 0 <= i < |ids| ==> ids[i] == edges[i].requestId
  {
    seq(|edges|, i requires 0 <= i < |edges| => edges[i].requestId)
  }

  // --------------------------------------------------------- Specification

  /** No Request of a member leaves `c`. */
  ghost predicate Inescapable(requests: seq<Edge>, c: set<Id>) {
    forall e :: e in requests && e.fromAgentId in c ==> e.targetAgentId in c
  }

  ghost predicate EachAwaits(requests: seq<Edge>, c: set<Id>) {
    forall a :: a in c ==> exists e :: e in requests && e.fromAgentId == a
  }

  /** A deadlock, with no mention of how components are found. */
  ghost predicate IsDeadlock(requests: seq<Edge>, eligible: set<Id>, c: set<Id>) {
    && c != {} && c <= eligible
    && Inescapable(requests, c) && EachAwaits(requests, c)
    && forall a, b :: a in c && b in c ==> Reaches(GraphOf(requests), a, b)
  }

  ghost predicate Reported(deadlocks: seq<Deadlock>, c: set<Id>) {
    exists d :: d in deadlocks && Members(d.agentIds) == c
  }

  ghost predicate Apart(deadlocks: seq<Deadlock>) {
    forall i, j :: 0 <= i < j < |deadlocks| ==> Members(deadlocks[i].agentIds) !! Members(deadlocks[j].agentIds)
  }

  /** Exactly the deadlocks are reported, each once, with exactly its own Requests. */
  ghost predicate AreDeadlocks(requests: seq<Edge>, eligible: set<Id>, deadlocks: seq<Deadlock>) {
    && (forall c {:trigger Reported(deadlocks, c)} :: Reported(deadlocks, c) <==> IsDeadlock(requests, eligible, c))
    && (forall d :: d in deadlocks ==>
         Distinct(d.agentIds) && d.requestIds == RequestIds(SentBy(requests, Members(d.agentIds))))
    && Apart(deadlocks)
  }

  // ---------------------------------------------------------- The detector

  /** The Request graph between eligible Agents. */
  ghost predicate IsTargets(targets: Edges, eligibleIds: seq<Id>, requests: seq<Edge>) {
    forall a, b :: b in Succ(targets, a) <==> a in eligibleIds && b in eligibleIds && Links(requests, a, b)
  }

  /** The eligible subgraph; every eligible Agent has a (possibly empty) target list. */
  method BuildTargets(eligibleIds: seq<Id>, requests: seq<Edge>) returns (targets: Edges)
    ensures IsTargets(targets, eligibleIds, requests)
  {
    targets := map id | id in eligibleIds :: [];
    for i := 0 to |requests|
      invariant targets.Keys == Members(eligibleIds)
      invariant forall a, b :: b in Succ(targets, a) <==>
                  a in eligibleIds && b in eligibleIds && Links(requests[..i], a, b)
    {
      var r := requests[i];
      assert requests[..i + 1] == requests[..i] + [r];
      LinksSnoc(requests[..i], r);
      if r.fromAgentId in eligibleIds && r.targetAgentId in eligibleIds && r.targetAgentId !in targets[r.fromAgentId] {
        targets := targets[r.fromAgentId := targets[r.fromAgentId] + [r.targetAgentId]];
      }
    }
    assert requests[..|requests|] == requests;
  }

  /** The source's two tests on one component. */
  predicate IsReportable(requests: seq<Edge>, agentIds: seq<Id>) {
    var incident := SentBy(requests, set a | a in agentIds);
    var isCycle := |agentIds| > 1 || exists e :: e in incident && agentIds != [] && e.targetAgentId == agentIds[0];
    var isClosed := |incident| > 0 && forall e :: e in incident ==> e.targetAgentId in agentIds;
    isCycle && isClosed
  }

  function ToDeadlock(requests: seq<Edge>, agentIds: seq<Id>): Deadlock {
    Deadlock(agentIds, RequestIds(SentBy(requests, set a | a in agentIds)))
  }

  function Report(requests: seq<Edge>, components: seq<seq<Id>>): (deadlocks: seq<Deadlock>)
    ensures forall d :: d in deadlocks ==>
              d.agentIds in components && IsReportable(requests, d.agentIds) && d == ToDeadlock(requests, d.agentIds)
    ensures forall c :: c in components && IsReportable(requests, c) ==> ToDeadlock(requests, c) in deadlocks
  {
    if components == [] then [] else
      var init, last := components[..|components| - 1], components[|components| - 1];
      assert components == init + [last];
      Report(requests, init) + (if IsReportable(requests, last) then [ToDeadlock(requests, last)] else [])
  }

  method DetectDependencyDeadlocks(agents: seq<Facts>, local: Verdicts) returns (deadlocks: seq<Deadlock>)
    ensures AreDeadlocks(AllRequests(agents), Members(EligibleIds(agents, local)), deadlocks)
  {
    var eligibleIds := EligibleIds(agents, local);
    var requests := AllRequests(agents);
    var targets := BuildTargets(eligibleIds, requests);
    var components := StronglyConnectedComponents(eligibleIds, targets);
    deadlocks := Report(requests, components);
    ReportIsExact(eligibleIds, requests, targets, components);
  }

  // ------------------------------------------------------------- Exactness

  lemma {:induction false} DisjointReports(requests: seq<Edge>, components: seq<seq<Id>>)
    requires forall i, j :: 0 <= i < j < |components| ==> Members(components[i]) !! Members(components[j])
    ensures Apart(Report(requests, components))
  {
    hide IsReportable, ToDeadlock, Members;
    if components != [] {
      var init, last := components[..|components| - 1], components[|components| - 1];
      DisjointReports(requests, init);
      var ds, ds' := Report(requests, components), Report(requests, init);
      forall i, j | 0 <= i < j < |ds|
        ensures Members(ds[i].agentIds) !! Members(ds[j].agentIds)
      {
        assert ds[i] == ds'[i];
        if j < |ds'| {
          assert Members(ds'[i].agentIds) !! Members(ds'[j].agentIds);
        } else {
          var k :| 0 <= k < |init| && init[k] == ds'[i].agentIds;
          LastReport(requests, components, j);
          assert Members(components[k]) !! Members(components[|components| - 1]);
        }
      }
    }
  }

  lemma LastReport(requests: seq<Edge>, components: seq<seq<Id>>, j: nat)
    requires components != []
    requires |Report(requests, components[..|components| - 1])| <= j < |Report(requests, components)|
    ensures Report(requests, components)[j].agentIds == components[|components| - 1]
  {
  }

  lemma LeavesSomewhere(g: Edges, a: Id, b: Id)
    requires Reaches(g, a, b) && a != b
    ensures exists w :: w in Succ(g, a)
  {
    var p :| IsPath(g, p) && p[0] == a && p[|p| - 1] == b;
    assert p[1] in Succ(g, p[0]);
  }

  lemma {:induction false} PathInside(requests: seq<Edge>, eligibleIds: seq<Id>, targets: Edges, c: set<Id>, p: seq<Id>)
    requires IsTargets(targets, eligibleIds, requests) && Inescapable(requests, c) && c <= Members(eligibleIds)
    requires IsPath(GraphOf(requests), p) && p[0] in c
    ensures p[|p| - 1] in c && Reaches(targets, p[0], p[|p| - 1])
    decreases |p|
  {
    if |p| == 1 {
      ReachesSelf(targets, p[0]);
    } else {
      var a, b := p[|p| - 2], p[|p| - 1];
      PathInside(requests, eligibleIds, targets, c, p[..|p| - 1]);
      assert b in Succ(GraphOf(requests), a);
      ReachesEdge(targets, a, b);
      ReachesTrans(targets, p[0], a, b);
    }
  }

  lemma ReportableIsDeadlock(eligibleIds: seq<Id>, requests: seq<Edge>, targets: Edges, components: seq<seq<Id>>,
                             c: seq<Id>)
    requires IsTargets(targets, eligibleIds, requests)
    requires AreComponents(targets, eligibleIds, components) && c in components
    requires IsReportable(requests, c)
    ensures IsDeadlock(requests, Members(eligibleIds), Members(c))
  {
    forall a | a in c
      ensures a in eligibleIds
    {
      assert FromRoots(targets, eligibleIds, a);
      var r :| r in eligibleIds && Reaches(targets, r, a);
      ClosedReaches(targets, Members(eligibleIds), r, a);
    }
    assert c[0] in Members(c);
    forall a, b | a in c && b in c
      ensures Reaches(GraphOf(requests), a, b)
    {
      assert Mutual(targets, a, b);
      SubgraphReaches(targets, GraphOf(requests), a, b);
    }
    forall a | a in c
      ensures exists e :: e in requests && e.fromAgentId == a
    {
      AwaitsWithin(requests, c, a);
    }
  }

  lemma AwaitsWithin(requests: seq<Edge>, c: seq<Id>, a: Id)
    requires c != [] && Distinct(c) && a in c && IsReportable(requests, c)
    requires forall x, y :: x in c && y in c ==> Reaches(GraphOf(requests), x, y)
    ensures exists e :: e in requests && e.fromAgentId == a
  {
    if |c| == 1 {
      assert c == [a];
      var e :| e in SentBy(requests, set x | x in c);
    } else {
      var b := if c[0] == a then c[1] else c[0];
      LeavesSomewhere(GraphOf(requests), a, b);
      var w :| w in Succ(GraphOf(requests), a);
      assert Links(requests, a, w);
    }
  }

  lemma DeadlockIsReportable(eligibleIds: seq<Id>, requests: seq<Edge>, targets: Edges, components: seq<seq<Id>>,
                             d: set<Id>)
    requires IsTargets(targets, eligibleIds, requests)
    requires AreComponents(targets, eligibleIds, components)
    requires IsDeadlock(requests, Members(eligibleIds), d)
    ensures exists c :: c in components && Members(c) == d && IsReportable(requests, c)
  {
    hide EachAwaits, IsPath;
    var a :| a in d;
    ReachesSelf(targets, a);
    assert FromRoots(targets, eligibleIds, a);
    var c :| c in components && a in c;
    forall b | b in d
      ensures b in c
    {
      Inside(requests, eligibleIds, targets, d, a, b);
      Inside(requests, eligibleIds, targets, d, b, a);
      assert Mutual(targets, a, b);
    }
    forall b | b in c
      ensures b in d
    {
      assert Mutual(targets, a, b);
      SubgraphReaches(targets, GraphOf(requests), a, b);
      Inside(requests, eligibleIds, targets, d, a, b);
    }
    assert Members(c) == d;
    var e := SomeRequest(requests, d, a);
    assert e in SentBy(requests, set x | x in c);
    if |c| == 1 {
      assert c[0] == a;
    }
  }

  lemma SomeRequest(requests: seq<Edge>, c: set<Id>, a: Id) returns (e: Edge)
    requires EachAwaits(requests, c) && a in c
    ensures e in requests && e.fromAgentId == a
  {
    e :| e in requests && e.fromAgentId == a;
  }

  lemma Inside(requests: seq<Edge>, eligibleIds: seq<Id>, targets: Edges, c: set<Id>, a: Id, b: Id)
    requires IsTargets(targets, eligibleIds, requests) && Inescapable(requests, c) && c <= Members(eligibleIds)
    requires Reaches(GraphOf(requests), a, b) && a in c
    ensures b in c && Reaches(targets, a, b)
  {
    var p :| IsPath(GraphOf(requests), p) && p[0] == a && p[|p| - 1] == b;
    PathInside(requests, eligibleIds, targets, c, p);
  }

  lemma ReportIsExact(eligibleIds: seq<Id>, requests: seq<Edge>, targets: Edges, components: seq<seq<Id>>)
    requires IsTargets(targets, eligibleIds, requests)
    requires AreComponents(targets, eligibleIds, components)
    ensures AreDeadlocks(requests, Members(eligibleIds), Report(requests, components))
  {
    hide IsTargets, IsReportable, IsDeadlock;
    var ds := Report(requests, components);
    DisjointReports(requests, components);
    forall c
      ensures Reported(ds, c) <==> IsDeadlock(requests, Members(eligibleIds), c)
    {
      if Reported(ds, c) {
        var d :| d in ds && Members(d.agentIds) == c;
        ReportableIsDeadlock(eligibleIds, requests, targets, components, d.agentIds);
      }
      if IsDeadlock(requests, Members(eligibleIds), c) {
        DeadlockIsReportable(eligibleIds, requests, targets, components, c);
        var comp :| comp in components && Members(comp) == c && IsReportable(requests, comp);
        assert ToDeadlock(requests, comp) in ds;
      }
    }
  }

  // ---------------------------------------------------------- Consequences

  /** What `a` reaches through Requests, inside a set that no Request leaves. */
  ghost function Downstream(requests: seq<Edge>, k: set<Id>, a: Id): set<Id> {
    set b | b in k && Reaches(GraphOf(requests), a, b)
  }

  /** Any closed set of waiting eligible Agents contains a reported deadlock. */
  lemma {:induction false} ClosedSetHoldsDeadlock(requests: seq<Edge>, eligible: set<Id>, deadlocks: seq<Deadlock>,
                                                  k: set<Id>, a: Id)
    requires AreDeadlocks(requests, eligible, deadlocks)
    requires a in k && k <= eligible && Inescapable(requests, k) && EachAwaits(requests, k)
    ensures exists c :: c <= k && Reported(deadlocks, c)
    decreases |Downstream(requests, k, a)|
  {
    hide AreDeadlocks, EachAwaits, IsPath, Reaches;
    var g := GraphOf(requests);
    var d := Downstream(requests, k, a);
    ReachesSelf(g, a);
    DownstreamClosed(requests, k, a);
    if b :| b in d && !Reaches(g, b, a) {
      var d' := Downstream(requests, k, b);
      forall x | x in d'
        ensures x in d
      {
        ReachesTrans(g, a, b, x);
      }
      SubsetSize(d', d - {a});
      ClosedSetHoldsDeadlock(requests, eligible, deadlocks, k, b);
    } else {
      forall x, y | x in d && y in d
        ensures Reaches(g, x, y)
      {
        ReachesTrans(g, x, a, y);
      }
      FewerAwait(requests, k, d);
      DeadlockReported(requests, eligible, deadlocks, d);
      assert a in d && d <= k;
      assert IsDeadlock(requests, eligible, d);
      assert Reported(deadlocks, d);
    }
  }

  lemma FewerAwait(requests: seq<Edge>, k: set<Id>, d: set<Id>)
    requires EachAwaits(requests, k) && d <= k
    ensures EachAwaits(requests, d)
  {
  }

  lemma DeadlockReported(requests: seq<Edge>, eligible: set<Id>, deadlocks: seq<Deadlock>, c: set<Id>)
    requires AreDeadlocks(requests, eligible, deadlocks)
    ensures Reported(deadlocks, c) <==> IsDeadlock(requests, eligible, c)
  {
    hide IsDeadlock;
  }

  lemma DownstreamClosed(requests: seq<Edge>, k: set<Id>, a: Id)
    requires Inescapable(requests, k)
    ensures Inescapable(requests, Downstream(requests, k, a))
  {
    forall e | e in requests && e.fromAgentId in Downstream(requests, k, a)
      ensures Reaches(GraphOf(requests), a, e.targetAgentId)
    {
      assert Links(requests, e.fromAgentId, e.targetAgentId);
      ReachesEdge(GraphOf(requests), e.fromAgentId, e.targetAgentId);
      ReachesTrans(GraphOf(requests), a, e.fromAgentId, e.targetAgentId);
    }
  }

  /** Every member of a reported deadlock ends Stalled after combining dependencies. */
  lemma DeadlockStaysStalled(agents: seq<Facts>, local: Verdicts, verdicts: Verdicts, deadlocks: seq<Deadlock>,
                             d: Deadlock, a: Id)
    requires AreDeadlocks(AllRequests(agents), Members(EligibleIds(agents, local)), deadlocks)
    requires Combined(agents, local, verdicts)
    requires d in deadlocks && a in d.agentIds
    ensures a in verdicts && verdicts[a] == Stalled
  {
    hide AreDeadlocks, EachAwaits, IsPath, Reaches, Combined;
    var requests, c := AllRequests(agents), Members(d.agentIds);
    assert Reported(deadlocks, c);
    DeadlockReported(requests, Members(EligibleIds(agents, local)), deadlocks, c);
    assert a in c;
    var b := BestSource(agents, local, verdicts, a);
    StallClosed(agents, local, c);
    ClosedReaches(StallGraph(agents, local), c, a, b);
    assert b in Members(EligibleIds(agents, local));
  }

  lemma BestSource(agents: seq<Facts>, local: Verdicts, verdicts: Verdicts, a: Id) returns (b: Id)
    requires Combined(agents, local, verdicts) && a in EligibleIds(agents, local)
    ensures a in verdicts && Reaches(StallGraph(agents, local), a, b) && AsDependency(local, b) == verdicts[a]
  {
    var f :| f in agents && IsDeadlockEligible(f, local) && f.agentId == a;
    b :| Reaches(StallGraph(agents, local), a, b) && AsDependency(local, b) == verdicts[a];
  }

  lemma StallClosed(agents: seq<Facts>, local: Verdicts, c: set<Id>)
    requires Inescapable(AllRequests(agents), c)
    ensures Closed(StallGraph(agents, local), c)
  {
    forall v, w | v in c && w in Succ(StallGraph(agents, local), v)
      ensures w in c
    {
      assert Links(SentBy(AllRequests(agents), StalledIds(local)), v, w);
    }
  }
}
