/**
 * Owner Demand: the Requests that someone upstream still awaits
 * (src/coordination/owner-demand.ts:15-32), and what the demand filter on
 * deadlocks means (src/coordination/operational-incidents.ts:1344-1348).
 */
module OwnerDemand {
  import opened Digraph
  import opened ProgressFacts
  import opened ComponentSearch
  import opened DependencyDeadlocks

  /** A Request id names one Request. */
  ghost predicate UniqueRequestIds(requests: seq<Edge>) {
    forall e, h :: e in requests && h in requests && e.requestId == h.requestId ==> e == h
  }

  ghost predicate IsDemanded(roots: seq<Id>, requests: seq<Edge>, requestId: string) {
    exists e :: e in requests && e.requestId == requestId && FromRoots(GraphOf(requests), roots, e.fromAgentId)
  }

  ghost predicate Growing(roots: seq<Id>, requests: seq<Edge>, agentIds: set<Id>, demanded: set<string>) {
    && (forall r :: r in roots ==> r in agentIds)
    && (forall a {:trigger FromRoots(GraphOf(requests), roots, a)} :: a in agentIds ==>
         FromRoots(GraphOf(requests), roots, a))
    && (forall id {:trigger IsDemanded(roots, requests, id)} :: id in demanded ==> IsDemanded(roots, requests, id))
    && (forall e :: e in requests && e.requestId in demanded ==> e.targetAgentId in agentIds)
  }

  function IdsOf(requests: seq<Edge>): set<string> {
    set e | e in requests :: e.requestId
  }

  lemma Grow(roots: seq<Id>, requests: seq<Edge>, agentIds: set<Id>, demanded: set<string>, e: Edge)
    requires UniqueRequestIds(requests) && Growing(roots, requests, agentIds, demanded)
    requires e in requests && e.fromAgentId in agentIds
    ensures Growing(roots, requests, agentIds + {e.targetAgentId}, demanded + {e.requestId})
  {
    var g := GraphOf(requests);
    assert FromRoots(g, roots, e.fromAgentId);
    var r :| r in roots && Reaches(g, r, e.fromAgentId);
    assert Links(requests, e.fromAgentId, e.targetAgentId);
    ReachesEdge(g, e.fromAgentId, e.targetAgentId);
    ReachesTrans(g, r, e.fromAgentId, e.targetAgentId);
    assert IsDemanded(roots, requests, e.requestId);
  }

  lemma FixedPointDemand(roots: seq<Id>, requests: seq<Edge>, agentIds: set<Id>, demanded: set<string>)
    requires Growing(roots, requests, agentIds, demanded)
    requires forall e :: e in requests && e.fromAgentId in agentIds ==> e.requestId in demanded
    ensures forall id :: id in demanded <==> IsDemanded(roots, requests, id)
  {
    var g := GraphOf(requests);
    assert Closed(g, agentIds) by {
      forall v, w | v in agentIds && w in Succ(g, v)
        ensures w in agentIds
      {
        assert Links(requests, v, w);
      }
    }
    forall id | IsDemanded(roots, requests, id)
      ensures id in demanded
    {
      var e :| e in requests && e.requestId == id && FromRoots(g, roots, e.fromAgentId);
      var r :| r in roots && Reaches(g, r, e.fromAgentId);
      ClosedReaches(g, agentIds, r, e.fromAgentId);
    }
  }

  method DemandedRequestIds(roots: seq<Id>, requests: seq<Edge>) returns (demanded: set<string>)
    requires UniqueRequestIds(requests)
    ensures forall id :: id in demanded <==> IsDemanded(roots, requests, id)
  {
    hide FromRoots, IsDemanded;
    var demandedAgentIds := set r | r in roots;
    demanded := {};
    InitialDemand(roots, requests);
    var changed := true;
    while changed
      invariant Growing(roots, requests, demandedAgentIds, demanded) && demanded <= IdsOf(requests)
      invariant !changed ==> forall e :: e in requests && e.fromAgentId in demandedAgentIds ==> e.requestId in demanded
      decreases IdsOf(requests) - demanded, changed
    {
      changed := false;
      ghost var before, agentsBefore := demanded, demandedAgentIds;
      for i := 0 to |requests|
        invariant Growing(roots, requests, demandedAgentIds, demanded) && before <= demanded <= IdsOf(requests)
        invariant if changed then before < demanded else demanded == before && demandedAgentIds == agentsBefore
        invariant !changed ==> forall k :: 0 <= k < i && requests[k].fromAgentId in demandedAgentIds ==>
                    requests[k].requestId in demanded
      {
        var e := requests[i];
        if e.requestId in demanded || e.fromAgentId !in demandedAgentIds {
          continue;
        }
        Grow(roots, requests, demandedAgentIds, demanded, e);
        demanded := demanded + {e.requestId};
        demandedAgentIds := demandedAgentIds + {e.targetAgentId};
        changed := true;
      }
    }
    FixedPointDemand(roots, requests, demandedAgentIds, demanded);
  }

  lemma InitialDemand(roots: seq<Id>, requests: seq<Edge>)
    ensures Growing(roots, requests, set r | r in roots, {})
  {
    forall r | r in roots
      ensures FromRoots(GraphOf(requests), roots, r)
    {
      ReachesSelf(GraphOf(requests), r);
    }
  }

  /**
   * The incident filter asks whether some Request of a deadlock is demanded.
   * Inside a deadlock that is the same as asking whether all of them are.
   * Deadlocks are sought among the `ordinary` agents' Requests; demand follows
   * those of `everyone`, Moderators included.
   */
  lemma SomeDemandedMeansAll(roots: seq<Id>, ordinary: seq<Edge>, everyone: seq<Edge>, eligible: set<Id>,
                             deadlocks: seq<Deadlock>, d: Deadlock, demanded: set<string>, some: string, other: string)
    requires UniqueRequestIds(everyone) && forall e :: e in ordinary ==> e in everyone
    requires AreDeadlocks(ordinary, eligible, deadlocks) && d in deadlocks
    requires forall id :: id in demanded <==> IsDemanded(roots, everyone, id)
    requires some in d.requestIds && other in d.requestIds
    ensures some in demanded ==> other in demanded
  {
    hide AreDeadlocks, IsDeadlock, Reaches;
    var g := GraphOf(everyone);
    var e := MemberRequest(ordinary, eligible, deadlocks, d, some);
    var h := MemberRequest(ordinary, eligible, deadlocks, d, other);
    if some in demanded {
      var u :| u in everyone && u.requestId == some && FromRoots(g, roots, u.fromAgentId);
      assert u == e;
      var r :| r in roots && Reaches(g, r, e.fromAgentId);
      assert forall v, w :: Links(ordinary, v, w) ==> Links(everyone, v, w);
      SubgraphReaches(GraphOf(ordinary), g, e.fromAgentId, h.fromAgentId);
      ReachesTrans(g, r, e.fromAgentId, h.fromAgentId);
      assert FromRoots(g, roots, h.fromAgentId);
      assert IsDemanded(roots, everyone, other);
    }
  }

  lemma MemberRequest(requests: seq<Edge>, eligible: set<Id>, deadlocks: seq<Deadlock>, d: Deadlock, id: string)
    returns (e: Edge)
    requires AreDeadlocks(requests, eligible, deadlocks) && d in deadlocks && id in d.requestIds
    ensures e in requests && e.requestId == id && e.fromAgentId in d.agentIds
    ensures forall a :: a in d.agentIds ==> Reaches(GraphOf(requests), e.fromAgentId, a)
  {
    hide Reaches, EachAwaits, Inescapable, Apart;
    var c := Members(d.agentIds);
    assert Reported(deadlocks, c);
    var sent := SentBy(requests, c);
    var i :| 0 <= i < |d.requestIds| && d.requestIds[i] == id;
    e := sent[i];
  }
}
