/**
 * Delivery Stalls: the obligated Agents that a blocked Delivery holds up
 * (src/coordination/progress-verdict.ts:156-200).
 */
module DeliveryStalls {
  import opened Digraph
  import opened ProgressFacts

  /** What one trace reads: the snapshot by id, local verdicts and the blocked recipient. */
  datatype Context = Context(facts: map<Id, Facts>, local: map<Id, Verdict>, recipient: Id)

  ghost predicate WellKeyed(ctx: Context) {
    forall id :: id in ctx.facts ==> ctx.facts[id].agentId == id
  }

  ghost predicate Distinct(s: seq<Id>) {
    forall i, j :: 0 <= i < j < |s| ==> s[i] != s[j]
  }

  /** `a` sent the unanswered Request `requestId` to `b`. */
  ghost predicate Sent(ctx: Context, a: Id, requestId: string, b: Id) {
    a in ctx.facts && Request(requestId, b) in ctx.facts[a].unansweredRequests
  }

  /** An Agent that a path may enter: nothing legitimate to wait for, and not a progressing intermediate. */
  ghost predicate MayEnter(ctx: Context, id: Id, isRoot: bool) {
    && id in ctx.facts && WaitingReasonOf(ctx.facts[id]).None?
    && (isRoot || id == ctx.recipient || id !in ctx.local || ctx.local[id] != Progressing)
  }

  /** A simple walk: `edges[i]` is the Request from `walk[i]` to `walk[i + 1]`. */
  ghost predicate SimpleWalk(ctx: Context, walk: seq<Id>, edges: seq<string>) {
    && |walk| == |edges| + 1 && Distinct(walk)
    && (forall i :: 0 <= i < |walk| ==> MayEnter(ctx, walk[i], i == 0))
    && (forall i :: 0 <= i < |edges| ==> Sent(ctx, walk[i], edges[i], walk[i + 1]))
  }

  ghost predicate Qualifies(ctx: Context, walk: seq<Id>, edges: seq<string>) {
    SimpleWalk(ctx, walk, edges) && walk[|walk| - 1] == ctx.recipient
  }

  /** A qualifying path continuing the given prefix. */
  ghost predicate Extends(ctx: Context, prefix: seq<Id>, edges: seq<string>, w: seq<Id>, f: seq<string>) {
    Qualifies(ctx, w, f) && prefix <= w && edges <= f
  }

  ghost predicate Affects(ctx: Context, prefix: seq<Id>, edges: seq<string>, id: Id) {
    exists w, f :: Extends(ctx, prefix, edges, w, f) && id in w
  }

  ghost predicate Involves(ctx: Context, obligations: seq<string>, prefix: seq<Id>, edges: seq<string>,
                           requestId: string) {
    exists w, f :: Extends(ctx, prefix, edges, w, f) && (requestId in obligations || requestId in f)
  }

  /** `path` and `edges` lead up to, but do not include, an Agent `id`. */
  ghost predicate LeadsTo(ctx: Context, path: seq<Id>, edges: seq<string>, id: Id) {
    && |path| == |edges| && id in ctx.facts
    && (path != [] ==>
          SimpleWalk(ctx, path, edges[..|edges| - 1]) && Sent(ctx, path[|path| - 1], edges[|edges| - 1], id))
  }

  lemma Enter(ctx: Context, path: seq<Id>, edges: seq<string>, id: Id)
    requires LeadsTo(ctx, path, edges, id) && id !in path && MayEnter(ctx, id, path == [])
    ensures SimpleWalk(ctx, path + [id], edges)
  {
    var walk := path + [id];
    forall i | 0 <= i < |edges|
      ensures Sent(ctx, walk[i], edges[i], walk[i + 1])
    {
      if i < |edges| - 1 {
        assert edges[..|edges| - 1][i] == edges[i];
      }
    }
  }

  /** A refused Agent lies on no qualifying continuation. */
  lemma Refused(ctx: Context, path: seq<Id>, edges: seq<string>, id: Id, w: seq<Id>, f: seq<string>)
    requires |path| == |edges|
    requires Extends(ctx, path + [id], edges, w, f)
    ensures id !in path && MayEnter(ctx, id, path == [])
  {
    assert w[|path|] == id;
    forall i | 0 <= i < |path|
      ensures path[i] != id
    {
      assert w[i] == path[i];
    }
  }

  /** A continuation either stops here or follows one Request further. */
  lemma NextHop(ctx: Context, path: seq<Id>, edges: seq<string>, w: seq<Id>, f: seq<string>) returns (q: Request)
    requires path != [] && |path| == |edges| + 1
    requires Extends(ctx, path, edges, w, f) && w != path
    ensures q in ctx.facts[path[|path| - 1]].unansweredRequests
    ensures Extends(ctx, path + [q.targetAgentId], edges + [q.requestId], w, f)
  {
    var n := |path|;
    assert w[n - 1] == path[n - 1];
    assert Sent(ctx, w[n - 1], f[n - 1], w[n]);
    q := Request(f[n - 1], w[n]);
    assert path + [w[n]] == w[..n + 1];
    assert edges + [f[n - 1]] == f[..n];
  }

  lemma Shorten(ctx: Context, path: seq<Id>, edges: seq<string>, q: Request, w: seq<Id>, f: seq<string>)
    requires Extends(ctx, path + [q.targetAgentId], edges + [q.requestId], w, f)
    ensures Extends(ctx, path, edges, w, f)
  {
    assert path <= path + [q.targetAgentId] && edges <= edges + [q.requestId];
  }

  // ----------------------------------------------------------- The search

  /** Some path qualifies that stops at `walk` or continues with one of the first `n` Requests. */
  ghost predicate AffectsWithin(ctx: Context, walk: seq<Id>, edges: seq<string>, qs: seq<Request>, n: nat, id: Id)
    requires n <= |qs|
  {
    || (Qualifies(ctx, walk, edges) && id in walk)
    || exists j :: 0 <= j < n && Affects(ctx, walk + [qs[j].targetAgentId], edges + [qs[j].requestId], id)
  }

  ghost predicate InvolvesWithin(ctx: Context, obligations: seq<string>, walk: seq<Id>, edges: seq<string>,
                                 qs: seq<Request>, n: nat, id: string)
    requires n <= |qs|
  {
    || (Qualifies(ctx, walk, edges) && (id in obligations || id in edges))
    || exists j :: 0 <= j < n && Involves(ctx, obligations, walk + [qs[j].targetAgentId], edges + [qs[j].requestId], id)
  }

  lemma AllHops(ctx: Context, obligations: seq<string>, walk: seq<Id>, edges: seq<string>, qs: seq<Request>)
    requires SimpleWalk(ctx, walk, edges) && qs == ctx.facts[walk[|walk| - 1]].unansweredRequests
    ensures forall id :: Affects(ctx, walk, edges, id) <==> AffectsWithin(ctx, walk, edges, qs, |qs|, id)
    ensures forall id :: Involves(ctx, obligations, walk, edges, id) <==>
              InvolvesWithin(ctx, obligations, walk, edges, qs, |qs|, id)
  {
    hide SimpleWalk, Qualifies, Extends, Affects, Involves;
    forall id
      ensures Affects(ctx, walk, edges, id) <==> AffectsWithin(ctx, walk, edges, qs, |qs|, id)
    {
      AffectsHop(ctx, walk, edges, qs, id);
    }
    forall id
      ensures Involves(ctx, obligations, walk, edges, id) <==>
                InvolvesWithin(ctx, obligations, walk, edges, qs, |qs|, id)
    {
      InvolvesHop(ctx, obligations, walk, edges, qs, id);
    }
  }

  lemma AffectsHop(ctx: Context, walk: seq<Id>, edges: seq<string>, qs: seq<Request>, id: Id)
    requires SimpleWalk(ctx, walk, edges) && qs == ctx.facts[walk[|walk| - 1]].unansweredRequests
    ensures Affects(ctx, walk, edges, id) <==> AffectsWithin(ctx, walk, edges, qs, |qs|, id)
  {
    hide SimpleWalk, Qualifies;
    if Affects(ctx, walk, edges, id) {
      var w, f :| Extends(ctx, walk, edges, w, f) && id in w;
      HopOrStop(ctx, walk, edges, qs, w, f);
    }
    if AffectsWithin(ctx, walk, edges, qs, |qs|, id) {
      if Qualifies(ctx, walk, edges) && id in walk {
        assert Extends(ctx, walk, edges, walk, edges);
      } else {
        var j :| 0 <= j < |qs| && Affects(ctx, walk + [qs[j].targetAgentId], edges + [qs[j].requestId], id);
        var w, f :| Extends(ctx, walk + [qs[j].targetAgentId], edges + [qs[j].requestId], w, f) && id in w;
        Shorten(ctx, walk, edges, qs[j], w, f);
      }
    }
  }

  lemma InvolvesHop(ctx: Context, obligations: seq<string>, walk: seq<Id>, edges: seq<string>, qs: seq<Request>,
                    id: string)
    requires SimpleWalk(ctx, walk, edges) && qs == ctx.facts[walk[|walk| - 1]].unansweredRequests
    ensures Involves(ctx, obligations, walk, edges, id) <==> InvolvesWithin(ctx, obligations, walk, edges, qs, |qs|, id)
  {
    hide SimpleWalk, Qualifies;
    if Involves(ctx, obligations, walk, edges, id) {
      var w, f :| Extends(ctx, walk, edges, w, f) && (id in obligations || id in f);
      HopOrStop(ctx, walk, edges, qs, w, f);
    }
    if InvolvesWithin(ctx, obligations, walk, edges, qs, |qs|, id) {
      if Qualifies(ctx, walk, edges) && (id in obligations || id in edges) {
        assert Extends(ctx, walk, edges, walk, edges);
      } else {
        var j :| 0 <= j < |qs|
          && Involves(ctx, obligations, walk + [qs[j].targetAgentId], edges + [qs[j].requestId], id);
        var w, f :| Extends(ctx, walk + [qs[j].targetAgentId], edges + [qs[j].requestId], w, f)
          && (id in obligations || id in f);
        Shorten(ctx, walk, edges, qs[j], w, f);
      }
    }
  }

  lemma HopOrStop(ctx: Context, walk: seq<Id>, edges: seq<string>, qs: seq<Request>, w: seq<Id>, f: seq<string>)
    requires SimpleWalk(ctx, walk, edges) && qs == ctx.facts[walk[|walk| - 1]].unansweredRequests
    requires Extends(ctx, walk, edges, w, f)
    ensures (w == walk && f == edges)
            || exists j :: 0 <= j < |qs| && Extends(ctx, walk + [qs[j].targetAgentId], edges + [qs[j].requestId], w, f)
  {
    if w != walk {
      var q := NextHop(ctx, walk, edges, w, f);
      var j :| 0 <= j < |qs| && qs[j] == q;
    }
  }

  ghost function On(path: seq<Id>): set<Id> {
    set id | id in path
  }

  class Tracer {
    const ctx: Context
    const obligations: seq<string>
    var affected: set<Id>
    var requests: set<string>

    constructor (ctx: Context, obligations: seq<string>, affected: set<Id>, requests: set<string>)
      ensures this.ctx == ctx && this.obligations == obligations && this.affected == affected
      ensures this.requests == requests
    {
      this.ctx, this.obligations, this.affected, this.requests := ctx, obligations, affected, requests;
    }

    /** Adds exactly what lies on qualifying paths through `path` and then `agentId`. */
    method Visit(agentId: Id, path: seq<Id>, edges: seq<string>)
      requires WellKeyed(ctx) && LeadsTo(ctx, path, edges, agentId)
      modifies this
      ensures forall id :: id in affected <==> id in old(affected) || Affects(ctx, path + [agentId], edges, id)
      ensures forall id :: id in requests <==>
                id in old(requests) || Involves(ctx, obligations, path + [agentId], edges, id)
      decreases ctx.facts.Keys - On(path)
    {
      hide Extends, Qualifies;
      var facts := ctx.facts[agentId];
      var nextPath := path + [agentId];
      if agentId in path || WaitingReasonOf(facts).Some? {
        NothingBeyond(ctx, obligations, path, edges, agentId);
        return;
      }
      var isIntermediate := |path| > 0 && agentId != ctx.recipient;
      if isIntermediate && agentId in ctx.local && ctx.local[agentId] == Progressing {
        NothingBeyond(ctx, obligations, path, edges, agentId);
        return;
      }
      Enter(ctx, path, edges, agentId);
      Arrived(ctx, nextPath, edges);
      if agentId == ctx.recipient {
        affected := affected + set id | id in nextPath;
        requests := requests + (set id | id in obligations) + set id | id in edges;
      }
      var qs := facts.unansweredRequests;
      for i := 0 to |qs|
        invariant forall id :: id in affected <==> id in old(affected) || AffectsWithin(ctx, nextPath, edges, qs, i, id)
        invariant forall id :: id in requests <==>
                    id in old(requests) || InvolvesWithin(ctx, obligations, nextPath, edges, qs, i, id)
      {
        var q := qs[i];
        if q.targetAgentId in ctx.facts {
          LeadsOn(ctx, nextPath, edges, q);
          assert On(nextPath) == On(path) + {agentId};
          Visit(q.targetAgentId, nextPath, edges + [q.requestId]);
        } else {
          NothingBeyond(ctx, obligations, nextPath, edges + [q.requestId], q.targetAgentId);
        }
      }
      AllHops(ctx, obligations, nextPath, edges, qs);
    }
  }

  lemma NothingBeyond(ctx: Context, obligations: seq<string>, path: seq<Id>, edges: seq<string>, id: Id)
    requires |path| == |edges| && (id in path || !MayEnter(ctx, id, path == []))
    ensures forall x :: !Affects(ctx, path + [id], edges, x)
    ensures forall r :: !Involves(ctx, obligations, path + [id], edges, r)
  {
    forall w, f
      ensures !Extends(ctx, path + [id], edges, w, f)
    {
      if Extends(ctx, path + [id], edges, w, f) {
        Refused(ctx, path, edges, id, w, f);
      }
    }
  }

  lemma Arrived(ctx: Context, walk: seq<Id>, edges: seq<string>)
    requires SimpleWalk(ctx, walk, edges)
    ensures Qualifies(ctx, walk, edges) <==> walk[|walk| - 1] == ctx.recipient
  {
  }

  lemma LeadsOn(ctx: Context, walk: seq<Id>, edges: seq<string>, q: Request)
    requires SimpleWalk(ctx, walk, edges) && q in ctx.facts[walk[|walk| - 1]].unansweredRequests
    requires q.targetAgentId in ctx.facts
    ensures LeadsTo(ctx, walk, edges + [q.requestId], q.targetAgentId)
  {
    assert (edges + [q.requestId])[..|edges|] == edges;
  }

  // ------------------------------------------------------------ The result

  datatype BlockedDelivery = BlockedDelivery(messageId: string, recipientAgentId: Id)
  datatype StallPath = StallPath(messageId: string, recipientAgentId: Id, affectedAgentIds: set<Id>,
      requestIds: set<string>, stalledAgentIds: set<Id>)

  /** Where a stall can start: a live agent that owes an Answer while its model is not at work. */
  predicate IsRoot(f: Facts) {
    f.phase == Live && f.work != Active && |f.answerObligationRequestIds| > 0
  }

  function FactsById(agents: seq<Facts>): (m: map<Id, Facts>)
    ensures forall id :: id in m ==> m[id] in agents && m[id].agentId == id
    ensures forall f :: f in agents ==> f.agentId in m
  {
    if agents == [] then map[] else
      var init, last := agents[..|agents| - 1], agents[|agents| - 1];
      assert agents == init + [last];
      FactsById(init)[last.agentId := last]
  }

  /** A qualifying path from the obligated root `f`. */
  ghost predicate FromRoot(ctx: Context, f: Facts, w: seq<Id>, edges: seq<string>) {
    IsRoot(f) && Qualifies(ctx, w, edges) && w[0] == f.agentId
  }

  ghost predicate OnPath(ctx: Context, roots: seq<Facts>, id: Id) {
    exists f, w, e :: f in roots && FromRoot(ctx, f, w, e) && id in w
  }

  ghost predicate Owed(ctx: Context, roots: seq<Facts>, requestId: string) {
    exists f, w, e :: f in roots && FromRoot(ctx, f, w, e)
      && (requestId in f.answerObligationRequestIds || requestId in e)
  }

  ghost predicate HeldUp(ctx: Context, roots: seq<Facts>) {
    exists f, w, e :: f in roots && FromRoot(ctx, f, w, e)
  }

  lemma RootPaths(ctx: Context, f: Facts, id: Id, requestId: string)
    requires IsRoot(f)
    ensures Affects(ctx, [f.agentId], [], id) <==> exists w, e :: FromRoot(ctx, f, w, e) && id in w
    ensures Involves(ctx, f.answerObligationRequestIds, [f.agentId], [], requestId) <==>
              exists w, e :: FromRoot(ctx, f, w, e) && (requestId in f.answerObligationRequestIds || requestId in e)
  {
    assert forall w, e :: FromRoot(ctx, f, w, e) ==> Extends(ctx, [f.agentId], [], w, e);
    assert forall w, e :: Extends(ctx, [f.agentId], [], w, e) ==> FromRoot(ctx, f, w, e);
  }

  ghost predicate IsAuthor(agents: seq<Facts>, messageId: string, id: Id) {
    exists f, q :: f in agents && f.agentId == id && q in f.unansweredRequests && q.requestId == messageId
  }

  /** The whole answer for one blocked Delivery. */
  ghost predicate IsTrace(agents: seq<Facts>, local: map<Id, Verdict>, blocked: BlockedDelivery,
                          stall: Option<StallPath>) {
    var ctx := Context(FactsById(agents), local, blocked.recipientAgentId);
    && (stall.Some? <==> HeldUp(ctx, agents))
    && (stall.Some? ==>
          && stall.value.messageId == blocked.messageId && stall.value.recipientAgentId == blocked.recipientAgentId
          && (forall id :: id in stall.value.affectedAgentIds <==> OnPath(ctx, agents, id))
          && (forall id :: id in stall.value.requestIds <==> Owed(ctx, agents, id))
          && (forall id :: id in stall.value.stalledAgentIds <==>
               id == blocked.recipientAgentId || IsAuthor(agents, blocked.messageId, id)))
  }

  /** One result per blocked Delivery that holds an obligated Agent up, in order. */
  ghost predicate AreTraces(agents: seq<Facts>, local: map<Id, Verdict>, blocked: seq<BlockedDelivery>,
                            stalls: seq<StallPath>) {
    if blocked == [] then stalls == [] else
      var init, last := blocked[..|blocked| - 1], blocked[|blocked| - 1];
      || (IsTrace(agents, local, last, None) && AreTraces(agents, local, init, stalls))
      || (stalls != [] && IsTrace(agents, local, last, Some(stalls[|stalls| - 1]))
          && AreTraces(agents, local, init, stalls[..|stalls| - 1]))
  }

  method TraceDeliveryStalls(agents: seq<Facts>, local: map<Id, Verdict>, blocked: seq<BlockedDelivery>)
    returns (stalls: seq<StallPath>)
    requires UniqueIds(agents)
    ensures AreTraces(agents, local, blocked, stalls)
  {
    hide IsTrace;
    stalls := [];
    for i := 0 to |blocked|
      invariant AreTraces(agents, local, blocked[..i], stalls)
    {
      assert blocked[..i + 1] == blocked[..i] + [blocked[i]];
      var stall := TraceDeliveryStall(agents, local, blocked[i]);
      ghost var before := stalls;
      if stall.Some? {
        stalls := stalls + [stall.value];
        assert stalls[..|stalls| - 1] == before;
      }
    }
    assert blocked[..|blocked|] == blocked;
  }

  /** Visits every obligated root and collects what lies on its paths. */
  method VisitRoots(ctx: Context, agents: seq<Facts>) returns (affected: set<Id>, requests: set<string>)
    requires ctx.facts == FactsById(agents)
    ensures forall id :: id in affected <==> OnPath(ctx, agents, id)
    ensures forall id :: id in requests <==> Owed(ctx, agents, id)
  {
    hide Qualifies, Extends, Affects, Involves, OnPath, Owed;
    affected, requests := {}, {};
    NoRoots(ctx);
    for i := 0 to |agents|
      invariant forall id :: id in affected <==> OnPath(ctx, agents[..i], id)
      invariant forall id :: id in requests <==> Owed(ctx, agents[..i], id)
    {
      var f := agents[i];
      RootAdds(ctx, agents[..i], f);
      assert agents[..i + 1] == agents[..i] + [f];
      if IsRoot(f) {
        var tracer := new Tracer(ctx, f.answerObligationRequestIds, affected, requests);
        assert [] + [f.agentId] == [f.agentId];
        tracer.Visit(f.agentId, [], []);
        affected, requests := tracer.affected, tracer.requests;
      }
    }
    assert agents[..|agents|] == agents;
  }

  method TraceDeliveryStall(agents: seq<Facts>, local: map<Id, Verdict>, blocked: BlockedDelivery)
    returns (stall: Option<StallPath>)
    requires UniqueIds(agents)
    ensures IsTrace(agents, local, blocked, stall)
  {
    hide OnPath, Owed, HeldUp, FactsById;
    var ctx := Context(FactsById(agents), local, blocked.recipientAgentId);
    var affected, requests := VisitRoots(ctx, agents);
    OwedWhenHeldUp(ctx, agents);
    if requests == {} {
      return None;
    }
    var authors := set f, q | f in agents && q in f.unansweredRequests && q.requestId == blocked.messageId :: f.agentId;
    stall := Some(StallPath(blocked.messageId, blocked.recipientAgentId, affected, requests,
        {blocked.recipientAgentId} + authors));
  }

  lemma NoRoots(ctx: Context)
    ensures forall id :: !OnPath(ctx, [], id)
    ensures forall id :: !Owed(ctx, [], id)
  {
  }

  lemma RootAdds(ctx: Context, roots: seq<Facts>, f: Facts)
    ensures forall id :: OnPath(ctx, roots + [f], id) <==>
              OnPath(ctx, roots, id) || (IsRoot(f) && Affects(ctx, [f.agentId], [], id))
    ensures forall id :: Owed(ctx, roots + [f], id) <==>
              Owed(ctx, roots, id) || (IsRoot(f) && Involves(ctx, f.answerObligationRequestIds, [f.agentId], [], id))
  {
    hide Qualifies, Extends, Affects, Involves;
    assert forall h :: h in roots + [f] <==> h in roots || h == f;
    if IsRoot(f) {
      forall id
        ensures Affects(ctx, [f.agentId], [], id) <==> exists w, e :: FromRoot(ctx, f, w, e) && id in w
        ensures Involves(ctx, f.answerObligationRequestIds, [f.agentId], [], id) <==>
                  exists w, e :: FromRoot(ctx, f, w, e) && (id in f.answerObligationRequestIds || id in e)
      {
        RootPaths(ctx, f, id, id);
      }
    }
  }

  lemma OwedWhenHeldUp(ctx: Context, roots: seq<Facts>)
    ensures HeldUp(ctx, roots) <==> exists id :: Owed(ctx, roots, id)
  {
    if HeldUp(ctx, roots) {
      var f, w, e :| f in roots && FromRoot(ctx, f, w, e);
      assert Owed(ctx, roots, f.answerObligationRequestIds[0]);
    }
  }

  // ------------------------------------------------ Simple paths suffice

  /** Targets that a path may enter as intermediate or recipient. */
  ghost function ClearTargets(ctx: Context, qs: seq<Request>): (ids: seq<Id>)
    ensures forall b :: b in ids <==> MayEnter(ctx, b, false) && exists q :: q in qs && q.targetAgentId == b
  {
    if qs == [] then [] else
      var init, last := qs[..|qs| - 1], qs[|qs| - 1];
      assert qs == init + [last];
      ClearTargets(ctx, init) + (if MayEnter(ctx, last.targetAgentId, false) then [last.targetAgentId] else [])
  }

  /** Unanswered Requests into Agents that do not exclude a path. */
  ghost function ClearGraph(ctx: Context): Edges {
    map a | a in ctx.facts :: ClearTargets(ctx, ctx.facts[a].unansweredRequests)
  }

  lemma {:induction false} ClearWalk(ctx: Context, p: seq<Id>) returns (f: seq<string>)
    requires IsPath(ClearGraph(ctx), p) && Distinct(p) && MayEnter(ctx, p[0], true)
    ensures SimpleWalk(ctx, p, f)
    decreases |p|
  {
    hide ClearTargets;
    if |p| == 1 {
      f := [];
    } else {
      var init, b := p[..|p| - 1], p[|p| - 1];
      var f' := ClearWalk(ctx, init);
      assert init[|init| - 1] == p[|p| - 2];
      assert b in Succ(ClearGraph(ctx), p[|p| - 2]) && MayEnter(ctx, b, false);
      var q :| q in ctx.facts[p[|p| - 2]].unansweredRequests && q.targetAgentId == b;
      f := f' + [q.requestId];
      assert p == init + [b];
      LeadsOn(ctx, init, f', q);
      Enter(ctx, init, f, b);
    }
  }

  lemma {:induction false} Simplify(g: Edges, p: seq<Id>) returns (r: seq<Id>)
    requires IsPath(g, p)
    ensures IsPath(g, r) && Distinct(r) && r[0] == p[0] && r[|r| - 1] == p[|p| - 1]
    decreases |p|
  {
    if Distinct(p) {
      r := p;
    } else {
      var i, j :| 0 <= i < j < |p| && p[i] == p[j];
      var cut := p[..i] + p[j..];
      forall k, l | 0 <= k < l < |cut| && l == k + 1
        ensures cut[l] in Succ(g, cut[k])
      {
        var k' := if k < i then k else k - i + j;
        assert p[k' + 1] in Succ(g, p[k']);
        assert l < i ==> cut[l] == p[k' + 1];
        assert l == i ==> cut[l] == p[j] == p[i];
      }
      r := Simplify(g, cut);
    }
  }

  lemma {:induction false} WalkIsPath(ctx: Context, w: seq<Id>, f: seq<string>)
    requires SimpleWalk(ctx, w, f)
    ensures IsPath(ClearGraph(ctx), w)
  {
    forall i, j | 0 <= i < j < |w| && j == i + 1
      ensures w[j] in Succ(ClearGraph(ctx), w[i])
    {
      assert Sent(ctx, w[i], f[i], w[j]);
      assert MayEnter(ctx, w[j], false);
    }
  }

  /**
   * A blocked Delivery is reported exactly when some obligated root, itself
   * without a waiting reason, reaches the recipient through clear Agents.
   */
  lemma HeldUpIffReachable(ctx: Context, agents: seq<Facts>)
    ensures HeldUp(ctx, agents) <==>
              exists f :: f in agents && IsRoot(f) && MayEnter(ctx, f.agentId, true)
                && Reaches(ClearGraph(ctx), f.agentId, ctx.recipient)
  {
    if HeldUp(ctx, agents) {
      var f, w, e :| f in agents && FromRoot(ctx, f, w, e);
      WalkIsPath(ctx, w, e);
      assert MayEnter(ctx, w[0], true);
    }
    var clear := ClearGraph(ctx);
    if f :| f in agents && IsRoot(f) && MayEnter(ctx, f.agentId, true) && Reaches(clear, f.agentId, ctx.recipient) {
      var p :| IsPath(ClearGraph(ctx), p) && p[0] == f.agentId && p[|p| - 1] == ctx.recipient;
      var r := Simplify(ClearGraph(ctx), p);
      var e := ClearWalk(ctx, r);
      assert FromRoot(ctx, f, r, e);
    }
  }
}
