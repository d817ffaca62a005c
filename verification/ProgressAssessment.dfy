/** One assessment of a snapshot (src/coordination/progress-verdict.ts:90-97). */
module ProgressAssessment {
  import opened Digraph
  import opened ProgressFacts
  import opened VerdictPropagation
  import opened DependencyDeadlocks
  import DeliveryStalls
  import ComponentSearch

  // --------------------------------------------------------- Specification

  ghost function IdleIds(agents: seq<Facts>): set<Id> {
    set f | f in agents && IsIdle(f) :: f.agentId
  }

  /** `f` leads through Requests of idle Agents to an Agent that is not idle and has verdict `v`. */
  ghost predicate LeadsTo(agents: seq<Facts>, f: Facts, v: Verdict) {
    exists h :: h in agents && !IsIdle(h) && IsLocalVerdict(h, v) &&
      Reaches(GraphOf(SentBy(AllRequests(agents), IdleIds(agents))), f.agentId, h.agentId)
  }

  /** The final verdict of `f`, from snapshot facts and Requests alone. */
  ghost predicate IsJudged(agents: seq<Facts>, f: Facts, v: Verdict) {
    if !IsIdle(f) then IsLocalVerdict(f, v)
    else if LeadsTo(agents, f, Progressing) then v == Progressing
    else if LeadsTo(agents, f, Waiting) then v == Waiting
    else v == Stalled
  }

  /** Idle, and retained by nothing but Request relationships. */
  ghost predicate IsRetainedByRequests(f: Facts) {
    && IsIdle(f) && f.retentionReasons != []
    && (set r | r in f.retentionReasons) <= {AwaitingAnswer, AnswerOwed, PendingDelivery}
  }

  ghost function OnlyRetainedByRequests(agents: seq<Facts>): set<Id> {
    set f | f in agents && IsRetainedByRequests(f) :: f.agentId
  }

  /** Nothing to wait for and, inside a path, no progress of its own. */
  ghost predicate IsClear(f: Facts, isInside: bool) {
    (forall r :: !Applies(f, r)) && !(isInside && IsLocalVerdict(f, Progressing))
  }

  /** Step `i` of a path: a clear Agent that sent the next Request. */
  ghost predicate IsStep(agents: seq<Facts>, walk: seq<Id>, sent: seq<string>, i: int)
    requires 0 <= i < |walk| == |sent| + 1
  {
    exists h :: h in agents && h.agentId == walk[i] && IsClear(h, 0 < i < |walk| - 1)
      && (i < |sent| ==> Request(sent[i], walk[i + 1]) in h.unansweredRequests)
  }

  /** `walk` is a simple path of unanswered Requests `sent` from the obligated Agent `f`, at rest, to `recipient`. */
  ghost predicate IsStallPath(agents: seq<Facts>, recipient: Id, f: Facts, walk: seq<Id>, sent: seq<string>) {
    && f in agents && f.phase == Live && f.work != Active && f.answerObligationRequestIds != []
    && |walk| == |sent| + 1 && walk[0] == f.agentId && walk[|sent|] == recipient
    && (forall i, j :: 0 <= i < j < |walk| ==> walk[i] != walk[j])
    && (forall i :: 0 <= i < |walk| ==> IsStep(agents, walk, sent, i))
  }

  // ---------------------------------------------------------------- Proofs

  lemma IdleIdsAreStalled(agents: seq<Facts>)
    requires UniqueIds(agents)
    ensures IdleIds(agents) == StalledIds(LocalVerdicts(agents))
  {
    hide IsIdle, LocalVerdict;
    var local := LocalVerdicts(agents);
    forall id | id in IdleIds(agents)
      ensures id in StalledIds(local)
    {
      var f :| f in agents && IsIdle(f) && f.agentId == id;
      LocalVerdictOf(agents, f);
      OneLocalVerdict(f, Stalled, local[id]);
    }
    forall id | id in StalledIds(local)
      ensures id in IdleIds(agents)
    {
      var f :| f in agents && f.agentId == id;
      LocalVerdictOf(agents, f);
    }
  }

  lemma OneLocalVerdict(f: Facts, v: Verdict, w: Verdict)
    requires IsLocalVerdict(f, v) && IsLocalVerdict(f, w)
    ensures v == w
  {
  }

  lemma SourceOf(agents: seq<Facts>, h: Facts, w: Verdict)
    requires UniqueIds(agents) && h in agents && !IsIdle(h) && IsLocalVerdict(h, w)
    ensures w != Stalled
    ensures AsDependency(LocalVerdicts(agents), h.agentId) == if w == Inactive then Stalled else w
  {
    LocalVerdictOf(agents, h);
    OneLocalVerdict(h, w, LocalVerdicts(agents)[h.agentId]);
  }

  lemma SourceFound(agents: seq<Facts>, id: Id, w: Verdict) returns (h: Facts)
    requires UniqueIds(agents) && AsDependency(LocalVerdicts(agents), id) == w != Stalled
    ensures h in agents && h.agentId == id && !IsIdle(h) && IsLocalVerdict(h, w)
  {
    h :| h in agents && h.agentId == id;
    LocalVerdictOf(agents, h);
  }

  /** The best verdict that an idle Agent reaches is one that it leads to, and none that it leads to is better. */
  lemma BestIsJudged(agents: seq<Facts>, f: Facts, v: Verdict)
    requires UniqueIds(agents) && f in agents && IsIdle(f)
    requires IsBestReachable(StallGraph(agents, LocalVerdicts(agents)), LocalVerdicts(agents), f.agentId, v)
    ensures IsJudged(agents, f, v)
  {
    hide Reaches, IsIdle, IdleIds, StalledIds, UniqueIds, IsLocalVerdict, AsDependency;
    var local := LocalVerdicts(agents);
    var g := StallGraph(agents, local);
    IdleIdsAreStalled(agents);
    forall h, w | h in agents && !IsIdle(h) && IsLocalVerdict(h, w)
      ensures AsDependency(local, h.agentId) == (if w == Inactive then Stalled else w)
    {
      SourceOf(agents, h, w);
    }
    var b :| Reaches(g, f.agentId, b) && AsDependency(local, b) == v;
    if v != Stalled {
      var h := SourceFound(agents, b, v);
      assert LeadsTo(agents, f, v);
    }
    NeverInactive(local, b);
  }

  lemma NeverInactive(local: Verdicts, id: Id)
    ensures AsDependency(local, id) != Inactive
  {
  }

  lemma CombinedIsJudged(agents: seq<Facts>, verdicts: Verdicts, f: Facts)
    requires UniqueIds(agents) && Combined(agents, LocalVerdicts(agents), verdicts) && f in agents
    ensures f.agentId in verdicts && IsJudged(agents, f, verdicts[f.agentId])
  {
    hide IsBestReachable, StallGraph, LeadsTo;
    LocalVerdictOf(agents, f);
    if IsIdle(f) {
      BestIsJudged(agents, f, verdicts[f.agentId]);
    }
  }

  lemma EligibleAgent(agents: seq<Facts>, f: Facts)
    requires UniqueIds(agents) && f in agents
    ensures IsDeadlockEligible(f, LocalVerdicts(agents)) <==> IsRetainedByRequests(f)
  {
    hide IsIdle, LocalVerdict;
    LocalVerdictOf(agents, f);
    if IsIdle(f) {
      OneLocalVerdict(f, Stalled, LocalVerdicts(agents)[f.agentId]);
    }
    var reasons := set r | r in f.retentionReasons;
    assert forall r :: r in f.retentionReasons <==> r in reasons;
  }

  lemma EligibleAreRetainedByRequests(agents: seq<Facts>)
    requires UniqueIds(agents)
    ensures ComponentSearch.Members(EligibleIds(agents, LocalVerdicts(agents))) == OnlyRetainedByRequests(agents)
  {
    hide IsRetainedByRequests, IsDeadlockEligible;
    var local := LocalVerdicts(agents);
    var eligible := EligibleIds(agents, local);
    forall id | id in eligible
      ensures id in OnlyRetainedByRequests(agents)
    {
      var f :| f in agents && IsDeadlockEligible(f, local) && f.agentId == id;
      EligibleAgent(agents, f);
    }
    forall id | id in OnlyRetainedByRequests(agents)
      ensures id in eligible
    {
      var f :| f in agents && IsRetainedByRequests(f) && f.agentId == id;
      EligibleAgent(agents, f);
    }
  }

  lemma ClearMayEnter(agents: seq<Facts>, ctx: DeliveryStalls.Context, h: Facts, isInside: bool)
    requires UniqueIds(agents) && h in agents && h.agentId in ctx.facts && ctx.facts[h.agentId] == h
    requires ctx.local == LocalVerdicts(agents) && (isInside ==> h.agentId != ctx.recipient)
    ensures DeliveryStalls.MayEnter(ctx, h.agentId, !isInside) <==> IsClear(h, isInside)
  {
    hide WaitingReasonOf, LocalVerdict, IsLocalVerdict, Applies, UniqueIds;
    ReasonIsStrongest(h);
    LocalVerdictOf(agents, h);
    if IsLocalVerdict(h, Progressing) {
      OneLocalVerdict(h, Progressing, ctx.local[h.agentId]);
    }
  }

  lemma EntryNeeds(ctx: DeliveryStalls.Context, id: Id, isRoot: bool)
    ensures DeliveryStalls.MayEnter(ctx, id, isRoot) ==> id in ctx.facts
    ensures id == ctx.recipient ==>
              (DeliveryStalls.MayEnter(ctx, id, isRoot) <==> DeliveryStalls.MayEnter(ctx, id, true))
  {
  }

  lemma SameAgent(agents: seq<Facts>, f: Facts, h: Facts)
    requires UniqueIds(agents) && f in agents && h in agents && f.agentId == h.agentId
    ensures f == h
  {
  }

  ghost predicate MayStep(ctx: DeliveryStalls.Context, walk: seq<Id>, sent: seq<string>, i: int)
    requires 0 <= i < |walk| == |sent| + 1
  {
    && DeliveryStalls.MayEnter(ctx, walk[i], i == 0)
    && (i < |sent| ==> DeliveryStalls.Sent(ctx, walk[i], sent[i], walk[i + 1]))
  }

  lemma TracedStep(agents: seq<Facts>, ctx: DeliveryStalls.Context, walk: seq<Id>, sent: seq<string>, i: nat)
    requires UniqueIds(agents) && ctx.facts == DeliveryStalls.FactsById(agents) && ctx.local == LocalVerdicts(agents)
    requires i < |walk| == |sent| + 1 && walk[|sent|] == ctx.recipient && DeliveryStalls.Distinct(walk)
    ensures MayStep(ctx, walk, sent, i) <==> IsStep(agents, walk, sent, i)
  {
    hide IsClear, DeliveryStalls.MayEnter, UniqueIds;
    EntryNeeds(ctx, walk[i], i == 0);
    if walk[i] in ctx.facts {
      var h := ctx.facts[walk[i]];
      ClearMayEnter(agents, ctx, h, 0 < i < |walk| - 1);
      if IsStep(agents, walk, sent, i) {
        var k :| k in agents && k.agentId == walk[i] && IsClear(k, 0 < i < |walk| - 1)
          && (i < |sent| ==> Request(sent[i], walk[i + 1]) in k.unansweredRequests);
        SameAgent(agents, h, k);
      }
    }
  }

  lemma StepsMakePaths(agents: seq<Facts>, ctx: DeliveryStalls.Context, f: Facts, walk: seq<Id>, sent: seq<string>)
    requires f in agents && |walk| == |sent| + 1
    requires forall i :: 0 <= i < |walk| ==> (MayStep(ctx, walk, sent, i) <==> IsStep(agents, walk, sent, i))
    ensures walk[|sent|] == ctx.recipient && DeliveryStalls.Distinct(walk) ==>
              (DeliveryStalls.FromRoot(ctx, f, walk, sent) <==> IsStallPath(agents, ctx.recipient, f, walk, sent))
  {
    hide DeliveryStalls.MayEnter, DeliveryStalls.Sent, IsStep;
    if DeliveryStalls.FromRoot(ctx, f, walk, sent) {
      assert forall i :: 0 <= i < |walk| ==> MayStep(ctx, walk, sent, i);
    }
    if IsStallPath(agents, ctx.recipient, f, walk, sent) {
      forall i | 0 <= i < |walk|
        ensures DeliveryStalls.MayEnter(ctx, walk[i], i == 0)
        ensures i < |sent| ==> DeliveryStalls.Sent(ctx, walk[i], sent[i], walk[i + 1])
      {
        assert MayStep(ctx, walk, sent, i);
      }
    }
  }

  /** The paths that a trace collects, in terms of the snapshot alone. */
  lemma TracedPaths(agents: seq<Facts>, recipient: Id, f: Facts, walk: seq<Id>, sent: seq<string>)
    requires UniqueIds(agents) && f in agents
    ensures DeliveryStalls.FromRoot(
              DeliveryStalls.Context(DeliveryStalls.FactsById(agents), LocalVerdicts(agents), recipient), f, walk, sent)
            <==> IsStallPath(agents, recipient, f, walk, sent)
  {
    hide MayStep, IsStep, UniqueIds, DeliveryStalls.MayEnter;
    var ctx := DeliveryStalls.Context(DeliveryStalls.FactsById(agents), LocalVerdicts(agents), recipient);
    if |walk| == |sent| + 1 && walk[|sent|] == recipient && DeliveryStalls.Distinct(walk) {
      forall i | 0 <= i < |walk|
        ensures MayStep(ctx, walk, sent, i) <==> IsStep(agents, walk, sent, i)
      {
        TracedStep(agents, ctx, walk, sent, i);
      }
      StepsMakePaths(agents, ctx, f, walk, sent);
    }
  }

  // ------------------------------------------------------------ The method

  method AssessProgress(agents: seq<Facts>, blocked: seq<DeliveryStalls.BlockedDelivery>)
      returns (verdicts: Verdicts, deadlocks: seq<Deadlock>, stalls: seq<DeliveryStalls.StallPath>)
    requires UniqueIds(agents)
    ensures Combined(agents, LocalVerdicts(agents), verdicts)
    ensures forall f :: f in agents ==> f.agentId in verdicts && IsJudged(agents, f, verdicts[f.agentId])
    ensures AreDeadlocks(AllRequests(agents), OnlyRetainedByRequests(agents), deadlocks)
    ensures DeliveryStalls.AreTraces(agents, LocalVerdicts(agents), blocked, stalls)
    ensures forall d, a :: d in deadlocks && a in d.agentIds ==> a in verdicts && verdicts[a] == Stalled
  {
    hide Combined, AreDeadlocks, IsJudged, OnlyRetainedByRequests;
    var local := LocalVerdicts(agents);
    verdicts := CombineDependencies(agents, local);
    forall f | f in agents
      ensures f.agentId in verdicts && IsJudged(agents, f, verdicts[f.agentId])
    {
      CombinedIsJudged(agents, verdicts, f);
    }
    deadlocks := DetectDependencyDeadlocks(agents, local);
    EligibleAreRetainedByRequests(agents);
    stalls := DeliveryStalls.TraceDeliveryStalls(agents, local, blocked);
    forall d, a | d in deadlocks && a in d.agentIds
      ensures a in verdicts && verdicts[a] == Stalled
    {
      DeadlockStaysStalled(agents, local, verdicts, deadlocks, d, a);
    }
  }
}
