/** The plain snapshot that progress analysis reads (src/coordination/progress-verdict.ts:8-66). */
module ProgressFacts {
  import opened Digraph

  datatype Verdict = Progressing | Waiting | Stalled | Inactive
  datatype WaitingReason = InputRequired | InteractiveSelection | InterruptionHold | RunSuspension | IsolatedResumption
  datatype Phase = Dormant | Starting | Live | Ending
  datatype Work = NoWork | Active | Settled
  datatype Attention = NoAttention | AwaitsInput | AgentWait
  datatype Retention = AwaitingAnswer | AnswerOwed | PendingDelivery | OtherReason(name: string)
  datatype Option<T> = None | Some(value: T)
  datatype Request = Request(requestId: string, targetAgentId: Id)

  datatype Facts = Facts(
    agentId: Id,
    phase: Phase,
    work: Work,
    attention: Attention,
    suspended: bool,
    currentRunFailed: bool,
    retentionReasons: seq<Retention>,
    interruptionHold: bool,
    interactiveSelection: bool,
    isolatedResumption: bool,
    unresolvedOperationReview: bool,
    deliveryProgress: bool,
    answerObligationRequestIds: seq<string>,
    unansweredRequests: seq<Request>)

  function WaitingReasonOf(f: Facts): Option<WaitingReason> {
    if f.phase != Dormant && f.attention == AwaitsInput then Some(InputRequired)
    else if f.interruptionHold then Some(InterruptionHold)
    else if f.suspended then Some(RunSuspension)
    else if f.interactiveSelection then Some(InteractiveSelection)
    else if f.isolatedResumption then Some(IsolatedResumption)
    else None
  }

  predicate IsExplanatory(reason: WaitingReason) {
    reason == InteractiveSelection || reason == IsolatedResumption
  }

  function LocalVerdict(f: Facts): Verdict {
    if f.currentRunFailed then Inactive
    else if f.phase == Dormant then (if f.deliveryProgress then Progressing else Inactive)
    else
      var reason := WaitingReasonOf(f);
      var isExplanatory := reason.Some? && IsExplanatory(reason.value);
      if reason.Some? && !isExplanatory then Waiting
      else if f.phase == Starting || f.phase == Ending || f.work == Active || f.deliveryProgress
        || f.unresolvedOperationReview
      then Progressing
      else if isExplanatory then Waiting
      else Stalled
  }

  // What a snapshot entry says, with no mention of how verdicts and reasons are computed.

  /** Dormant, or its current Run has failed. */
  predicate IsDown(f: Facts) {
    f.currentRunFailed || f.phase == Dormant
  }

  /** Human input, a Hold or a suspension has to end before the Agent can advance. */
  predicate IsBlocked(f: Facts) {
    f.attention == AwaitsInput || f.interruptionHold || f.suspended
  }

  predicate IsAdvancing(f: Facts) {
    f.phase in {Starting, Ending} || f.work == Active || f.deliveryProgress || f.unresolvedOperationReview
  }

  /** Selected by a human or resumed in isolation: a settled Agent has a reason not to advance. */
  predicate IsExcused(f: Facts) {
    f.interactiveSelection || f.isolatedResumption
  }

  /** Live and settled, with nothing under way and nothing to wait for. */
  predicate IsIdle(f: Facts) {
    !IsDown(f) && !IsBlocked(f) && !IsAdvancing(f) && !IsExcused(f)
  }

  /** Blocking waits outrank activity; activity outranks explanatory waits. */
  ghost predicate IsLocalVerdict(f: Facts, v: Verdict) {
    match v
    case Inactive => IsDown(f) && (f.currentRunFailed || !f.deliveryProgress)
    case Waiting => !IsDown(f) && (IsBlocked(f) || (IsExcused(f) && !IsAdvancing(f)))
    case Stalled => IsIdle(f)
    case Progressing =>
      if IsDown(f) then !f.currentRunFailed && f.deliveryProgress else IsAdvancing(f) && !IsBlocked(f)
  }

  ghost predicate Applies(f: Facts, reason: WaitingReason) {
    match reason
    case InputRequired => f.attention == AwaitsInput && f.phase != Dormant
    case InterruptionHold => f.interruptionHold
    case RunSuspension => f.suspended
    case InteractiveSelection => f.interactiveSelection
    case IsolatedResumption => f.isolatedResumption
  }

  ghost function Strength(reason: WaitingReason): nat {
    match reason
    case InputRequired => 5
    case InterruptionHold => 4
    case RunSuspension => 3
    case InteractiveSelection => 2
    case IsolatedResumption => 1
  }

  /** The reported reason applies and is the strongest that does; none is reported only if none applies. */
  lemma ReasonIsStrongest(f: Facts)
    ensures WaitingReasonOf(f).Some? ==> Applies(f, WaitingReasonOf(f).value)
    ensures forall r :: Applies(f, r) ==>
              WaitingReasonOf(f).Some? && Strength(r) <= Strength(WaitingReasonOf(f).value)
  {
  }

  /** The source's `Map` from Agent id to local verdict: a later entry overwrites an earlier one. */
  function LocalVerdicts(agents: seq<Facts>): (m: map<Id, Verdict>)
    ensures forall id :: id in m <==> exists f :: f in agents && f.agentId == id
  {
    if agents == [] then map[]
    else
      var last := agents[|agents| - 1];
      assert agents == agents[..|agents| - 1] + [last];
      LocalVerdicts(agents[..|agents| - 1])[last.agentId := LocalVerdict(last)]
  }

  ghost predicate UniqueIds(agents: seq<Facts>) {
    forall f, h :: f in agents && h in agents && f.agentId == h.agentId ==> f == h
  }

  lemma {:induction false} LocalVerdictOf(agents: seq<Facts>, f: Facts)
    requires UniqueIds(agents) && f in agents
    ensures f.agentId in LocalVerdicts(agents) && LocalVerdicts(agents)[f.agentId] == LocalVerdict(f)
    ensures IsLocalVerdict(f, LocalVerdicts(agents)[f.agentId])
  {
    var init, last := agents[..|agents| - 1], agents[|agents| - 1];
    assert agents == init + [last];
    if last.agentId != f.agentId {
      LocalVerdictOf(init, f);
    }
  }

  /** One unanswered Request as a dependency edge. */
  datatype Edge = Edge(requestId: string, fromAgentId: Id, targetAgentId: Id)

  function RequestsOf(f: Facts): (edges: seq<Edge>)
    ensures forall e :: e in edges <==>
              exists q :: q in f.unansweredRequests && e == Edge(q.requestId, f.agentId, q.targetAgentId)
  {
    var edges := seq(|f.unansweredRequests|, i requires 0 <= i < |f.unansweredRequests| =>
        Edge(f.unansweredRequests[i].requestId, f.agentId, f.unansweredRequests[i].targetAgentId));
    assert forall q :: q in f.unansweredRequests ==> Edge(q.requestId, f.agentId, q.targetAgentId) in edges by {
      forall i | 0 <= i < |f.unansweredRequests|
        ensures Edge(f.unansweredRequests[i].requestId, f.agentId, f.unansweredRequests[i].targetAgentId) in edges
      {
        var e := edges[i];
      }
    }
    edges
  }

  /** Every unanswered Request of the snapshot. */
  function AllRequests(agents: seq<Facts>): (edges: seq<Edge>)
    ensures forall e :: e in edges <==> exists f :: f in agents && e in RequestsOf(f)
  {
    if agents == [] then [] else
      var init, last := agents[..|agents| - 1], agents[|agents| - 1];
      assert agents == init + [last];
      AllRequests(init) + RequestsOf(last)
  }

  ghost predicate Links(edges: seq<Edge>, a: Id, b: Id) {
    exists e :: e in edges && e.fromAgentId == a && e.targetAgentId == b
  }

  lemma LinksSnoc(edges: seq<Edge>, last: Edge)
    ensures forall a, b :: Links(edges + [last], a, b) <==>
              Links(edges, a, b) || (last.fromAgentId == a && last.targetAgentId == b)
  {
    assert forall e :: e in edges + [last] <==> e in edges || e == last;
  }

  /** The dependency graph that a list of Requests spans. */
  ghost function GraphOf(edges: seq<Edge>): (g: Edges)
    ensures forall a, b :: b in Succ(g, a) <==> Links(edges, a, b)
  {
    if edges == [] then map[] else
      var init, last := edges[..|edges| - 1], edges[|edges| - 1];
      assert edges == init + [last];
      var g := GraphOf(init);
      LinksSnoc(init, last);
      g[last.fromAgentId := Succ(g, last.fromAgentId) + [last.targetAgentId]]
  }

  /** The Requests sent by members of `senders`. */
  function SentBy(edges: seq<Edge>, senders: set<Id>): (r: seq<Edge>)
    ensures forall e :: e in r <==> e in edges && e.fromAgentId in senders
  {
    if edges == [] then [] else
      var init, last := edges[..|edges| - 1], edges[|edges| - 1];
      assert edges == init + [last];
      SentBy(init, senders) + (if last.fromAgentId in senders then [last] else [])
  }
}
