/**
 * Pending Agent Waits: from the outstanding snapshot to one settled result,
 * re-arbitrated when that result is about to be committed
 * (src/coordination/agent-waits.ts:105-206, 229-314, 316-341, 361-456).
 */
module AgentWaits {
  import opened AnswerArbitration

  /** The source's fourth phase, "resuming", never outlives one synchronous step. */
  datatype Phase = Waiting | ResultPending | Fenced

  datatype Result = Answers(slots: seq<Slot>) | Preempted

  datatype PendingWait = PendingWait(requests: seq<Id>, phase: Phase, candidate: Option<Result>)

  datatype Settlement = Resolved(result: Result) | Rejected

  /** `settled` is what each Wait's promise became; the first settlement stands. */
  datatype Waits = Waits(pending: map<Id, PendingWait>, settled: map<Id, Settlement>)

  datatype Publication = Commits(result: Result) | Interrupted | Throws | Unguarded

  function Settle(ws: Waits, key: Id, s: Settlement): map<Id, Settlement> {
    if key in ws.settled then ws.settled else ws.settled[key := s]
  }

  function Fence(ws: Waits, key: Id): Waits {
    if key !in ws.pending || ws.pending[key].phase.Fenced? then ws
    else Waits(ws.pending[key := ws.pending[key].(phase := Fenced)], Settle(ws, key, Rejected))
  }

  function Complete(ws: Waits, key: Id): Waits {
    ws.(pending := ws.pending - {key})
  }

  function Offer(ws: Waits, key: Id, requests: seq<Id>, result: Result): Waits {
    Waits(ws.pending[key := PendingWait(requests, ResultPending, Some(result))], Settle(ws, key, Resolved(result)))
  }

  /** `live`: the Run is current, not aborted, not suspended, and the Workflow is not shut down. */
  function Resume(ws: Waits, key: Id, result: Result, live: bool): Waits
    requires key in ws.pending
  {
    if !ws.pending[key].phase.Waiting? then ws
    else if !live then Fence(ws, key)
    else Offer(ws, key, ws.pending[key].requests, result)
  }

  function Begin(ws: Waits, e: Evidence, key: Id, requests: seq<Id>): Waits {
    var completed := CompletedAggregate(e, requests);
    if completed.Some? then Offer(ws, key, requests, Answers(completed.value))
    else ws.(pending := ws.pending[key := PendingWait(requests, Waiting, None)])
  }

  function Reconcile(ws: Waits, e: Evidence, key: Id, live: bool): Waits
    requires key in ws.pending
  {
    var wait := ws.pending[key];
    if !wait.phase.Waiting? then ws
    else if Inspect(e, wait.requests).Cancelled? then Fence(ws, key)
    else
      var completed := CompletedAggregate(e, wait.requests);
      if completed.Some? then Resume(ws, key, Answers(completed.value), live) else ws
  }

  /** The complete snapshot wins over preempting input; `reserved` is the scheduler's answer. */
  function Preempt(ws: Waits, e: Evidence, key: Id, current: bool, reserved: bool, live: bool): Waits
    requires key in ws.pending
  {
    var wait := ws.pending[key];
    if !wait.phase.Waiting? then ws
    else if Inspect(e, wait.requests).Cancelled? then Fence(ws, key)
    else
      var completed := CompletedAggregate(e, wait.requests);
      if completed.Some? then Resume(ws, key, Answers(completed.value), live)
      else if !current || !reserved then ws
      else Resume(ws, key, Preempted, live)
  }

  /** What Pi may commit as the Wait's tool result, and the Waits after that decision. */
  function GuardResultCommit(ws: Waits, e: Evidence, key: Id, details: Result, current: bool): (Waits, Publication) {
    if key !in ws.pending then (ws, Unguarded)
    else
      var wait := ws.pending[key];
      if wait.phase.ResultPending? && current && wait.candidate == Some(details) then
        match details
        case Preempted => (ws, Commits(Preempted))
        case Answers(slots) =>
          match Reconfirm(e, slots)
          case Unchanged => (ws, Commits(details))
          case Replaced(replacement) =>
            (ws.(pending := ws.pending[key := wait.(candidate := Some(Answers(replacement)))]),
                Commits(Answers(replacement)))
          case Lost => (Fence(ws, key), Interrupted)
          case Invalid => (ws, Throws)
      else (Fence(ws, key), Interrupted)
  }

  // ------------------------------------ What becomes of a Wait, by its Answers

  ghost predicate IsFenced(ws: Waits, key: Id, ws': Waits)
    requires key in ws.pending
  {
    ws' == Waits(ws.pending[key := ws.pending[key].(phase := Fenced)], ws.settled[key := Rejected])
  }

  ghost predicate IsResolved(ws: Waits, key: Id, requests: seq<Id>, result: Result, ws': Waits) {
    ws' == Waits(ws.pending[key := PendingWait(requests, ResultPending, Some(result))],
                 ws.settled[key := Resolved(result)])
  }

  ghost predicate IsAnswered(ws: Waits, e: Evidence, key: Id, requests: seq<Id>, ws': Waits) {
    exists slots :: ListsAnswers(e, requests, slots) && IsResolved(ws, key, requests, Answers(slots), ws')
  }

  ghost predicate IsOpen(ws: Waits, key: Id) {
    key in ws.pending && ws.pending[key].phase.Waiting? && key !in ws.settled
  }

  ghost predicate AnyCancelled(e: Evidence, requests: seq<Id>) {
    exists r :: r in requests && r in e.cancelled
  }

  /** A Wait resolves at once when all its Answers can be had; otherwise it is open. */
  lemma BeginDecides(ws: Waits, e: Evidence, key: Id, requests: seq<Id>)
    requires key !in ws.settled
    ensures var ws' := Begin(ws, e, key, requests);
            if AllObtainable(e, requests) then IsAnswered(ws, e, key, requests, ws')
            else ws' == ws.(pending := ws.pending[key := PendingWait(requests, Waiting, None)])
  {
    hide CompletedAggregate, AllObtainable, ListsAnswers;
    AggregateIsComplete(e, requests);
  }

  lemma InspectFails(e: Evidence, requests: seq<Id>)
    ensures Inspect(e, requests).Cancelled? <==> AnyCancelled(e, requests)
  {
  }

  /** A check resolves an open Wait with all Answers or leaves it alone; a cancelled Request or a dead Run ends it. */
  lemma ReconcileDecides(ws: Waits, e: Evidence, key: Id, live: bool)
    requires IsOpen(ws, key)
    ensures var (requests, ws') := (ws.pending[key].requests, Reconcile(ws, e, key, live));
            if AnyCancelled(e, requests) then IsFenced(ws, key, ws')
            else if !AllObtainable(e, requests) then ws' == ws
            else if !live then IsFenced(ws, key, ws')
            else IsAnswered(ws, e, key, requests, ws')
  {
    hide CompletedAggregate, AllObtainable, ListsAnswers, Inspect, AnyCancelled;
    InspectFails(e, ws.pending[key].requests);
    AggregateIsComplete(e, ws.pending[key].requests);
  }

  /**
   * The complete snapshot wins over preempting input, whatever the Run and the
   * scheduler say. Only while an Answer is missing does input preempt, and then
   * exactly when the Run is current and the scheduler reserved its Delivery.
   */
  lemma PreemptDecides(ws: Waits, e: Evidence, key: Id, current: bool, reserved: bool, live: bool)
    requires IsOpen(ws, key)
    ensures var (requests, ws') := (ws.pending[key].requests, Preempt(ws, e, key, current, reserved, live));
            if AnyCancelled(e, requests) then IsFenced(ws, key, ws')
            else if !AllObtainable(e, requests) && !(current && reserved) then ws' == ws
            else if !live then IsFenced(ws, key, ws')
            else if AllObtainable(e, requests) then IsAnswered(ws, e, key, requests, ws')
            else IsResolved(ws, key, requests, Preempted, ws')
  {
    hide CompletedAggregate, AllObtainable, ListsAnswers, Inspect, AnyCancelled;
    InspectFails(e, ws.pending[key].requests);
    AggregateIsComplete(e, ws.pending[key].requests);
  }

  /** Fencing rejects an open Wait; a Wait whose result was handed out keeps its promise and is not published. */
  lemma FenceDecides(ws: Waits, key: Id)
    requires key in ws.pending
    ensures IsOpen(ws, key) ==> IsFenced(ws, key, Fence(ws, key))
    ensures Fence(ws, key).pending == ws.pending[key := ws.pending[key].(phase := Fenced)]
    ensures key in ws.settled ==> Fence(ws, key).settled == ws.settled
  {
  }

  /** The result in question is the one this Wait, with its Run still current, has prepared. */
  ghost predicate IsPrepared(ws: Waits, key: Id, details: Result, current: bool) {
    && key in ws.pending && ws.pending[key].phase.ResultPending?
    && current && ws.pending[key].candidate == Some(details)
  }

  ghost predicate AnyInFlight(e: Evidence, slots: seq<Slot>) {
    exists s :: s in slots && s.answer in e.inFlight && s.answer !in e.delivered
  }

  /**
   * What may be committed: a result that its Wait prepared, told truthfully,
   * unless one of its Answers is now on its way by direct Delivery. Any other
   * result of a Wait is refused, and that Wait ends.
   */
  lemma GuardDecides(ws: Waits, e: Evidence, key: Id, details: Result, current: bool)
    requires IsPrepared(ws, key, details, current) && details.Answers? ==> NamesCanonical(e, details.slots)
    ensures var (ws', publication) := GuardResultCommit(ws, e, key, details, current);
            if key !in ws.pending then publication == Unguarded && ws' == ws
            else if !IsPrepared(ws, key, details, current) || (details.Answers? && AnyInFlight(e, details.slots))
            then publication == Interrupted && ws' == Fence(ws, key)
            else if details.Preempted? then publication == Commits(Preempted) && ws' == ws
            else exists slots :: SameAnswers(slots, details.slots) && Truthful(e, slots)
                   && publication == Commits(Answers(slots))
                   && ws' == ws.(pending := ws.pending[key := ws.pending[key].(candidate := Some(Answers(slots)))])
  {
    hide Reconfirm, SameAnswers, Truthful, NamesCanonical, AnyInFlight;
    if IsPrepared(ws, key, details, current) && details.Answers? {
      CommitDecides(e, details.slots);
    }
  }

  lemma CommitDecides(e: Evidence, slots: seq<Slot>)
    requires NamesCanonical(e, slots)
    ensures match Reconfirm(e, slots)
            case Lost => AnyInFlight(e, slots)
            case Unchanged => !AnyInFlight(e, slots) && Truthful(e, slots) && SameAnswers(slots, slots)
            case Replaced(current) => !AnyInFlight(e, slots) && Truthful(e, current) && SameAnswers(current, slots)
            case Invalid => false
  {
    hide Reconfirm, NamesCanonical;
    ReconfirmDecides(e, slots);
  }

  class AgentWaitCoordinator {
    var pendingByKey: map<Id, PendingWait>
    ghost var settled: map<Id, Settlement>

    ghost function View(): Waits
      reads this
    {
      Waits(pendingByKey, settled)
    }

    constructor ()
      ensures View() == Waits(map[], map[])
    {
      pendingByKey, settled := map[], map[];
    }

    /** A key names one tool call, which waits once; a cancelled Request rejects the call before it waits. */
    method Wait(e: Evidence, key: Id, requestMessageIds: seq<Id>) returns (ok: bool)
      modifies this
      ensures ok <==> requestMessageIds != [] && key !in old(pendingByKey) && Inspect(e, requestMessageIds).Inspected?
      ensures View() == if ok then Begin(old(View()), e, key, requestMessageIds) else old(View())
    {
      if requestMessageIds == [] || Inspect(e, requestMessageIds).Cancelled? || key in pendingByKey {
        return false;
      }
      var completed := CompletedAggregate(e, requestMessageIds);
      pendingByKey := pendingByKey[key := PendingWait(requestMessageIds, Waiting, None)];
      if completed.Some? {
        var result := Answers(completed.value);
        pendingByKey := pendingByKey[key := PendingWait(requestMessageIds, ResultPending, Some(result))];
        ResolvePromise(key, result);
      }
      return true;
    }

    method ResolvePromise(key: Id, result: Result)
      modifies this`settled
      ensures settled == Settle(old(View()), key, Resolved(result))
    {
      settled := if key in settled then settled else settled[key := Resolved(result)];
    }

    method FenceWait(key: Id)
      modifies this
      ensures View() == Fence(old(View()), key)
    {
      if key !in pendingByKey || pendingByKey[key].phase.Fenced? {
        return;
      }
      pendingByKey := pendingByKey[key := pendingByKey[key].(phase := Fenced)];
      settled := if key in settled then settled else settled[key := Rejected];
    }

    method CompleteWait(key: Id)
      modifies this
      ensures View() == Complete(old(View()), key)
    {
      pendingByKey := pendingByKey - {key};
    }

    method ResumeWithResult(key: Id, result: Result, live: bool)
      requires key in pendingByKey
      modifies this
      ensures View() == Resume(old(View()), key, result, live)
    {
      if !pendingByKey[key].phase.Waiting? {
        return;
      }
      if !live {
        FenceWait(key);
        return;
      }
      pendingByKey := pendingByKey[key := pendingByKey[key].(phase := ResultPending, candidate := Some(result))];
      ResolvePromise(key, result);
    }

    method ReconcileWait(e: Evidence, key: Id, live: bool)
      requires key in pendingByKey
      modifies this
      ensures View() == Reconcile(old(View()), e, key, live)
    {
      var wait := pendingByKey[key];
      if !wait.phase.Waiting? {
        return;
      }
      if Inspect(e, wait.requests).Cancelled? {
        FenceWait(key);
        return;
      }
      var completed := CompletedAggregate(e, wait.requests);
      if completed.None? {
        return;
      }
      ResumeWithResult(key, Answers(completed.value), live);
    }

    method PreemptWait(e: Evidence, key: Id, current: bool, reserved: bool, live: bool)
      requires key in pendingByKey
      modifies this
      ensures View() == Preempt(old(View()), e, key, current, reserved, live)
    {
      var wait := pendingByKey[key];
      if !wait.phase.Waiting? {
        return;
      }
      if Inspect(e, wait.requests).Cancelled? {
        FenceWait(key);
        return;
      }
      var completed := CompletedAggregate(e, wait.requests);
      if completed.Some? {
        ResumeWithResult(key, Answers(completed.value), live);
        return;
      }
      if !current || !reserved {
        return;
      }
      ResumeWithResult(key, Preempted, live);
    }

    method GuardCommit(e: Evidence, key: Id, details: Result, current: bool) returns (publication: Publication)
      modifies this
      ensures View() == GuardResultCommit(old(View()), e, key, details, current).0
      ensures publication == GuardResultCommit(old(View()), e, key, details, current).1
    {
      if key !in pendingByKey {
        return Unguarded;
      }
      var wait := pendingByKey[key];
      if wait.phase.ResultPending? && current && wait.candidate == Some(details) {
        if details.Preempted? {
          return Commits(Preempted);
        }
        var reconfirmation := Reconfirm(e, details.slots);
        if reconfirmation.Invalid? {
          return Throws;
        }
        if reconfirmation.Unchanged? {
          return Commits(details);
        }
        if reconfirmation.Replaced? {
          pendingByKey := pendingByKey[key := wait.(candidate := Some(Answers(reconfirmation.slots)))];
          return Commits(Answers(reconfirmation.slots));
        }
      }
      FenceWait(key);
      return Interrupted;
    }
  }
}
