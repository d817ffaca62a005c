/**
 * One requester, all interleavings: Answers admitted and made canonical,
 * Requests cancelled, direct Deliveries reserved, committed and released,
 * Waits and retries prepared and published. Each Answer is proven once.
 */
module AnswerProofs {
  import opened AnswerArbitration
  import opened AgentWaits

  /**
   * `underWay` are the reserved hand-offs the Runtime may still commit and
   * `proofs` counts the requester's transcript entries that prove an Answer;
   * `retries` are retry results not yet published, `published` what was.
   */
  datatype World = World(
    admitted: map<Id, Id>, canonical: set<Id>, cancelled: set<Id>,
    inFlight: set<Id>, underWay: set<Id>, proofs: multiset<Id>,
    waits: Waits, retries: map<Id, Slot>, published: map<Id, Result>)

  const START := World(map[], {}, {}, {}, {}, multiset{}, Waits(map[], map[]), map[], map[])

  function Proven(w: World): set<Id> {
    set a | a in w.proofs
  }

  function EvidenceOf(w: World): Evidence {
    Evidence(w.admitted, w.canonical, w.cancelled, Proven(w), w.inFlight)
  }

  datatype Action =
    | AdmitAnswer(request: Id, answer: Id)
    | MakeCanonical(request: Id)
    | DiscardAnswer(request: Id)
    | CancelRequest(request: Id)
    | Reserve(answer: Id)
    | CommitDirect(answer: Id)
    | Release(answer: Id)
    | BeginWait(key: Id, requests: seq<Id>)
    | ReconcileWait(key: Id, live: bool)
    | PreemptWait(key: Id, current: bool, reserved: bool, live: bool)
    | FenceWait(key: Id)
    | CompleteWait(key: Id)
    | PublishWait(key: Id, details: Result, current: bool)
    | PrepareRetry(key: Id, request: Id)
    | PublishRetry(key: Id)

  function Known(w: World, key: Id): bool {
    key in w.waits.pending || key in w.waits.settled || key in w.retries || key in w.published
  }

  /**
   * When each step can happen. Direct Delivery reserves only what is neither
   * reserved nor proven, and a released hand-off is never committed. A tool
   * call waits or retries once, and its result is published once; a result
   * already handed to its caller can outlive its pending Wait.
   */
  predicate Enabled(w: World, a: Action) {
    match a
    case AdmitAnswer(r, answer) =>
        r !in w.admitted && answer !in w.admitted.Values && answer !in w.proofs && answer !in w.inFlight
    case MakeCanonical(r) => r in w.admitted
    case DiscardAnswer(r) => r in w.admitted && r !in w.canonical
    case CancelRequest(r) => r in w.admitted ==> w.admitted[r] !in w.proofs
    case Reserve(answer) => answer !in w.proofs && answer !in w.inFlight
    case CommitDirect(answer) => answer in w.underWay
    case Release(_) => true
    case BeginWait(key, requests) => requests != [] && !Known(w, key) && Inspect(EvidenceOf(w), requests).Inspected?
    case ReconcileWait(key, _) => key in w.waits.pending
    case PreemptWait(key, _, _, _) => key in w.waits.pending
    case FenceWait(key) => true
    case CompleteWait(key) => true
    case PublishWait(key, details, _) =>
      key !in w.published
        && (key in w.waits.pending || (key in w.waits.settled && w.waits.settled[key] == Resolved(details)))
    case PrepareRetry(key, r) => !Known(w, key) && r !in w.cancelled && HasSlot(InspectOne(EvidenceOf(w), r))
    case PublishRetry(key) => key in w.retries && key !in w.published
  }

  /** The requester's transcript gains a tool result; its retrieved slots are proofs. */
  function Append(w: World, key: Id, result: Result): World {
    w.(published := w.published[key := result],
       proofs := w.proofs + if result.Answers? then multiset(ProvedBy(result.slots)) else multiset{})
  }

  function Act(w: World, a: Action): World
    requires Enabled(w, a)
  {
    var e := EvidenceOf(w);
    match a
    case AdmitAnswer(r, answer) => w.(admitted := w.admitted[r := answer])
    case MakeCanonical(r) => w.(canonical := w.canonical + {r})
    case DiscardAnswer(r) => w.(admitted := w.admitted - {r})
    case CancelRequest(r) => w.(cancelled := w.cancelled + {r})
    case Reserve(answer) => w.(inFlight := w.inFlight + {answer}, underWay := w.underWay + {answer})
    case CommitDirect(answer) => w.(underWay := w.underWay - {answer}, proofs := w.proofs + multiset{answer})
    case Release(answer) => w.(inFlight := w.inFlight - {answer}, underWay := w.underWay - {answer})
    case BeginWait(key, requests) => w.(waits := Begin(w.waits, e, key, requests))
    case ReconcileWait(key, live) => w.(waits := Reconcile(w.waits, e, key, live))
    case PreemptWait(key, current, reserved, live) => w.(waits := Preempt(w.waits, e, key, current, reserved, live))
    case FenceWait(key) => w.(waits := Fence(w.waits, key))
    case CompleteWait(key) => w.(waits := Complete(w.waits, key))
    case PublishWait(key, details, current) =>
      var (waits, publication) := GuardResultCommit(w.waits, e, key, details, current);
      var w' := w.(waits := waits);
      (match publication
       case Commits(result) => Append(w', key, result)
       case Unguarded => Append(w', key, details)
       case _ => w')
    case PrepareRetry(key, r) => w.(retries := w.retries[key := InspectOne(e, r).slot])
    case PublishRetry(key) =>
      (match Reconfirm(e, [w.retries[key]])
       case Unchanged => Append(w, key, Answers([w.retries[key]]))
       case Replaced(slots) => Append(w, key, Answers(slots))
       case Lost => w.(retries := w.retries - {key})
       case Invalid => w)
  }

  // ----------------------------------------------------------------- Invariant

  /** Slots that name canonical Answers, cancelled or not: canonical facts only grow. */
  ghost predicate Named(w: World, slots: seq<Slot>) {
    forall s :: s in slots ==> s.request in w.canonical && s.request in w.admitted && w.admitted[s.request] == s.answer
  }

  /** What the slots call delivered is proven. */
  ghost predicate Backed(w: World, slots: seq<Slot>) {
    forall s :: s in slots && s.AlreadyDelivered? ==> s.answer in w.proofs
  }

  ghost predicate PromiseOk(w: World, s: Settlement) {
    s.Resolved? && s.result.Answers? ==> Named(w, s.result.slots) && Backed(w, s.result.slots)
  }

  ghost predicate ProofsOk(w: World) {
    && (forall a {:trigger w.proofs[a]} :: w.proofs[a] <= 1)
    && w.underWay <= w.inFlight
    && (forall a :: a in w.inFlight ==> a in w.underWay || a in w.proofs)
    && (forall a :: a in w.underWay ==> a !in w.proofs)
    && (forall r :: r in w.canonical ==> r in w.admitted)
  }

  ghost predicate WaitOk(w: World, key: Id, wait: PendingWait) {
    && (wait.phase.ResultPending? ==> wait.candidate.Some? && key in w.waits.settled)
    && (wait.phase.Fenced? ==> key in w.waits.settled)
    && (wait.phase.Waiting? ==> wait.candidate.None? && key !in w.waits.settled)
    && (wait.candidate.Some? && wait.candidate.value.Answers? ==>
          var slots := wait.candidate.value.slots;
          Named(w, slots) && Requests(slots) == wait.requests
          && key in w.waits.settled && w.waits.settled[key].Resolved? && w.waits.settled[key].result.Answers?
          && SameAnswers(w.waits.settled[key].result.slots, slots))
  }

  /** A published result repeats the Requests and Answers its caller was given, and everything in it is proven. */
  ghost predicate PublishedOk(w: World, key: Id, result: Result) {
    result.Answers? ==>
      && Named(w, result.slots) && (forall s :: s in result.slots ==> s.answer in w.proofs)
      && (key in w.retries ==> SameAnswers([w.retries[key]], result.slots))
      && (key in w.waits.settled ==> w.waits.settled[key].Resolved? && w.waits.settled[key].result.Answers?
                                     && SameAnswers(w.waits.settled[key].result.slots, result.slots))
  }

  ghost predicate Facts(w: World) {
    && (forall key {:trigger w.waits.pending[key]} :: key in w.waits.pending ==> WaitOk(w, key, w.waits.pending[key]))
    && (forall key {:trigger w.waits.settled[key]} :: key in w.waits.settled ==> PromiseOk(w, w.waits.settled[key]))
    && (forall key {:trigger w.retries[key]} :: key in w.retries ==> Named(w, [w.retries[key]]))
    && (forall key :: key in w.retries ==> key !in w.waits.settled && key !in w.waits.pending)
    && (forall key :: key in w.published ==> key in w.waits.settled || key in w.retries)
    && (forall key {:trigger w.published[key]} :: key in w.published ==> PublishedOk(w, key, w.published[key]))
  }

  ghost predicate Sound(w: World) {
    Facts(w) && ProofsOk(w)
  }

  // ------------------------------------------------------------- Preservation

  /** Transcripts only grow, and a settled promise stays settled. */
  ghost predicate Grows(w: World, w': World) {
    && w.canonical <= w'.canonical
    && (forall r :: r in w.canonical && r in w.admitted ==> r in w'.admitted && w'.admitted[r] == w.admitted[r])
    && w.proofs <= w'.proofs
    && (forall key :: key in w.waits.settled ==>
         key in w'.waits.settled && w'.waits.settled[key] == w.waits.settled[key])
  }

  lemma NamedGrows(w: World, w': World, slots: seq<Slot>)
    requires Grows(w, w') && Named(w, slots)
    ensures Named(w', slots)
  {
  }

  lemma PromiseGrows(w: World, w': World, s: Settlement)
    requires Grows(w, w') && PromiseOk(w, s)
    ensures PromiseOk(w', s)
  {
  }

  lemma PublishedGrows(w: World, w': World, key: Id, result: Result)
    requires Grows(w, w') && PublishedOk(w, key, result)
    requires key in w'.retries ==> key in w.retries && w'.retries[key] == w.retries[key]
    requires key in w'.waits.settled ==> key in w.waits.settled
    ensures PublishedOk(w', key, result)
  {
  }

  lemma WaitGrows(w: World, w': World, key: Id, wait: PendingWait)
    requires Grows(w, w') && WaitOk(w, key, wait) && (key in w'.waits.settled ==> key in w.waits.settled)
    ensures WaitOk(w', key, wait)
  {
  }

  /** A step that changes neither Waits nor retries nor what is published. */
  lemma FactsKept(w: World, w': World)
    requires Facts(w) && Grows(w, w')
    requires w'.waits == w.waits && w'.retries == w.retries && w'.published == w.published
    ensures Facts(w')
  {
    hide WaitOk, PublishedOk, Named, PromiseOk;
    forall key | key in w'.waits.pending
      ensures WaitOk(w', key, w'.waits.pending[key])
    {
      WaitGrows(w, w', key, w.waits.pending[key]);
    }
    forall key | key in w'.waits.settled
      ensures PromiseOk(w', w'.waits.settled[key])
    {
      PromiseGrows(w, w', w.waits.settled[key]);
    }
    forall key | key in w'.published
      ensures PublishedOk(w', key, w'.published[key])
    {
      PublishedGrows(w, w', key, w.published[key]);
    }
    forall key | key in w'.retries
      ensures Named(w', [w'.retries[key]])
    {
      NamedGrows(w, w', [w.retries[key]]);
    }
  }

  /** A step on one Wait: its own entry is in order, and its promise was not published before. */
  lemma WaitsKept(w: World, key: Id, ws: Waits)
    requires Facts(w)
    requires forall k :: k in w.waits.settled ==> k in ws.settled && ws.settled[k] == w.waits.settled[k]
    requires forall k :: k in ws.settled && k != key ==> k in w.waits.settled
    requires forall k :: k in ws.pending && k != key ==> k in w.waits.pending && ws.pending[k] == w.waits.pending[k]
    requires key in ws.settled && key !in w.waits.settled ==> key !in w.published
    requires key in ws.settled && key !in w.waits.settled ==> PromiseOk(w, ws.settled[key])
    requires key in ws.pending || key in ws.settled ==> key !in w.retries
    requires key in ws.pending ==> WaitOk(w.(waits := ws), key, ws.pending[key])
    ensures Facts(w.(waits := ws))
  {
    hide WaitOk, PublishedOk, Named, PromiseOk;
    var w' := w.(waits := ws);
    forall k | k in ws.pending
      ensures WaitOk(w', k, ws.pending[k])
    {
      if k != key {
        WaitGrows(w, w', k, w.waits.pending[k]);
      }
    }
    forall k | k in ws.settled
      ensures PromiseOk(w', ws.settled[k])
    {
      PromiseGrows(w, w', ws.settled[k]);
    }
    forall k | k in w'.published
      ensures PublishedOk(w', k, w'.published[k])
    {
      PublishedGrows(w, w', k, w.published[k]);
    }
    forall k | k in w'.retries
      ensures Named(w', [w'.retries[k]])
    {
      NamedGrows(w, w', [w.retries[k]]);
    }
  }

  lemma FenceKept(w: World, key: Id)
    requires Facts(w)
    ensures Facts(w.(waits := Fence(w.waits, key)))
  {
    if key in w.waits.pending {
      assert WaitOk(w, key, w.waits.pending[key]);
      WaitsKept(w, key, Fence(w.waits, key));
    }
  }

  lemma OfferKept(w: World, key: Id, requests: seq<Id>, result: Result)
    requires Facts(w) && key !in w.retries && key !in w.published && key !in w.waits.settled
    requires result.Answers? ==> Named(w, result.slots) && Backed(w, result.slots) && Requests(result.slots) == requests
    ensures Facts(w.(waits := Offer(w.waits, key, requests, result)))
  {
    WaitsKept(w, key, Offer(w.waits, key, requests, result));
  }

  lemma AggregateNamed(w: World, requests: seq<Id>)
    requires CompletedAggregate(EvidenceOf(w), requests).Some?
    ensures var slots := CompletedAggregate(EvidenceOf(w), requests).value;
            Named(w, slots) && Backed(w, slots) && Requests(slots) == requests
  {
    AggregateIsComplete(EvidenceOf(w), requests);
  }

  lemma ResumeKept(w: World, key: Id, result: Result, live: bool)
    requires Facts(w) && key in w.waits.pending
    requires result.Answers? ==>
               Named(w, result.slots) && Backed(w, result.slots)
                 && Requests(result.slots) == w.waits.pending[key].requests
    ensures Facts(w.(waits := Resume(w.waits, key, result, live)))
  {
    hide Named, PublishedOk, ProofsOk;
    FenceKept(w, key);
    assert WaitOk(w, key, w.waits.pending[key]);
    if w.waits.pending[key].phase.Waiting? && live && key !in w.waits.settled {
      OfferKept(w, key, w.waits.pending[key].requests, result);
    }
  }

  lemma WaitStepKept(w: World, a: Action)
    requires Facts(w) && Enabled(w, a)
    requires a.BeginWait? || a.ReconcileWait? || a.PreemptWait? || a.FenceWait? || a.CompleteWait?
    ensures Facts(Act(w, a))
  {
    hide Named, PublishedOk, ProofsOk, WaitOk, CompletedAggregate, Inspect, Resume, Offer;
    match a {
      case BeginWait(key, requests) =>
        if CompletedAggregate(EvidenceOf(w), requests).Some? {
          AggregateNamed(w, requests);
          OfferKept(w, key, requests, Answers(CompletedAggregate(EvidenceOf(w), requests).value));
        } else {
          NewWaitOk(w, key, requests);
          WaitsKept(w, key, Begin(w.waits, EvidenceOf(w), key, requests));
        }
      case ReconcileWait(key, live) =>
        FenceKept(w, key);
        if CompletedAggregate(EvidenceOf(w), w.waits.pending[key].requests).Some? {
          AggregateNamed(w, w.waits.pending[key].requests);
          ResumeKept(w, key, Answers(CompletedAggregate(EvidenceOf(w), w.waits.pending[key].requests).value), live);
        }
      case PreemptWait(key, current, reserved, live) =>
        FenceKept(w, key);
        ResumeKept(w, key, Preempted, live);
        if CompletedAggregate(EvidenceOf(w), w.waits.pending[key].requests).Some? {
          AggregateNamed(w, w.waits.pending[key].requests);
          ResumeKept(w, key, Answers(CompletedAggregate(EvidenceOf(w), w.waits.pending[key].requests).value), live);
        }
      case FenceWait(key) => FenceKept(w, key);
      case CompleteWait(key) => CompleteKept(w, key);
    }
  }

  lemma NewWaitOk(w: World, key: Id, requests: seq<Id>)
    requires key !in w.waits.settled
    ensures WaitOk(w.(waits := w.waits.(pending := w.waits.pending[key := PendingWait(requests, Waiting, None)])), key,
              PendingWait(requests, Waiting, None))
  {
  }

  lemma CompleteKept(w: World, key: Id)
    requires Facts(w)
    ensures Facts(w.(waits := Complete(w.waits, key)))
  {
    hide Named, WaitOk, PublishedOk, ProofsOk;
    if key in w.waits.pending {
      WaitsKept(w, key, Complete(w.waits, key));
    } else {
      assert Complete(w.waits, key) == w.waits;
    }
  }

  lemma FactStepKept(w: World, a: Action)
    requires Facts(w) && Enabled(w, a)
    requires a.AdmitAnswer? || a.MakeCanonical? || a.DiscardAnswer? || a.CancelRequest? || a.Reserve? || a.CommitDirect?
             || a.Release?
    ensures Facts(Act(w, a))
  {
    hide Named, PublishedOk, WaitOk;
    FactsKept(w, Act(w, a));
  }

  lemma PrepareRetryKept(w: World, key: Id, r: Id)
    requires Facts(w) && Enabled(w, PrepareRetry(key, r))
    ensures Facts(Act(w, PrepareRetry(key, r)))
  {
    hide WaitOk, PublishedOk;
    var w' := Act(w, PrepareRetry(key, r));
    forall k | k in w'.waits.pending
      ensures WaitOk(w', k, w'.waits.pending[k])
    {
      WaitGrows(w, w', k, w.waits.pending[k]);
    }
    forall k | k in w'.published
      ensures PublishedOk(w', k, w'.published[k])
    {
      PublishedGrows(w, w', k, w.published[k]);
    }
  }

  /** Publishing is safe exactly when no retrieved Answer is proven already or still on its way by direct Delivery. */
  lemma PublishedProofs(w: World, slots: seq<Slot>, key: Id)
    requires ProofsOk(w)
    ensures ProofsOk(Append(w, key, Answers(slots))) <==> ProvedBy(slots) !! Proven(w) && ProvedBy(slots) !! w.underWay
  {
    var w' := Append(w, key, Answers(slots));
    assert forall a :: w'.proofs[a] == w.proofs[a] + if a in ProvedBy(slots) then 1 else 0;
    if ProvedBy(slots) !! Proven(w) && ProvedBy(slots) !! w.underWay {
      forall a
        ensures w'.proofs[a] <= 1
      {
        var once := w.proofs[a];
      }
    }
    if a :| a in ProvedBy(slots) && a in Proven(w) {
      assert w'.proofs[a] >= 2;
    }
    if a :| a in ProvedBy(slots) && a in w.underWay {
      assert a in w'.proofs;
    }
  }

  /** No Answer that the result retrieves is proven, or reserved for direct Delivery. */
  predicate Clear(e: Evidence, slots: seq<Slot>) {
    forall s :: s in slots && s.Retrieved? ==> s.answer !in e.delivered && s.answer !in e.inFlight
  }

  lemma TruthfulIsClear(w: World, slots: seq<Slot>)
    requires Truthful(EvidenceOf(w), slots)
    ensures Clear(EvidenceOf(w), slots) && Backed(w, slots)
  {
  }

  lemma ClearProofs(w: World, slots: seq<Slot>, key: Id)
    requires ProofsOk(w)
    ensures ProofsOk(Append(w, key, Answers(slots))) <==> Clear(EvidenceOf(w), slots)
  {
    PublishedProofs(w, slots, key);
    if Clear(EvidenceOf(w), slots) {
    } else {
      var s :| s in slots && s.Retrieved? && (s.answer in w.proofs || s.answer in w.inFlight);
      assert s.answer in ProvedBy(slots);
    }
  }

  lemma AppendKept(w: World, key: Id, slots: seq<Slot>)
    requires Facts(w) && key !in w.published && Named(w, slots) && Backed(w, slots)
    requires key in w.waits.settled || key in w.retries
    requires key in w.retries ==> SameAnswers([w.retries[key]], slots)
    requires key in w.waits.settled ==> w.waits.settled[key].Resolved? && w.waits.settled[key].result.Answers?
                                        && SameAnswers(w.waits.settled[key].result.slots, slots)
    ensures Facts(Append(w, key, Answers(slots)))
  {
    hide WaitOk, SameAnswers, PromiseOk;
    var w' := Append(w, key, Answers(slots));
    NamedGrows(w, w', slots);
    AllProven(w, key, slots);
    assert Grows(w, w');
    forall k | k in w'.waits.pending
      ensures WaitOk(w', k, w'.waits.pending[k])
    {
      WaitGrows(w, w', k, w.waits.pending[k]);
    }
    forall k | k in w'.waits.settled
      ensures PromiseOk(w', w'.waits.settled[k])
    {
      PromiseGrows(w, w', w.waits.settled[k]);
    }
    forall k | k in w'.published
      ensures PublishedOk(w', k, w'.published[k])
    {
      if k != key {
        PublishedGrows(w, w', k, w.published[k]);
      }
    }
  }

  lemma AllProven(w: World, key: Id, slots: seq<Slot>)
    requires Backed(w, slots)
    ensures forall s :: s in slots ==> s.answer in Append(w, key, Answers(slots)).proofs
  {
    forall s | s in slots
      ensures s.answer in Append(w, key, Answers(slots)).proofs
    {
      if s.Retrieved? {
        assert s.answer in ProvedBy(slots);
      }
    }
  }

  lemma AppendPreempted(w: World, key: Id)
    requires Facts(w) && key !in w.published && key in w.waits.settled
    ensures Facts(Append(w, key, Preempted))
  {
    hide WaitOk;
    var w' := Append(w, key, Preempted);
    forall k | k in w'.waits.pending
      ensures WaitOk(w', k, w'.waits.pending[k])
    {
      WaitGrows(w, w', k, w.waits.pending[k]);
    }
    forall k | k in w'.published
      ensures PublishedOk(w', k, w'.published[k])
    {
      if k != key {
        PublishedGrows(w, w', k, w.published[k]);
      }
    }
  }

  /** What reconfirmation gives back may be published. */
  lemma Reconfirmed(w: World, slots: seq<Slot>)
    requires Named(w, slots) && Reconfirm(EvidenceOf(w), slots) != Invalid
    ensures var c := Reconfirm(EvidenceOf(w), slots);
            && (c.Unchanged? ==> Clear(EvidenceOf(w), slots) && Backed(w, slots) && SameAnswers(slots, slots))
            && (c.Replaced? ==>
                 Clear(EvidenceOf(w), c.slots) && Backed(w, c.slots) && Named(w, c.slots)
                   && SameAnswers(slots, c.slots))
  {
    var e := EvidenceOf(w);
    forall s | s in slots
      ensures s.request !in e.cancelled
    {
      RequestsAt(slots, s.request);
    }
    ReconfirmDecides(e, slots);
  }

  lemma SameTwice(a: seq<Slot>, b: seq<Slot>, c: seq<Slot>)
    requires SameAnswers(a, b) && SameAnswers(b, c)
    ensures SameAnswers(a, c)
  {
  }

  lemma SameRequests(a: seq<Slot>, b: seq<Slot>)
    requires SameAnswers(a, b)
    ensures Requests(a) == Requests(b)
  {
  }

  lemma PublishRetryKept(w: World, key: Id)
    requires Facts(w) && Enabled(w, PublishRetry(key))
    ensures Facts(Act(w, PublishRetry(key)))
  {
    hide WaitOk, PublishedOk, ProofsOk, Clear, Backed, Reconfirm;
    var slots := [w.retries[key]];
    if Reconfirm(EvidenceOf(w), slots) != Invalid {
      Reconfirmed(w, slots);
      match Reconfirm(EvidenceOf(w), slots) {
        case Unchanged => AppendKept(w, key, slots);
        case Replaced(current) => AppendKept(w, key, current);
        case Lost => DropRetry(w, key);
      }
    }
  }

  lemma DropRetry(w: World, key: Id)
    requires Facts(w) && key !in w.published
    ensures Facts(w.(retries := w.retries - {key}))
  {
    hide WaitOk, PublishedOk;
    var w' := w.(retries := w.retries - {key});
    forall k | k in w'.waits.pending
      ensures WaitOk(w', k, w'.waits.pending[k])
    {
      WaitGrows(w, w', k, w.waits.pending[k]);
    }
    forall k | k in w'.published
      ensures PublishedOk(w', k, w'.published[k])
    {
      PublishedGrows(w, w', k, w.published[k]);
    }
  }

  /** The replaced candidate of a Wait whose result is being committed. */
  lemma ReplaceKept(w: World, key: Id, slots: seq<Slot>)
    requires Facts(w) && key in w.waits.pending && w.waits.pending[key].phase.ResultPending?
    requires w.waits.pending[key].candidate.Some? && w.waits.pending[key].candidate.value.Answers?
    requires SameAnswers(w.waits.pending[key].candidate.value.slots, slots) && Named(w, slots)
    ensures Facts(w.(waits :=
              w.waits.(pending := w.waits.pending[key := w.waits.pending[key].(candidate := Some(Answers(slots)))])))
  {
    var wait := w.waits.pending[key];
    assert WaitOk(w, key, wait);
    SameRequests(wait.candidate.value.slots, slots);
    SameTwice(w.waits.settled[key].result.slots, wait.candidate.value.slots, slots);
    WaitsKept(w, key, w.waits.(pending := w.waits.pending[key := wait.(candidate := Some(Answers(slots)))]));
  }

  lemma PublishWaitKept(w: World, key: Id, details: Result, current: bool)
    requires Facts(w) && Enabled(w, PublishWait(key, details, current)) && key in w.waits.pending
    ensures Facts(Act(w, PublishWait(key, details, current)))
  {
    hide PublishedOk, ProofsOk, Clear, Backed, Reconfirm, SameAnswers, Named;
    var wait := w.waits.pending[key];
    assert WaitOk(w, key, wait);
    FenceKept(w, key);
    if wait.phase.ResultPending? && current && wait.candidate == Some(details) {
      if details.Preempted? {
        AppendPreempted(w, key);
      } else {
        var slots := details.slots;
        if Reconfirm(EvidenceOf(w), slots) != Invalid {
          Reconfirmed(w, slots);
          match Reconfirm(EvidenceOf(w), slots) {
            case Unchanged => AppendKept(w, key, slots);
            case Replaced(current) => PublishReplaced(w, key, slots, current);
            case Lost =>
          }
        }
      }
    }
  }

  lemma PublishReplaced(w: World, key: Id, slots: seq<Slot>, current: seq<Slot>)
    requires Facts(w) && key in w.waits.pending && key !in w.published
    requires w.waits.pending[key].phase.ResultPending? && w.waits.pending[key].candidate == Some(Answers(slots))
    requires SameAnswers(slots, current) && Named(w, current) && Backed(w, current)
    ensures var waits :=
              w.waits.(pending := w.waits.pending[key := w.waits.pending[key].(candidate := Some(Answers(current)))]);
            Facts(Append(w.(waits := waits), key, Answers(current)))
  {
    hide PublishedOk, ProofsOk, Clear, SameAnswers, Named;
    assert WaitOk(w, key, w.waits.pending[key]);
    ReplaceKept(w, key, current);
    var waits :=
        w.waits.(pending := w.waits.pending[key := w.waits.pending[key].(candidate := Some(Answers(current)))]);
    var w' := w.(waits := waits);
    assert EvidenceOf(w') == EvidenceOf(w);
    assert Grows(w, w');
    NamedGrows(w, w', current);
    SameTwice(w.waits.settled[key].result.slots, slots, current);
    AppendKept(w', key, current);
  }

  /** The guard finds no pending Wait, and lets the result of a forgotten one through unexamined. */
  predicate Forgets(w: World, a: Action) {
    a.PublishWait? && a.key !in w.waits.pending
  }

  /** A check its caller could make: what a forgotten Wait publishes is clear. */
  predicate Examined(w: World, a: Action) {
    Forgets(w, a) && a.details.Answers? ==> Clear(EvidenceOf(w), a.details.slots)
  }

  lemma ForgottenKept(w: World, a: Action)
    requires Facts(w) && Enabled(w, a) && Forgets(w, a)
    ensures Act(w, a) == Append(w, a.key, a.details) && Facts(Act(w, a))
  {
    hide WaitOk, PublishedOk, Backed, Named;
    assert PromiseOk(w, w.waits.settled[a.key]);
    if a.details.Answers? {
      SameAsItself(a.details.slots);
      AppendKept(w, a.key, a.details.slots);
    } else {
      AppendPreempted(w, a.key);
    }
  }

  /** Every step keeps promises and results in order, whatever became of the proofs. */
  lemma ActFacts(w: World, a: Action)
    requires Facts(w) && Enabled(w, a)
    ensures Facts(Act(w, a))
  {
    hide Facts, Act, Enabled;
    match a {
      case PublishWait(key, details, current) =>
        if key in w.waits.pending {
          PublishWaitKept(w, key, details, current);
        } else {
          ForgottenKept(w, a);
        }
      case PrepareRetry(key, r) => PrepareRetryKept(w, key, r);
      case PublishRetry(key) => PublishRetryKept(w, key);
      case BeginWait(_, _) => WaitStepKept(w, a);
      case ReconcileWait(_, _) => WaitStepKept(w, a);
      case PreemptWait(_, _, _, _) => WaitStepKept(w, a);
      case FenceWait(_) => WaitStepKept(w, a);
      case CompleteWait(_) => WaitStepKept(w, a);
      case AdmitAnswer(_, _) => FactStepKept(w, a);
      case MakeCanonical(_) => FactStepKept(w, a);
      case DiscardAnswer(_) => FactStepKept(w, a);
      case CancelRequest(_) => FactStepKept(w, a);
      case Reserve(_) => FactStepKept(w, a);
      case CommitDirect(_) => FactStepKept(w, a);
      case Release(_) => FactStepKept(w, a);
    }
  }

  /** Reconfirmed results are clear; those of a forgotten Wait must be examined. */
  lemma ActProofs(w: World, a: Action)
    requires Sound(w) && Enabled(w, a) && Examined(w, a)
    ensures ProofsOk(Act(w, a))
  {
    hide Facts, ProofsOk, Act, Enabled, Clear;
    match a {
      case PublishWait(key, details, current) =>
        if Forgets(w, a) {
          ForgottenKept(w, a);
          if details.Answers? {
            ClearProofs(w, details.slots, key);
          } else {
            NothingProved(w, key);
          }
        } else {
          GuardedProofs(w, a);
        }
      case PublishRetry(key) => RetryProofs(w, key);
      case _ => OtherProofs(w, a);
    }
  }

  lemma NothingProved(w: World, key: Id)
    requires ProofsOk(w)
    ensures ProofsOk(Append(w, key, Preempted))
  {
  }

  lemma OtherProofs(w: World, a: Action)
    requires ProofsOk(w) && Enabled(w, a) && !a.PublishWait? && !a.PublishRetry?
    ensures ProofsOk(Act(w, a))
  {
    hide Inspect, CompletedAggregate, InspectOne, Fence, Complete, Begin, Reconcile, Preempt;
  }

  lemma GuardedProofs(w: World, a: Action)
    requires Sound(w) && Enabled(w, a) && a.PublishWait? && !Forgets(w, a)
    ensures ProofsOk(Act(w, a))
  {
    hide PublishedOk, PromiseOk, Named, Clear, Backed, Reconfirm;
    var wait := w.waits.pending[a.key];
    assert WaitOk(w, a.key, wait);
    if wait.phase.ResultPending? && a.current && wait.candidate == Some(a.details) && a.details.Answers? {
      var slots := a.details.slots;
      if Reconfirm(EvidenceOf(w), slots) != Invalid {
        Reconfirmed(w, slots);
        match Reconfirm(EvidenceOf(w), slots) {
          case Unchanged => ClearProofs(w, slots, a.key);
          case Replaced(current) => ClearProofs(w, current, a.key);
          case Lost =>
        }
      }
    }
  }

  lemma RetryProofs(w: World, key: Id)
    requires Sound(w) && Enabled(w, PublishRetry(key))
    ensures ProofsOk(Act(w, PublishRetry(key)))
  {
    hide WaitOk, PublishedOk, PromiseOk, Clear, Backed, Reconfirm;
    var slots := [w.retries[key]];
    if Reconfirm(EvidenceOf(w), slots) != Invalid {
      Reconfirmed(w, slots);
      match Reconfirm(EvidenceOf(w), slots) {
        case Unchanged => ClearProofs(w, slots, key);
        case Replaced(current) => ClearProofs(w, current, key);
        case Lost =>
      }
    }
  }

  // --------------------------------------------------------------------- Runs

  predicate Step(w: World, a: Action, w': World) {
    Enabled(w, a) && w' == Act(w, a)
  }

  /** Any interleaving, results of forgotten Waits included. */
  predicate Run(ws: seq<World>, acts: seq<Action>) {
    |ws| == |acts| + 1 && ws[0] == START && forall i :: 0 <= i < |acts| ==> Step(ws[i], acts[i], ws[i + 1])
  }

  predicate AllExamined(ws: seq<World>, acts: seq<Action>, n: nat)
    requires n <= |acts| < |ws|
  {
    forall i {:trigger acts[i]} :: 0 <= i < n ==> Examined(ws[i], acts[i])
  }

  lemma {:induction false} RunFacts(ws: seq<World>, acts: seq<Action>, n: nat)
    requires Run(ws, acts) && n < |ws|
    ensures Facts(ws[n])
    decreases n
  {
    hide Facts, Enabled, Act;
    if n == 0 {
      StartSound();
    } else {
      RunFacts(ws, acts, n - 1);
      assert Step(ws[n - 1], acts[n - 1], ws[n - 1 + 1]);
      ActFacts(ws[n - 1], acts[n - 1]);
    }
  }

  lemma {:induction false} RunSound(ws: seq<World>, acts: seq<Action>, n: nat)
    requires Run(ws, acts) && n < |ws| && AllExamined(ws, acts, n)
    ensures Sound(ws[n])
    decreases n
  {
    hide Facts, ProofsOk, Enabled, Act, Examined;
    RunFacts(ws, acts, n);
    if n == 0 {
      StartSound();
    } else {
      var i := n - 1;
      RunSound(ws, acts, i);
      assert Examined(ws[i], acts[i]) && Step(ws[i], acts[i], ws[i + 1]);
      ActProofs(ws[i], acts[i]);
    }
  }

  lemma StartSound()
    ensures Sound(START)
  {
  }

  /**
   * Each Answer is proven at most once on the requester's side, and never while a direct
   * hand-off of it can still commit.
   */
  ghost predicate Single(w: World) {
    forall a {:trigger w.proofs[a]} :: w.proofs[a] <= 1 && (a in w.underWay ==> a !in w.proofs)
  }

  lemma SoundIsSingle(w: World)
    requires Sound(w)
    ensures Single(w)
  {
    hide WaitOk, PublishedOk, PromiseOk, Named;
  }

  /** An unexamined publication breaks what held before it. */
  lemma UnexaminedBreaks(w: World, a: Action)
    requires Sound(w) && Enabled(w, a) && !Examined(w, a)
    ensures !Single(Act(w, a))
  {
    hide WaitOk, PublishedOk, PromiseOk, Named;
    var slots := a.details.slots;
    var w' := Append(w, a.key, a.details);
    assert Act(w, a) == w';
    var s :| s in slots && s.Retrieved? && (s.answer in w.proofs || s.answer in w.inFlight);
    assert s.answer in ProvedBy(slots);
    assert w'.proofs[s.answer] == w.proofs[s.answer] + 1;
  }

  /**
   * In every run: each Answer is proven at most once, and never while a direct
   * hand-off of it can still commit, exactly when every result of a forgotten
   * Wait was clear at the moment it was published.
   */
  lemma SingleIffExamined(ws: seq<World>, acts: seq<Action>)
    requires Run(ws, acts)
    ensures (forall w :: w in ws ==> Single(w)) <==> AllExamined(ws, acts, |acts|)
  {
    hide Single, Examined, Step;
    if AllExamined(ws, acts, |acts|) {
      forall w | w in ws
        ensures Single(w)
      {
        var n :| 0 <= n < |ws| && ws[n] == w;
        assert AllExamined(ws, acts, n);
        RunSound(ws, acts, n);
        SoundIsSingle(w);
      }
    } else {
      var n := FirstUnexamined(ws, acts);
      RunSound(ws, acts, n);
      assert Step(ws[n], acts[n], ws[n + 1]);
      StepBreaks(ws[n], acts[n], ws[n + 1]);
      assert ws[n + 1] in ws;
    }
  }

  lemma StepBreaks(w: World, a: Action, w': World)
    requires Sound(w) && Step(w, a, w') && !Examined(w, a)
    ensures !Single(w')
  {
    hide Sound, Single, Examined;
    UnexaminedBreaks(w, a);
  }

  lemma FirstUnexamined(ws: seq<World>, acts: seq<Action>) returns (n: nat)
    requires |acts| < |ws| && !AllExamined(ws, acts, |acts|)
    ensures n < |acts| && AllExamined(ws, acts, n) && !Examined(ws[n], acts[n])
  {
    hide Examined;
    n := 0;
    while Examined(ws[n], acts[n])
      invariant n < |acts| && AllExamined(ws, acts, n)
      decreases |acts| - n
    {
      assert exists i :: n < i < |acts| && !Examined(ws[i], acts[i]);
      n := n + 1;
    }
  }

  /** As long as no Wait is forgotten with its result still to be published, every interleaving keeps proofs single. */
  lemma OneProofPerAnswer(ws: seq<World>, acts: seq<Action>, n: nat, a: Id)
    requires Run(ws, acts) && n < |ws| && forall i :: 0 <= i < |acts| ==> !Forgets(ws[i], acts[i])
    ensures ws[n].proofs[a] <= 1
    ensures a in ws[n].underWay ==> a !in ws[n].proofs
  {
    hide Forgets, Clear, Step;
    assert AllExamined(ws, acts, |acts|);
    SingleIffExamined(ws, acts);
    var once := ws[n].proofs[a];
    assert Single(ws[n]);
  }

  /**
   * In every run, a published Wait or retry result lists the Requests and canonical Answers
   * that its caller was given, in the same order, and all of them are proven.
   */
  lemma PublishedResultsKeepTheirAnswers(ws: seq<World>, acts: seq<Action>, i: nat, key: Id)
    requires Run(ws, acts) && i < |ws| && key in ws[i].published && ws[i].published[key].Answers?
    ensures var w, slots := ws[i], ws[i].published[key].slots;
            && (forall s :: s in slots ==>
                 s.request in w.admitted && w.admitted[s.request] == s.answer && s.answer in w.proofs)
            && (key in w.waits.settled ==>
                  w.waits.settled[key].Resolved? && w.waits.settled[key].result.Answers?
                  && SameAnswers(w.waits.settled[key].result.slots, slots)
                  && Requests(w.waits.settled[key].result.slots) == Requests(slots))
            && (key !in w.waits.settled ==> key in w.retries && SameAnswers([w.retries[key]], slots))
  {
    hide Run, WaitOk, SameAnswers, PromiseOk;
    RunFacts(ws, acts, i);
    var w, result := ws[i], ws[i].published[key];
    assert PublishedOk(w, key, result);
    if key in w.waits.settled {
      SameRequests(w.waits.settled[key].result.slots, result.slots);
    }
  }

  /** What a step does to promises and published results. */
  lemma StepKeeps(w: World, a: Action, key: Id)
    requires Enabled(w, a)
    ensures key in w.waits.settled ==>
              key in Act(w, a).waits.settled && Act(w, a).waits.settled[key] == w.waits.settled[key]
    ensures key in w.published ==> key in Act(w, a).published && Act(w, a).published[key] == w.published[key]
  {
    hide CompletedAggregate, Inspect, Reconfirm, InspectOne;
    match a {
      case BeginWait(_, _) => WaitKeeps(w, a, key);
      case ReconcileWait(_, _) => WaitKeeps(w, a, key);
      case PreemptWait(_, _, _, _) => WaitKeeps(w, a, key);
      case FenceWait(_) => WaitKeeps(w, a, key);
      case CompleteWait(_) => WaitKeeps(w, a, key);
      case PublishWait(_, _, _) => PublishKeeps(w, a, key);
      case PublishRetry(_) => PublishKeeps(w, a, key);
      case _ =>
    }
  }

  lemma WaitKeeps(w: World, a: Action, key: Id)
    requires Enabled(w, a)
    requires a.BeginWait? || a.ReconcileWait? || a.PreemptWait? || a.FenceWait? || a.CompleteWait?
    ensures Act(w, a).published == w.published
    ensures key in w.waits.settled ==>
              key in Act(w, a).waits.settled && Act(w, a).waits.settled[key] == w.waits.settled[key]
  {
    hide CompletedAggregate, Inspect, Reconfirm, InspectOne;
  }

  lemma PublishKeeps(w: World, a: Action, key: Id)
    requires Enabled(w, a) && (a.PublishWait? || a.PublishRetry?)
    ensures key in w.waits.settled ==>
              key in Act(w, a).waits.settled && Act(w, a).waits.settled[key] == w.waits.settled[key]
    ensures key in w.published ==> key in Act(w, a).published && Act(w, a).published[key] == w.published[key]
  {
    hide CompletedAggregate, Inspect, Reconfirm, InspectOne;
  }

  /** In every run, whatever was forgotten in between: a promise settles once, and a result is published once. */
  lemma {:induction false} SettledOnce(ws: seq<World>, acts: seq<Action>, i: nat, j: nat, key: Id)
    requires Run(ws, acts) && i <= j < |ws|
    ensures key in ws[i].waits.settled ==>
              key in ws[j].waits.settled && ws[j].waits.settled[key] == ws[i].waits.settled[key]
    ensures key in ws[i].published ==> key in ws[j].published && ws[j].published[key] == ws[i].published[key]
    decreases j
  {
    hide Enabled, Act;
    if i < j {
      SettledOnce(ws, acts, i, j - 1, key);
      assert Step(ws[j - 1], acts[j - 1], ws[j - 1 + 1]);
      StepKeeps(ws[j - 1], acts[j - 1], key);
    }
  }

  // ----------------------------------------------------------------- Progress

  lemma WaitingIsOpen(ws: seq<World>, acts: seq<Action>, n: nat, key: Id)
    requires Run(ws, acts) && n < |ws| && key in ws[n].waits.pending && ws[n].waits.pending[key].phase.Waiting?
    ensures IsOpen(ws[n].waits, key)
  {
    hide Run, PublishedOk, PromiseOk;
    RunFacts(ws, acts, n);
    assert WaitOk(ws[n], key, ws[n].waits.pending[key]);
  }

  /** At every point of a run, a live Wait whose Answers can all be had resolves at the next check, with all of them. */
  lemma ReadyWaitResolves(ws: seq<World>, acts: seq<Action>, n: nat, key: Id)
    requires Run(ws, acts) && n < |ws| && key in ws[n].waits.pending && ws[n].waits.pending[key].phase.Waiting?
    requires AllObtainable(EvidenceOf(ws[n]), ws[n].waits.pending[key].requests)
    ensures var (w, w') := (ws[n], Act(ws[n], ReconcileWait(key, true)));
            IsAnswered(w.waits, EvidenceOf(w), key, w.waits.pending[key].requests, w'.waits)
  {
    hide Run, ListsAnswers, Reconcile;
    WaitingIsOpen(ws, acts, n, key);
    ReconcileDecides(ws[n].waits, EvidenceOf(ws[n]), key, true);
  }

  /**
   * At every point of a run, whatever its Run and the scheduler say, input
   * never preempts a Wait whose Answers can all be had; for good, its caller
   * gets them all. It preempts any other, as long as no Request was cancelled,
   * exactly when the Run is current and its Delivery was reserved.
   */
  lemma AnswersBeatPreemption(ws: seq<World>, acts: seq<Action>, n: nat, key: Id, current: bool, reserved: bool)
    requires Run(ws, acts) && n < |ws| && key in ws[n].waits.pending && ws[n].waits.pending[key].phase.Waiting?
    ensures var (w, w') := (ws[n], Act(ws[n], PreemptWait(key, current, reserved, true)));
            var requests := w.waits.pending[key].requests;
            if AnyCancelled(EvidenceOf(w), requests) then IsFenced(w.waits, key, w'.waits)
            else if AllObtainable(EvidenceOf(w), requests)
            then IsAnswered(w.waits, EvidenceOf(w), key, requests, w'.waits)
            else if current && reserved then IsResolved(w.waits, key, requests, Preempted, w'.waits)
            else w' == w
  {
    hide Run, ListsAnswers, Preempt, AllObtainable, IsFenced, IsAnswered, IsResolved, AnyCancelled;
    WaitingIsOpen(ws, acts, n, key);
    PreemptDecides(ws[n].waits, EvidenceOf(ws[n]), key, current, reserved, true);
  }

  /**
   * A prepared result is published, with every Answer proven, unless one of its
   * Requests was cancelled or one of its Answers is now on its way by direct
   * Delivery; then nothing is published.
   */
  lemma PublicationCommits(w: World, key: Id)
    requires Facts(w) && key in w.waits.pending && key !in w.published
    requires w.waits.pending[key].phase.ResultPending? && w.waits.pending[key].candidate.Some?
    requires w.waits.pending[key].candidate.value.Answers?
    requires forall r :: r in w.waits.pending[key].requests ==> r !in w.cancelled
    ensures var slots := w.waits.pending[key].candidate.value.slots;
            var w' := Act(w, PublishWait(key, Answers(slots), true));
            if exists s :: s in slots && s.answer in w.inFlight && s.answer !in w.proofs
            then w'.published == w.published && w'.proofs == w.proofs
            else key in w'.published && w'.published[key].Answers? && SameAnswers(w'.published[key].slots, slots)
                 && forall s :: s in slots ==> s.answer in w'.proofs
  {
    hide PublishedOk, ProofsOk, Reconfirm, InspectOne, Inspect, NamesCanonical, SameAnswers, Truthful;
    var wait := w.waits.pending[key];
    assert WaitOk(w, key, wait);
    var e, slots := EvidenceOf(w), wait.candidate.value.slots;
    StillCanonical(w, slots);
    ReconfirmDecides(e, slots);
    match Reconfirm(e, slots) {
      case Unchanged =>
        TruthfulIsClear(w, slots);
        AllProven(w, key, slots);
        SameAsItself(slots);
      case Replaced(current) =>
        TruthfulIsClear(w, current);
        AllProven(w, key, current);
        SameProven(current, slots, Append(w, key, Answers(current)).proofs);
      case Lost =>
    }
  }

  /** A retried Answer is published, and proven, unless direct Delivery won it meanwhile; then the retry is given up. */
  lemma RetryCommits(w: World, key: Id)
    requires Facts(w) && key in w.retries && key !in w.published && w.retries[key].request !in w.cancelled
    ensures var (slot, w') := (w.retries[key], Act(w, PublishRetry(key)));
            if slot.answer in w.inFlight && slot.answer !in w.proofs then w' == w.(retries := w.retries - {key})
            else key in w'.published && w'.published[key].Answers? && SameAnswers(w'.published[key].slots, [slot])
                 && slot.answer in w'.proofs && w'.retries == w.retries
  {
    hide PublishedOk, ProofsOk, Reconfirm, InspectOne, Inspect, NamesCanonical, SameAnswers, Truthful;
    var e, slots := EvidenceOf(w), [w.retries[key]];
    assert Requests(slots) == [w.retries[key].request];
    StillCanonical(w, slots);
    CommitDecides(e, slots);
    match Reconfirm(e, slots) {
      case Unchanged =>
        TruthfulIsClear(w, slots);
        AllProven(w, key, slots);
        assert slots[0] in slots;
      case Replaced(current) =>
        TruthfulIsClear(w, current);
        AllProven(w, key, current);
        SameProven(current, slots, Append(w, key, Answers(current)).proofs);
        assert slots[0] in slots;
      case Lost =>
        assert slots[0] in slots;
    }
  }

  lemma StillCanonical(w: World, slots: seq<Slot>)
    requires Named(w, slots) && forall r :: r in Requests(slots) ==> r !in w.cancelled
    ensures NamesCanonical(EvidenceOf(w), slots)
  {
    forall s | s in slots
      ensures s.request !in w.cancelled
    {
      RequestsAt(slots, s.request);
    }
  }

  lemma SameAsItself(slots: seq<Slot>)
    ensures SameAnswers(slots, slots)
  {
  }

  lemma SameProven(a: seq<Slot>, b: seq<Slot>, proofs: multiset<Id>)
    requires SameAnswers(a, b) && forall s :: s in a ==> s.answer in proofs
    ensures forall s :: s in b ==> s.answer in proofs
  {
    forall s | s in b
      ensures s.answer in proofs
    {
      var i :| 0 <= i < |b| && b[i] == s;
      assert a[i] in a;
    }
  }

  // ------------------------------------------- A Wait forgotten before it commits

  lemma SingleAggregate(e: Evidence, r: Id)
    requires r !in e.cancelled && HasSlot(InspectOne(e, r))
    ensures CompletedAggregate(e, [r]) == Some([InspectOne(e, r).slot])
  {
    hide InspectOne;
    assert Inspect(e, [r]) == Inspected([InspectOne(e, r)]);
    assert CompletedAggregate(e, [r]).Some?;
    assert CompletedAggregate(e, [r]).value == [InspectOne(e, r).slot];
  }

  lemma SingleInspected(e: Evidence, r: Id)
    requires r !in e.cancelled
    ensures Inspect(e, [r]).Inspected?
  {
  }

  /** A Wait resolved with one retrievable Answer, then forgotten, then its Answer reserved for direct Delivery. */
  function Forgotten(request: Id, answer: Id, key: Id): World {
    World(map[request := answer], {request}, {}, {answer}, {answer}, multiset{},
          Waits(map[], map[key := Resolved(Answers([Retrieved(request, answer)]))]), map[], map[])
  }

  lemma ForgottenIsReached(request: Id, answer: Id, key: Id) returns (ws: seq<World>, acts: seq<Action>)
    ensures Run(ws, acts) && ws[|acts|] == Forgotten(request, answer, key)
  {
    hide CompletedAggregate, Inspect;
    acts := [AdmitAnswer(request, answer), MakeCanonical(request), BeginWait(key, [request]), FenceWait(key),
        CompleteWait(key), Reserve(answer)];
    var w1 := Act(START, acts[0]);
    var w2 := Act(w1, acts[1]);
    SingleAggregate(EvidenceOf(w2), request);
    SingleInspected(EvidenceOf(w2), request);
    var w3 := Act(w2, acts[2]);
    var w4 := Act(w3, acts[3]);
    var w5 := Act(w4, acts[4]);
    ws := [START, w1, w2, w3, w4, w5, Act(w5, acts[5])];
  }

  /**
   * Ending a Run or shutting down forgets a Wait whose result may still be on
   * its way to be committed. The guard then lets it through unexamined, and
   * in this run the Answer is proven twice.
   */
  lemma ForgottenWaitCanProveTwice(request: Id, answer: Id, key: Id) returns (ws: seq<World>, acts: seq<Action>)
    ensures Run(ws, acts) && ws[|acts|].proofs[answer] == 2
  {
    hide Run, Step;
    var reached, before := ForgottenIsReached(request, answer, key);
    var publish, commit := PublishWait(key, Answers([Retrieved(request, answer)]), false), CommitDirect(answer);
    var w1, w2 := ForgottenCommits(request, answer, key);
    RunGoesOn(reached, before, publish, w1);
    RunGoesOn(reached + [w1], before + [publish], commit, w2);
    ws, acts := reached + [w1] + [w2], before + [publish] + [commit];
  }

  lemma ForgottenCommits(request: Id, answer: Id, key: Id) returns (w1: World, w2: World)
    ensures Step(Forgotten(request, answer, key), PublishWait(key, Answers([Retrieved(request, answer)]), false), w1)
    ensures Step(w1, CommitDirect(answer), w2) && w2.proofs[answer] == 2
  {
    var slots := [Retrieved(request, answer)];
    w1 := Append(Forgotten(request, answer, key), key, Answers(slots));
    assert ProvedBy(slots) == {answer};
    w2 := Act(w1, CommitDirect(answer));
  }

  lemma RunGoesOn(ws: seq<World>, acts: seq<Action>, a: Action, w: World)
    requires Run(ws, acts) && Step(ws[|acts|], a, w)
    ensures Run(ws + [w], acts + [a]) && (ws + [w])[|acts + [a]|] == w
  {
    hide Step;
    var longer, more := ws + [w], acts + [a];
    forall i | 0 <= i < |more|
      ensures Step(longer[i], more[i], longer[i + 1])
    {
    }
  }
}
