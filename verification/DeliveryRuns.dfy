/**
 * Whole runs of one recipient's delivery scheduling: operations in the
 * recipient's lane, interleaved with the Runtime committing what it was handed
 * and with Answers proved by retrieval.
 */
module DeliveryRuns {
  import opened DeliveryQueue
  import opened DeliveryOperations
  import opened DeliveryEffects

  datatype Operation =
    | Admission(delivery: Delivery, capacity: nat, boot: Boot)
    | Resumption(message: Delivery, heldBack: bool)
    | ResumptionReleased(id: Id)
    | Drain
    | SafeBoundary
    | FrozenReleased(batch: seq<Delivery>)
    | Settlement(ending: Ending)
    | Parking
    | Interruption
    | Discarding
    | Abandonment(lost: set<Id>)

  function Perform(s: Slice, op: Operation, r: Reading, h: Host): Effect {
    match op
    case Admission(d, capacity, boot) => Admit(s, d, capacity, boot, r, h).0
    case Resumption(d, heldBack) => AdmitResume(s, d, heldBack, r, h).0
    case ResumptionReleased(id) => ReleaseResume(s, id, r, h)
    case Drain => Advance(s, r, h)
    case SafeBoundary => ReachSafeBoundary(s, r, h)
    case FrozenReleased(batch) => DispatchFrozen(s, batch, r, h)
    case Settlement(ending) => Settle(s, ending, r, h)
    case Parking => BeginParking(s, r, h)
    case Interruption => Interrupt(s)
    case Discarding => Discard(s)
    case Abandonment(lost) => Abandon(s, lost)
  }

  /**
   * The slice with its history: hand-offs the Runtime may still commit, proofs
   * by hand-off and by retrieval, hand-offs it will never commit, the hand-off
   * log, how many scheduling objects were made, and whether the Hold that the
   * resume slot was taken under is still the current one.
   */
  datatype World = World(
    slice: Slice, inFlight: multiset<Id>, committed: multiset<Id>, retrieved: multiset<Id>, dropped: multiset<Id>,
    handed: seq<Delivery>, made: nat, held: bool)

  const START := World(IDLE, multiset{}, multiset{}, multiset{}, multiset{}, [], 0, false)

  function IdList(ds: seq<Delivery>): seq<Id> {
    seq(|ds|, i requires 0 <= i < |ds| => ds[i].id)
  }

  function Proofs(w: World): multiset<Id> {
    w.committed + w.retrieved
  }

  function Record(w: World, e: Effect): World {
    var flying := w.inFlight + multiset(IdList(e.batch));
    var proved, lost := flying * multiset(e.proved), flying * multiset(e.dropped);
    w.(slice := e.slice, inFlight := flying - proved - lost, committed := w.committed + proved,
       dropped := w.dropped + lost, handed := w.handed + e.batch)
  }

  function Made(op: Operation): seq<Delivery> {
    match op
    case Admission(d, _, _) => [d]
    case Resumption(d, _) => [d]
    case _ => []
  }

  // ------------------------------------------------------------------ Premises

  /** Handed over, but withdrawn from the queue as suppressed while its Steer batch was under way. */
  predicate LetGo(w: World, id: Id) {
    id in w.inFlight && id !in Guarded(w.slice)
  }

  /** The Reading tells the truth, and a suppression that let a hand-off go is permanent. */
  ghost predicate Reads(w: World, r: Reading) {
    && (forall id :: id in r.proven <==> id in Proofs(w))
    && (forall id {:trigger id in r.suppressed} {:trigger LetGo(w, id)} :: LetGo(w, id) ==> id in r.suppressed)
  }

  /** A free resume slot is taken only under a current Hold. */
  predicate TakesSlot(s: Slice, op: Operation, h: Host) {
    op.Resumption? && s.reserved.None? && s.resuming.None? && h.holdCurrent
  }

  /**
   * A current Hold blocks ordinary input, and the Hold of the resume slot is current
   * until it ends, once and for all.
   */
  predicate Coherent(w: World, h: Host) {
    && (h.holdCurrent ==> h.blocksOrdinary)
    && (w.slice.reserved.Some? ==> (h.holdCurrent <==> w.held))
  }

  ghost predicate Permitted(w: World, op: Operation, r: Reading, h: Host) {
    && Reads(w, r) && Coherent(w, h)
    && (forall d :: d in Made(op) ==> d.serial == w.made)
    && (op.Resumption? ==> IsResumeMessage(op.message))
  }

  /** A Supervisory Resume brings a Message that is new to this recipient. */
  predicate FreshMessage(w: World, d: Delivery) {
    !HasScheduling(w.slice, d.id) && d.id !in w.inFlight && d.id !in Proofs(w)
  }

  ghost predicate Allowed(w: World, op: Operation, r: Reading, h: Host) {
    Permitted(w, op, r, h) && (TakesSlot(w.slice, op, h) ==> FreshMessage(w, op.message))
  }

  function Operate(w: World, op: Operation, r: Reading, h: Host): World {
    Record(w, Perform(w.slice, op, r, h)).(made := w.made + |Made(op)|, held := w.held || TakesSlot(w.slice, op, h))
  }

  datatype Action = Lane(op: Operation, reading: Reading, host: Host) | Commits(id: Id) | Retrieves(id: Id) | HoldEnds

  ghost predicate Enabled(w: World, a: Action) {
    match a
    case Lane(op, r, h) => Permitted(w, op, r, h)
    case Commits(id) => id in w.inFlight
    case Retrieves(id) => MayRetrieve(w, id)
    case HoldEnds => true
  }

  function Act(w: World, a: Action): World {
    match a
    case Lane(op, r, h) => Operate(w, op, r, h)
    case Commits(id) => Commit(w, id)
    case Retrieves(id) => Retrieve(w, id)
    case HoldEnds => w.(held := false)
  }

  /** If the step takes the resume slot, its Message is new. */
  predicate Careful(w: World, a: Action) {
    a.Lane? && TakesSlot(w.slice, a.op, a.host) ==> FreshMessage(w, a.op.message)
  }

  /** The Runtime commits a hand-off to the recipient's transcript. */
  function Commit(w: World, id: Id): World {
    w.(inFlight := w.inFlight - multiset{id}, committed := w.committed + multiset{id})
  }

  /**
   * Retrieval asks the scheduler first; only Answers are retrieved, and those are neither
   * resumes nor ever suppressed.
   */
  predicate MayRetrieve(w: World, id: Id) {
    id !in Proofs(w) && !HasDispatchReservation(w.slice, id) && id !in SlotId(w.slice.reserved) && !LetGo(w, id)
  }

  function Retrieve(w: World, id: Id): World {
    w.(retrieved := w.retrieved + multiset{id})
  }

  // ----------------------------------------------------------------- Invariant

  ghost predicate HandedInOrder(handed: seq<Delivery>) {
    forall i, j {:trigger handed[i], handed[j]} :: 0 <= i < j < |handed| ==> NotAfter(handed[i], handed[j])
  }

  predicate NotAfter(a: Delivery, b: Delivery) {
    && (IsDeferredRequest(a) && IsDeferredRequest(b) ==> a.serial <= b.serial)
    && (IsBackground(a) && IsBackground(b) ==> a.serial <= b.serial)
  }

  ghost predicate HistoryOk(w: World) {
    && (forall d :: d in w.handed || d in w.slice.pending ==> d.serial < w.made)
    && (w.slice.reserved.Some? ==> w.slice.reserved.value.serial < w.made)
    && (forall d :: d in Prompted(w.slice) ==> d in w.handed)
    && (forall a, b {:trigger NotAfter(a, b)} :: a in w.handed && b in w.slice.pending ==> NotAfter(a, b))
    && HandedInOrder(w.handed)
  }

  /** Each hand-off still under way is guarded, or its Message is no longer queued. */
  ghost predicate Placed(w: World, id: Id) {
    id in Guarded(w.slice) || (id !in Ids(w.slice.pending) && id !in SlotId(w.slice.reserved))
  }

  ghost predicate CountsOk(w: World) {
    && (forall id {:trigger w.inFlight[id]} :: w.inFlight[id] + Proofs(w)[id] <= 1)
    && multiset(IdList(w.handed)) == w.inFlight + w.committed + w.dropped
    && (forall id {:trigger Placed(w, id)} :: id in w.inFlight ==> Placed(w, id))
    && (w.slice.reserved.Some? ==> w.slice.reserved.value.id !in Proofs(w))
    && Committed(w.slice.deferred) + Committed(w.slice.preempting) <= set id | id in Proofs(w)
  }

  ghost predicate Sound(w: World) {
    SliceOk(w.slice) && HistoryOk(w) && CountsOk(w)
  }

  // ------------------------------------------------------------- Preservation

  lemma IdListOnce(ds: seq<Delivery>, id: Id)
    requires Ordered(ds)
    ensures multiset(IdList(ds))[id] == if id in Ids(ds) then 1 else 0
  {
    if ds != [] {
      var rest := ds[..|ds| - 1];
      IdListOnce(rest, id);
      assert IdList(ds) == IdList(rest) + [ds[|ds| - 1].id];
      assert ds == rest + [ds[|ds| - 1]];
      assert Ids(ds) == Ids(rest) + {ds[|ds| - 1].id};
      assert forall k :: 0 <= k < |rest| ==> Precedes(ds[k], ds[|ds| - 1]) && rest[k] == ds[k];
    }
  }

  lemma HistoryKept(w: World, r: Reading, e: Effect)
    requires Sound(w) && Follows(w.slice, r, e)
    ensures HistoryOk(Record(w, e))
  {
    var w' := Record(w, e);
    forall d | d in e.batch
      ensures d in w.slice.pending || w.slice.reserved == Some(d)
    {
      assert Fresh(w.slice, r, d);
    }
    forall a, b | a in w.handed && (b in e.batch || b in e.slice.pending)
      ensures NotAfter(a, b)
    {
    }
    forall a, b | a in e.batch && b in e.slice.pending
      ensures NotAfter(a, b)
    {
      assert Oldest(a, e.slice.pending);
    }
    forall i, j | 0 <= i < j < |w'.handed|
      ensures NotAfter(w'.handed[i], w'.handed[j])
    {
      var n := |w.handed|;
      if n <= i {
        assert w'.handed[i] == e.batch[i - n] && w'.handed[j] == e.batch[j - n];
      } else if n <= j {
        assert w'.handed[j] == e.batch[j - n];
      }
    }
  }

  lemma NotFlying(w: World, r: Reading, e: Effect, d: Delivery)
    requires Sound(w) && Reads(w, r) && Follows(w.slice, r, e) && d in e.batch
    ensures w.inFlight[d.id] == 0 && Proofs(w)[d.id] == 0
  {
    hide Ordered, HistoryOk, InTurn, NoneWithdrawn, OneAtATime, Owned;
    assert Fresh(w.slice, r, d);
    assert Guarded(w.slice) <= Dispatched(w.slice);
    var placed := Placed(w, d.id);
  }

  function Flying(w: World, e: Effect): multiset<Id> {
    w.inFlight + multiset(IdList(e.batch))
  }

  lemma FlyingOnce(w: World, r: Reading, e: Effect, id: Id)
    requires Sound(w) && Reads(w, r) && Follows(w.slice, r, e)
    ensures Flying(w, e)[id] + Proofs(w)[id] <= 1
    ensures Flying(w, e)[id] == w.inFlight[id] + (if id in Ids(e.batch) then 1 else 0)
  {
    IdListOnce(e.batch, id) by {
      assert FairBatch(w.slice, r, e);
    }
    if id in Ids(e.batch) {
      var d :| d in e.batch && d.id == id;
      NotFlying(w, r, e, d);
    }
    var once := w.inFlight[id];
  }

  lemma PlacedKept(w: World, r: Reading, e: Effect, id: Id)
    requires Sound(w) && Reads(w, r) && Follows(w.slice, r, e)
    requires id in Record(w, e).inFlight
    ensures Placed(Record(w, e), id)
  {
    hide HistoryOk, InTurn, NoneWithdrawn, OneAtATime, Owned, Ordered;
    FlyingOnce(w, r, e, id);
    assert id !in e.dropped;
    if id !in Ids(e.batch) {
      var placed := Placed(w, id);
      assert id !in r.proven;
    }
  }

  lemma ReservedKeptUnproven(w: World, r: Reading, e: Effect)
    requires Sound(w) && Reads(w, r) && Follows(w.slice, r, e) && e.slice.reserved.Some?
    ensures e.slice.reserved.value.id !in e.proved
  {
    hide HistoryOk, InTurn, NoneWithdrawn, OneAtATime, Owned, Ordered;
  }

  /** A Message proved within the operation was under way, once. */
  lemma ProofsGrow(w: World, e: Effect)
    requires e.proved !! e.dropped
    requires forall id {:trigger Flying(w, e)[id]} :: Flying(w, e)[id] + Proofs(w)[id] <= 1
    ensures var w' := Record(w, e);
            && (forall id {:trigger w'.inFlight[id]} :: w'.inFlight[id] + Proofs(w')[id] <= 1)
            && (forall id :: id in Proofs(w') <==> id in Proofs(w) || (id in e.proved && id in Flying(w, e)))
  {
    hide IdList;
    var flying := Flying(w, e);
    forall id
      ensures flying[id] + Proofs(w)[id] <= 1
    {
    }
  }

  lemma BooksBalance(w: World, e: Effect)
    requires e.proved !! e.dropped && multiset(IdList(w.handed)) == w.inFlight + w.committed + w.dropped
    requires forall id {:trigger Flying(w, e)[id]} :: Flying(w, e)[id] + Proofs(w)[id] <= 1
    ensures var w' := Record(w, e);
            && multiset(IdList(w'.handed)) == w'.inFlight + w'.committed + w'.dropped
            && (forall id {:trigger w'.inFlight[id]} :: w'.inFlight[id] + Proofs(w')[id] <= 1)
            && (forall id :: id in Proofs(w') <==> id in Proofs(w) || (id in e.proved && id in Flying(w, e)))
  {
    hide IdList;
    IdListConcat(w.handed, e.batch);
    ProofsGrow(w, e);
    var flying := Flying(w, e);
    var proved, lost := flying * multiset(e.proved), flying * multiset(e.dropped);
    assert proved + lost <= flying by {
      forall id
        ensures proved[id] + lost[id] <= flying[id]
      {
      }
    }
  }

  lemma IdListConcat(a: seq<Delivery>, b: seq<Delivery>)
    ensures multiset(IdList(a + b)) == multiset(IdList(a)) + multiset(IdList(b))
  {
    assert IdList(a + b) == IdList(a) + IdList(b);
  }

  lemma CountsKept(w: World, r: Reading, e: Effect)
    requires Sound(w) && Reads(w, r) && Follows(w.slice, r, e)
    ensures CountsOk(Record(w, e))
  {
    hide HistoryOk, SliceOk, Follows, Placed, Guarded, LetGo, Ids, IdList, Flying;
    var w' := Record(w, e);
    Carried(w.slice, r, e);
    forall id
      ensures Flying(w, e)[id] + Proofs(w)[id] <= 1
    {
      FlyingOnce(w, r, e, id);
    }
    BooksBalance(w, e);
    forall id | id in w'.inFlight
      ensures Placed(w', id)
    {
      PlacedKept(w, r, e, id);
    }
    if e.slice.reserved.Some? {
      ReservedKeptUnproven(w, r, e);
    }
  }

  lemma Carried(s: Slice, r: Reading, e: Effect)
    requires Follows(s, r, e)
    ensures e.proved !! e.dropped && Truthful(e.slice, r)
    ensures e.slice.reserved == s.reserved || e.slice.reserved.None?
  {
  }

  lemma EffectSound(w: World, r: Reading, e: Effect)
    requires Sound(w) && Reads(w, r) && Follows(w.slice, r, e)
    ensures Sound(Record(w, e))
  {
    hide HistoryOk, CountsOk, Record;
    HistoryKept(w, r, e);
    CountsKept(w, r, e);
    assert Record(w, e).slice == e.slice by { RecordSlice(w, e); }
  }

  lemma RecordSlice(w: World, e: Effect)
    ensures Record(w, e).slice == e.slice
  {
  }

  // ---------------------------------------------------------------- Operations

  lemma MoreMade(w: World, n: nat)
    requires Sound(w) && w.made <= n
    ensures Sound(w.(made := n))
  {
    hide SliceOk, HandedInOrder, IdList;
    forall id | id in w.inFlight
      ensures Placed(w.(made := n), id)
    {
      var placed := Placed(w, id);
    }
  }

  /** Moving Deliveries that are not under way between queue and resume slot disturbs no hand-off. */
  lemma Rearranged(w: World, s: Slice, n: nat, r: Reading)
    requires Sound(w) && Reads(w, r) && SliceOk(s) && w.made <= n
    requires Guarded(s) == Guarded(w.slice) && s.deferred == w.slice.deferred && s.preempting == w.slice.preempting
    requires forall id :: id in Ids(s.pending) + SlotId(s.reserved) ==>
               id in Ids(w.slice.pending) + SlotId(w.slice.reserved) || id !in w.inFlight
    requires forall d :: d in s.pending ==> d in w.slice.pending || d.serial == w.made < n
    requires s.reserved.Some? ==>
               (s.reserved == w.slice.reserved || s.reserved.value.serial == w.made < n)
                 && s.reserved.value.id !in Proofs(w)
    ensures Sound(w.(slice := s, made := n)) && Reads(w.(slice := s, made := n), r)
  {
    hide SliceOk, HandedInOrder, IdList, Guarded;
    var q := w.(slice := s, made := n);
    forall id | id in q.inFlight
      ensures Placed(q, id)
    {
      var placed := Placed(w, id);
    }
    assert forall id :: LetGo(q, id) <==> LetGo(w, id);
  }

  lemma NotUnderWay(w: World, r: Reading, id: Id)
    requires Sound(w) && Reads(w, r) && !HasScheduling(w.slice, id) && id !in r.suppressed
    ensures id !in w.inFlight
  {
    hide SliceOk, HistoryOk;
    assert !LetGo(w, id);
  }

  lemma Queued(w: World, d: Delivery, r: Reading)
    requires Sound(w) && Reads(w, r) && d.serial == w.made
    requires !HasScheduling(w.slice, d.id) && d.id !in r.suppressed
    ensures var q := w.(slice := Enqueue(w.slice, d), made := w.made + 1); Sound(q) && Reads(q, r)
  {
    hide SliceOk, HandedInOrder, Enqueue, Guarded, HasScheduling, Placed, LetGo;
    EnqueueOk(w.slice, d);
    NotUnderWay(w, r, d.id);
    SameSlots(w.slice, d);
    Rearranged(w, Enqueue(w.slice, d), w.made + 1, r);
  }

  lemma SameSlots(s: Slice, d: Delivery)
    ensures var q := Enqueue(s, d); q.deferred == s.deferred && q.preempting == s.preempting && q.reserved == s.reserved
  {
  }

  lemma Reserved(w: World, d: Delivery, heldBack: bool, r: Reading)
    requires Sound(w) && Reads(w, r) && d.serial == w.made && IsResumeMessage(d) && FreshMessage(w, d)
    requires w.slice.reserved.None? && w.slice.resuming.None?
    ensures var q := w.(slice := ReserveResume(w.slice, d).(resumeHeldBack := heldBack), made := w.made + 1);
            Sound(q) && Reads(q, r)
  {
    hide HandedInOrder, IdList, Ordered;
    var s := ReserveResume(w.slice, d).(resumeHeldBack := heldBack);
    assert Guarded(s) == Guarded(w.slice);
    Rearranged(w, s, w.made + 1, r);
  }

  lemma HeldBackFlag(w: World, heldBack: bool, r: Reading)
    requires Sound(w) && Reads(w, r)
    ensures var q := w.(slice := w.slice.(resumeHeldBack := heldBack)); Sound(q) && Reads(q, r)
  {
    hide HandedInOrder, IdList, Ordered;
    var s := w.slice.(resumeHeldBack := heldBack);
    assert Guarded(s) == Guarded(w.slice);
    Rearranged(w, s, w.made, r);
  }

  lemma SoundReads(w: World, r: Reading)
    requires Sound(w) && Reads(w, r)
    ensures SliceOk(w.slice) && Truthful(w.slice, r)
    ensures w.slice.reserved.Some? ==> w.slice.reserved.value.id !in r.proven
  {
  }

  /** `p` is the world after an operation took its new Delivery and before it drained: there its effect is fair. */
  ghost predicate Prepares(w: World, n: nat, r: Reading, e: Effect, p: World) {
    && p == w.(slice := p.slice, made := n)
    && Sound(p) && Reads(p, r) && Follows(p.slice, r, e)
    && p.slice.deferred == w.slice.deferred && p.slice.preempting == w.slice.preempting
    && (forall id :: id in Dispatched(p.slice) <==> id in Dispatched(w.slice))
  }

  /** The operation takes nothing. */
  lemma PrepareNothing(w: World, n: nat, r: Reading, e: Effect)
    requires Sound(w) && Reads(w, r) && w.made <= n && Follows(w.slice, r, e)
    ensures Prepares(w, n, r, e, w.(made := n))
  {
    hide Sound, Reads, Follows, Dispatched;
    MoreMade(w, n);
    Rewritten(w, n, r);
  }

  lemma PrepareAdmission(w: World, d: Delivery, capacity: nat, boot: Boot, r: Reading, h: Host) returns (p: World)
    requires Sound(w) && Reads(w, r) && d.serial == w.made
    ensures Prepares(w, w.made + 1, r, Admit(w.slice, d, capacity, boot, r, h).0, p)
  {
    hide SliceOk, Truthful, Follows, Advance, HasScheduling, Sound, LetGo, Proofs, CountPending, Prepares, Reads;
    SoundReads(w, r);
    var n := w.made + 1;
    if HasScheduling(w.slice, d.id) || (!d.custom && CountPending(w.slice.pending, r) >= capacity)
       || d.id in r.suppressed || boot.Fails? {
      p := w.(made := n);
      AdvanceFollows(w.slice, r, h);
      QuietFollows(w.slice, r);
      PrepareNothing(w, n, r, Admit(w.slice, d, capacity, boot, r, h).0);
    } else {
      Queued(w, d, r);
      p := w.(slice := Enqueue(w.slice, d), made := n);
      SoundReads(p, r);
      QuietFollows(p.slice, r);
      AdvanceFollows(p.slice, r, h);
      Prepared(w, n, r, Admit(w.slice, d, capacity, boot, r, h).0, p);
    }
  }

  /** Taking a new Delivery into the queue or the slot leaves the prompts alone. */
  lemma Prepared(w: World, n: nat, r: Reading, e: Effect, p: World)
    requires Sound(p) && Reads(p, r) && Follows(p.slice, r, e) && p == w.(slice := p.slice, made := n)
    requires p.slice ==
               w.slice.(pending := p.slice.pending, reserved := p.slice.reserved,
                   resumeHeldBack := p.slice.resumeHeldBack)
    ensures Prepares(w, n, r, e, p)
  {
    hide Sound, Reads, Follows;
  }

  lemma PrepareResumption(w: World, d: Delivery, heldBack: bool, r: Reading, h: Host) returns (p: World)
    requires Sound(w) && Allowed(w, Resumption(d, heldBack), r, h)
    ensures Prepares(w, w.made + 1, r, AdmitResume(w.slice, d, heldBack, r, h).0, p)
  {
    hide SliceOk, Truthful, Follows, Advance, HasScheduling, Sound, LetGo, Proofs, Prepares, Reads, Coherent;
    SoundReads(w, r);
    var n := w.made + 1;
    assert d in Made(Resumption(d, heldBack));
    if !TakesSlot(w.slice, Resumption(d, heldBack), h) {
      p := w.(made := n);
      QuietFollows(w.slice, r);
      PrepareNothing(w, n, r, Quiet(w.slice));
    } else {
      var flag := if heldBack then true else w.slice.resumeHeldBack;
      Reserved(w, d, flag, r);
      p := w.(slice := ReserveResume(w.slice, d).(resumeHeldBack := flag), made := n);
      SoundReads(p, r);
      QuietFollows(p.slice, r);
      AdvanceFollows(p.slice, r, h);
      Prepared(w, n, r, AdmitResume(w.slice, d, heldBack, r, h).0, p);
    }
  }

  lemma PrepareRelease(w: World, id: Id, r: Reading, h: Host) returns (p: World)
    requires Sound(w) && Reads(w, r)
    ensures Prepares(w, w.made, r, ReleaseResume(w.slice, id, r, h), p)
  {
    hide SliceOk, Truthful, Follows, Advance, Sound, Prepares, Reads;
    SoundReads(w, r);
    p := w;
    if w.slice.reserved.Some? && w.slice.reserved.value.id == id {
      HeldBackFlag(w, false, r);
      p := w.(slice := w.slice.(resumeHeldBack := false));
      SoundReads(p, r);
      AdvanceFollows(p.slice, r, h);
    } else {
      QuietFollows(w.slice, r);
    }
    Prepared(w, w.made, r, ReleaseResume(w.slice, id, r, h), p);
  }

  lemma PerformFollows(s: Slice, op: Operation, r: Reading, h: Host)
    requires SliceOk(s) && Truthful(s, r) && (s.reserved.Some? ==> s.reserved.value.id !in r.proven)
    requires !op.Admission? && !op.Resumption? && !op.ResumptionReleased?
    ensures Follows(s, r, Perform(s, op, r, h))
  {
    hide SliceOk, Truthful, Follows, Advance, Settle, BeginParking, ReachSafeBoundary, DispatchFrozen, Abandon, Discard,
         Interrupt;
    match op {
      case Drain => AdvanceFollows(s, r, h);
      case SafeBoundary => SafeBoundaryFollows(s, r, h);
      case FrozenReleased(batch) => DispatchFrozenFollows(s, batch, r, h);
      case Settlement(ending) => SettleFollows(s, ending, r, h);
      case Parking => ParkingFollows(s, r, h);
      case Interruption => InterruptFollows(s, r);
      case Discarding => DiscardFollows(s, r);
      case Abandonment(lost) => AbandonFollows(s, r, lost);
    }
  }

  lemma Prepare(w: World, op: Operation, r: Reading, h: Host) returns (p: World)
    requires Sound(w) && Allowed(w, op, r, h)
    ensures Prepares(w, w.made + |Made(op)|, r, Perform(w.slice, op, r, h), p)
  {
    hide SliceOk, Truthful, Follows, Sound, Reads, Coherent, Prepares, FreshMessage, Admit, AdmitResume, ReleaseResume;
    match op {
      case Admission(d, capacity, boot) =>
        assert d in Made(op);
        p := PrepareAdmission(w, d, capacity, boot, r, h);
      case Resumption(d, heldBack) => p := PrepareResumption(w, d, heldBack, r, h);
      case ResumptionReleased(id) => p := PrepareRelease(w, id, r, h);
      case _ =>
        SoundReads(w, r);
        PerformFollows(w.slice, op, r, h);
        p := w.(made := w.made);
        PrepareNothing(w, w.made, r, Perform(w.slice, op, r, h));
    }
  }

  lemma Rewritten(w: World, n: nat, r: Reading)
    requires Reads(w, r)
    ensures Reads(w.(made := n), r)
  {
    assert forall id :: LetGo(w.(made := n), id) <==> LetGo(w, id);
  }

  /** Every operation keeps the invariant, and hands over only what is neither under way nor proven. */
  lemma OperateSound(w: World, op: Operation, r: Reading, h: Host)
    requires Sound(w) && Allowed(w, op, r, h)
    ensures Sound(Operate(w, op, r, h))
    ensures forall d :: d in Perform(w.slice, op, r, h).batch ==>
              w.inFlight[d.id] == 0 && Proofs(w)[d.id] == 0 && d.id !in Dispatched(w.slice)
  {
    hide Sound, Perform, Reads, Record, Dispatched;
    var p := Prepare(w, op, r, h);
    var e := Perform(w.slice, op, r, h);
    EffectSound(p, r, e);
    var held := w.held || TakesSlot(w.slice, op, h);
    assert Operate(w, op, r, h) == Record(p, e).(held := held) by { RecordAfter(w, p, op, e); }
    HeldSound(Record(p, e), held);
    forall d | d in e.batch
      ensures w.inFlight[d.id] == 0 && Proofs(w)[d.id] == 0 && d.id !in Dispatched(w.slice)
    {
      NotFlying(p, r, e, d);
      FreshOf(p.slice, r, e, d);
    }
  }

  lemma FreshOf(s: Slice, r: Reading, e: Effect, d: Delivery)
    requires Follows(s, r, e) && d in e.batch
    ensures d.id !in Dispatched(s)
  {
    assert Fresh(s, r, d);
  }

  lemma HeldSound(w: World, held: bool)
    requires Sound(w)
    ensures Sound(w.(held := held))
  {
    hide SliceOk, HandedInOrder, IdList;
    var w' := w.(held := held);
    forall id | id in w'.inFlight
      ensures Placed(w', id) && w'.inFlight[id] + Proofs(w')[id] <= 1
    {
      var placed := Placed(w, id);
    }
  }

  lemma RecordAfter(w: World, p: World, op: Operation, e: Effect)
    requires p == w.(slice := p.slice, made := w.made + |Made(op)|)
    ensures Record(w, e).(made := w.made + |Made(op)|) == Record(p, e)
  {
    hide IdList;
  }

  lemma CommitSound(w: World, id: Id)
    requires Sound(w) && id in w.inFlight
    ensures Sound(Commit(w, id))
  {
    hide SliceOk, HandedInOrder;
    var w' := Commit(w, id);
    var once := w.inFlight[id];
    forall x | x in w'.inFlight
      ensures Placed(w', x)
    {
      var placed := Placed(w, x);
    }
    var placed := Placed(w, id);
    assert w.slice.reserved.Some? ==> w.slice.reserved.value.id != id by { GuardedApart(w.slice); }
  }

  lemma GuardedApart(s: Slice)
    requires SliceOk(s)
    ensures s.reserved.Some? ==> s.reserved.value.id !in Guarded(s)
  {
    hide Ordered, Owned, SteerBatch;
  }

  lemma RetrieveSound(w: World, id: Id)
    requires Sound(w) && MayRetrieve(w, id)
    ensures Sound(Retrieve(w, id))
  {
    hide SliceOk, HandedInOrder;
    var w' := Retrieve(w, id);
    assert id !in w.inFlight by {
      assert Guarded(w.slice) <= Dispatched(w.slice);
    }
    forall x | x in w'.inFlight
      ensures Placed(w', x)
    {
      var placed := Placed(w, x);
    }
    assert forall x :: w'.inFlight[x] + Proofs(w')[x] <= 1 by {
      forall x ensures w'.inFlight[x] + Proofs(w')[x] <= 1 {
        var once := w.inFlight[x];
      }
    }
  }

  // --------------------------------------------------------------------- Runs

  ghost predicate OpenStep(w: World, a: Action, w': World) {
    Enabled(w, a) && w' == Act(w, a)
  }

  /** From `ws[0]` on, every interleaving, whatever Messages are resumed with. */
  ghost predicate Steps(ws: seq<World>, acts: seq<Action>) {
    |ws| == |acts| + 1 && forall i :: 0 <= i < |acts| ==> OpenStep(ws[i], acts[i], ws[i + 1])
  }

  ghost predicate OpenRun(ws: seq<World>, acts: seq<Action>) {
    Steps(ws, acts) && ws[0] == START
  }

  predicate AllCareful(ws: seq<World>, acts: seq<Action>, n: nat)
    requires n <= |acts| < |ws|
  {
    forall i {:trigger acts[i]} :: 0 <= i < n ==> Careful(ws[i], acts[i])
  }

  ghost predicate Run(ws: seq<World>, acts: seq<Action>) {
    OpenRun(ws, acts) && AllCareful(ws, acts, |acts|)
  }

  lemma ActSound(w: World, a: Action)
    requires Sound(w) && Enabled(w, a) && Careful(w, a)
    ensures Sound(Act(w, a))
  {
    hide Sound, Permitted, Operate, Commit, Retrieve, MayRetrieve, TakesSlot, FreshMessage;
    match a {
      case Lane(op, r, h) => OperateSound(w, op, r, h);
      case Commits(id) => CommitSound(w, id);
      case Retrieves(id) => RetrieveSound(w, id);
      case HoldEnds => HeldSound(w, false);
    }
  }

  /** Whatever is sound stays so along careful steps. */
  lemma {:induction false} StepsSound(ws: seq<World>, acts: seq<Action>, n: nat)
    requires Steps(ws, acts) && Sound(ws[0]) && n < |ws| && AllCareful(ws, acts, n)
    ensures Sound(ws[n])
    decreases n
  {
    hide Sound, Enabled, Act, Careful;
    if n > 0 {
      var i := n - 1;
      StepsSound(ws, acts, i);
      assert OpenStep(ws[i], acts[i], ws[i + 1]) && Careful(ws[i], acts[i]);
      ActSound(ws[i], acts[i]);
    }
  }

  lemma RunSound(ws: seq<World>, acts: seq<Action>, i: nat)
    requires Run(ws, acts) && i < |ws|
    ensures Sound(ws[i])
  {
    hide Sound, OpenStep, Careful;
    StartSound();
    StepsSound(ws, acts, i);
  }

  lemma StartSound()
    ensures Sound(START)
  {
  }

  /**
   * In every run: reservations never overlap, no Message is proved twice or is
   * still under way once proved, and the hand-offs of one Message outnumber its
   * dropped hand-offs by at most one.
   */
  lemma SingleHandOff(ws: seq<World>, acts: seq<Action>, i: nat, id: Id)
    requires Run(ws, acts) && i < |ws|
    ensures Apart(ws[i].slice)
    ensures Proofs(ws[i])[id] + ws[i].inFlight[id] <= 1
    ensures multiset(IdList(ws[i].handed))[id] <= 1 + ws[i].dropped[id]
  {
    hide Run, IdList;
    RunSound(ws, acts, i);
    var once := ws[i].inFlight[id];
  }

  /** In every run, Deferred Requests are handed over in admission order, and so are Background items. */
  lemma LinesAreFifo(ws: seq<World>, acts: seq<Action>, i: nat, a: nat, b: nat)
    requires Run(ws, acts) && i < |ws| && a < b < |ws[i].handed|
    ensures var (x, y) := (ws[i].handed[a], ws[i].handed[b]);
            && (IsDeferredRequest(x) && IsDeferredRequest(y) ==> x.serial <= y.serial)
            && (IsBackground(x) && IsBackground(y) ==> x.serial <= y.serial)
  {
    hide Run, CountsOk, SliceOk;
    RunSound(ws, acts, i);
    var ordered := NotAfter(ws[i].handed[a], ws[i].handed[b]);
  }

  /**
   * Whatever a run's next operation hands over: none of it holds a reservation,
   * is under way or is proven; no batch withdraws one of its own Requests; a
   * Deferred Request or a Background item goes alone; and a Deferred Request
   * goes only when the prompts before it are proven.
   */
  lemma HandOffsAreFair(ws: seq<World>, acts: seq<Action>, i: nat, op: Operation, r: Reading, h: Host)
    requires Run(ws, acts) && i < |ws| && Allowed(ws[i], op, r, h)
    ensures var (w, batch) := (ws[i], Perform(ws[i].slice, op, r, h).batch);
            && (forall d :: d in batch ==>
                 w.inFlight[d.id] == 0 && Proofs(w)[d.id] == 0 && d.id !in Dispatched(w.slice))
            && NoneWithdrawn(batch)
            && (forall d :: d in batch && (IsDeferredRequest(d) || IsBackground(d)) ==> batch == [d])
            && OneAtATime(w.slice, r, batch)
  {
    hide Run, Sound, Perform, Reads, Dispatched, OneAtATime;
    RunSound(ws, acts, i);
    OperateSound(ws[i], op, r, h);
    var p := Prepare(ws[i], op, r, h);
    BatchIsFair(p.slice, ws[i].slice, r, Perform(ws[i].slice, op, r, h));
  }

  lemma BatchIsFair(s: Slice, t: Slice, r: Reading, e: Effect)
    requires Follows(s, r, e) && s.deferred == t.deferred && s.preempting == t.preempting
    ensures NoneWithdrawn(e.batch) && OneAtATime(t, r, e.batch)
    ensures forall d :: d in e.batch && (IsDeferredRequest(d) || IsBackground(d)) ==> e.batch == [d]
  {
    assert OneAtATime(s, r, e.batch);
  }
}
