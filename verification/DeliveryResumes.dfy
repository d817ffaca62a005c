/**
 * What a Supervisory Resume asks of its Message: a Message that is new to the
 * recipient, and why nothing less will do, over every continuation
 * (src/coordination/message-delivery-scheduler.ts:519-551, 843-863).
 */
module DeliveryResumes {
  import opened DeliveryQueue
  import opened DeliveryOperations
  import opened DeliveryEffects
  import opened DeliveryRuns

  /** Proofs of a Message, and hand-offs of it that can still become proofs. */
  function Count(w: World, id: Id): nat {
    Proofs(w)[id] + w.inFlight[id]
  }

  ghost predicate Single(w: World) {
    forall id :: Count(w, id) <= 1
  }

  lemma SoundIsSingle(w: World)
    requires Sound(w)
    ensures Single(w)
  {
    hide SliceOk, HistoryOk;
    forall id
      ensures Count(w, id) <= 1
    {
      var once := w.inFlight[id];
    }
  }

  // ------------------------------------------------- Where reservations come from

  /**
   * An id that is reserved afterwards is queued, was reserved before without being
   * queued, or left the queue for a reason.
   */
  ghost predicate Traced(s: Slice, r: Reading, e: Effect, id: Id) {
    HasDispatchReservation(e.slice, id) ==>
      && id !in e.dropped
      && (|| id in Ids(e.slice.pending) || id in r.proven || id in r.suppressed || id in e.proved
          || (HasDispatchReservation(s, id) && id !in Ids(s.pending)))
  }

  lemma PurgeTraces(s: Slice, r: Reading, id: Id)
    ensures var p := Purge(s, r);
            && (HasDispatchReservation(p, id) ==> HasDispatchReservation(s, id))
            && (id in Ids(s.pending) && id !in Ids(p.pending) ==> id in r.proven || id in r.suppressed)
  {
    hide Keep;
    var p := Purge(s, r);
    if x :| x in s.pending && x.id == id && id !in r.proven && id !in r.suppressed {
      assert x in p.pending;
    }
  }

  lemma PurgeThenTraced(s: Slice, r: Reading, e: Effect, id: Id)
    requires Traced(Purge(s, r), r, e, id)
    ensures Traced(s, r, e, id)
  {
    hide Purge, HasDispatchReservation;
    PurgeTraces(s, r, id);
  }

  lemma DispatchTraced(s: Slice, batch: seq<Delivery>, r: Reading, h: Host, id: Id)
    ensures Traced(s, r, DispatchFrozen(s, batch, r, h), id)
  {
    hide Purge, Keep;
    PurgeTraces(s, r, id);
    PurgeFreezes(s, r);
  }

  lemma PurgeFreezes(s: Slice, r: Reading)
    ensures Purge(s, r).frozen.Some? ==> Purge(s, r).frozen == s.frozen
  {
  }

  lemma FreezeTraced(s: Slice, chosen: seq<Delivery>, r: Reading, h: Host, id: Id)
    requires forall x :: x in chosen ==> x in s.pending
    ensures Traced(s, r, Freeze(s, chosen, r, h), id)
  {
    hide DispatchFrozen, Eligible, EligibleSteer;
    var steer := if chosen == [] then EligibleSteer(s, Eligible(s.pending, r)) else chosen;
    DispatchTraced(s.(frozen := Some(Frozen(steer, false))), steer, r, h, id);
  }

  lemma PreemptionTraced(s: Slice, trigger: Delivery, r: Reading, id: Id)
    ensures Traced(s, r, ReservePreemption(s, trigger, r), id)
  {
    hide Eligible, EligibleSteer, First, Keep;
  }

  lemma AdvanceQueueTraced(s: Slice, r: Reading, h: Host, id: Id)
    ensures Traced(s, r, AdvanceQueue(s, r, h), id)
  {
    hide Eligible, EligibleSteer, Freeze, ReservePreemption, HasUnprovenFrozenBatch, WaitTrigger;
    var eligible := Eligible(s.pending, r);
    if WaitTrigger(eligible).Some? {
      PreemptionTraced(s, WaitTrigger(eligible).value, r, id);
    }
    FreezeTraced(s, EligibleSteer(s, eligible), r, h, id);
  }

  predicate SlotApart(s: Slice) {
    s.reserved.Some? ==> !HasDispatchReservation(s, s.reserved.value.id)
  }

  lemma SliceSlotApart(s: Slice)
    requires SliceOk(s)
    ensures SlotApart(s)
  {
    hide Ordered, SteerBatch, Owned;
  }

  lemma {:induction false} PutMembers(ds: seq<Delivery>, d: Delivery, x: Delivery)
    ensures x in Put(ds, d) ==> x in ds || x == d
    ensures Ids(ds) <= Ids(Put(ds, d))
  {
    if ds != [] {
      assert ds == [ds[0]] + ds[1..];
      IdsFront(ds[0], ds[1..]);
      IdsFront(d, ds[1..]);
      if ds[0].id != d.id {
        PutMembers(ds[1..], d, x);
        IdsFront(ds[0], Put(ds[1..], d));
      }
    }
  }

  lemma IdsFront(d: Delivery, ds: seq<Delivery>)
    ensures Ids([d] + ds) == {d.id} + Ids(ds)
  {
    assert d in [d] + ds && forall x :: x in ds ==> x in [d] + ds;
  }

  lemma AdvanceTraced(s: Slice, r: Reading, h: Host, id: Id)
    requires SlotApart(s)
    ensures Traced(s, r, Advance(s, r, h), id)
  {
    hide Purge, AdvanceQueue, Put;
    var p := Purge(s, r);
    PurgeSlots(s, r);
    PurgeTraces(s, r, id);
    if p.reserved.Some? {
      PurgeTraces(s, r, p.reserved.value.id);
      var q := Unreserved(p);
      PutMembers(p.pending, p.reserved.value, p.reserved.value);
      AdvanceQueueTraced(q, r, h, id);
    }
    AdvanceQueueTraced(p, r, h, id);
    PurgeThenTraced(s, r, Advance(s, r, h), id);
  }

  lemma PurgeSlots(s: Slice, r: Reading)
    ensures var p := Purge(s, r);
            p.reserved == s.reserved && p.resuming == s.resuming && p.resumeHeldBack == s.resumeHeldBack
  {
  }

  lemma ReleaseTraces(s: Slice, r: Reading, d: bool, p: bool, resume: bool, id: Id)
    requires (d ==> BatchIds(s.deferred) <= r.proven) && (p ==> BatchIds(s.preempting) <= r.proven)
    ensures var q := Release(s, d, p, resume);
            && q.reserved == s.reserved && (HasDispatchReservation(q, id) ==> HasDispatchReservation(s, id))
            && (id in Ids(s.pending) && id !in Ids(q.pending) ==> id in r.proven)
  {
    hide Keep;
    var q := Release(s, d, p, resume);
    if x :| x in s.pending && x.id == id && id !in r.proven {
      assert x in q.pending;
    }
  }

  lemma ReleaseThenTraced(s: Slice, r: Reading, d: bool, p: bool, resume: bool, e: Effect, id: Id)
    requires (d ==> BatchIds(s.deferred) <= r.proven) && (p ==> BatchIds(s.preempting) <= r.proven)
    requires Traced(Release(s, d, p, resume), r, e, id)
    ensures Traced(s, r, e, id)
  {
    hide Release, HasDispatchReservation;
    ReleaseTraces(s, r, d, p, resume, id);
  }

  lemma StillApart(s: Slice, q: Slice)
    requires SlotApart(s) && q.reserved == s.reserved
    requires s.reserved.Some? && HasDispatchReservation(q, s.reserved.value.id) ==>
               HasDispatchReservation(s, s.reserved.value.id)
    ensures SlotApart(q)
  {
  }

  lemma SettleTraced(s: Slice, ending: Ending, r: Reading, h: Host, id: Id)
    requires SlotApart(s)
    ensures Traced(s, r, Settle(s, ending, r, h), id)
  {
    hide Purge, Release, Advance, HasUnprovenFrozenBatch;
    if !ending.held && BatchIds(s.deferred) <= r.proven && BatchIds(s.preempting) <= r.proven {
      var released := Release(s, true, true, true);
      var p := Purge(released, r);
      if s.reserved.Some? {
        ReleaseTraces(s, r, true, true, true, s.reserved.value.id);
        PurgeTraces(released, r, s.reserved.value.id);
      }
      ReleaseTraces(s, r, true, true, true, id);
      PurgeSlots(released, r);
      StillApart(s, p);
      AdvanceTraced(p, r, h, id);
      PurgeThenTraced(released, r, Advance(p, r, h), id);
      ReleaseThenTraced(s, r, true, true, true, Advance(p, r, h), id);
    }
  }

  lemma ParkingTraced(s: Slice, r: Reading, h: Host, id: Id)
    requires SlotApart(s)
    ensures Traced(s, r, BeginParking(s, r, h), id)
  {
    hide Purge, Release, Advance;
    if BatchIds(s.deferred) <= r.proven {
      var d := Release(s, true, false, false);
      ReleaseTraces(s, r, true, false, false, id);
      if BatchIds(d.preempting) <= r.proven {
        var q := Release(d, false, true, false);
        var p := Purge(q, r);
        if s.reserved.Some? {
          ReleaseTraces(s, r, true, false, false, s.reserved.value.id);
          ReleaseTraces(d, r, false, true, false, s.reserved.value.id);
          PurgeTraces(q, r, s.reserved.value.id);
        }
        ReleaseTraces(d, r, false, true, false, id);
        PurgeSlots(q, r);
        StillApart(s, p);
        AdvanceTraced(p, r, h, id);
        PurgeThenTraced(q, r, Advance(p, r, h), id);
        ReleaseThenTraced(d, r, false, true, false, Advance(p, r, h), id);
        ReleaseThenTraced(s, r, true, false, false, Advance(p, r, h), id);
      }
    }
  }

  lemma AbandonTraced(s: Slice, r: Reading, lost: set<Id>, id: Id)
    ensures Traced(s, r, Abandon(s, lost), id)
  {
    hide Keep;
    var e := Abandon(s, lost);
    if x :| x in s.pending && x.id == id && HasDispatchReservation(s, id) {
      assert x in e.slice.pending;
    }
  }

  lemma InterruptTraced(s: Slice, r: Reading, id: Id)
    requires SliceOk(s)
    ensures Traced(s, r, Interrupt(s), id)
  {
    hide Ordered, SteerBatch, Owned;
  }

  lemma AdmitTraced(s: Slice, d: Delivery, capacity: nat, boot: Boot, r: Reading, h: Host, id: Id)
    requires SlotApart(s)
    ensures Traced(s, r, Admit(s, d, capacity, boot, r, h).0, id)
  {
    hide Advance, Put, CountPending;
    PutMembers(s.pending, d, d);
    AdvanceTraced(s, r, h, id);
    AdvanceTraced(Enqueue(s, d), r, h, id);
  }

  lemma AdmitResumeTraced(s: Slice, d: Delivery, heldBack: bool, r: Reading, h: Host, id: Id)
    requires SlotApart(s) && (TakesSlot(s, Resumption(d, heldBack), h) ==> !HasDispatchReservation(s, d.id))
    ensures Traced(s, r, AdmitResume(s, d, heldBack, r, h).0, id)
  {
    hide Advance;
    if TakesSlot(s, Resumption(d, heldBack), h) {
      AdvanceTraced(ReserveResume(s, d), r, h, id);
    }
  }

  lemma PerformTraced(s: Slice, op: Operation, r: Reading, h: Host, id: Id)
    requires SliceOk(s) && (TakesSlot(s, op, h) ==> !HasDispatchReservation(s, op.message.id))
    ensures Traced(s, r, Perform(s, op, r, h), id)
  {
    hide SliceOk, Advance, Settle, BeginParking, Freeze, DispatchFrozen, Abandon, Interrupt, Admit, AdmitResume, Purge,
         TakesSlot;
    SliceSlotApart(s);
    match op {
      case Admission(d, capacity, boot) => AdmitTraced(s, d, capacity, boot, r, h, id);
      case Resumption(d, heldBack) => AdmitResumeTraced(s, d, heldBack, r, h, id);
      case ResumptionReleased(_) => AdvanceTraced(s.(resumeHeldBack := false), r, h, id);
      case Drain => AdvanceTraced(s, r, h, id);
      case SafeBoundary =>
        PurgeTraces(s, r, id);
        FreezeTraced(Purge(s, r), [], r, h, id);
        PurgeThenTraced(s, r, Freeze(Purge(s, r), [], r, h), id);
      case FrozenReleased(batch) => DispatchTraced(s, batch, r, h, id);
      case Settlement(ending) => SettleTraced(s, ending, r, h, id);
      case Parking => ParkingTraced(s, r, h, id);
      case Interruption => InterruptTraced(s, r, id);
      case Discarding =>
      case Abandonment(lost) => AbandonTraced(s, r, lost, id);
    }
  }

  // ------------------------------------------------- Where queued Deliveries come from

  lemma AdvanceInherits(s: Slice, r: Reading, h: Host, x: Delivery)
    ensures var e := Advance(s, r, h);
            x in e.slice.pending || e.slice.reserved == Some(x) ==> x in s.pending || s.reserved == Some(x)
  {
    hide Eligible, EligibleSteer, Put, First;
    if Purge(s, r).reserved.Some? {
      PutMembers(Purge(s, r).pending, Purge(s, r).reserved.value, x);
    }
  }

  lemma QueueInherits(s: Slice, r: Reading, h: Host, x: Delivery)
    ensures x in Purge(s, r).pending ==> x in s.pending
    ensures Purge(s, r).reserved == s.reserved
    ensures forall batch :: x in DispatchFrozen(s, batch, r, h).slice.pending ==> x in s.pending
    ensures forall batch :: DispatchFrozen(s, batch, r, h).slice.reserved == s.reserved
    ensures forall d, p, resume :: x in Release(s, d, p, resume).pending ==> x in s.pending
    ensures forall d, p, resume :: Release(s, d, p, resume).reserved == s.reserved
  {
  }

  lemma BoundaryInherits(s: Slice, r: Reading, h: Host, x: Delivery)
    ensures var e := ReachSafeBoundary(s, r, h);
            (x in e.slice.pending ==> x in s.pending) && e.slice.reserved == s.reserved
  {
    hide Purge, Eligible, EligibleSteer, DispatchFrozen;
    QueueInherits(s, r, h, x);
    var p := Purge(s, r);
    var steer := EligibleSteer(p, Eligible(p.pending, r));
    QueueInherits(p.(frozen := Some(Frozen(steer, false))), r, h, x);
  }

  lemma EndingInherits(s: Slice, ending: Ending, r: Reading, h: Host, x: Delivery)
    ensures var e := Settle(s, ending, r, h);
            x in e.slice.pending || e.slice.reserved == Some(x) ==> x in s.pending || s.reserved == Some(x)
    ensures var e := BeginParking(s, r, h);
            x in e.slice.pending || e.slice.reserved == Some(x) ==> x in s.pending || s.reserved == Some(x)
  {
    hide Purge, Release, Advance, HasUnprovenFrozenBatch;
    QueueInherits(s, r, h, x);
    var all, d := Release(s, true, true, true), Release(s, true, false, false);
    var q := Release(d, false, true, false);
    QueueInherits(all, r, h, x);
    QueueInherits(d, r, h, x);
    QueueInherits(q, r, h, x);
    AdvanceInherits(Purge(all, r), r, h, x);
    AdvanceInherits(Purge(q, r), r, h, x);
  }

  lemma PerformInherits(s: Slice, op: Operation, r: Reading, h: Host, x: Delivery)
    ensures var e := Perform(s, op, r, h);
            x in e.slice.pending || e.slice.reserved == Some(x) ==>
                x in s.pending || s.reserved == Some(x) || x in Made(op)
  {
    hide Advance, Put, CountPending, DispatchFrozen, ReachSafeBoundary, Settle, BeginParking;
    AdvanceInherits(s, r, h, x);
    match op {
      case Admission(d, _, _) =>
        PutMembers(s.pending, d, x);
        AdvanceInherits(Enqueue(s, d), r, h, x);
      case Resumption(d, heldBack) => AdvanceInherits(ReserveResume(s, d), r, h, x);
      case ResumptionReleased(_) => AdvanceInherits(s.(resumeHeldBack := false), r, h, x);
      case SafeBoundary => BoundaryInherits(s, r, h, x);
      case FrozenReleased(_) => QueueInherits(s, r, h, x);
      case Settlement(ending) => EndingInherits(s, ending, r, h, x);
      case Parking => EndingInherits(s, Ending(true, false, false, false, false), r, h, x);
      case _ =>
    }
  }

  // ------------------------------------------------------- The id of one Message

  /** The same Message, whatever object carries it. */
  predicate SameMessage(x: Delivery, d: Delivery) {
    x.(serial := d.serial) == d
  }

  /** The id of `d` names that Message alone, and what it names is never suppressed. */
  ghost predicate Names(acts: seq<Action>, d: Delivery) {
    forall a :: a in acts && a.Lane? ==> NamesIn(a, d)
  }

  ghost predicate NamesIn(a: Action, d: Delivery)
    requires a.Lane?
  {
    d.id !in a.reading.suppressed && forall x :: x in Made(a.op) && x.id == d.id ==> SameMessage(x, d)
  }

  /** A reserved id is queued, under way or proven, and whatever is queued under it is the Message. */
  ghost predicate Known(w: World, d: Delivery) {
    && (HasDispatchReservation(w.slice, d.id) ==> d.id in Ids(w.slice.pending) || Count(w, d.id) >= 1)
    && (forall x :: x in w.slice.pending || w.slice.reserved == Some(x) ==> x.id == d.id ==> SameMessage(x, d))
  }

  lemma CountKept(w: World, e: Effect, id: Id)
    requires id !in e.dropped && e.proved <= Ids(e.batch)
    ensures Count(Record(w, e), id) >= Count(w, id)
    ensures id in e.proved ==> Count(Record(w, e), id) >= 1
  {
    if id in e.proved {
      var x :| x in e.batch && x.id == id;
      var i :| 0 <= i < |e.batch| && e.batch[i] == x;
      assert IdList(e.batch)[i] == id;
    }
  }

  lemma OperateKnown(w: World, op: Operation, r: Reading, h: Host, d: Delivery)
    requires Sound(w) && Allowed(w, op, r, h) && Known(w, d) && NamesIn(Lane(op, r, h), d)
    ensures Known(Operate(w, op, r, h), d)
  {
    hide Sound, SliceOk, Perform, Record, Proofs, Follows, HasScheduling, Coherent;
    SoundReads(w, r);
    var e := Perform(w.slice, op, r, h);
    var w' := Operate(w, op, r, h);
    assert w'.slice == e.slice && Count(w', d.id) == Count(Record(w, e), d.id) by { Recorded(w, e); }
    FreshUnreserved(w, op, h);
    PerformTraced(w.slice, op, r, h, d.id);
    if HasDispatchReservation(e.slice, d.id) {
      var p := Prepare(w, op, r, h);
      ProvedHere(p.slice, r, e);
      CountKept(w, e, d.id);
      assert d.id in r.proven ==> Count(w, d.id) >= 1;
    }
    forall x | x in e.slice.pending || e.slice.reserved == Some(x)
      ensures x.id == d.id ==> SameMessage(x, d)
    {
      PerformInherits(w.slice, op, r, h, x);
    }
  }

  lemma FreshUnreserved(w: World, op: Operation, h: Host)
    requires TakesSlot(w.slice, op, h) ==> FreshMessage(w, op.message)
    ensures TakesSlot(w.slice, op, h) ==> !HasDispatchReservation(w.slice, op.message.id)
  {
  }

  lemma ProvedHere(s: Slice, r: Reading, e: Effect)
    requires Follows(s, r, e)
    ensures e.proved <= Ids(e.batch)
  {
  }

  lemma Recorded(w: World, e: Effect)
    ensures Record(w, e).slice == e.slice
    ensures forall made, held, id :: Count(Record(w, e).(made := made, held := held), id) == Count(Record(w, e), id)
    ensures forall made, held :: Proofs(Record(w, e).(made := made, held := held)) == Proofs(Record(w, e))
  {
  }

  lemma ActKnown(w: World, a: Action, d: Delivery)
    requires Sound(w) && Enabled(w, a) && Careful(w, a) && Known(w, d) && (a.Lane? ==> NamesIn(a, d))
    ensures Known(Act(w, a), d)
  {
    hide Sound, Permitted, Operate, TakesSlot, FreshMessage, HasDispatchReservation, SameMessage, NamesIn, MayRetrieve;
    match a {
      case Lane(op, r, h) => OperateKnown(w, op, r, h, d);
      case Commits(id) => assert Count(Commit(w, id), d.id) >= Count(w, d.id);
      case Retrieves(id) => assert Count(Retrieve(w, id), d.id) >= Count(w, d.id);
      case HoldEnds =>
    }
  }

  lemma {:induction false} RunKnown(ws: seq<World>, acts: seq<Action>, n: nat, d: Delivery)
    requires OpenRun(ws, acts) && n < |ws| && AllCareful(ws, acts, n) && Names(acts, d)
    ensures Sound(ws[n]) && Known(ws[n], d)
    decreases n
  {
    hide Sound, Enabled, Act, Careful, Known, NamesIn;
    StartSound();
    StepsSound(ws, acts, n);
    if n == 0 {
      StartKnown(d);
    } else {
      RunKnown(ws, acts, n - 1, d);
      assert OpenStep(ws[n - 1], acts[n - 1], ws[n - 1 + 1]) && Careful(ws[n - 1], acts[n - 1]);
      ActKnown(ws[n - 1], acts[n - 1], d);
    }
  }

  lemma StartKnown(d: Delivery)
    ensures Known(START, d)
  {
  }

  // --------------------------------------------------------- A Message not new

  /** Blocked by a current Hold whose Run has not settled; a Run that has settled, and takes the resume. */
  const HELD := Host(true, true, false, false, false, true, false, false, false, false)
  const PROMPT := Host(true, true, false, false, false, true, true, true, true, false)
  /** No Hold: at a safe boundary, and in an Agent Wait that yields to input. */
  const TURNING := Host(true, false, false, false, false, false, false, false, false, false)
  const WAITING := Host(true, false, true, true, false, false, false, false, false, false)

  /** The truth about `w`, with `blocked` as the only other answer. */
  function Truth(w: World, blocked: set<Id>): Reading {
    Reading(set id | id in Proofs(w), set id | id in w.inFlight && LetGo(w, id), {}, blocked)
  }

  lemma TruthReads(w: World, blocked: set<Id>)
    ensures Reads(w, Truth(w, blocked))
  {
  }

  /** The operation that lets a waiting resume go on. */
  function GoOn(s: Slice, id: Id): Operation {
    if s.resumeHeldBack then ResumptionReleased(id) else Drain
  }

  /** The slot holds `d` under its Hold, before anything is handed over. */
  ghost predicate Slotted(w: World, d: Delivery) {
    w.slice.reserved == Some(d) && w.slice.resuming.None? && w.held && Ordered(w.slice.pending)
  }

  lemma TakesSlotOnly(s: Slice, d: Delivery, heldBack: bool, r: Reading)
    requires s.reserved.None? && s.resuming.None? && Ordered(s.pending)
    ensures var e := Perform(s, Resumption(d, heldBack), r, HELD);
            && e.batch == [] && e.proved == {} && e.dropped == {}
            && e.slice.reserved == Some(d) && e.slice.resuming.None? && Ordered(e.slice.pending)
            && forall x :: x in s.pending && x.id !in r.proven && x.id !in r.suppressed ==> x in e.slice.pending
  {
    hide Keep;
    var t := ReserveResume(s, d);
    KeepOrdered(t.pending, x => Stays(t, r, x));
  }

  /** Nothing handed over: the counts stay. */
  lemma QuietCount(w: World, e: Effect, id: Id)
    requires e.batch == [] && e.proved == {} && id !in e.dropped
    ensures Count(Record(w, e), id) == Count(w, id) && Proofs(Record(w, e)) == Proofs(w)
  {
    assert IdList([]) == [];
  }

  lemma SlotIsTaken(w: World, d: Delivery, heldBack: bool, r: Reading)
    requires SliceOk(w.slice) && w.slice.reserved.None? && w.slice.resuming.None?
    ensures var w' := Operate(w, Resumption(d, heldBack), r, HELD);
            && Slotted(w', d) && Count(w', d.id) == Count(w, d.id)
            && forall x :: x in w.slice.pending && x.id !in r.proven && x.id !in r.suppressed ==> x in w'.slice.pending
  {
    hide Perform, Ordered, Record;
    TakesSlotOnly(w.slice, d, heldBack, r);
    var e := Perform(w.slice, Resumption(d, heldBack), r, HELD);
    QuietCount(w, e, d.id);
    Recorded(w, e);
  }

  lemma GoesOn(s: Slice, id: Id, r: Reading, h: Host)
    requires s.reserved.Some? && s.reserved.value.id == id
    ensures Perform(s, GoOn(s, id), r, h) == Advance(s.(resumeHeldBack := false), r, h)
  {
    hide Advance;
  }

  lemma ResumeEffect(s: Slice, d: Delivery, r: Reading)
    requires s.reserved == Some(d) && s.resuming.None?
    ensures var e := Perform(s, GoOn(s, d.id), r, PROMPT); e.batch == [d] && e.proved == {d.id} && e.dropped == {}
  {
    hide Keep, Note, Put, AdvanceQueue;
    GoesOn(s, d.id, r, PROMPT);
  }

  lemma HandedOverOnce(w: World, e: Effect, d: Delivery)
    requires e.batch == [d] && e.dropped == {}
    ensures Count(Record(w, e), d.id) == Count(w, d.id) + 1
    ensures e.proved == {} ==> Proofs(Record(w, e)) == Proofs(w)
  {
    assert IdList([d]) == [d.id];
  }

  /** A resume that goes on hands its Message over, and proves it, once more. */
  lemma ResumeAddsOne(w: World, d: Delivery, blocked: set<Id>)
    requires Slotted(w, d)
    ensures var op, r := GoOn(w.slice, d.id), Truth(w, blocked);
            && Permitted(w, op, r, PROMPT) && !TakesSlot(w.slice, op, PROMPT)
            && Count(Operate(w, op, r, PROMPT), d.id) == Count(w, d.id) + 1
  {
    hide Perform, Record, Ordered, Reads;
    var op, r := GoOn(w.slice, d.id), Truth(w, blocked);
    TruthReads(w, blocked);
    ResumeEffect(w.slice, d, r);
    var e := Perform(w.slice, op, r, PROMPT);
    HandedOverOnce(w, e, d);
    Recorded(w, e);
  }

  // -------------------------------------------------- A Message that is queued

  lemma OneKept(d: Delivery, p: Delivery -> bool)
    ensures Keep([d], p) == if p(d) then [d] else []
    ensures First([d], p) == if p(d) then Some(d) else None
  {
    assert [d][1..] == [];
  }

  lemma OnlyOne(ds: seq<Delivery>, x: Delivery)
    requires Ordered(ds) && x in ds && forall y :: y in ds ==> y == x
    ensures ds == [x]
  {
    forall i | 0 <= i < |ds|
      ensures ds[i] == x
    {
      assert ds[i] in ds;
    }
    assert |ds| > 1 ==> !Precedes(ds[0], ds[1]);
  }

  /** A queue in which everything but one Steer Message is blocked. */
  ghost predicate AllBut(pending: seq<Delivery>, r: Reading, x: Delivery) {
    && Ordered(pending) && x in pending && IsResumeMessage(x)
    && r.unready == {} && x.id !in r.blocked && forall y :: y in pending && y.id != x.id ==> y.id in r.blocked
  }

  lemma EligibleAlone(pending: seq<Delivery>, r: Reading, x: Delivery)
    requires AllBut(pending, r, x)
    ensures Eligible(pending, r) == [x]
  {
    var foreground := Keep(pending, d => !IsBackground(d));
    assert x in foreground;
    assert x in Eligible(pending, r);
    EligibleOrdered(pending, r);
    forall y | y in Eligible(pending, r)
      ensures y == x
    {
      SameInQueue(pending, x, y);
    }
    OnlyOne(Eligible(pending, r), x);
  }

  lemma SameInQueue(pending: seq<Delivery>, x: Delivery, y: Delivery)
    requires Ordered(pending) && x in pending && y in pending && x.id == y.id
    ensures x == y
  {
    var i :| 0 <= i < |pending| && pending[i] == x;
    var j :| 0 <= j < |pending| && pending[j] == y;
    assert !Precedes(pending[i], pending[j]) && !Precedes(pending[j], pending[i]);
  }

  lemma SteerAlone(s: Slice, x: Delivery)
    requires IsResumeMessage(x) && !HasDispatchReservation(s, x.id)
    ensures EligibleSteer(s, [x]) == [x]
  {
    OneKept(x, (d: Delivery) => d.mode == Steer && !d.custom && !HasDispatchReservation(s, d.id));
    OneKept(x, (d: Delivery) => d.id !in WithdrawnBy([x]));
  }

  /** No prompt and no batch is under way. */
  predicate Unprompted(s: Slice) {
    s.deferred.None? && s.preempting.None? && s.frozen.None? && s.resuming.None?
  }

  /** A purge that keeps `x`, neither proven nor suppressed, without disturbing an unprompted slice. */
  lemma PurgeUnprompted(s: Slice, r: Reading, x: Delivery)
    requires Unprompted(s) && Ordered(s.pending)
    ensures var p := Purge(s, r);
            && p == s.(pending := p.pending) && Ordered(p.pending) && (forall y :: y in p.pending ==> y in s.pending)
            && (x in s.pending && x.id !in r.proven && x.id !in r.suppressed ==> x in p.pending)
            && (forall y :: y in p.pending ==> y.id !in r.proven)
  {
    KeepOrdered(s.pending, d => Stays(s, r, d));
  }

  lemma DispatchAlone(s: Slice, x: Delivery, r: Reading)
    requires Unprompted(s) && Ordered(s.pending) && x in s.pending && x.id !in r.proven && x.id !in r.suppressed
    ensures var e := DispatchFrozen(s.(frozen := Some(Frozen([x], false))), [x], r, TURNING);
            && e.batch == [x] && e.proved == {} && e.dropped == {}
            && e.slice.frozen == Some(Frozen([x], true)) && e.slice.deferred.None? && e.slice.preempting.None?
            && e.slice.resuming.None?
            && Ordered(e.slice.pending)
  {
    var f := s.(frozen := Some(Frozen([x], false)));
    var p := Purge(f, r);
    KeepOrdered(f.pending, d => Stays(f, r, d));
    assert x in p.pending;
    assert x.id in FrozenIds(f) * Ids(p.pending);
    OneKept(x, (d: Delivery) => d in p.pending);
  }

  /** At a safe boundary the queued Message goes as a Steer batch of its own. */
  lemma BoundaryHandsOver(s: Slice, x: Delivery, r: Reading)
    requires Unprompted(s) && AllBut(s.pending, r, x) && x.id !in r.proven && x.id !in r.suppressed
    ensures var e := ReachSafeBoundary(s, r, TURNING);
            && e.batch == [x] && e.proved == {} && e.dropped == {}
            && e.slice.frozen == Some(Frozen([x], true)) && e.slice.deferred.None? && e.slice.preempting.None?
            && e.slice.resuming.None?
            && e.slice.reserved == s.reserved && Ordered(e.slice.pending) && e.slice.resumeHeldBack == s.resumeHeldBack
  {
    hide Purge, Eligible, EligibleSteer, Ordered, DispatchFrozen;
    var p := Purge(s, r);
    PurgeUnprompted(s, r, x);
    EligibleAlone(p.pending, r, x);
    SteerAlone(p, x);
    DispatchAlone(p, x, r);
    DispatchKeepsSlot(p.(frozen := Some(Frozen([x], false))), [x], r);
  }

  lemma DispatchKeepsSlot(s: Slice, batch: seq<Delivery>, r: Reading)
    ensures var e := DispatchFrozen(s, batch, r, TURNING);
            e.slice.reserved == s.reserved && e.slice.resumeHeldBack == s.resumeHeldBack
  {
    hide Keep;
  }

  /** In a yielding Wait, the released resume preempts at once, proven or not: only the purge before looks at proofs. */
  lemma WaitHandsOver(s: Slice, d: Delivery, x: Delivery, r: Reading)
    requires s.reserved == Some(d) && IsResumeMessage(d) && x.id == d.id && d.id in r.proven
    requires s.deferred.None? && s.preempting.None? && s.resuming.None? && s.frozen == Some(Frozen([x], true))
    requires Ordered(s.pending)
    requires r.unready == {} && d.id !in r.blocked && forall y :: y in s.pending && y.id != d.id ==> y.id in r.blocked
    ensures var e := Perform(s, GoOn(s, d.id), r, WAITING); e.batch == [d] && e.proved == {} && e.dropped == {}
  {
    hide Purge, Eligible, EligibleSteer, Ordered, Put;
    GoesOn(s, d.id, r, WAITING);
    var t := s.(resumeHeldBack := false);
    var p := Purge(t, r);
    PurgeProven(t, x, r);
    var q := p.(reserved := None, pending := p.pending + [d]);
    assert forall y :: y in p.pending ==> Precedes(y, d);
    AppendOrdered(p.pending, d);
    assert d.id !in Ids(p.pending);
    EligibleAlone(q.pending, r, d);
    SteerAlone(q, d);
    OneKept(d, (y: Delivery) => y.mode == Steer && Preempts(y));
    OneKept(d, Preempts);
    OneKept(d, (y: Delivery) => !y.answer);
  }

  lemma PurgeProven(s: Slice, x: Delivery, r: Reading)
    requires s.deferred.None? && s.preempting.None? && s.frozen == Some(Frozen([x], true)) && x.id in r.proven
    requires Ordered(s.pending)
    ensures var p := Purge(s, r);
            && p == s.(pending := p.pending, frozen := None) && Ordered(p.pending)
            && forall y :: y in p.pending ==> y in s.pending && y.id !in r.proven
  {
    KeepOrdered(s.pending, d => Stays(s, r, d));
    var p := Purge(s, r);
    assert x.id !in Ids(p.pending);
    assert FrozenIds(s) == {x.id};
  }

  // ------------------------------------------------------------- Continuations

  /** Whatever may follow, as long as every later resume brings a new Message. */
  ghost predicate Continues(w: World, us: seq<World>, bs: seq<Action>) {
    Steps(us, bs) && us[0] == w && AllCareful(us, bs, |bs|)
  }

  lemma GoesFurther(w: World, us: seq<World>, bs: seq<Action>, b: Action)
    requires Continues(w, us, bs) && Enabled(us[|bs|], b) && Careful(us[|bs|], b)
    ensures Continues(w, us + [Act(us[|bs|], b)], bs + [b])
  {
    hide Enabled, Act, Careful;
    var next := Act(us[|bs|], b);
    var vs, cs := us + [next], bs + [b];
    forall i | 0 <= i < |cs|
      ensures OpenStep(vs[i], cs[i], vs[i + 1]) && Careful(vs[i], cs[i])
    {
      if i < |bs| {
        assert OpenStep(us[i], bs[i], us[i + 1]) && Careful(us[i], bs[i]);
      }
    }
  }

  ghost predicate Breaks(w: World, us: seq<World>, bs: seq<Action>) {
    Continues(w, us, bs) && !Single(us[|bs|])
  }

  /** A slot taken by a Message under way or proven: going on breaks single proof. */
  lemma KnownBreaks(w: World, d: Delivery) returns (us: seq<World>, bs: seq<Action>)
    requires Slotted(w, d) && Count(w, d.id) >= 1
    ensures Breaks(w, us, bs)
  {
    hide Permitted, Operate, TakesSlot, Steps;
    var op, r := GoOn(w.slice, d.id), Truth(w, {});
    ResumeAddsOne(w, d, {});
    us, bs := [w, Operate(w, op, r, PROMPT)], [Lane(op, r, PROMPT)];
    OneStep(w, Lane(op, r, PROMPT));
    assert Count(us[1], d.id) > 1;
  }

  lemma OneStep(w: World, b: Action)
    requires Enabled(w, b) && Careful(w, b)
    ensures Continues(w, [w, Act(w, b)], [b])
  {
  }

  /** The Run settles held: what was under way is dropped, what is queued stays. */
  lemma Settles(w: World, d: Delivery, x: Delivery)
    requires Slotted(w, d) && IsResumeMessage(d) && x in w.slice.pending && x.id == d.id && Count(w, d.id) == 0
    ensures var b := Lane(Settlement(Ending(true, false, false, false, false)), Truth(w, {}), HELD);
            var w' := Act(w, b);
            && Enabled(w, b) && Careful(w, b) && Slotted(w', d) && Unprompted(w'.slice)
            && x in w'.slice.pending && Count(w', d.id) == 0
  {
    hide Keep, Ordered;
    var r := Truth(w, {});
    TruthReads(w, {});
    var e := Held(w.slice, r);
    KeepOrdered(w.slice.pending, y => Stays(w.slice, r, y));
    assert x in Purge(w.slice, r).pending;
    assert IdList([]) == [];
  }

  lemma HoldLapses(w: World)
    ensures Enabled(w, HoldEnds) && Careful(w, HoldEnds)
  {
  }

  ghost predicate Lapsed(w: World, d: Delivery) {
    w.slice.reserved == Some(d) && !w.held && Ordered(w.slice.pending)
  }

  /** The queued object is handed over while the slot still holds the other. */
  lemma OldObjectGoes(w: World, d: Delivery, x: Delivery)
    requires Lapsed(w, d) && Unprompted(w.slice) && x in w.slice.pending && x.id == d.id && IsResumeMessage(x)
    requires Count(w, d.id) == 0
    ensures var b := Lane(SafeBoundary, Truth(w, Ids(w.slice.pending) - {d.id}), TURNING);
            var w' := Act(w, b);
            && Enabled(w, b) && Careful(w, b) && Lapsed(w', d) && d.id in w'.inFlight && Proofs(w')[d.id] == 0
            && Count(w', d.id) == 1
            && w'.slice.frozen == Some(Frozen([x], true))
            && w'.slice.deferred.None? && w'.slice.preempting.None? && w'.slice.resuming.None?
  {
    hide Perform, Ordered, Reads, LetGo;
    var blocked := Ids(w.slice.pending) - {d.id};
    var r := Truth(w, blocked);
    TruthReads(w, blocked);
    assert AllBut(w.slice.pending, r, x);
    BoundaryHandsOver(w.slice, x, r);
    var e := ReachSafeBoundary(w.slice, r, TURNING);
    assert Perform(w.slice, SafeBoundary, r, TURNING) == e by { BoundaryPerforms(w.slice, r); }
    assert IdList([x]) == [d.id];
  }

  lemma BoundaryPerforms(s: Slice, r: Reading)
    ensures Perform(s, SafeBoundary, r, TURNING) == ReachSafeBoundary(s, r, TURNING)
  {
  }

  /** Once that is proven, the slot's object goes too. */
  lemma SlotObjectGoes(w: World, d: Delivery, x: Delivery)
    requires Lapsed(w, d) && IsResumeMessage(d) && x.id == d.id && d.id in Proofs(w)
    requires w.slice.frozen == Some(Frozen([x], true))
    requires w.slice.deferred.None? && w.slice.preempting.None? && w.slice.resuming.None?
    ensures var b := Lane(GoOn(w.slice, d.id), Truth(w, Ids(w.slice.pending) - {d.id}), WAITING);
            && Enabled(w, b) && Careful(w, b) && Count(Act(w, b), d.id) == Count(w, d.id) + 1
            && Proofs(Act(w, b))[d.id] == Proofs(w)[d.id]
            && (Count(w, d.id) == Proofs(w)[d.id] ==> d.id in Act(w, b).inFlight)
  {
    hide Perform, Record, Ordered, Reads;
    var blocked := Ids(w.slice.pending) - {d.id};
    var op, r := GoOn(w.slice, d.id), Truth(w, blocked);
    TruthReads(w, blocked);
    WaitHandsOver(w.slice, d, x, r);
    var e := Perform(w.slice, op, r, WAITING);
    HandedOverOnce(w, e, d);
    Recorded(w, e);
  }

  /**
   * A slot taken by a Message that is queued, neither under way nor proven: the
   * Run settles held, the Hold ends, the queued object goes at a safe boundary
   * and is proven, and an Agent Wait takes the slot's object as well.
   */
  lemma QueuedBreaks(w: World, d: Delivery, x: Delivery) returns (us: seq<World>, bs: seq<Action>)
    requires Slotted(w, d) && IsResumeMessage(d) && IsResumeMessage(x)
    requires x in w.slice.pending && x.id == d.id && Count(w, d.id) == 0
    ensures Breaks(w, us, bs) && Proofs(us[|bs|])[d.id] == 2
  {
    hide Enabled, Careful, Steps, Act, Ordered, Truth, Count;
    Settles(w, d, x);
    var b1 := Lane(Settlement(Ending(true, false, false, false, false)), Truth(w, {}), HELD);
    var w1 := Act(w, b1);
    var w2 := w1.(held := false);
    HoldLapses(w1);
    assert Act(w1, HoldEnds) == w2 && Count(w2, d.id) == Count(w1, d.id) by { LapseAct(w1, d.id); }
    OldObjectGoes(w2, d, x);
    var b3 := Lane(SafeBoundary, Truth(w2, Ids(w2.slice.pending) - {d.id}), TURNING);
    var w3 := Act(w2, b3);
    CommitAct(w3, d.id);
    var w4 := Act(w3, Commits(d.id));
    SlotObjectGoes(w4, d, x);
    var b5 := Lane(GoOn(w4.slice, d.id), Truth(w4, Ids(w4.slice.pending) - {d.id}), WAITING);
    OneStep(w, b1);
    GoesFurther(w, [w, w1], [b1], HoldEnds);
    GoesFurther(w, [w, w1] + [w2], [b1] + [HoldEnds], b3);
    GoesFurther(w, [w, w1] + [w2] + [w3], [b1] + [HoldEnds] + [b3], Commits(d.id));
    GoesFurther(w, [w, w1] + [w2] + [w3] + [w4], [b1] + [HoldEnds] + [b3] + [Commits(d.id)], b5);
    var w5 := Act(w4, b5);
    CommitAct(w5, d.id);
    ProvedTwice(Act(w5, Commits(d.id)), d.id);
    var ends := [b1] + [HoldEnds] + [b3] + [Commits(d.id)] + [b5];
    GoesFurther(w, [w, w1] + [w2] + [w3] + [w4] + [w5], ends, Commits(d.id));
    us, bs := [w, w1] + [w2] + [w3] + [w4] + [w5] + [Act(w5, Commits(d.id))], ends + [Commits(d.id)];
  }

  lemma ProvedTwice(w: World, id: Id)
    requires Proofs(w)[id] == 2
    ensures !Single(w)
  {
    assert Count(w, id) >= 2;
  }

  lemma LapseAct(w: World, id: Id)
    ensures Act(w, HoldEnds) == w.(held := false) && Count(w.(held := false), id) == Count(w, id)
  {
  }

  lemma CommitAct(w: World, id: Id)
    requires id in w.inFlight
    ensures Enabled(w, Commits(id)) && Careful(w, Commits(id))
    ensures var w' := Act(w, Commits(id));
            && w'.slice == w.slice && w'.held == w.held && id in Proofs(w') && Proofs(w')[id] == Proofs(w)[id] + 1
            && Count(w', id) == Count(w, id) && (Count(w, id) == 1 ==> Proofs(w')[id] == Count(w', id) == 1)
  {
  }

  // ------------------------------------------------------- The exact condition

  /** A resume that takes the slot for a Message that is not new has a continuation with two proofs. */
  lemma NotNewBreaks(w: World, d: Delivery, heldBack: bool, r: Reading) returns (us: seq<World>, bs: seq<Action>)
    requires Sound(w) && Known(w, d) && w.slice.reserved.None? && w.slice.resuming.None? && !FreshMessage(w, d)
    requires IsResumeMessage(d) && d.serial == w.made && Reads(w, r) && d.id !in r.suppressed
    ensures Permitted(w, Resumption(d, heldBack), r, HELD)
    ensures Breaks(Operate(w, Resumption(d, heldBack), r, HELD), us, bs)
  {
    hide HistoryOk, CountsOk, Operate, Apart, Owned, Breaks, HasDispatchReservation, LetGo;
    var w1 := Operate(w, Resumption(d, heldBack), r, HELD);
    SlotIsTaken(w, d, heldBack, r);
    if Count(w, d.id) >= 1 {
      us, bs := KnownBreaks(w1, d);
    } else {
      assert d.id in Ids(w.slice.pending);
      var x :| x in w.slice.pending && x.id == d.id;
      us, bs := QueuedBreaks(w1, d, x);
    }
  }

  /** The same step, up to what the Runtime answers to a resume under a current Hold. */
  predicate SameAsked(a: Action, b: Action) {
    || a == b
    || (&& a.Lane? && b.Lane? && a.op.Resumption? && a.op == b.op && a.reading == b.reading
        && a.host.holdCurrent && b.host.holdCurrent)
  }

  /** Whatever the Runtime answers and whatever follows, each Message is proved at most once. */
  ghost predicate StaysSingle(w: World, a: Action) {
    forall b, us, bs :: SameAsked(a, b) && Enabled(w, b) && Continues(Act(w, b), us, bs) ==> Single(us[|bs|])
  }

  lemma CarefulStaysSingle(w: World, a: Action)
    requires Sound(w) && Careful(w, a)
    ensures StaysSingle(w, a)
  {
    hide Sound, Enabled, Act, FreshMessage, Single;
    forall b, us, bs | SameAsked(a, b) && Enabled(w, b) && Continues(Act(w, b), us, bs)
      ensures Single(us[|bs|])
    {
      ActSound(w, b);
      StepsSound(us, bs, |bs|);
      SoundIsSingle(us[|bs|]);
    }
  }

  lemma CarelessBreaks(w: World, a: Action)
    requires Sound(w) && Enabled(w, a) && !Careful(w, a) && Known(w, a.op.message) && NamesIn(a, a.op.message)
    ensures !StaysSingle(w, a)
  {
    hide Sound, Known, Operate, FreshMessage, Reads, Steps, Single;
    var d, r := a.op.message, a.reading;
    var b := Lane(a.op, r, HELD);
    var us, bs := NotNewBreaks(w, d, a.op.heldBack, r);
    assert SameAsked(a, b) && Enabled(w, b);
    assert Act(w, b) == Operate(w, a.op, r, HELD);
  }

  lemma FirstCareless(ws: seq<World>, acts: seq<Action>) returns (n: nat)
    requires |acts| < |ws| && !AllCareful(ws, acts, |acts|)
    ensures n < |acts| && AllCareful(ws, acts, n) && !Careful(ws[n], acts[n])
  {
    hide Careful;
    n := 0;
    while Careful(ws[n], acts[n])
      invariant n < |acts| && AllCareful(ws, acts, n)
      decreases |acts| - n
    {
      assert exists i :: n < i < |acts| && !Careful(ws[i], acts[i]);
      n := n + 1;
    }
  }

  /**
   * Over every run whose resumed ids name one Message each: all that can follow
   * any of its steps proves each Message at most once exactly when every resume
   * that took the slot brought a Message not scheduled, under way or proven.
   */
  lemma SingleIffNew(ws: seq<World>, acts: seq<Action>)
    requires OpenRun(ws, acts) && forall a :: a in acts && a.Lane? && a.op.Resumption? ==> Names(acts, a.op.message)
    ensures (forall n :: 0 <= n < |acts| ==> StaysSingle(ws[n], acts[n])) <==> AllCareful(ws, acts, |acts|)
  {
    hide Careful, StaysSingle, Enabled, Act, NamesIn, Sound, Known;
    if AllCareful(ws, acts, |acts|) {
      forall n | 0 <= n < |acts|
        ensures StaysSingle(ws[n], acts[n])
      {
        assert AllCareful(ws, acts, n) && Careful(ws[n], acts[n]);
        StartSound();
        StepsSound(ws, acts, n);
        CarefulStaysSingle(ws[n], acts[n]);
      }
    } else {
      var n := FirstCareless(ws, acts);
      var a := acts[n];
      assert a in acts && OpenStep(ws[n], a, ws[n + 1]);
      CarelessResumes(ws[n], a);
      RunKnown(ws, acts, n, a.op.message);
      assert NamesIn(a, a.op.message);
      CarelessBreaks(ws[n], a);
    }
  }

  lemma CarelessResumes(w: World, a: Action)
    requires !Careful(w, a)
    ensures a.Lane? && a.op.Resumption?
  {
  }

  // --------------------------------------------------------------- Two such runs

  /** The recipient's Run is idle and takes Steer input. */
  const IDLING := Host(true, false, false, false, true, false, false, false, false, false)

  function Handed(m: Delivery): World {
    World(IDLE.(pending := [m], frozen := Some(Frozen([m], true))), multiset{m.id}, multiset{}, multiset{}, multiset{},
        [m], 1, false)
  }

  function Ended(m: Delivery): World {
    World(IDLE, multiset{}, multiset{m.id}, multiset{}, multiset{}, [m], 1, false)
  }

  lemma PurgeOne(s: Slice, m: Delivery, r: Reading)
    requires s.pending == [m] && s.deferred.None? && s.preempting.None? && r.suppressed == {}
    requires s.frozen.Some? ==> s.frozen.value.deliveries == [m]
    ensures Purge(s, r) == if m.id in r.proven then s.(pending := [], frozen := None) else s
  {
    OneKept(m, d => Stays(s, r, d));
    assert Ids([m]) == {m.id} && Ids([]) == {};
  }

  lemma FreezesAlone(m: Delivery, r: Reading)
    requires IsResumeMessage(m) && r == Reading({}, {}, {}, {})
    ensures Freeze(IDLE.(pending := [m]), [m], r, IDLING) == Effect(Handed(m).slice, [m], {}, {})
  {
    var f := IDLE.(pending := [m], frozen := Some(Frozen([m], false)));
    assert Ids([m]) == {m.id};
    PurgeOne(f, m, r);
    OneKept(m, (d: Delivery) => d in [m]);
  }

  lemma NothingPends(r: Reading)
    ensures CountPending([], r) == 0
  {
  }

  lemma AdmissionHands(m: Delivery, r: Reading)
    requires IsResumeMessage(m) && r == Reading({}, {}, {}, {})
    ensures Operate(START, Admission(m, 1, Running), r, IDLING) == Handed(m)
  {
    hide Freeze, Purge, Eligible, EligibleSteer, Keep;
    var s := IDLE.(pending := [m]);
    PurgeOne(s, m, r);
    EligibleAlone([m], r, m);
    SteerAlone(s, m);
    FreezesAlone(m, r);
    NothingPends(r);
    assert Perform(IDLE, Admission(m, 1, Running), r, IDLING) == Effect(Handed(m).slice, [m], {}, {});
    assert IdList([m]) == [m.id];
  }

  lemma HoldEmpties(m: Delivery, r: Reading)
    requires r == Reading({m.id}, {}, {}, {})
    ensures Operate(Commit(Handed(m), m.id), Settlement(Ending(true, false, false, false, false)), r, PROMPT) ==
              Ended(m)
  {
    hide Purge;
    var w := Commit(Handed(m), m.id);
    PurgeOne(w.slice, m, r);
    assert Dispatched(w.slice) == {m.id};
    assert Held(w.slice, r) == Effect(IDLE, [], {}, {});
    assert IdList([]) == [];
  }

  lemma ResumeCommits(m: Delivery, again: Delivery, r: Reading)
    requires again.id == m.id
    ensures Proofs(Operate(Ended(m), Resumption(again, false), r, PROMPT))[m.id] == 2
  {
    hide Keep, Note, Put, AdvanceQueue;
    var e := Perform(IDLE, Resumption(again, false), r, PROMPT);
    assert e.batch == [again] && e.proved == {m.id} && e.dropped == {};
    assert IdList([again]) == [m.id];
  }

  lemma ReadsTold(m: Delivery)
    requires m.serial == 0
    ensures Permitted(START, Admission(m, 1, Running), Reading({}, {}, {}, {}), IDLING)
    ensures Permitted(Commit(Handed(m), m.id), Settlement(Ending(true, false, false, false, false)),
              Reading({m.id}, {}, {}, {}), PROMPT)
    ensures IsResumeMessage(m) ==>
              Permitted(Ended(m), Resumption(m.(serial := 1), false), Reading({m.id}, {}, {}, {}), PROMPT)
  {
    assert Commit(Handed(m), m.id).inFlight == multiset{};
  }

  /**
   * A Steer Message is admitted, handed over and proven; the Run ends held; the
   * Supervisor resumes with the same Message, and it is proved a second time.
   */
  lemma ResumeCanProveTwice(m: Delivery) returns (ws: seq<World>, acts: seq<Action>)
    requires IsResumeMessage(m) && m.serial == 0
    ensures OpenRun(ws, acts) && Proofs(ws[|acts|])[m.id] == 2
  {
    hide Operate, Permitted, Commit, IsResumeMessage;
    var unread, read := Reading({}, {}, {}, {}), Reading({m.id}, {}, {}, {});
    var again, hold := m.(serial := 1), Ending(true, false, false, false, false);
    ReadsTold(m);
    AdmissionHands(m, unread);
    HoldEmpties(m, read);
    ResumeCommits(m, again, read);
    acts := [Lane(Admission(m, 1, Running), unread, IDLING), Commits(m.id), Lane(Settlement(hold), read, PROMPT),
             Lane(Resumption(again, false), read, PROMPT)];
    ws := [START, Handed(m), Commit(Handed(m), m.id), Ended(m),
        Operate(Ended(m), Resumption(again, false), read, PROMPT)];
  }

  function Queued(m: Delivery): World {
    START.(slice := IDLE.(pending := [m]), made := 1)
  }

  lemma AdmissionQueues(m: Delivery, r: Reading)
    requires r == Reading({}, {}, {}, {}) && m.serial == 0
    ensures var b := Lane(Admission(m, 1, Running), r, HELD); Enabled(START, b) && Act(START, b) == Queued(m)
  {
    hide Eligible, Purge, Keep;
    PurgeOne(IDLE.(pending := [m]), m, r);
    NothingPends(r);
    var e := Perform(IDLE, Admission(m, 1, Running), r, HELD);
    assert e == Quiet(IDLE.(pending := [m]));
    assert IdList([]) == [];
  }

  /**
   * Being neither under way nor proven is not enough: a Message that is only
   * queued when the Supervisor resumes with it is proved twice in this run.
   */
  lemma QueuedResumeCanProveTwice(m: Delivery) returns (ws: seq<World>, acts: seq<Action>)
    requires IsResumeMessage(m) && m.serial == 0
    ensures OpenRun(ws, acts) && Proofs(ws[|acts|])[m.id] == 2
    ensures |acts| > 1 && acts[1].Lane? && acts[1].op == Resumption(m.(serial := 1), false) && Count(ws[1], m.id) == 0
    ensures forall i :: 1 < i < |acts| ==> Careful(ws[i], acts[i])
  {
    hide Operate, Permitted, Enabled, Act, Careful;
    var r, d, w := Reading({}, {}, {}, {}), m.(serial := 1), Queued(m);
    AdmissionQueues(m, r);
    SlotIsTaken(w, d, false, r);
    ResumeEnabled(m, r);
    var w1 := Operate(w, Resumption(d, false), r, HELD);
    var us, bs := QueuedBreaks(w1, d, m);
    var a0, a1 := Lane(Admission(m, 1, Running), r, HELD), Lane(Resumption(d, false), r, HELD);
    ws, acts := [START, w] + us, [a0, a1] + bs;
    forall i | 0 <= i < |acts|
      ensures OpenStep(ws[i], acts[i], ws[i + 1]) && (i > 1 ==> Careful(ws[i], acts[i]))
    {
      if i > 1 {
        assert OpenStep(us[i - 2], bs[i - 2], us[i - 1]) && Careful(us[i - 2], bs[i - 2]);
      }
    }
  }

  lemma ResumeEnabled(m: Delivery, r: Reading)
    requires r == Reading({}, {}, {}, {}) && IsResumeMessage(m)
    ensures var (d, w) := (m.(serial := 1), Queued(m));
            && SliceOk(w.slice) && Count(w, m.id) == 0
            && Enabled(w, Lane(Resumption(d, false), r, HELD))
            && Act(w, Lane(Resumption(d, false), r, HELD)) == Operate(w, Resumption(d, false), r, HELD)
  {
  }
}
