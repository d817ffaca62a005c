/**
 * What every lane operation of the delivery scheduler keeps, one operation at
 * a time: reservations stay apart, and a hand-off is fresh and in order.
 */
module DeliveryEffects {
  import opened DeliveryQueue
  import opened DeliveryOperations

  /** No Message id is in two of the deferred, preempting, frozen and resume reservations. */
  ghost predicate Apart(s: Slice) {
    && BatchIds(s.deferred) !! BatchIds(s.preempting)
    && BatchIds(s.deferred) !! FrozenIds(s)
    && BatchIds(s.preempting) !! FrozenIds(s)
    && ResumeIds(s) !! BatchIds(s.deferred)
    && ResumeIds(s) !! BatchIds(s.preempting)
    && ResumeIds(s) !! FrozenIds(s)
  }

  function ResumeIds(s: Slice): set<Id> {
    SlotId(s.reserved) + SlotId(s.resuming)
  }

  /** `d` stands before every other Deferred Request, or Background item, of the queue. */
  ghost predicate Oldest(d: Delivery, queue: seq<Delivery>) {
    && (IsDeferredRequest(d) ==> forall x :: x in queue && IsDeferredRequest(x) ==> x == d || d.serial < x.serial)
    && (IsBackground(d) ==> forall x :: x in queue && IsBackground(x) ==> x == d || d.serial < x.serial)
  }

  ghost predicate Owned(pending: seq<Delivery>, b: Option<Batch>) {
    b.Some? ==> forall d :: d in b.value.deliveries ==>
        Oldest(d, pending) && (d in pending || d.id in b.value.committed)
  }

  /** No batch both delivers a Request and withdraws it. */
  ghost predicate NoneWithdrawn(batch: seq<Delivery>) {
    forall c, d :: c in batch && d in batch && c != d ==> c.withdraws != Some(d.id)
  }

  ghost predicate SteerBatch(ds: seq<Delivery>) {
    Ordered(ds) && NoneWithdrawn(ds) && forall d :: d in ds ==> d.mode == Steer
  }

  ghost predicate SliceOk(s: Slice) {
    && Ordered(s.pending) && Apart(s)
    && (s.frozen.Some? ==> SteerBatch(s.frozen.value.deliveries))
    && ResumeIds(s) !! Ids(s.pending)
    && (s.reserved.Some? ==> s.resuming.None? && IsResumeMessage(s.reserved.value))
    && Owned(s.pending, s.deferred)
  }

  /** A Supervisory Resume is a Steer Message, neither Request nor Answer, and preempts an Agent Wait. */
  predicate IsResumeMessage(d: Delivery) {
    d.mode == Steer && !d.incomingRequest && !d.answer && d.preemptsWait && !d.custom && d.withdraws.None?
  }

  function Prompted(s: Slice): seq<Delivery> {
    if s.deferred.Some? then s.deferred.value.deliveries else []
  }

  function Committed(b: Option<Batch>): set<Id> {
    if b.Some? then b.value.committed else {}
  }

  /** What a prompt remembers as committed is proven. */
  ghost predicate Truthful(s: Slice, r: Reading) {
    Committed(s.deferred) <= r.proven && Committed(s.preempting) <= r.proven
  }

  // ---------------------------------------------------------- A fair hand-off

  /** A Deferred Request or a Background item goes alone, and only from the front of its line. */
  ghost predicate InTurn(batch: seq<Delivery>, queue: seq<Delivery>) {
    forall d :: d in batch ==> Oldest(d, queue) && (IsDeferredRequest(d) || IsBackground(d) ==> batch == [d])
  }

  /** A Deferred Request goes only when those handed over before it, and any preempting batch, are proven. */
  ghost predicate OneAtATime(s: Slice, r: Reading, batch: seq<Delivery>) {
    (exists d :: d in batch && IsDeferredRequest(d)) ==>
      && (forall x :: x in Prompted(s) && IsDeferredRequest(x) ==> x.id in r.proven)
      && BatchIds(s.preempting) <= r.proven
  }

  ghost predicate Fresh(s: Slice, r: Reading, d: Delivery) {
    d.id !in Dispatched(s) && ((d in s.pending && d.id !in r.proven) || s.reserved == Some(d))
  }

  ghost predicate FairBatch(s: Slice, r: Reading, e: Effect) {
    && Ordered(e.batch) && NoneWithdrawn(e.batch) && InTurn(e.batch, e.slice.pending) && OneAtATime(s, r, e.batch)
    && (forall d :: d in e.batch ==> Fresh(s, r, d))
  }

  /** Handed over, and either owned by a prompt or by a Steer batch in which it is still queued. */
  function Guarded(s: Slice): set<Id> {
    BatchIds(s.deferred) + BatchIds(s.preempting) + SlotId(s.resuming)
    + (if s.frozen.Some? && s.frozen.value.dispatched then FrozenIds(s) * Ids(s.pending) else {})
  }

  /** Every hand-off stays guarded until it is dropped, proven, or leaves the queue as suppressed. */
  ghost predicate Accounted(s: Slice, r: Reading, e: Effect) {
    && Ids(e.batch) <= Guarded(e.slice) + e.dropped
    && Guarded(s) <= Guarded(e.slice) + e.dropped + r.proven + (r.suppressed - Ids(e.slice.pending))
    && e.proved <= Ids(e.batch) && e.proved !! e.dropped
  }

  ghost predicate Inherits(s: Slice, r: Reading, s': Slice) {
    && (forall d :: d in s'.pending ==> d in s.pending || s.reserved == Some(d))
    && (s'.reserved == s.reserved || s'.reserved.None?)
    && Truthful(s', r)
  }

  ghost predicate Follows(s: Slice, r: Reading, e: Effect) {
    && (forall d :: d in Prompted(e.slice) ==> d in Prompted(s) || d in e.batch)
    && SliceOk(e.slice) && FairBatch(s, r, e) && Accounted(s, r, e) && Inherits(s, r, e.slice)
  }

  // ------------------------------------------------------------------- Purging

  lemma IdsOf(ds: seq<Delivery>, id: Id)
    ensures id in Ids(ds) <==> exists d :: d in ds && d.id == id
  {
  }

  lemma PurgeFollows(s: Slice, r: Reading)
    requires SliceOk(s) && Truthful(s, r)
    ensures Follows(s, r, Quiet(Purge(s, r)))
    ensures Ids(Purge(s, r).pending) !! r.proven
  {
    var p := Purge(s, r);
    KeepOrdered(s.pending, d => Stays(s, r, d));
    assert Ids(p.pending) <= Ids(s.pending);
    assert BatchIds(p.deferred) == BatchIds(s.deferred) && BatchIds(p.preempting) <= BatchIds(s.preempting)
           && FrozenIds(p) <= FrozenIds(s);
    assert Owned(p.pending, p.deferred) by {
      if p.deferred.Some? {
        forall d | d in p.deferred.value.deliveries
          ensures Oldest(d, p.pending) && (d in p.pending || d.id in p.deferred.value.committed)
        {
          assert d.id in BatchIds(s.deferred);
          if d in s.pending && d.id in r.proven {
            assert d.id in Ids(s.pending);
          }
        }
      }
    }
    forall id | id in Guarded(s)
      ensures id in Guarded(p) || id in r.proven || id in r.suppressed - Ids(p.pending)
    {
      if id in Ids(s.pending) && id !in Ids(p.pending) {
        var d :| d in s.pending && d.id == id;
        assert d !in p.pending;
      }
    }
  }

  lemma PurgeThen(s: Slice, r: Reading, e: Effect)
    requires SliceOk(s) && Truthful(s, r)
    requires Follows(Purge(s, r), r, e)
    ensures Follows(s, r, e)
  {
    hide Ordered, InTurn, NoneWithdrawn, Keep, Stays;
    var p := Purge(s, r);
    PurgeFollows(s, r);
    forall d | d in e.batch
      ensures Fresh(s, r, d)
    {
      assert Fresh(p, r, d);
    }
    assert OneAtATime(s, r, e.batch);
    forall id | id in Guarded(s)
      ensures id in Guarded(e.slice) || id in e.dropped || id in r.proven || id in r.suppressed - Ids(e.slice.pending)
    {
    }
  }

  lemma QuietFollows(s: Slice, r: Reading)
    requires SliceOk(s) && Truthful(s, r)
    ensures Follows(s, r, Quiet(s))
  {
  }

  // --------------------------------------------------------------------- Steer

  lemma HandOverFrozen(s: Slice, batch: seq<Delivery>, r: Reading)
    requires SliceOk(s) && Truthful(s, r) && Ids(s.pending) !! r.proven
    requires s.frozen == Some(Frozen(batch, false))
    ensures Follows(s, r,
              Effect(s.(frozen := Some(Frozen(batch, true))), Keep(batch, (d: Delivery) => d in s.pending), {}, {}))
  {
    hide Keep, Ordered;
    var unproven := Keep(batch, (d: Delivery) => d in s.pending);
    KeepOrdered(batch, (d: Delivery) => d in s.pending);
    assert FrozenIds(s) == Ids(batch);
    forall d | d in unproven
      ensures Fresh(s, r, d)
    {
      assert d.id in Ids(batch);
    }
  }

  lemma DispatchFrozenFollows(s: Slice, batch: seq<Delivery>, r: Reading, h: Host)
    requires SliceOk(s) && Truthful(s, r)
    ensures Follows(s, r, DispatchFrozen(s, batch, r, h))
  {
    hide SliceOk, Follows, Truthful, NoneWithdrawn;
    QuietFollows(s, r);
    PurgeFollows(s, r);
    if !h.blocksOrdinary && s.frozen == Some(Frozen(batch, false)) && Purge(s, r).frozen.Some? {
      FollowsOk(s, r, Quiet(Purge(s, r)));
      HandOverFrozen(Purge(s, r), batch, r);
      if Keep(batch, (d: Delivery) => d in Purge(s, r).pending) != [] {
        PurgeThen(s, r, DispatchFrozen(s, batch, r, h));
      }
    }
  }

  lemma FollowsOk(s: Slice, r: Reading, e: Effect)
    requires Follows(s, r, e)
    ensures SliceOk(e.slice) && Truthful(e.slice, r)
  {
  }

  lemma FrozenSlice(s: Slice, r: Reading)
    requires SliceOk(s) && Truthful(s, r) && !HasUnprovenFrozenBatch(s)
    ensures var steer := EligibleSteer(s, Eligible(s.pending, r));
            var f := s.(frozen := Some(Frozen(steer, false)));
            SliceOk(f) && Truthful(f, r) && Guarded(f) == Guarded(s) && Dispatched(f) <= Dispatched(s)
  {
    hide Eligible, EligibleSteer, Ordered;
    EligibleOrdered(s.pending, r);
    SteerOrdered(s, Eligible(s.pending, r));
  }

  /** Taking a frozen slot changes nothing that a later effect is measured against. */
  lemma FreezeThen(s: Slice, f: Slice, r: Reading, e: Effect)
    requires SliceOk(s) && SliceOk(f) && !HasUnprovenFrozenBatch(s)
    requires f == s.(frozen := f.frozen) && Guarded(f) == Guarded(s) && f.frozen.Some? && !f.frozen.value.dispatched
    requires Follows(f, r, e) && forall d :: d in e.batch ==> d.id in FrozenIds(f)
    requires FrozenIds(f) <= Ids(s.pending)
    ensures Follows(s, r, e)
  {
    hide Ordered, InTurn, NoneWithdrawn;
    assert OneAtATime(s, r, e.batch);
    forall d | d in e.batch
      ensures Fresh(s, r, d)
    {
      assert Fresh(f, r, d);
    }
  }

  lemma FreezeFollows(s: Slice, chosen: seq<Delivery>, r: Reading, h: Host)
    requires SliceOk(s) && Truthful(s, r)
    requires chosen == [] || chosen == EligibleSteer(s, Eligible(s.pending, r))
    ensures Follows(s, r, Freeze(s, chosen, r, h))
  {
    hide SliceOk, Follows, Truthful, Eligible, EligibleSteer, NoneWithdrawn, DispatchFrozen, Guarded,
         HasUnprovenFrozenBatch, Dispatched;
    QuietFollows(s, r);
    var steer := EligibleSteer(s, Eligible(s.pending, r));
    if !HasUnprovenFrozenBatch(s) && steer != [] {
      var f := s.(frozen := Some(Frozen(steer, false)));
      FrozenSlice(s, r);
      QuietFollows(f, r);
      FreezeThen(s, f, r, Quiet(f));
      DispatchFrozenFollows(f, steer, r, h);
      DispatchedFromFrozen(f, steer, r, h);
      FreezeThen(s, f, r, DispatchFrozen(f, steer, r, h));
    }
  }

  lemma DispatchedFromFrozen(s: Slice, batch: seq<Delivery>, r: Reading, h: Host)
    ensures forall d :: d in DispatchFrozen(s, batch, r, h).batch ==> d in batch
  {
    hide Purge, Keep;
  }

  lemma SafeBoundaryFollows(s: Slice, r: Reading, h: Host)
    requires SliceOk(s) && Truthful(s, r)
    ensures Follows(s, r, ReachSafeBoundary(s, r, h))
  {
    hide SliceOk, Follows, Truthful, Purge, Freeze;
    QuietFollows(s, r);
    PurgeFollows(s, r);
    FollowsOk(s, r, Quiet(Purge(s, r)));
    FreezeFollows(Purge(s, r), [], r, h);
    PurgeThen(s, r, Freeze(Purge(s, r), [], r, h));
  }

  // ------------------------------------------------------------ Wait preemption

  lemma PreemptingBatchFair(s: Slice, trigger: Delivery, r: Reading)
    requires SliceOk(s) && trigger in Eligible(s.pending, r) && !HasDispatchReservation(s, trigger.id)
    ensures var batch := PreemptingBatch(s, trigger, r);
            && Ordered(batch) && NoneWithdrawn(batch) && InTurn(batch, s.pending)
            && (s.preempting.None? ==> OneAtATime(s, Reading(Committed(s.deferred), {}, {}, {}), batch))
            && (forall d :: d in batch ==> d in s.pending && !HasDispatchReservation(s, d.id))
  {
    hide Eligible, Keep;
    var eligible := Eligible(s.pending, r);
    var steer := EligibleSteer(s, eligible);
    EligibleOrdered(s.pending, r);
    SteerOrdered(s, eligible);
    KeepOrdered(steer, (d: Delivery) => !d.answer);
    forall x | x in s.pending && x != trigger
      ensures IsDeferredRequest(trigger) && IsDeferredRequest(x) ==> trigger.serial < x.serial
      ensures IsBackground(trigger) && IsBackground(x) ==> trigger.serial < x.serial
    {
      EligibleIsOldest(s.pending, r, trigger, x);
    }
    if s.deferred.Some? && IsDeferredRequest(trigger) {
      forall x | x in s.deferred.value.deliveries && IsDeferredRequest(x)
        ensures x.id in Committed(s.deferred)
      {
        assert x.id in BatchIds(s.deferred) && x != trigger;
        assert Oldest(x, s.pending);
      }
    }
  }

  lemma ReservePreemptionFollows(s: Slice, trigger: Delivery, r: Reading)
    requires SliceOk(s) && Truthful(s, r) && Ids(s.pending) !! r.proven
    ensures Follows(s, r, ReservePreemption(s, trigger, r))
  {
    hide PreemptingBatch, Eligible, EligibleSteer, Ordered, First, InTurn, NoneWithdrawn;
    var e := ReservePreemption(s, trigger, r);
    if e.batch == [] {
      QuietFollows(s, r);
    } else {
      PreemptingBatchFair(s, trigger, r);
      forall d | d in e.batch
        ensures Fresh(s, r, d)
      {
        assert d.id in Ids(s.pending);
      }
    }
  }

  // ----------------------------------------------------------------- Resumption

  lemma StartResumeFollows(s: Slice, d: Delivery, r: Reading, h: Host)
    requires SliceOk(s) && Truthful(s, r) && s.reserved == Some(d)
    ensures Follows(s, r, StartResume(s, d, h))
  {
  }

  // ---------------------------------------------------------------------- Drain

  lemma DeferredHandOffFollows(s: Slice, r: Reading)
    requires SliceOk(s) && Truthful(s, r) && Ids(s.pending) !! r.proven
    requires Eligible(s.pending, r) != [] && s.deferred.None? && s.preempting.None? && s.resuming.None?
    requires !HasUnprovenFrozenBatch(s)
    ensures var batch := [Eligible(s.pending, r)[0]];
            Follows(s, r, Effect(s.(deferred := Some(Batch(batch, {}))), batch, {}, {}))
  {
    hide Eligible;
    var d := Eligible(s.pending, r)[0];
    forall x | x in s.pending && x != d
      ensures IsDeferredRequest(d) && IsDeferredRequest(x) ==> d.serial < x.serial
      ensures IsBackground(d) && IsBackground(x) ==> d.serial < x.serial
    {
      EligibleIsOldest(s.pending, r, d, x);
    }
    assert d.id in Ids(s.pending);
  }

  lemma AdvanceQueueFollows(s: Slice, r: Reading, h: Host)
    requires SliceOk(s) && Truthful(s, r) && Ids(s.pending) !! r.proven && s.resuming.None?
    ensures Follows(s, r, AdvanceQueue(s, r, h))
  {
    hide SliceOk, Truthful, Follows, Eligible, EligibleSteer, Freeze, ReservePreemption, HasUnprovenFrozenBatch,
         WaitTrigger;
    QuietFollows(s, r);
    var eligible := Eligible(s.pending, r);
    if WaitTrigger(eligible).Some? {
      ReservePreemptionFollows(s, WaitTrigger(eligible).value, r);
    }
    FreezeFollows(s, EligibleSteer(s, eligible), r, h);
    if eligible != [] && s.deferred.None? && s.preempting.None? && !HasUnprovenFrozenBatch(s) {
      DeferredHandOffFollows(s, r);
    }
  }

  /** A resume whose Hold ended joins the queue. */
  function Unreserved(s: Slice): Slice
    requires s.reserved.Some?
  {
    s.(reserved := None, pending := Put(s.pending, s.reserved.value))
  }

  lemma UnreservedOk(s: Slice)
    requires SliceOk(s) && s.reserved.Some?
    ensures SliceOk(Unreserved(s)) && Unreserved(s).pending == s.pending + [s.reserved.value]
  {
    var d := s.reserved.value;
    assert forall x :: x in s.pending ==> x.id in Ids(s.pending);
    AppendOrdered(s.pending, d);
  }

  lemma UnreserveThen(s: Slice, r: Reading, e: Effect)
    requires SliceOk(s) && s.reserved.Some? && Follows(Unreserved(s), r, e)
    ensures Follows(s, r, e)
  {
    hide InTurn, NoneWithdrawn, Ordered, Put, Owned;
    UnreservedOk(s);
    var q := Unreserved(s);
    assert OneAtATime(s, r, e.batch);
    assert Ids(q.pending) == Ids(s.pending) + {s.reserved.value.id};
    assert Guarded(q) == Guarded(s);
    forall x | x in e.batch
      ensures Fresh(s, r, x)
    {
      assert Fresh(q, r, x);
    }
  }

  lemma AdvanceFollows(s: Slice, r: Reading, h: Host)
    requires SliceOk(s) && Truthful(s, r) && (s.reserved.Some? ==> s.reserved.value.id !in r.proven)
    ensures Follows(s, r, Advance(s, r, h))
  {
    hide SliceOk, Truthful, Follows, AdvanceQueue, StartResume, Keep;
    var p := Purge(s, r);
    PurgeFollows(s, r);
    FollowsOk(s, r, Quiet(p));
    QuietFollows(p, r);
    if p.resuming.None? {
      if p.reserved.Some? {
        StartResumeFollows(p, p.reserved.value, r, h);
        var q := Unreserved(p);
        UnreservedOk(p);
        SamePrompts(p, q, r);
        assert Ids(q.pending) == Ids(p.pending) + {p.reserved.value.id};
        assert q.resuming.None? by { ReservedAlone(p); }
        AdvanceQueueFollows(q, r, h);
        UnreserveThen(p, r, AdvanceQueue(q, r, h));
      } else {
        AdvanceQueueFollows(p, r, h);
      }
    }
    PurgeThen(s, r, Advance(s, r, h));
  }

  lemma ReservedAlone(s: Slice)
    requires SliceOk(s) && s.reserved.Some?
    ensures s.resuming.None?
  {
  }

  lemma SamePrompts(p: Slice, q: Slice, r: Reading)
    requires Truthful(p, r) && p.deferred == q.deferred && p.preempting == q.preempting
    ensures Truthful(q, r)
  {
  }

  lemma AbandonFollows(s: Slice, r: Reading, lost: set<Id>)
    requires SliceOk(s) && Truthful(s, r)
    ensures Follows(s, r, Abandon(s, lost))
  {
    hide Keep;
    var e := Abandon(s, lost);
    KeepOrdered(s.pending, (d: Delivery) => d.id !in lost || HasDispatchReservation(s, d.id));
    assert Ids(e.slice.pending) <= Ids(s.pending);
    forall id | id in Guarded(s)
      ensures id in Guarded(e.slice)
    {
      if id in FrozenIds(s) * Ids(s.pending) {
        var d :| d in s.pending && d.id == id;
        assert d in e.slice.pending;
      }
    }
  }

  // ------------------------------------------------------------------ Admission

  function Enqueue(s: Slice, d: Delivery): Slice {
    s.(pending := Put(s.pending, d))
  }

  lemma EnqueueOk(s: Slice, d: Delivery)
    requires SliceOk(s) && !HasScheduling(s, d.id)
    requires forall x :: x in s.pending || x in Prompted(s) ==> x.serial < d.serial
    ensures SliceOk(Enqueue(s, d)) && Guarded(Enqueue(s, d)) == Guarded(s)
    ensures Enqueue(s, d).pending == s.pending + [d] && Ids(Enqueue(s, d).pending) == Ids(s.pending) + {d.id}
  {
    hide Put;
    assert forall x :: x in s.pending ==> x.id in Ids(s.pending);
    AppendOrdered(s.pending, d);
  }

  // --------------------------------------------------------- Endings and parking

  lemma DiscardFollows(s: Slice, r: Reading)
    ensures Follows(s, r, Discard(s))
  {
  }

  lemma InterruptFollows(s: Slice, r: Reading)
    requires SliceOk(s) && Truthful(s, r)
    ensures Follows(s, r, Interrupt(s))
  {
  }

  lemma ReleaseOk(s: Slice, r: Reading, d: bool, p: bool, resume: bool)
    requires SliceOk(s) && Truthful(s, r)
    requires d ==> BatchIds(s.deferred) <= r.proven
    requires p ==> BatchIds(s.preempting) <= r.proven
    requires resume ==> SlotId(s.resuming) <= r.proven
    ensures Follows(s, r, Quiet(Release(s, d, p, resume)))
  {
    hide Keep, FairBatch, Precedes;
    NothingIsFair(s, r, Quiet(Release(s, d, p, resume)));
    var q := Release(s, d, p, resume);
    var deferred, preempting := if d then s.deferred else None, if p then s.preempting else None;
    KeepOrdered(s.pending, (x: Delivery) => x.id !in BatchIds(deferred) && x.id !in BatchIds(preempting));
    assert Ids(q.pending) <= Ids(s.pending);
    forall x | x in s.pending && x !in q.pending
      ensures x.id in r.proven
    {
    }
    if s.deferred.Some? && !d {
      forall x | x in s.deferred.value.deliveries
        ensures Oldest(x, q.pending) && (x in q.pending || x.id in s.deferred.value.committed)
      {
        assert x.id in BatchIds(s.deferred);
      }
    }
    forall id | id in Guarded(s)
      ensures id in Guarded(q) || id in r.proven
    {
      if id in FrozenIds(s) * Ids(s.pending) {
        var x :| x in s.pending && x.id == id;
        assert x in q.pending;
      }
    }
  }

  lemma ReleaseThen(s: Slice, r: Reading, d: bool, p: bool, resume: bool, e: Effect)
    requires SliceOk(s) && Truthful(s, r)
    requires d ==> BatchIds(s.deferred) <= r.proven
    requires p ==> BatchIds(s.preempting) <= r.proven
    requires resume ==> SlotId(s.resuming) <= r.proven
    requires Follows(Release(s, d, p, resume), r, e)
    ensures Follows(s, r, e)
  {
    hide InTurn, Keep, Ordered, NoneWithdrawn, Owned;
    var q := Release(s, d, p, resume);
    ReleaseOk(s, r, d, p, resume);
    assert OneAtATime(s, r, e.batch) by {
      assert OneAtATime(q, r, e.batch);
      assert d ==> forall x :: x in (if s.deferred.Some? then s.deferred.value.deliveries else []) ==>
               x.id in BatchIds(s.deferred);
    }
    forall x | x in e.batch
      ensures Fresh(s, r, x)
    {
      assert Fresh(q, r, x);
    }
  }

  lemma NothingIsFair(s: Slice, r: Reading, e: Effect)
    requires e.batch == []
    ensures FairBatch(s, r, e)
  {
  }

  lemma HeldFollows(s: Slice, r: Reading)
    requires SliceOk(s) && Truthful(s, r)
    ensures Follows(s, r, Held(s, r))
  {
    hide Keep, Purge, Ordered, Stays, FairBatch, SteerBatch, Oldest, Dispatched, Note;
    PurgeFollows(s, r);
    NothingIsFair(s, r, Held(s, r));
    GuardedDispatched(s);
  }

  lemma GuardedDispatched(s: Slice)
    ensures Guarded(s) <= Dispatched(s)
  {
  }

  lemma SettleFollows(s: Slice, e: Ending, r: Reading, h: Host)
    requires SliceOk(s) && Truthful(s, r) && (s.reserved.Some? ==> s.reserved.value.id !in r.proven)
    ensures Follows(s, r, Settle(s, e, r, h))
  {
    hide SliceOk, Truthful, Follows, Advance, Purge, Release, Discard, Held, Keep, HasUnprovenFrozenBatch;
    HeldFollows(s, r);
    DiscardFollows(s, r);
    if !e.held && SlotId(s.resuming) <= r.proven && BatchIds(s.deferred) <= r.proven
      && BatchIds(s.preempting) <= r.proven {
      var released := Release(s, true, true, true);
      ReleaseOk(s, r, true, true, true);
      FollowsOk(s, r, Quiet(released));
      PurgeFollows(released, r);
      FollowsOk(released, r, Quiet(Purge(released, r)));
      ReservedKept(s, r, Quiet(released));
      ReservedKept(released, r, Quiet(Purge(released, r)));
      AdvanceFollows(Purge(released, r), r, h);
      PurgeThen(released, r, Advance(Purge(released, r), r, h));
      ReleaseThen(s, r, true, true, true, Advance(Purge(released, r), r, h));
    }
  }

  lemma ReservedKept(s: Slice, r: Reading, e: Effect)
    requires Follows(s, r, e)
    ensures e.slice.reserved.Some? ==> e.slice.reserved == s.reserved
  {
  }

  lemma ParkingFollows(s: Slice, r: Reading, h: Host)
    requires SliceOk(s) && Truthful(s, r) && (s.reserved.Some? ==> s.reserved.value.id !in r.proven)
    ensures Follows(s, r, BeginParking(s, r, h))
  {
    hide SliceOk, Truthful, Follows, Advance, Purge, Release, Keep;
    QuietFollows(s, r);
    if BatchIds(s.deferred) <= r.proven {
      var d := Release(s, true, false, false);
      ReleaseOk(s, r, true, false, false);
      FollowsOk(s, r, Quiet(d));
      ReservedKept(s, r, Quiet(d));
      if BatchIds(d.preempting) <= r.proven {
        var p := Release(d, false, true, false);
        ReleaseOk(d, r, false, true, false);
        FollowsOk(d, r, Quiet(p));
        ReservedKept(d, r, Quiet(p));
        PurgeFollows(p, r);
        FollowsOk(p, r, Quiet(Purge(p, r)));
        ReservedKept(p, r, Quiet(Purge(p, r)));
        AdvanceFollows(Purge(p, r), r, h);
        PurgeThen(p, r, Advance(Purge(p, r), r, h));
        ReleaseThen(d, r, false, true, false, Advance(Purge(p, r), r, h));
        ReleaseThen(s, r, true, false, false, Advance(Purge(p, r), r, h));
      }
    }
  }
}
