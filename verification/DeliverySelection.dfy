/**
 * What the selection rules select, stated without their filters, and what a
 * drain hands over or keeps.
 */
module DeliverySelection {
  import opened DeliveryQueue
  import opened DeliveryOperations
  import opened DeliveryEffects

  // ------------------------------------------------------- Who is eligible

  ghost predicate AllReady(pending: seq<Delivery>, r: Reading) {
    forall d :: d in pending ==> d.id !in r.unready
  }

  /** Foreground input that may go: anything but a Deferred Request behind an older one. */
  ghost predicate ForegroundMayGo(pending: seq<Delivery>, r: Reading, d: Delivery) {
    && d in pending && !IsBackground(d) && d.id !in r.blocked
    && (IsDeferredRequest(d) ==> forall x :: x in pending && IsDeferredRequest(x) ==> x == d || d.serial < x.serial)
  }

  /** The oldest Background item, once no foreground input may go. */
  ghost predicate BackgroundMayGo(pending: seq<Delivery>, r: Reading, d: Delivery) {
    && d in pending && IsBackground(d) && d.id !in r.blocked
    && (forall x :: x in pending && IsBackground(x) ==> x == d || d.serial < x.serial)
    && (forall x :: x in pending ==> !ForegroundMayGo(pending, r, x))
  }

  /** Who may go: nobody while some queued Delivery is not ready. */
  ghost predicate IsEligible(pending: seq<Delivery>, r: Reading, d: Delivery) {
    AllReady(pending, r) && (ForegroundMayGo(pending, r, d) || BackgroundMayGo(pending, r, d))
  }

  lemma ForegroundExactly(pending: seq<Delivery>, r: Reading, d: Delivery)
    requires Ordered(pending)
    ensures var foreground := Keep(pending, x => !IsBackground(x));
            d in foreground && MayGo(First(foreground, IsDeferredRequest), r, d) <==> ForegroundMayGo(pending, r, d)
  {
    var foreground := Keep(pending, x => !IsBackground(x));
    var front := First(foreground, IsDeferredRequest);
    KeepOrdered(pending, x => !IsBackground(x));
    forall x | x in pending && IsDeferredRequest(x)
      ensures front.Some? && (x == front.value || front.value.serial < x.serial)
    {
      FirstPrecedes(foreground, IsDeferredRequest, x);
    }
  }

  /** Eligible is exactly who may go, in queue order. */
  lemma EligibleExactly(pending: seq<Delivery>, r: Reading, d: Delivery)
    requires Ordered(pending)
    ensures Ordered(Eligible(pending, r))
    ensures d in Eligible(pending, r) <==> IsEligible(pending, r, d)
  {
    EligibleOrdered(pending, r);
    if AllReady(pending, r) {
      var foreground := Keep(pending, x => !IsBackground(x));
      var eligible := Keep(foreground, x => MayGo(First(foreground, IsDeferredRequest), r, x));
      forall x
        ensures x in eligible <==> ForegroundMayGo(pending, r, x)
      {
        ForegroundExactly(pending, r, x);
      }
      var background := First(pending, IsBackground);
      forall x | x in pending && IsBackground(x)
        ensures background.Some? && (x == background.value || background.value.serial < x.serial)
      {
        FirstPrecedes(pending, IsBackground, x);
      }
      if eligible != [] {
        assert ForegroundMayGo(pending, r, eligible[0]);
      }
    }
  }

  /**
   * A Steer batch is every eligible Steer Message without a reservation, less the
   * Requests that the batch withdraws.
   */
  lemma SteerExactly(s: Slice, eligible: seq<Delivery>, d: Delivery)
    ensures var mayJoin := (x: Delivery) =>
              x in eligible && x.mode == Steer && !x.custom && !HasDispatchReservation(s, x.id);
            d in EligibleSteer(s, eligible) <==> mayJoin(d) && forall c :: mayJoin(c) ==> c.withdraws != Some(d.id)
  {
    var steer := Keep(eligible, (x: Delivery) => x.mode == Steer && !x.custom && !HasDispatchReservation(s, x.id));
    forall id
      ensures id in WithdrawnBy(steer) <==> exists c :: c in steer && c.withdraws == Some(id)
    {
    }
  }

  /** A Steer Message, eligible and owned by no reservation. */
  ghost predicate MayJoin(s: Slice, r: Reading, d: Delivery) {
    IsEligible(s.pending, r, d) && d.mode == Steer && !d.custom && !HasDispatchReservation(s, d.id)
  }

  /** It may join the Steer batch, and nothing that may join withdraws it. */
  ghost predicate JoinsSteer(s: Slice, r: Reading, d: Delivery) {
    MayJoin(s, r, d) && forall c :: MayJoin(s, r, c) ==> c.withdraws != Some(d.id)
  }

  lemma JoinsExactly(s: Slice, r: Reading, d: Delivery)
    requires Ordered(s.pending)
    ensures Ordered(EligibleSteer(s, Eligible(s.pending, r)))
    ensures d in EligibleSteer(s, Eligible(s.pending, r)) <==> JoinsSteer(s, r, d)
  {
    hide Eligible, IsEligible, EligibleSteer, HasDispatchReservation;
    var eligible := Eligible(s.pending, r);
    EligibleExactly(s.pending, r, d);
    SteerOrdered(s, eligible);
    SteerExactly(s, eligible, d);
    forall c
      ensures c in eligible <==> IsEligible(s.pending, r, c)
    {
      EligibleExactly(s.pending, r, c);
    }
  }

  /** `a` stands before `b` in the queue. */
  ghost predicate IsBefore(ds: seq<Delivery>, a: Delivery, b: Delivery) {
    exists i, j {:trigger ds[i], ds[j]} :: 0 <= i < j < |ds| && ds[i] == a && ds[j] == b
  }

  /** The first of those who may go. */
  ghost predicate GoesFirst(s: Slice, r: Reading, d: Delivery) {
    && IsEligible(s.pending, r, d)
    && forall x :: IsEligible(s.pending, r, x) && x != d ==> IsBefore(s.pending, d, x)
  }

  lemma {:induction false} KeepBefore(ds: seq<Delivery>, p: Delivery -> bool, x: Delivery)
    requires x in Keep(ds, p) && x != Keep(ds, p)[0]
    ensures IsBefore(ds, Keep(ds, p)[0], x)
  {
    if p(ds[0]) {
      var k :| 0 <= k < |ds| && ds[k] == x;
      assert ds[0] == Keep(ds, p)[0] && ds[k] == x;
    } else {
      KeepBefore(ds[1..], p, x);
      var i, j :| 0 <= i < j < |ds[1..]| && ds[1..][i] == Keep(ds, p)[0] && ds[1..][j] == x;
      assert ds[i + 1] == ds[1..][i] && ds[j + 1] == ds[1..][j];
    }
  }

  lemma FirstEligible(s: Slice, r: Reading, x: Delivery)
    requires x in Eligible(s.pending, r) && x != Eligible(s.pending, r)[0]
    ensures IsBefore(s.pending, Eligible(s.pending, r)[0], x)
  {
    var foreground := Keep(s.pending, d => !IsBackground(d));
    var front := First(foreground, IsDeferredRequest);
    var both := (d: Delivery) => !IsBackground(d) && MayGo(front, r, d);
    KeepTwice(s.pending, d => !IsBackground(d), d => MayGo(front, r, d));
    KeepSame(s.pending, (d: Delivery) => (d => !IsBackground(d))(d) && (d => MayGo(front, r, d))(d), both);
    KeepBefore(s.pending, both, x);
  }

  /** What a free drain hands over: the whole Steer batch, or else the first eligible Delivery. */
  function Selection(s: Slice, r: Reading): seq<Delivery> {
    var eligible := Eligible(s.pending, r);
    var steer := EligibleSteer(s, eligible);
    if steer != [] then steer else if eligible != [] then [eligible[0]] else []
  }

  /** Exactly those who join the Steer batch; with nobody to join it, exactly the first who may go. */
  lemma SelectionExactly(s: Slice, r: Reading, d: Delivery)
    requires Ordered(s.pending)
    ensures Ordered(Selection(s, r))
    ensures d in Selection(s, r) <==>
              if exists c :: JoinsSteer(s, r, c) then JoinsSteer(s, r, d) else GoesFirst(s, r, d)
  {
    hide Eligible, EligibleSteer, JoinsSteer, IsEligible, IsBefore, Precedes;
    var eligible := Eligible(s.pending, r);
    var steer := EligibleSteer(s, eligible);
    JoinsExactly(s, r, d);
    forall x
      ensures x in eligible <==> IsEligible(s.pending, r, x)
      ensures x in steer <==> JoinsSteer(s, r, x)
    {
      EligibleExactly(s.pending, r, x);
      JoinsExactly(s, r, x);
    }
    if steer != [] {
      assert JoinsSteer(s, r, steer[0]);
    } else if eligible != [] {
      FirstGoes(s, r, d);
    }
  }

  lemma FirstGoes(s: Slice, r: Reading, d: Delivery)
    requires Ordered(s.pending) && Eligible(s.pending, r) != []
    ensures GoesFirst(s, r, d) <==> d == Eligible(s.pending, r)[0]
  {
    hide Eligible, IsEligible;
    var eligible := Eligible(s.pending, r);
    forall x
      ensures x in eligible <==> IsEligible(s.pending, r, x)
      ensures x in eligible && x != eligible[0] ==> IsBefore(s.pending, eligible[0], x)
    {
      EligibleExactly(s.pending, r, x);
      if x in eligible && x != eligible[0] {
        FirstEligible(s, r, x);
      }
    }
    assert eligible[0] in eligible;
    NeverBothBefore(s.pending, d, eligible[0]);
  }

  lemma NeverBothBefore(ds: seq<Delivery>, a: Delivery, b: Delivery)
    requires Ordered(ds)
    ensures !(IsBefore(ds, a, b) && IsBefore(ds, b, a))
  {
  }

  // --------------------------------------------------- What a drain hands over

  lemma {:induction false} KeepAll(ds: seq<Delivery>, p: Delivery -> bool)
    requires forall d :: d in ds ==> p(d)
    ensures Keep(ds, p) == ds
  {
    if ds != [] {
      KeepAll(ds[1..], p);
    }
  }

  /** At a boundary with no prompt and no batch under way. */
  ghost predicate Free(s: Slice, h: Host) {
    && s.resuming.None? && s.reserved.None? && s.deferred.None? && s.preempting.None?
    && !h.blocksOrdinary && !h.waiting && h.boundary && !h.freezeHeldBack
  }

  /** A purge leaves nothing for a second one. */
  lemma PurgeTwice(s: Slice, r: Reading)
    requires s.deferred.None? && s.preempting.None?
    ensures Purge(Purge(s, r), r).pending == Purge(s, r).pending
    ensures Purge(s, r).deferred.None? && Purge(s, r).preempting.None?
  {
    var p := Purge(s, r);
    KeepAll(p.pending, d => Stays(p, r, d));
  }

  lemma FrozenStays(s: Slice, steer: seq<Delivery>, r: Reading)
    requires s.deferred.None? && s.preempting.None? && steer != [] && forall d :: d in steer ==> d in s.pending
    requires Purge(s, r).pending == s.pending
    ensures Purge(s.(frozen := Some(Frozen(steer, false))), r).frozen == Some(Frozen(steer, false))
    ensures Purge(s.(frozen := Some(Frozen(steer, false))), r).pending == s.pending
  {
    var f := s.(frozen := Some(Frozen(steer, false)));
    KeepSameStays(s, f, r);
    assert steer[0].id in FrozenIds(f) * Ids(s.pending);
  }

  lemma KeepSameStays(s: Slice, f: Slice, r: Reading)
    requires f == s.(frozen := f.frozen)
    ensures Purge(f, r).pending == Purge(s, r).pending
  {
    KeepSame(s.pending, d => Stays(s, r, d), d => Stays(f, r, d));
  }

  /**
   * A drain that finds the recipient free hands over the whole eligible Steer
   * batch, or else the first eligible Delivery; nothing only when nobody is
   * eligible.
   */
  lemma DrainHandsOver(s: Slice, r: Reading, h: Host)
    requires Free(s, h) && !HasUnprovenFrozenBatch(Purge(s, r))
    ensures Advance(s, r, h).batch == Selection(Purge(s, r), r)
  {
    hide Eligible, EligibleSteer, Keep, HasUnprovenFrozenBatch, Purge;
    var p := Purge(s, r);
    PurgeKeepsSlots(s, r);
    var steer := EligibleSteer(p, Eligible(p.pending, r));
    if steer != [] {
      PurgeTwice(s, r);
      FrozenStays(p, steer, r);
      var f := Purge(p.(frozen := Some(Frozen(steer, false))), r);
      KeepAll(steer, (d: Delivery) => d in f.pending);
    }
  }

  lemma PurgeKeepsSlots(s: Slice, r: Reading)
    ensures var p := Purge(s, r);
            p.resuming == s.resuming && p.reserved == s.reserved && (s.deferred.None? ==> p.deferred.None?)
              && (s.preempting.None? ==> p.preempting.None?)
  {
  }

  // ------------------------------------------------------------ Nothing is lost

  /** Queued and neither proven nor suppressed. */
  predicate Owes(s: Slice, r: Reading, d: Delivery) {
    d in s.pending && d.id !in r.proven && d.id !in r.suppressed
  }

  lemma PurgeKeeps(s: Slice, r: Reading, d: Delivery)
    requires Owes(s, r, d)
    ensures Owes(Purge(s, r), r, d)
  {
  }

  lemma DispatchKeeps(s: Slice, batch: seq<Delivery>, r: Reading, h: Host, d: Delivery)
    requires Owes(s, r, d)
    ensures Owes(DispatchFrozen(s, batch, r, h).slice, r, d)
  {
    hide Purge, Keep;
    PurgeKeeps(s, r, d);
  }

  lemma QueueKeeps(s: Slice, r: Reading, h: Host, d: Delivery, chosen: seq<Delivery>)
    requires Owes(s, r, d)
    ensures Owes(Freeze(s, chosen, r, h).slice, r, d) && Owes(AdvanceQueue(s, r, h).slice, r, d)
  {
    hide Purge, Keep, Eligible, EligibleSteer, DispatchFrozen, PreemptingBatch, First;
    var eligible := Eligible(s.pending, r);
    forall steer: seq<Delivery>
      ensures Owes(DispatchFrozen(s.(frozen := Some(Frozen(steer, false))), steer, r, h).slice, r, d)
    {
      DispatchKeeps(s.(frozen := Some(Frozen(steer, false))), steer, r, h, d);
    }
  }

  lemma AdvanceKeeps(s: Slice, r: Reading, h: Host, d: Delivery)
    requires SliceOk(s) && Truthful(s, r) && Owes(s, r, d)
    ensures Owes(Advance(s, r, h).slice, r, d)
  {
    hide Purge, AdvanceQueue, Keep;
    var p := Purge(s, r);
    PurgeKeeps(s, r, d);
    PurgeFollows(s, r);
    QueueKeeps(p, r, h, d, []);
    if p.reserved.Some? {
      UnreservedOk(p);
      QueueKeeps(Unreserved(p), r, h, d, []);
    }
  }

  lemma ReleaseKeeps(s: Slice, r: Reading, x: bool, y: bool, z: bool, d: Delivery)
    requires Owes(s, r, d) && (x ==> BatchIds(s.deferred) <= r.proven) && (y ==> BatchIds(s.preempting) <= r.proven)
    ensures Owes(Release(s, x, y, z), r, d)
  {
  }

  /** A held Run keeps everything unproven queued. */
  lemma HoldKeepsQueue(s: Slice, e: Ending, r: Reading, h: Host, d: Delivery)
    requires e.held && Owes(s, r, d)
    ensures Owes(Settle(s, e, r, h).slice, r, d)
  {
    hide Purge;
    PurgeKeeps(s, r, d);
  }

  /** An accepted admission is scheduled, unless its Delivery is proven or suppressed already. */
  lemma AdmittedIsScheduled(s: Slice, d: Delivery, capacity: nat, boot: Boot, r: Reading, h: Host)
    requires SliceOk(s) && Truthful(s, r) && !HasScheduling(s, d.id) && d.id !in r.proven && d.id !in r.suppressed
    requires forall x :: x in s.pending || x in Prompted(s) ==> x.serial < d.serial
    ensures var (e, admission) := Admit(s, d, capacity, boot, r, h);
            && (admission.Pending? <==> Owes(e.slice, r, d))
            && (admission.CapacityExhausted? <==> !d.custom && CountPending(s.pending, r) >= capacity)
            && (!admission.Pending? ==> e == Quiet(s))
  {
    hide Advance, CountPending, Ordered, Owned, SteerBatch;
    var queued := Enqueue(s, d);
    assert d !in s.pending by {
      assert d in s.pending ==> d.id in Ids(s.pending);
    }
    EnqueueOk(s, d);
    AdvanceKeeps(queued, r, h, d);
  }
}
