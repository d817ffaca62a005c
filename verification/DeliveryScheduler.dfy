/**
 * The scheduler object for one recipient: fields updated in place by the lane
 * methods, each proved to be the operation that the run results are about
 * (src/coordination/message-delivery-scheduler.ts:434-551, 649-661, 723-807,
 * 843-939, 1022-1045, 1054-1231).
 */
module DeliveryScheduler {
  import opened DeliveryQueue
  import opened DeliveryOperations

  class MessageDeliveryScheduler {
    var pending: seq<Delivery>
    var activeDeferred: Option<Batch>
    var activeWaitPreemption: Option<Batch>
    var frozenSteer: Option<Frozen>
    var reservedResume: Option<Delivery>
    var activeResume: Option<Delivery>
    var deferredResume: bool
    /** Deliveries handed to the Runtime, in order. */
    var handed: seq<Delivery>

    ghost function View(): Slice
      reads this
    {
      Slice(pending, activeDeferred, activeWaitPreemption, frozenSteer, reservedResume, activeResume, deferredResume)
    }

    /** The object is as `e` leaves it, with `e`'s batch handed over after `before`. */
    ghost predicate Shows(e: Effect, before: seq<Delivery>)
      reads this
    {
      View() == e.slice && handed == before + e.batch
    }

    constructor ()
      ensures Shows(Quiet(IDLE), [])
    {
      pending, activeDeferred, activeWaitPreemption, frozenSteer := [], None, None, None;
      reservedResume, activeResume, deferredResume, handed := None, None, false, [];
    }

    method RemoveProvenDeliveries(r: Reading)
      modifies this
      ensures View() == Purge(old(View()), r)
      ensures handed == old(handed)
    {
      hide Keep, BatchIds, Note;
      ghost var s := View();
      KeepNone(d => Stays(s, r, d));
      var queue: seq<Delivery> := [];
      var gone: set<Id> := {};
      for i := 0 to |pending|
        invariant View() == s && handed == old(handed)
        invariant queue == Keep(s.pending[..i], d => Stays(s, r, d))
        invariant gone == Ids(s.pending[..i]) * r.proven
      {
        var d := pending[i];
        KeepSnoc(s.pending[..i], d, d => Stays(s, r, d));
        assert s.pending[..i + 1] == s.pending[..i] + [d];
        var prompted := d.id in BatchIds(activeDeferred) || d.id in BatchIds(activeWaitPreemption);
        IdsSnoc(s.pending[..i], d);
        if d.id in r.proven {
          gone := gone + {d.id};
        } else if prompted || d.id !in r.suppressed {
          queue := queue + [d];
        }
      }
      assert s.pending[..|s.pending|] == s.pending;
      activeDeferred, activeWaitPreemption := Note(activeDeferred, gone), Note(activeWaitPreemption, gone);
      if activeWaitPreemption.Some? && BatchIds(activeWaitPreemption) <= activeWaitPreemption.value.committed {
        activeWaitPreemption := None;
      }
      pending := queue;
      if frozenSteer.Some? && Ids(frozenSteer.value.deliveries) * Ids(pending) == {} {
        frozenSteer := None;
      }
    }

    method DispatchFrozenSteer(batch: seq<Delivery>, r: Reading, h: Host)
      modifies this
      ensures Shows(DispatchFrozen(old(View()), batch, r, h), old(handed))
    {
      if h.blocksOrdinary || frozenSteer != Some(Frozen(batch, false)) {
        return;
      }
      RemoveProvenDeliveries(r);
      if frozenSteer.None? {
        return;
      }
      ghost var p := View();
      var queue := pending;
      var unproven := Keep(batch, (d: Delivery) => d in queue);
      assert unproven == Keep(batch, (d: Delivery) => d in p.pending);
      if unproven == [] {
        return;
      }
      frozenSteer := Some(Frozen(batch, true));
      handed := handed + unproven;
    }

    method FreezeSteer(chosen: seq<Delivery>, r: Reading, h: Host)
      modifies this
      ensures Shows(Freeze(old(View()), chosen, r, h), old(handed))
    {
      if frozenSteer.Some? && Ids(frozenSteer.value.deliveries) * Ids(pending) != {} {
        return;
      }
      var steer := chosen;
      if steer == [] {
        steer := EligibleSteer(Current(), Eligible(pending, r));
      }
      if steer == [] {
        return;
      }
      frozenSteer := Some(Frozen(steer, false));
      if h.freezeHeldBack {
        return;
      }
      DispatchFrozenSteer(steer, r, h);
    }

    function Current(): (s: Slice)
      reads this
      ensures s == View()
    {
      Slice(pending, activeDeferred, activeWaitPreemption, frozenSteer, reservedResume, activeResume, deferredResume)
    }

    method ReachSafeBoundary(r: Reading, h: Host)
      modifies this
      ensures Shows(DeliveryOperations.ReachSafeBoundary(old(View()), r, h), old(handed))
    {
      if !h.live {
        return;
      }
      RemoveProvenDeliveries(r);
      if h.blocksOrdinary {
        return;
      }
      FreezeSteer([], r, h);
    }

    method ReserveWaitPreemption(trigger: Delivery, r: Reading) returns (reserved: bool)
      modifies this
      ensures Shows(ReservePreemption(old(View()), trigger, r), old(handed))
      ensures !reserved ==> View() == old(View())
    {
      hide Eligible, EligibleSteer, Keep, First, HasDispatchReservation;
      var eligible := Eligible(pending, r);
      if trigger !in pending || trigger !in eligible || activeWaitPreemption.Some? {
        return false;
      }
      if HasDispatchReservation(Current(), trigger.id) {
        return true;
      }
      var deliveries := [trigger];
      if trigger.mode == Steer {
        deliveries := Keep(EligibleSteer(Current(), eligible), (d: Delivery) => !d.answer);
      }
      if First(deliveries, Preempts).None? {
        return false;
      }
      handed := handed + deliveries;
      activeWaitPreemption := Some(Batch(deliveries, {}));
      return true;
    }

    /** The Hold's isolated turn: the lane stays held until the resume commits or fails. */
    method StartResume(d: Delivery, h: Host)
      modifies this
      ensures Shows(DeliveryOperations.StartResume(old(View()), d, h), old(handed))
    {
      if !h.resumptionBegins {
        return;
      }
      handed := handed + [d];
      activeResume := Some(d);
      if h.resumptionCommits {
        reservedResume := None;
      } else {
        activeResume, reservedResume, deferredResume := None, None, false;
      }
    }

    method AdvanceDelivery(r: Reading, h: Host)
      modifies this
      ensures Shows(Advance(old(View()), r, h), old(handed))
    {
      RemoveProvenDeliveries(r);
      if activeResume.Some? {
        return;
      }
      if reservedResume.Some? {
        if deferredResume {
          return;
        }
        if h.holdCurrent {
          if h.settled {
            StartResume(reservedResume.value, h);
          }
          return;
        }
        pending := Put(pending, reservedResume.value);
        reservedResume := None;
      }
      AdvanceOrdinary(r, h);
    }

    method AdvanceOrdinary(r: Reading, h: Host)
      modifies this
      ensures Shows(AdvanceQueue(old(View()), r, h), old(handed))
    {
      hide Eligible, EligibleSteer, Freeze, ReservePreemption, WaitTrigger, HasUnprovenFrozenBatch;
      if h.blocksOrdinary || activeWaitPreemption.Some? {
        return;
      }
      var eligible := Eligible(pending, r);
      if h.waiting {
        var trigger := WaitTrigger(eligible);
        if trigger.Some? && h.waitYields {
          var reserved := ReserveWaitPreemption(trigger.value, r);
        }
        return;
      }
      if activeDeferred.Some? || HasUnprovenFrozenBatch(Current()) || !h.boundary {
        return;
      }
      var steer := EligibleSteer(Current(), eligible);
      if steer != [] {
        FreezeSteer(steer, r, h);
        return;
      }
      if eligible == [] {
        return;
      }
      handed := handed + [eligible[0]];
      activeDeferred := Some(Batch([eligible[0]], {}));
    }

    /** Queued Messages that count against the capacity: no Creation Request, and nothing proven or suppressed. */
    method CountPendingIdentities(r: Reading) returns (count: nat)
      ensures count == CountPending(pending, r)
    {
      var p := (d: Delivery) => !d.custom && !d.creation && d.id !in r.proven && d.id !in r.suppressed;
      count := 0;
      for i := 0 to |pending|
        invariant count == |Keep(pending[..i], p)|
      {
        KeepSnoc(pending[..i], pending[i], p);
        assert pending[..i + 1] == pending[..i] + [pending[i]];
        if !pending[i].custom && !pending[i].creation && pending[i].id !in r.proven && pending[i].id !in r.suppressed {
          count := count + 1;
        }
      }
      assert pending[..|pending|] == pending;
    }

    /** `boot` says what becomes of a dormant recipient: none needed, deferred, failed, or booted. */
    method Admit(d: Delivery, capacity: nat, boot: Boot, r: Reading, h: Host) returns (admission: Admission)
      modifies this
      ensures Shows(DeliveryOperations.Admit(old(View()), d, capacity, boot, r, h).0, old(handed))
      ensures admission == DeliveryOperations.Admit(old(View()), d, capacity, boot, r, h).1
    {
      hide CountPending, Advance, Put, HasScheduling;
      if HasScheduling(Current(), d.id) {
        AdvanceDelivery(r, h);
        return Pending;
      }
      var count := CountPendingIdentities(r);
      if !d.custom && count >= capacity {
        return CapacityExhausted;
      }
      if d.id in r.suppressed {
        return Pending;
      }
      if boot.Deferred? {
        pending := Put(pending, d);
        return Pending;
      }
      if boot.Fails? {
        return TargetUnavailable;
      }
      pending := Put(pending, d);
      AdvanceDelivery(r, h);
      return Pending;
    }

    method AdmitResume(d: Delivery, heldBack: bool, r: Reading, h: Host) returns (admission: Admission)
      modifies this
      ensures Shows(DeliveryOperations.AdmitResume(old(View()), d, heldBack, r, h).0, old(handed))
      ensures admission == DeliveryOperations.AdmitResume(old(View()), d, heldBack, r, h).1
    {
      if reservedResume.Some? || activeResume.Some? {
        return CapacityExhausted;
      }
      if !h.holdCurrent {
        return TargetUnavailable;
      }
      reservedResume := Some(d);
      if heldBack {
        deferredResume := true;
        return Pending;
      }
      AdvanceDelivery(r, h);
      return Pending;
    }

    method Discard()
      modifies this
      ensures Shows(DeliveryOperations.Discard(old(View())), old(handed))
    {
      activeDeferred, activeWaitPreemption, frozenSteer, reservedResume, activeResume, deferredResume :=
        None, None, None, None, None, false;
      pending := [];
    }

    /** A prompt that settled proven releases its reservation and leaves the queue. */
    method ReleasePrompt(deferred: bool)
      modifies this
      ensures View() == Release(old(View()), deferred, !deferred, false)
      ensures handed == old(handed)
    {
      ghost var s := View();
      var ids := if deferred then BatchIds(activeDeferred) else BatchIds(activeWaitPreemption);
      var queue: seq<Delivery> := [];
      for i := 0 to |pending|
        invariant View() == s && handed == old(handed)
        invariant queue == Keep(s.pending[..i], (x: Delivery) => x.id !in ids)
      {
        KeepSnoc(s.pending[..i], pending[i], (x: Delivery) => x.id !in ids);
        assert s.pending[..i + 1] == s.pending[..i] + [pending[i]];
        if pending[i].id !in ids {
          queue := queue + [pending[i]];
        }
      }
      assert s.pending[..|s.pending|] == s.pending;
      ghost var d, p := if deferred then s.deferred else None, if !deferred then s.preempting else None;
      KeepSame(s.pending, (x: Delivery) => x.id !in ids, (x: Delivery) => x.id !in BatchIds(d) && x.id !in BatchIds(p));
      pending := queue;
      if deferred {
        activeDeferred := None;
      } else {
        activeWaitPreemption := None;
      }
    }

    method FinishSettled(e: Ending, r: Reading, h: Host)
      modifies this
      ensures Shows(Settle(old(View()), e, r, h), old(handed))
    {
      hide Purge, Keep, Advance, HasUnprovenFrozenBatch;
      ghost var s := View();
      if e.held {
        RemoveProvenDeliveries(r);
        activeDeferred, activeWaitPreemption, frozenSteer, activeResume := None, None, None, None;
        return;
      }
      if activeResume.Some? && (e.resumingFailed || activeResume.value.id !in r.proven) {
        Discard();
        return;
      }
      activeResume := None;
      var proven := BatchIds(activeDeferred) <= r.proven;
      if activeDeferred.Some? && (e.deferredFailed || !proven) {
        Discard();
        return;
      }
      ReleasePrompt(true);
      proven := BatchIds(activeWaitPreemption) <= r.proven;
      if activeWaitPreemption.Some? && (e.preemptingFailed || !proven) {
        Discard();
        return;
      }
      ReleasePrompt(false);
      ReleaseTwice(s);
      RemoveProvenDeliveries(r);
      if e.failed || HasUnprovenFrozenBatch(Current()) {
        Discard();
        return;
      }
      AdvanceDelivery(r, h);
    }

    method BeginParking(r: Reading, h: Host) returns (parked: bool)
      modifies this
      ensures Shows(DeliveryOperations.BeginParking(old(View()), r, h), old(handed))
    {
      if !(BatchIds(activeDeferred) <= r.proven) {
        return false;
      }
      ReleasePrompt(true);
      if !(BatchIds(activeWaitPreemption) <= r.proven) {
        return false;
      }
      ReleasePrompt(false);
      RemoveProvenDeliveries(r);
      AdvanceDelivery(r, h);
      return true;
    }

    method PrepareInterruption()
      modifies this
      ensures Shows(Interrupt(old(View())), old(handed))
    {
      frozenSteer := None;
    }
  }

  lemma KeepNone(p: Delivery -> bool)
    ensures Keep([], p) == []
  {
  }

  lemma IdsSnoc(ds: seq<Delivery>, d: Delivery)
    ensures Ids(ds + [d]) == Ids(ds) + {d.id}
  {
  }

  lemma {:induction false} KeepSnoc(ds: seq<Delivery>, d: Delivery, p: Delivery -> bool)
    ensures Keep(ds + [d], p) == Keep(ds, p) + if p(d) then [d] else []
  {
    if ds == [] {
      assert ds + [d] == [d];
    } else {
      assert (ds + [d])[1..] == ds[1..] + [d];
      KeepSnoc(ds[1..], d, p);
    }
  }

  /** Releasing the two prompts one after the other is releasing both. */
  lemma ReleaseTwice(s: Slice)
    ensures Release(Release(s.(resuming := None), true, false, false), false, true, false) ==
              Release(s, true, true, true)
  {
    var p, q := (x: Delivery) => x.id !in BatchIds(s.deferred) && x.id !in BatchIds(None),
                (x: Delivery) => x.id !in BatchIds(None) && x.id !in BatchIds(s.preempting);
    KeepTwice(s.pending, p, q);
    KeepSame(s.pending, (d: Delivery) => p(d) && q(d), (x: Delivery) =>
        x.id !in BatchIds(s.deferred) && x.id !in BatchIds(s.preempting));
  }
}
