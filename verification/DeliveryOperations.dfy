/**
 * The lane operations of one recipient's delivery scheduling as functions:
 * the next slice, the batch handed to the Runtime, and the hand-offs that end
 * without a proof (src/coordination/message-delivery-scheduler.ts:434-577,
 * 723-807, 830-939, 1030-1231).
 */
module DeliveryOperations {
  import opened DeliveryQueue

  /** What the recipient's Runtime answers while one operation runs. */
  datatype Host = Host(
    live: bool, blocksOrdinary: bool, waiting: bool, waitYields: bool, boundary: bool,
    holdCurrent: bool, settled: bool, resumptionBegins: bool, resumptionCommits: bool, freezeHeldBack: bool)

  /** How the Run and its native prompts ended. */
  datatype Ending = Ending(held: bool, failed: bool, deferredFailed: bool, preemptingFailed: bool, resumingFailed: bool)

  /**
   * `batch` is what was handed to the Runtime, `proved` what committed within
   * the operation, `dropped` the hand-offs the Runtime will now never commit.
   */
  datatype Effect = Effect(slice: Slice, batch: seq<Delivery>, proved: set<Id>, dropped: set<Id>)

  function Quiet(s: Slice): Effect {
    Effect(s, [], {}, {})
  }

  // ------------------------------------------------------------------- Steer

  function DispatchFrozen(s: Slice, batch: seq<Delivery>, r: Reading, h: Host): Effect {
    if h.blocksOrdinary || s.frozen != Some(Frozen(batch, false)) then Quiet(s)
    else
      var p := Purge(s, r);
      if p.frozen.None? then Quiet(p)
      else
        var unproven := Keep(batch, (d: Delivery) => d in p.pending);
        if unproven == [] then Quiet(p)
        else Effect(p.(frozen := Some(Frozen(batch, true))), unproven, {}, {})
  }

  function Freeze(s: Slice, chosen: seq<Delivery>, r: Reading, h: Host): Effect {
    if HasUnprovenFrozenBatch(s) then Quiet(s)
    else
      var steer := if chosen == [] then EligibleSteer(s, Eligible(s.pending, r)) else chosen;
      if steer == [] then Quiet(s)
      else
        var f := s.(frozen := Some(Frozen(steer, false)));
        if h.freezeHeldBack then Quiet(f) else DispatchFrozen(f, steer, r, h)
  }

  function ReachSafeBoundary(s: Slice, r: Reading, h: Host): Effect {
    if !h.live then Quiet(s)
    else
      var p := Purge(s, r);
      if h.blocksOrdinary then Quiet(p) else Freeze(p, [], r, h)
  }

  // --------------------------------------------------------- Wait preemption

  predicate Preempts(d: Delivery) {
    d.incomingRequest || d.preemptsWait
  }

  function WaitTrigger(eligible: seq<Delivery>): (t: Option<Delivery>)
    ensures t.Some? ==> t.value in eligible && Preempts(t.value)
  {
    var steer := First(eligible, (d: Delivery) => d.mode == Steer && Preempts(d));
    if steer.Some? then steer else First(eligible, Preempts)
  }

  function PreemptingBatch(s: Slice, trigger: Delivery, r: Reading): seq<Delivery> {
    if trigger.mode == Steer then
      Keep(EligibleSteer(s, Eligible(s.pending, r)), (d: Delivery) => !d.answer)
    else [trigger]
  }

  function ReservePreemption(s: Slice, trigger: Delivery, r: Reading): Effect {
    if trigger !in s.pending || trigger !in Eligible(s.pending, r) || s.preempting.Some? then Quiet(s)
    else if HasDispatchReservation(s, trigger.id) then Quiet(s)
    else
      var batch := PreemptingBatch(s, trigger, r);
      if First(batch, Preempts).None? then Quiet(s)
      else Effect(s.(preempting := Some(Batch(batch, {}))), batch, {}, {})
  }

  // -------------------------------------------------------------- Resumption

  /** The lane is held until the resumption's transcript commit succeeds or fails. */
  function StartResume(s: Slice, d: Delivery, h: Host): Effect {
    if !h.resumptionBegins then Quiet(s)
    else if h.resumptionCommits then Effect(s.(reserved := None, resuming := Some(d)), [d], {d.id}, {})
    else Effect(s.(reserved := None, resuming := None, resumeHeldBack := false), [d], {}, {d.id})
  }

  // ------------------------------------------------------------------- Drain

  function Advance(s: Slice, r: Reading, h: Host): Effect {
    var p := Purge(s, r);
    if p.resuming.Some? then Quiet(p)
    else if p.reserved.Some? then
      if p.resumeHeldBack then Quiet(p)
      else if h.holdCurrent then
        if h.settled then StartResume(p, p.reserved.value, h) else Quiet(p)
      else AdvanceQueue(p.(reserved := None, pending := Put(p.pending, p.reserved.value)), r, h)
    else AdvanceQueue(p, r, h)
  }

  function AdvanceQueue(s: Slice, r: Reading, h: Host): Effect {
    if h.blocksOrdinary || s.preempting.Some? then Quiet(s)
    else
      var eligible := Eligible(s.pending, r);
      if h.waiting then
        var trigger := WaitTrigger(eligible);
        if trigger.Some? && h.waitYields then ReservePreemption(s, trigger.value, r) else Quiet(s)
      else if s.deferred.Some? || HasUnprovenFrozenBatch(s) || !h.boundary then Quiet(s)
      else
        var steer := EligibleSteer(s, eligible);
        if steer != [] then Freeze(s, steer, r, h)
        else if eligible == [] then Quiet(s)
        else
          var batch := [eligible[0]];
          Effect(s.(deferred := Some(Batch(batch, {}))), batch, {}, {})
  }

  /** A drain, an admission or a boot that throws gives up queued Deliveries, but none that a reservation owns. */
  function Abandon(s: Slice, lost: set<Id>): Effect {
    Quiet(s.(pending := Keep(s.pending, (d: Delivery) => d.id !in lost || HasDispatchReservation(s, d.id))))
  }

  // --------------------------------------------------------------- Admission

  datatype Boot = Running | Deferred | Fails | Boots
  datatype Admission = Pending | TargetUnavailable | CapacityExhausted

  function CountPending(ds: seq<Delivery>, r: Reading): nat {
    |Keep(ds, (d: Delivery) => !d.custom && !d.creation && d.id !in r.proven && d.id !in r.suppressed)|
  }

  function Admit(s: Slice, d: Delivery, capacity: nat, boot: Boot, r: Reading, h: Host): (Effect, Admission) {
    if HasScheduling(s, d.id) then (Advance(s, r, h), Pending)
    else if !d.custom && CountPending(s.pending, r) >= capacity then (Quiet(s), CapacityExhausted)
    else if d.id in r.suppressed then (Quiet(s), Pending)
    else if boot.Fails? then (Quiet(s), TargetUnavailable)
    else
      var queued := s.(pending := Put(s.pending, d));
      if boot.Deferred? then (Quiet(queued), Pending) else (Advance(queued, r, h), Pending)
  }

  /** Takes the resume slot; it does not look at any other reservation of the id. */
  function ReserveResume(s: Slice, d: Delivery): Slice {
    s.(reserved := Some(d))
  }

  function AdmitResume(s: Slice, d: Delivery, heldBack: bool, r: Reading, h: Host): (Effect, Admission) {
    if s.reserved.Some? || s.resuming.Some? then (Quiet(s), CapacityExhausted)
    else if !h.holdCurrent then (Quiet(s), TargetUnavailable)
    else
      var taken := ReserveResume(s, d);
      if heldBack then (Quiet(taken.(resumeHeldBack := true)), Pending) else (Advance(taken, r, h), Pending)
  }

  function ReleaseResume(s: Slice, id: Id, r: Reading, h: Host): Effect {
    if s.reserved.None? || s.reserved.value.id != id then Quiet(s)
    else Advance(s.(resumeHeldBack := false), r, h)
  }

  // ------------------------------------------------------ Endings and parking

  function Discard(s: Slice): Effect {
    Effect(IDLE, [], {}, Dispatched(s))
  }

  function Interrupt(s: Slice): Effect {
    Effect(s.(frozen := None), [], {}, if s.frozen.Some? && s.frozen.value.dispatched then FrozenIds(s) else {})
  }

  /** Proven prompts give up their reservations and leave the queue. */
  function Release(s: Slice, d: bool, p: bool, resume: bool): Slice {
    var deferred, preempting := if d then s.deferred else None, if p then s.preempting else None;
    s.(deferred := if d then None else s.deferred, preempting := if p then None else s.preempting,
       resuming := if resume then None else s.resuming,
       pending := Keep(s.pending, (x: Delivery) => x.id !in BatchIds(deferred) && x.id !in BatchIds(preempting)))
  }

  /** A held Run ends its prompts but keeps what is unproven queued. */
  function Held(s: Slice, r: Reading): Effect {
    var p := Purge(s, r);
    Effect(p.(deferred := None, preempting := None, frozen := None, resuming := None), [], {}, Dispatched(s) - r.proven)
  }

  function Settle(s: Slice, e: Ending, r: Reading, h: Host): Effect {
    if e.held then Held(s, r)
    else if s.resuming.Some? && (e.resumingFailed || !(SlotId(s.resuming) <= r.proven)) then Discard(s)
    else if s.deferred.Some? && (e.deferredFailed || !(BatchIds(s.deferred) <= r.proven)) then Discard(s)
    else if s.preempting.Some? && (e.preemptingFailed || !(BatchIds(s.preempting) <= r.proven)) then Discard(s)
    else
      var p := Purge(Release(s, true, true, true), r);
      if e.failed || HasUnprovenFrozenBatch(p) then Discard(s) else Advance(p, r, h)
  }

  /** Parking the Owner: prompts whose Deliveries are all proven give up their reservation early. */
  function BeginParking(s: Slice, r: Reading, h: Host): Effect {
    if !(BatchIds(s.deferred) <= r.proven) then Quiet(s)
    else
      var d := Release(s, true, false, false);
      if !(BatchIds(d.preempting) <= r.proven) then Quiet(d)
      else Advance(Purge(Release(d, false, true, false), r), r, h)
  }
}
