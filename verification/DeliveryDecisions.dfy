/**
 * What each lane operation of the delivery scheduler decides, stated without
 * its steps: what leaves the queue, what is handed over, what is lost and which
 * reservations stay
 * (src/coordination/message-delivery-scheduler.ts:434-577, 633-661, 723-807, 843-939, 1026-1137, 1200-1231).
 */
module DeliveryDecisions {
  import opened DeliveryQueue
  import opened DeliveryOperations
  import opened DeliveryEffects
  import opened DeliverySelection
  import opened DeliveryRuns

  // ------------------------------------------------- Removing proven Deliveries

  /** A prompt handed over owns the id; suppression cannot recall it. */
  ghost predicate IsPrompted(s: Slice, id: Id) {
    || (s.deferred.Some? && exists d :: d in s.deferred.value.deliveries && d.id == id)
    || (s.preempting.Some? && exists d :: d in s.preempting.value.deliveries && d.id == id)
  }

  ghost predicate AllIn(ds: seq<Delivery>, ids: set<Id>) {
    forall d :: d in ds ==> d.id in ids
  }

  ghost predicate AnyQueued(ds: seq<Delivery>, queue: seq<Delivery>) {
    exists d, x :: d in ds && x in queue && x.id == d.id
  }

  /** `b` with the proofs that its queued Deliveries now have. */
  ghost predicate Remembers(b: Option<Batch>, b': Option<Batch>, queue: seq<Delivery>, r: Reading) {
    && (b.None? <==> b'.None?)
    && (b.Some? ==>
         && b'.value.deliveries == b.value.deliveries
         && forall id :: id in b'.value.committed <==>
              id in b.value.committed
              || (id in r.proven && id in Ids(b.value.deliveries) && id in Ids(queue)))
  }

  /**
   * A purge drops what is proven, and what is suppressed unless a prompt owns
   * it. A preemption ends with the last proof of its batch, a frozen batch once
   * none of it is queued; nothing else changes.
   */
  lemma PurgeExactly(s: Slice, r: Reading)
    ensures var p := Purge(s, r);
            && (forall d :: d in p.pending <==>
                 d in s.pending && d.id !in r.proven && (d.id in r.suppressed ==> IsPrompted(s, d.id)))
            && (Ordered(s.pending) ==> Ordered(p.pending))
            && Remembers(s.deferred, p.deferred, s.pending, r)
            && (p.preempting.Some? ==> Remembers(s.preempting, p.preempting, s.pending, r))
            && (s.preempting.Some? ==>
                 (p.preempting.None? <==>
                   forall d :: d in s.preempting.value.deliveries ==>
                       d.id in s.preempting.value.committed || (d.id in r.proven && d.id in Ids(s.pending))))
            && (s.frozen.Some? ==>
                 p.frozen == if AnyQueued(s.frozen.value.deliveries, p.pending) then s.frozen else None)
            && (s.frozen.None? ==> p.frozen.None?)
            && p.reserved == s.reserved && p.resuming == s.resuming && p.resumeHeldBack == s.resumeHeldBack
  {
    PurgedQueue(s, r);
    PurgedSlots(s, r);
  }

  lemma PurgedQueue(s: Slice, r: Reading)
    ensures var p := Purge(s, r);
            && (forall d :: d in p.pending <==>
                 d in s.pending && d.id !in r.proven && (d.id in r.suppressed ==> IsPrompted(s, d.id)))
            && (Ordered(s.pending) ==> Ordered(p.pending))
  {
    hide Keep, Ordered;
    forall d
      ensures Stays(s, r, d) <==> d.id !in r.proven && (d.id in r.suppressed ==> IsPrompted(s, d.id))
    {
    }
    if Ordered(s.pending) {
      KeepOrdered(s.pending, d => Stays(s, r, d));
    }
  }

  lemma PurgedSlots(s: Slice, r: Reading)
    ensures var p := Purge(s, r);
            && Remembers(s.deferred, p.deferred, s.pending, r)
            && (p.preempting.Some? ==> Remembers(s.preempting, p.preempting, s.pending, r))
            && (s.preempting.Some? ==>
                 (p.preempting.None? <==>
                   forall d :: d in s.preempting.value.deliveries ==>
                       d.id in s.preempting.value.committed || (d.id in r.proven && d.id in Ids(s.pending))))
            && (s.frozen.Some? ==>
                 p.frozen == if AnyQueued(s.frozen.value.deliveries, p.pending) then s.frozen else None)
            && (s.frozen.None? ==> p.frozen.None?)
            && p.reserved == s.reserved && p.resuming == s.resuming && p.resumeHeldBack == s.resumeHeldBack
  {
    hide Keep, Stays;
    var p := Purge(s, r);
    if s.preempting.Some? {
      assert forall d :: d in s.preempting.value.deliveries ==> d.id in BatchIds(s.preempting);
    }
    if s.frozen.Some? {
      SharedId(s.frozen.value.deliveries, p.pending);
    }
  }

  lemma SharedId(a: seq<Delivery>, b: seq<Delivery>)
    ensures AnyQueued(a, b) <==> Ids(a) * Ids(b) != {}
  {
    if AnyQueued(a, b) {
      var d, x :| d in a && x in b && x.id == d.id;
      assert d.id in Ids(a) * Ids(b);
    }
    if Ids(a) * Ids(b) != {} {
      var id :| id in Ids(a) * Ids(b);
      var d :| d in a && d.id == id;
      var x :| x in b && x.id == id;
    }
  }

  /** What a purge leaves: nothing that it would drop, and no reservation that it would end. */
  ghost predicate IsPurged(s: Slice, r: Reading) {
    && (forall d :: d in s.pending ==> Stays(s, r, d))
    && (s.preempting.Some? ==> !(BatchIds(s.preempting) <= s.preempting.value.committed))
    && (s.frozen.Some? ==> FrozenIds(s) * Ids(s.pending) != {})
  }

  lemma PurgedStays(s: Slice, r: Reading)
    ensures Purge(s, r) == s <==> IsPurged(s, r)
  {
    if Purge(s, r) == s {
      assert forall d :: d in s.pending ==> d in Keep(s.pending, d => Stays(s, r, d));
    }
    if IsPurged(s, r) {
      KeepAll(s.pending, d => Stays(s, r, d));
      assert Ids(s.pending) * r.proven == {};
      NotedNothing(s.deferred);
      NotedNothing(s.preempting);
    }
  }

  lemma NotedNothing(b: Option<Batch>)
    ensures Note(b, {}) == b
  {
    assert b.Some? ==> b.value.committed + {} * Ids(b.value.deliveries) == b.value.committed;
  }

  /** Nothing is left for another purge. */
  lemma PurgeAgain(s: Slice, r: Reading)
    requires Truthful(s, r)
    ensures Purge(Purge(s, r), r) == Purge(s, r)
  {
    var p := Purge(s, r);
    PurgedStays(p, r);
    hide Keep;
    forall d | d in p.pending
      ensures Stays(p, r, d)
    {
      assert Stays(s, r, d);
    }
  }

  // ------------------------------------------------------------------ Freezing

  /** A frozen batch that still holds a queued Delivery, neither proven nor suppressed. */
  ghost predicate OwesFrozen(s: Slice, r: Reading) {
    s.frozen.Some? && exists f, d :: f in s.frozen.value.deliveries && Owes(s, r, d) && d.id == f.id
  }

  /** The frozen Steer batch: chosen by the drain, or all that may join it now. */
  function SteerBatchOf(s: Slice, chosen: seq<Delivery>, r: Reading): seq<Delivery> {
    if chosen == [] then EligibleSteer(s, Eligible(s.pending, r)) else chosen
  }

  /** The batch is handed over whole as it is frozen, or frozen whole and held back. */
  ghost predicate IsFrozenWhole(s: Slice, steer: seq<Delivery>, h: Host, e: Effect) {
    if steer == [] then e == Quiet(s)
    else
      var frozen := s.(frozen := Some(Frozen(steer, !h.freezeHeldBack)));
      e == Effect(frozen, if h.freezeHeldBack then [] else steer, {}, {})
  }

  lemma FreezeExactly(s: Slice, chosen: seq<Delivery>, r: Reading, h: Host)
    requires Purge(s, r) == s && !HasUnprovenFrozenBatch(s) && !h.blocksOrdinary
    requires chosen == [] || chosen == EligibleSteer(s, Eligible(s.pending, r))
    ensures IsFrozenWhole(s, SteerBatchOf(s, chosen, r), h, Freeze(s, chosen, r, h))
  {
    hide Eligible, EligibleSteer, HasUnprovenFrozenBatch, Purge, Keep;
    var steer := EligibleSteer(s, Eligible(s.pending, r));
    if steer != [] {
      var f := s.(frozen := Some(Frozen(steer, false)));
      FrozenIsPurged(s, steer, r);
      KeepAll(steer, (d: Delivery) => d in f.pending);
    }
  }

  /** Exactly those who join the Steer batch are frozen, in queue order. */
  ghost predicate FreezesJoined(s: Slice, r: Reading, h: Host, e: Effect) {
    exists steer: seq<Delivery> :: IsFrozenWhole(s, steer, h, e) && Ordered(steer)
      && forall d :: d in steer <==> JoinsSteer(s, r, d)
  }

  lemma FreezeJoins(s: Slice, chosen: seq<Delivery>, r: Reading, h: Host)
    requires Purge(s, r) == s && !HasUnprovenFrozenBatch(s) && !h.blocksOrdinary && Ordered(s.pending)
    requires chosen == [] || chosen == EligibleSteer(s, Eligible(s.pending, r))
    ensures FreezesJoined(s, r, h, Freeze(s, chosen, r, h))
  {
    hide Purge, Freeze, Eligible, EligibleSteer, JoinsSteer, Ordered, HasUnprovenFrozenBatch, IsFrozenWhole;
    FreezeExactly(s, chosen, r, h);
    var steer := SteerBatchOf(s, chosen, r);
    EligibleOrdered(s.pending, r);
    SteerOrdered(s, Eligible(s.pending, r));
    forall d
      ensures d in steer <==> JoinsSteer(s, r, d)
    {
      JoinsExactly(s, r, d);
    }
  }

  lemma FrozenIsPurged(s: Slice, steer: seq<Delivery>, r: Reading)
    requires Purge(s, r) == s && steer != [] && forall d :: d in steer ==> d in s.pending
    ensures Purge(s.(frozen := Some(Frozen(steer, false))), r) == s.(frozen := Some(Frozen(steer, false)))
  {
    var f := s.(frozen := Some(Frozen(steer, false)));
    KeepSameStays(s, f, r);
    assert steer[0].id in FrozenIds(f) * Ids(s.pending);
  }

  /**
   * At a safe boundary of a live Run, input not being blocked, everything that
   * may join the Steer batch is frozen, unless an earlier batch is still owed.
   */
  lemma BoundaryExactly(s: Slice, r: Reading, h: Host)
    requires SliceOk(s) && Truthful(s, r)
    ensures var (p, e) := (Purge(s, r), ReachSafeBoundary(s, r, h));
            if !h.live then e == Quiet(s)
            else if h.blocksOrdinary || OwesFrozen(p, r) then e == Quiet(p)
            else FreezesJoined(p, r, h, e)
  {
    hide SliceOk, Truthful, Purge, Freeze, FreezesJoined, HasUnprovenFrozenBatch;
    if h.live && !h.blocksOrdinary {
      var p := Purge(s, r);
      FrozenIsOwed(s, r);
      if HasUnprovenFrozenBatch(p) {
        assert Freeze(p, [], r, h) == Quiet(p) by { FreezeWaits(p, r, h); }
      } else {
        PurgeAgain(s, r);
        PurgeKeepsOrder(s, r);
        FreezeJoins(p, [], r, h);
      }
    }
  }

  lemma FreezeWaits(s: Slice, r: Reading, h: Host)
    requires HasUnprovenFrozenBatch(s)
    ensures Freeze(s, [], r, h) == Quiet(s)
  {
  }

  lemma PurgeKeepsOrder(s: Slice, r: Reading)
    requires SliceOk(s)
    ensures Ordered(Purge(s, r).pending)
  {
    PurgedQueue(s, r);
  }

  /** After a purge, what is queued of a frozen batch is owed: no prompt owns it too. */
  lemma FrozenIsOwed(s: Slice, r: Reading)
    requires SliceOk(s)
    ensures HasUnprovenFrozenBatch(Purge(s, r)) <==> OwesFrozen(Purge(s, r), r)
  {
    hide Keep, Ordered;
    var p := Purge(s, r);
    if HasUnprovenFrozenBatch(p) {
      SharedId(p.frozen.value.deliveries, p.pending);
      var f, d :| f in p.frozen.value.deliveries && d in p.pending && d.id == f.id;
      assert d.id in FrozenIds(s) && Stays(s, r, d);
      assert Owes(p, r, d);
    }
    if OwesFrozen(p, r) {
      SharedId(p.frozen.value.deliveries, p.pending);
    }
  }

  // ---------------------------------------------------------------- Settlement

  /** A prompt that failed, or settled with a Delivery still unproven. */
  ghost predicate IsBrokenPrompt(b: Option<Batch>, failed: bool, r: Reading) {
    b.Some? && (failed || exists d :: d in b.value.deliveries && d.id !in r.proven)
  }

  /** What makes a settlement give up everything: a failure, or work handed over that is not proven. */
  ghost predicate LosesWork(s: Slice, e: Ending, r: Reading) {
    || e.failed
    || (s.resuming.Some? && (e.resumingFailed || s.resuming.value.id !in r.proven))
    || IsBrokenPrompt(s.deferred, e.deferredFailed, r)
    || IsBrokenPrompt(s.preempting, e.preemptingFailed, r)
    || OwesFrozen(s, r)
  }

  /** What is owed, in queue order. */
  function Owed(s: Slice, r: Reading): (ds: seq<Delivery>)
    ensures forall d :: d in ds <==> Owes(s, r, d)
  {
    Keep(s.pending, (d: Delivery) => d.id !in r.proven && d.id !in r.suppressed)
  }

  /** A settlement that loses nothing frees every prompt and leaves exactly what is owed queued. */
  function Settled(s: Slice, r: Reading): Slice {
    Slice(Owed(s, r), None, None, None, s.reserved, None, s.resumeHeldBack)
  }

  lemma PromptsProven(b: Option<Batch>, failed: bool, r: Reading)
    ensures IsBrokenPrompt(b, failed, r) <==> b.Some? && (failed || !(BatchIds(b) <= r.proven))
    ensures b.None? ==> BatchIds(b) <= r.proven
  {
    if IsBrokenPrompt(b, failed, r) && !failed {
      var d :| d in b.value.deliveries && d.id !in r.proven;
      assert d.id in BatchIds(b);
    }
  }

  lemma ReleasedQueue(s: Slice, r: Reading)
    requires BatchIds(s.deferred) <= r.proven && BatchIds(s.preempting) <= r.proven
    ensures Purge(Release(s, true, true, true), r).pending == Owed(s, r)
  {
    var p := (x: Delivery) => x.id !in BatchIds(s.deferred) && x.id !in BatchIds(s.preempting);
    var released := Release(s, true, true, true);
    var q := (d: Delivery) => Stays(released, r, d);
    KeepTwice(s.pending, p, q);
    KeepSame(s.pending, (d: Delivery) => p(d) && q(d),
             (d: Delivery) => d.id !in r.proven && d.id !in r.suppressed);
  }

  lemma ReleasedSlots(s: Slice, r: Reading)
    requires BatchIds(s.deferred) <= r.proven && BatchIds(s.preempting) <= r.proven
    ensures var p := Purge(Release(s, true, true, true), r);
            && (HasUnprovenFrozenBatch(p) <==> OwesFrozen(s, r))
            && (!OwesFrozen(s, r) ==> p == Settled(s, r))
  {
    hide Keep;
    ReleasedQueue(s, r);
    var released := Release(s, true, true, true);
    var p := Purge(released, r);
    PurgedSlots(released, r);
    if s.frozen.Some? {
      SharedId(s.frozen.value.deliveries, p.pending);
    }
  }

  lemma SettleExactly(s: Slice, e: Ending, r: Reading, h: Host)
    requires !e.held
    ensures Settle(s, e, r, h) == if LosesWork(s, e, r) then Discard(s) else Advance(Settled(s, r), r, h)
  {
    hide Purge, Release, Advance, HasUnprovenFrozenBatch, Discard, IsBrokenPrompt, OwesFrozen, Settled, BatchIds;
    PromptsProven(s.deferred, e.deferredFailed, r);
    PromptsProven(s.preempting, e.preemptingFailed, r);
    if BatchIds(s.deferred) <= r.proven && BatchIds(s.preempting) <= r.proven {
      ReleasedSlots(s, r);
    }
  }

  lemma SettledOk(s: Slice, r: Reading)
    requires SliceOk(s) && Truthful(s, r)
    ensures SliceOk(Settled(s, r)) && Truthful(Settled(s, r), r) && Purge(Settled(s, r), r) == Settled(s, r)
  {
    var settled := Settled(s, r);
    KeepOrdered(s.pending, (d: Delivery) => d.id !in r.proven && d.id !in r.suppressed);
    assert Ids(settled.pending) <= Ids(s.pending);
    KeepAll(settled.pending, d => Stays(settled, r, d));
  }

  /** Unless the Run is held, a settlement loses an owed Delivery exactly when something failed or stayed unproven. */
  lemma SettleKeepsIff(s: Slice, e: Ending, r: Reading, h: Host, d: Delivery)
    requires SliceOk(s) && Truthful(s, r) && Owes(s, r, d) && !e.held
    ensures Owes(Settle(s, e, r, h).slice, r, d) <==> !LosesWork(s, e, r)
  {
    hide LosesWork, SliceOk, Truthful, Purge, Advance;
    SettleExactly(s, e, r, h);
    if !LosesWork(s, e, r) {
      SettledOk(s, r);
      AdvanceKeeps(Settled(s, r), r, h, d);
    }
  }

  /** At a boundary with nothing in its way, ordinary input goes. */
  ghost predicate Flows(h: Host) {
    !h.blocksOrdinary && !h.waiting && h.boundary && !h.freezeHeldBack
  }

  /** A settlement that loses nothing hands over what the selection rules select from all that is owed. */
  lemma SettleHandsOver(s: Slice, e: Ending, r: Reading, h: Host)
    requires SliceOk(s) && Truthful(s, r) && !e.held && !LosesWork(s, e, r) && s.reserved.None? && Flows(h)
    ensures Settle(s, e, r, h).batch == Selection(Settled(s, r), r)
  {
    hide LosesWork, SliceOk, Truthful, Purge, Advance, Selection;
    SettleExactly(s, e, r, h);
    SettledOk(s, r);
    DrainHandsOver(Settled(s, r), r, h);
  }

  /** A held Run frees every prompt, hands over nothing and keeps its resume slot. */
  lemma HeldExactly(s: Slice, e: Ending, r: Reading, h: Host)
    requires e.held
    ensures var held := Settle(s, e, r, h);
            && held.batch == [] && held.proved == {} && held.dropped == Dispatched(s) - r.proven
            && held.slice == Slice(Purge(s, r).pending, None, None, None, s.reserved, None, s.resumeHeldBack)
  {
    hide Keep;
  }

  // --------------------------------------------------------------------- Drains

  /** The resume slot is taken, its Hold is current and settled, and the isolated turn begins. */
  predicate ResumeStarts(s: Slice, h: Host) {
    && s.resuming.None? && s.reserved.Some? && !s.resumeHeldBack
    && h.holdCurrent && h.settled && h.resumptionBegins
  }

  /** A resume goes exactly when its turn can begin; it takes its slot when committed, and loses it otherwise. */
  lemma ResumeGoes(s: Slice, r: Reading, h: Host)
    requires s.resuming.Some? || (s.reserved.Some? && (s.resumeHeldBack || h.holdCurrent))
    ensures var (p, e) := (Purge(s, r), Advance(s, r, h));
            if !ResumeStarts(s, h) then e == Quiet(p)
            else
              var d := s.reserved.value;
              if h.resumptionCommits then e == Effect(p.(reserved := None, resuming := Some(d)), [d], {d.id}, {})
              else e == Effect(p.(reserved := None), [d], {}, {d.id})
  {
    hide Keep, Stays, Note;
  }

  /** Ordinary input can go: no resume is in the way and no preemption is unproven. */
  ghost predicate MayFlow(s: Slice, r: Reading, h: Host) {
    && s.resuming.None? && (s.reserved.Some? ==> !s.resumeHeldBack && !h.holdCurrent)
    && !h.blocksOrdinary && Purge(s, r).preempting.None?
  }

  /** What ordinary input is selected from: the queue, behind it a resume whose Hold ended. */
  function Line(s: Slice, r: Reading): Slice {
    var p := Purge(s, r);
    if p.reserved.Some? then Unreserved(p) else p
  }

  lemma LineIsPurged(s: Slice, r: Reading)
    requires SliceOk(s) && Truthful(s, r)
    requires s.reserved.Some? ==> s.reserved.value.id !in r.proven && s.reserved.value.id !in r.suppressed
    ensures Purge(Line(s, r), r) == Line(s, r)
  {
    hide Keep, SliceOk;
    PurgeAgain(s, r);
    var p := Purge(s, r);
    if p.reserved.Some? {
      PurgeFollows(s, r);
      FollowsOk(s, r, Quiet(p));
      UnreservedOk(p);
      UnreservedIsPurged(p, r);
    }
  }

  lemma UnreservedIsPurged(p: Slice, r: Reading)
    requires SliceOk(p) && p.reserved.Some? && Purge(p, r) == p
    requires p.reserved.value.id !in r.proven && p.reserved.value.id !in r.suppressed
    ensures Purge(Unreserved(p), r) == Unreserved(p)
  {
    hide Purge, Keep, Ordered, SliceOk;
    var d, u := p.reserved.value, Unreserved(p);
    PurgedStays(p, r);
    UnreservedOk(p);
    assert Ids(u.pending) == Ids(p.pending) + {d.id};
    PurgedStays(u, r);
  }

  /** At a boundary the whole Steer batch goes, or else the first Delivery that may go, alone. */
  ghost predicate GoesBySelection(s: Slice, r: Reading, h: Host, e: Effect) {
    if exists c :: JoinsSteer(s, r, c) then FreezesJoined(s, r, h, e)
    else if exists d :: IsEligible(s.pending, r, d) then
      exists d :: GoesFirst(s, r, d) && e == Effect(s.(deferred := Some(Batch([d], {}))), [d], {}, {})
    else e == Quiet(s)
  }

  lemma SelectsAtBoundary(s: Slice, r: Reading, h: Host)
    requires Purge(s, r) == s && Ordered(s.pending) && !h.blocksOrdinary && !h.waiting && h.boundary
    requires s.preempting.None? && s.deferred.None? && !HasUnprovenFrozenBatch(s)
    ensures GoesBySelection(s, r, h, AdvanceQueue(s, r, h))
  {
    hide Purge, Eligible, EligibleSteer, HasUnprovenFrozenBatch, Freeze, JoinsSteer, IsEligible, FreezesJoined,
         GoesFirst;
    var eligible := Eligible(s.pending, r);
    var steer := EligibleSteer(s, eligible);
    forall x
      ensures x in eligible <==> IsEligible(s.pending, r, x)
      ensures x in steer <==> JoinsSteer(s, r, x)
    {
      EligibleExactly(s.pending, r, x);
      JoinsExactly(s, r, x);
    }
    if steer != [] {
      assert JoinsSteer(s, r, steer[0]);
      FreezeJoins(s, steer, r, h);
    } else if eligible != [] {
      assert IsEligible(s.pending, r, eligible[0]);
      FirstGoes(s, r, eligible[0]);
    }
  }

  /**
   * Ordinary input goes exactly when no resume is in its way, input is not
   * blocked and no preemption is unproven, and either the recipient, waiting,
   * yields to a Delivery that preempts, or it is at a boundary with no Deferred
   * prompt and no frozen batch still owed.
   */
  lemma OrdinaryGoes(s: Slice, r: Reading, h: Host)
    requires s.resuming.None? && (s.reserved.Some? ==> !s.resumeHeldBack && !h.holdCurrent)
    requires SliceOk(s) && Truthful(s, r)
    requires s.reserved.Some? ==> s.reserved.value.id !in r.proven && s.reserved.value.id !in r.suppressed
    ensures var (e, line) := (Advance(s, r, h), Line(s, r));
            if h.blocksOrdinary || line.preempting.Some? then e == Quiet(line)
            else if h.waiting then
              var trigger := WaitTrigger(Eligible(line.pending, r));
              e == if trigger.Some? && h.waitYields then ReservePreemption(line, trigger.value, r) else Quiet(line)
            else if s.deferred.Some? || HasUnprovenFrozenBatch(line) || !h.boundary then e == Quiet(line)
            else GoesBySelection(line, r, h, e)
  {
    hide Purge, SliceOk, Truthful, Eligible, EligibleSteer, WaitTrigger, ReservePreemption, HasUnprovenFrozenBatch, Put,
         Freeze, GoesBySelection;
    PurgedSlots(s, r);
    var line := Line(s, r);
    LineIsPurged(s, r);
    LineInOrder(s, r);
    if !h.waiting && s.deferred.None? && line.preempting.None? && !HasUnprovenFrozenBatch(line) && h.boundary
       && !h.blocksOrdinary {
      SelectsAtBoundary(line, r, h);
    }
  }

  lemma LineInOrder(s: Slice, r: Reading)
    requires SliceOk(s) && Truthful(s, r)
    ensures Ordered(Line(s, r).pending)
  {
    hide Ordered, Purge, SliceOk;
    PurgeFollows(s, r);
    FollowsOk(s, r, Quiet(Purge(s, r)));
    assert Ordered(Purge(s, r).pending) by { OkInOrder(Purge(s, r)); }
    if s.reserved.Some? && Purge(s, r).reserved.Some? {
      UnreservedOk(Purge(s, r));
      OkInOrder(Unreserved(Purge(s, r)));
    }
  }

  lemma OkInOrder(s: Slice)
    requires SliceOk(s)
    ensures Ordered(s.pending)
  {
  }

  // ------------------------------------------------------------ Wait preemption

  lemma {:induction false} FirstIsFirst(ds: seq<Delivery>, p: Delivery -> bool) returns (k: nat)
    requires First(ds, p).Some?
    ensures k < |ds| && ds[k] == First(ds, p).value && forall i :: 0 <= i < k ==> !p(ds[i])
  {
    if p(ds[0]) {
      k := 0;
    } else {
      k := FirstIsFirst(ds[1..], p);
      k := k + 1;
      assert forall i :: 0 < i < k ==> ds[i] == ds[1..][i - 1];
    }
  }

  predicate MayPreempt(d: Delivery) {
    d.incomingRequest || d.preemptsWait
  }

  /**
   * `k` is where the trigger stands: no Steer Delivery that may preempt stands
   * before it, nor, unless it is Steer, any other that may.
   */
  ghost predicate IsTrigger(eligible: seq<Delivery>, k: int) {
    && 0 <= k < |eligible| && MayPreempt(eligible[k])
    && (forall i :: 0 <= i < |eligible| && MayPreempt(eligible[i]) && eligible[i].mode == Steer ==>
          eligible[k].mode == Steer && k <= i)
    && (eligible[k].mode != Steer ==> forall i :: 0 <= i < k ==> !MayPreempt(eligible[i]))
  }

  /** The first Steer Delivery that may preempts the Wait, even behind another; without one the first that may. */
  lemma TriggerExactly(eligible: seq<Delivery>)
    ensures match WaitTrigger(eligible)
            case None => forall d :: d in eligible ==> !MayPreempt(d)
            case Some(t) => exists k :: IsTrigger(eligible, k) && eligible[k] == t
  {
    var steer := (d: Delivery) => d.mode == Steer && Preempts(d);
    if First(eligible, steer).Some? {
      var k := FirstIsFirst(eligible, steer);
      assert IsTrigger(eligible, k);
    } else if First(eligible, Preempts).Some? {
      var k := FirstIsFirst(eligible, Preempts);
      assert forall i :: 0 <= i < |eligible| ==> eligible[i] in eligible && !steer(eligible[i]);
      assert IsTrigger(eligible, k);
    }
  }

  /** Who goes when `trigger` preempts: with a Steer trigger its batch without Answers, otherwise the trigger alone. */
  ghost predicate JoinsPreemption(s: Slice, trigger: Delivery, r: Reading, d: Delivery) {
    if trigger.mode == Steer then JoinsSteer(s, r, d) && !d.answer else d == trigger
  }

  /** The trigger may go, owns no reservation, nothing preempts already, and what goes holds preempting input. */
  ghost predicate Reserves(s: Slice, trigger: Delivery, r: Reading) {
    && IsEligible(s.pending, r, trigger) && !HasDispatchReservation(s, trigger.id) && s.preempting.None?
    && exists d :: JoinsPreemption(s, trigger, r, d) && MayPreempt(d)
  }

  /** A preemption hands over exactly those who join it, as one prompt, exactly when it may be reserved. */
  lemma PreemptionExactly(s: Slice, trigger: Delivery, r: Reading)
    requires Ordered(s.pending)
    ensures var e := ReservePreemption(s, trigger, r);
            if !Reserves(s, trigger, r) then e == Quiet(s)
            else
              && (forall d :: d in e.batch <==> JoinsPreemption(s, trigger, r, d))
              && e.batch != [] && Ordered(e.batch)
              && e == Effect(s.(preempting := Some(Batch(e.batch, {}))), e.batch, {}, {})
  {
    hide Eligible, EligibleSteer, IsEligible, JoinsSteer, HasDispatchReservation, Precedes;
    var batch := PreemptingBatch(s, trigger, r);
    EligibleExactly(s.pending, r, trigger);
    if IsEligible(s.pending, r, trigger) {
      EligibleIsQueued(s.pending, r, trigger);
    }
    BatchExactly(s, trigger, r);
    if Reserves(s, trigger, r) {
      var d :| JoinsPreemption(s, trigger, r, d) && MayPreempt(d);
      assert d in batch && Preempts(d);
    } else if First(batch, Preempts).Some? {
      assert JoinsPreemption(s, trigger, r, First(batch, Preempts).value);
    }
  }

  lemma EligibleIsQueued(pending: seq<Delivery>, r: Reading, d: Delivery)
    requires IsEligible(pending, r, d)
    ensures d in pending
  {
  }

  lemma BatchExactly(s: Slice, trigger: Delivery, r: Reading)
    requires Ordered(s.pending)
    ensures var batch := PreemptingBatch(s, trigger, r);
            Ordered(batch) && forall d :: d in batch <==> JoinsPreemption(s, trigger, r, d)
  {
    hide Eligible, EligibleSteer, JoinsSteer;
    var steer := EligibleSteer(s, Eligible(s.pending, r));
    EligibleOrdered(s.pending, r);
    SteerOrdered(s, Eligible(s.pending, r));
    KeepOrdered(steer, (d: Delivery) => !d.answer);
    forall d
      ensures d in steer <==> JoinsSteer(s, r, d)
    {
      JoinsExactly(s, r, d);
    }
  }

  // ------------------------------------------------------------------ Admission

  /** Every queued Message that counts against the capacity counts once. */
  lemma {:induction false} CountsOnce(ds: seq<Delivery>, r: Reading)
    requires Ordered(ds)
    ensures CountPending(ds, r) ==
              |set d | d in ds && !d.custom && !d.creation && d.id !in r.proven && d.id !in r.suppressed|
  {
    var p := (d: Delivery) => !d.custom && !d.creation && d.id !in r.proven && d.id !in r.suppressed;
    KeepOrdered(ds, p);
    OrderedSize(Keep(ds, p));
    assert (set d | d in Keep(ds, p)) ==
           (set d | d in ds && !d.custom && !d.creation && d.id !in r.proven && d.id !in r.suppressed);
  }

  lemma {:induction false} OrderedSize(ds: seq<Delivery>)
    requires Ordered(ds)
    ensures |set d | d in ds| == |ds|
  {
    if ds == [] {
      assert (set d | d in ds) == {};
    } else {
      var init, last := ds[..|ds| - 1], ds[|ds| - 1];
      assert ds == init + [last];
      OrderedSize(init);
      assert last !in init by {
        assert forall k :: 0 <= k < |init| ==> init[k] == ds[k] && Precedes(ds[k], ds[|ds| - 1]);
      }
      assert (set d | d in ds) == (set d | d in init) + {last};
    }
  }

  /**
   * A Message already scheduled is not queued again. A new one is refused when
   * the queue is full or its recipient cannot be booted, dropped when suppressed,
   * and otherwise joins the end of the queue, which is drained unless the boot is deferred.
   */
  lemma AdmitExactly(s: Slice, d: Delivery, capacity: nat, boot: Boot, r: Reading, h: Host)
    requires SliceOk(s) && forall x :: x in s.pending || x in Prompted(s) ==> x.serial < d.serial
    ensures var (e, admission) := Admit(s, d, capacity, boot, r, h);
            var queued := s.(pending := s.pending + [d]);
            var isFull := !d.custom && CountPending(s.pending, r) >= capacity;
            if HasScheduling(s, d.id) then admission == Pending && e == Advance(s, r, h)
            else
              && (admission == CapacityExhausted <==> isFull)
              && (admission == TargetUnavailable <==> !isFull && d.id !in r.suppressed && boot == Fails)
              && (admission != Pending || d.id in r.suppressed ==> e == Quiet(s))
              && (admission == Pending && d.id !in r.suppressed ==>
                   e == if boot == Boot.Deferred then Quiet(queued) else Advance(queued, r, h))
  {
    hide Advance, CountPending, SliceOk, Put;
    if !HasScheduling(s, d.id) {
      EnqueueOk(s, d);
    }
  }

  /** The resume slot is refused while it is in use, and then when the Hold is no longer current. */
  lemma AdmitResumeExactly(s: Slice, d: Delivery, heldBack: bool, r: Reading, h: Host)
    ensures var (e, admission) := AdmitResume(s, d, heldBack, r, h);
            var taken := s.(reserved := Some(d));
            && (admission == CapacityExhausted <==> s.reserved.Some? || s.resuming.Some?)
            && (admission == TargetUnavailable <==> s.reserved.None? && s.resuming.None? && !h.holdCurrent)
            && (admission != Pending ==> e == Quiet(s))
            && (admission == Pending ==>
                 if heldBack then e == Quiet(taken.(resumeHeldBack := true))
                 else if !ResumeStarts(taken, h) then e == Quiet(Purge(taken, r))
                 else
                   && e.batch == [d] && e.slice.reserved.None?
                   && (e.slice.resuming == Some(d) <==> h.resumptionCommits))
  {
    hide Advance, Purge;
    if s.reserved.None? && s.resuming.None? && h.holdCurrent {
      PurgeKeepsSlots(s.(reserved := Some(d)), r);
      ResumeGoes(s.(reserved := Some(d)), r, h);
    }
  }

  /** A held-back resume is let go by its own id alone. */
  lemma ReleaseResumeExactly(s: Slice, id: Id, r: Reading, h: Host)
    ensures ReleaseResume(s, id, r, h) ==
              if s.reserved.Some? && s.reserved.value.id == id then Advance(s.(resumeHeldBack := false), r, h)
              else Quiet(s)
  {
  }

  // ---------------------------------------- Frozen batches, parking and endings

  /** A frozen batch held back goes once, what is still owed of it, and only while it is the current one. */
  lemma FrozenGoes(s: Slice, batch: seq<Delivery>, r: Reading, h: Host)
    requires SliceOk(s) && Truthful(s, r)
    ensures var e := DispatchFrozen(s, batch, r, h);
            && (forall d :: d in e.batch <==>
                 !h.blocksOrdinary && s.frozen == Some(Frozen(batch, false)) && d in batch && Owes(s, r, d))
            && (e.batch != [] ==> e.slice == Purge(s, r).(frozen := Some(Frozen(batch, true))))
            && (e.batch == [] ==> e == Quiet(s) || e == Quiet(Purge(s, r)))
  {
    hide SliceOk, Truthful, Ordered;
    if s.frozen == Some(Frozen(batch, false)) {
      FrozenOwed(s, batch, r);
    }
  }

  lemma FrozenOwed(s: Slice, batch: seq<Delivery>, r: Reading)
    requires SliceOk(s) && s.frozen == Some(Frozen(batch, false))
    ensures forall d :: d in batch && d in Purge(s, r).pending <==> d in batch && Owes(s, r, d)
    ensures Purge(s, r).frozen.None? ==> forall d :: d in batch ==> d !in Purge(s, r).pending
  {
    hide Ordered, Keep;
    forall d | d in batch
      ensures d.id !in BatchIds(s.deferred) && d.id !in BatchIds(s.preempting) && d.id in FrozenIds(s)
    {
      assert d.id in FrozenIds(s);
    }
    assert forall d :: d in Purge(s, r).pending ==> d.id in Ids(Purge(s, r).pending);
  }

  /** Only the frozen batch is dropped; nothing leaves the queue. */
  lemma InterruptExactly(s: Slice)
    ensures Interrupt(s).slice == s.(frozen := None) && Interrupt(s).batch == []
    ensures Interrupt(s).dropped ==
              if s.frozen.Some? && s.frozen.value.dispatched then Ids(s.frozen.value.deliveries) else {}
  {
  }

  /** Exactly the named Deliveries leave the queue, but none that a reservation owns. */
  lemma AbandonExactly(s: Slice, lost: set<Id>)
    requires Ordered(s.pending)
    ensures var e := Abandon(s, lost);
            && e == Quiet(s.(pending := e.slice.pending)) && Ordered(e.slice.pending)
            && forall d :: d in e.slice.pending <==>
                 d in s.pending && (d.id in lost ==> HasDispatchReservation(s, d.id))
  {
    hide HasDispatchReservation;
    KeepOrdered(s.pending, (d: Delivery) => d.id !in lost || HasDispatchReservation(s, d.id));
  }

  /** Both prompts end; what is owed stays queued, and a frozen batch as long as some of it is. */
  function Parked(s: Slice, r: Reading): Slice {
    s.(pending := Owed(s, r), deferred := None, preempting := None, frozen := if OwedOf(s, r) then s.frozen else None)
  }

  predicate OwedOf(s: Slice, r: Reading) {
    s.frozen.Some? && Ids(s.frozen.value.deliveries) * Ids(Owed(s, r)) != {}
  }

  lemma ReleaseBoth(s: Slice)
    ensures Release(Release(s, true, false, false), false, true, false) == Release(s, true, true, false)
  {
    var p, q := (x: Delivery) => x.id !in BatchIds(s.deferred) && x.id !in BatchIds(None),
                (x: Delivery) => x.id !in BatchIds(None) && x.id !in BatchIds(s.preempting);
    KeepTwice(s.pending, p, q);
    KeepSame(s.pending, (d: Delivery) => p(d) && q(d), (x: Delivery) =>
        x.id !in BatchIds(s.deferred) && x.id !in BatchIds(s.preempting));
  }

  lemma ParkedSlots(s: Slice, r: Reading)
    requires BatchIds(s.deferred) <= r.proven && BatchIds(s.preempting) <= r.proven
    ensures Purge(Release(s, true, true, false), r) == Parked(s, r)
  {
    hide Keep;
    ReleasedQueue(s, r);
    var all, both := Release(s, true, true, true), Release(s, true, true, false);
    assert Purge(both, r).pending == Purge(all, r).pending by { SameStays(both, all, r); }
  }

  lemma SameStays(s: Slice, q: Slice, r: Reading)
    requires s.pending == q.pending && s.deferred == q.deferred && s.preempting == q.preempting
    ensures Purge(s, r).pending == Purge(q, r).pending
  {
    KeepSame(s.pending, d => Stays(s, r, d), d => Stays(q, r, d));
  }

  lemma DeferredReleased(s: Slice)
    ensures forall d :: d in Release(s, true, false, false).pending <==> d in s.pending && d.id !in BatchIds(s.deferred)
  {
  }

  /**
   * Parking: with a Deferred Delivery unproven nothing happens; with a
   * preempting one unproven only the Deferred prompt ends; otherwise both end
   * and all that is owed drains.
   */
  lemma ParkingExactly(s: Slice, r: Reading, h: Host)
    ensures var e := BeginParking(s, r, h);
            if IsBrokenPrompt(s.deferred, false, r) then e == Quiet(s)
            else if IsBrokenPrompt(s.preempting, false, r) then
              && e == Quiet(s.(deferred := None, pending := e.slice.pending))
              && forall d :: d in e.slice.pending <==> d in s.pending && d.id !in BatchIds(s.deferred)
            else e == Advance(Parked(s, r), r, h)
  {
    hide Advance, Purge, Parked, BatchIds, IsBrokenPrompt;
    DeferredReleased(s);
    PromptsProven(s.deferred, false, r);
    PromptsProven(s.preempting, false, r);
    if BatchIds(s.deferred) <= r.proven && BatchIds(s.preempting) <= r.proven {
      ReleaseBoth(s);
      ParkedSlots(s, r);
    }
  }

  /** Parking loses nothing that is owed. */
  lemma ParkingKeeps(s: Slice, r: Reading, h: Host, d: Delivery)
    requires SliceOk(s) && Truthful(s, r) && Owes(s, r, d)
    ensures Owes(BeginParking(s, r, h).slice, r, d)
  {
    hide SliceOk, Truthful, Advance, Purge, Keep, BatchIds;
    if BatchIds(s.deferred) <= r.proven {
      var q := Release(s, true, false, false);
      ReleaseOk(s, r, true, false, false);
      FollowsOk(s, r, Quiet(q));
      ReleaseKeeps(s, r, true, false, false, d);
      if BatchIds(q.preempting) <= r.proven {
        var p := Release(q, false, true, false);
        ReleaseOk(q, r, false, true, false);
        FollowsOk(q, r, Quiet(p));
        PurgeFollows(p, r);
        FollowsOk(p, r, Quiet(Purge(p, r)));
        ReleaseKeeps(q, r, false, true, false, d);
        PurgeKeeps(p, r, d);
        AdvanceKeeps(Purge(p, r), r, h, d);
      }
    }
  }

  // ------------------------------------------------------------------- In runs

  /**
   * At every point of a run, unless the Run is held, a settlement loses what is
   * owed exactly when something failed or stayed unproven.
   */
  lemma SettlementLosesIff(ws: seq<World>, acts: seq<Action>, i: nat, e: Ending, r: Reading, h: Host, d: Delivery)
    requires Run(ws, acts) && i < |ws| && Reads(ws[i], r) && Owes(ws[i].slice, r, d) && !e.held
    ensures Owes(Operate(ws[i], Settlement(e), r, h).slice, r, d) <==> !LosesWork(ws[i].slice, e, r)
  {
    hide Run, Sound, Reads, SliceOk, Truthful, LosesWork, Settle;
    RunSound(ws, acts, i);
    SoundReads(ws[i], r);
    SettleKeepsIff(ws[i].slice, e, r, h, d);
  }

  /**
   * At every point of a run, a settlement that loses nothing hands over, at a
   * boundary with nothing in its way, exactly those of all that is owed who
   * join the Steer batch, or with nobody to join it the first who may go.
   */
  lemma SettlementHandsOver(ws: seq<World>, acts: seq<Action>, i: nat, e: Ending, r: Reading, h: Host, d: Delivery)
    requires Run(ws, acts) && i < |ws| && Reads(ws[i], r) && !e.held && !LosesWork(ws[i].slice, e, r)
    requires ws[i].slice.reserved.None? && Flows(h)
    ensures var (q, w') := (Settled(ws[i].slice, r), Operate(ws[i], Settlement(e), r, h));
            && ws[i].handed <= w'.handed
            && (d in w'.handed[|ws[i].handed|..] <==>
                 if exists c :: JoinsSteer(q, r, c) then JoinsSteer(q, r, d) else GoesFirst(q, r, d))
  {
    hide Run, Sound, Reads, SliceOk, Truthful, LosesWork, Settle, Settled, Selection, JoinsSteer, GoesFirst, IdList;
    RunSound(ws, acts, i);
    SoundReads(ws[i], r);
    var w, q := ws[i], Settled(ws[i].slice, r);
    SettleHandsOver(w.slice, e, r, h);
    SettledOk(w.slice, r);
    OkInOrder(q);
    SelectionExactly(q, r, d);
    assert Operate(w, Settlement(e), r, h).handed[|w.handed|..] == Settle(w.slice, e, r, h).batch;
  }

  /** An Answer that joined would be proven to its requester while others of its Wait are missing. */
  ghost predicate NoSteerAnswer(b: Option<Batch>) {
    b.Some? ==> forall d :: d in b.value.deliveries && d.mode == Steer ==> !d.answer
  }

  lemma PurgeLeavesAnswers(s: Slice, r: Reading)
    requires NoSteerAnswer(s.preempting)
    ensures NoSteerAnswer(Purge(s, r).preempting)
  {
    hide Keep;
  }

  lemma FreezeLeavesAnswers(s: Slice, chosen: seq<Delivery>, r: Reading, h: Host)
    requires NoSteerAnswer(s.preempting)
    ensures NoSteerAnswer(Freeze(s, chosen, r, h).slice.preempting)
    ensures NoSteerAnswer(DispatchFrozen(s, chosen, r, h).slice.preempting)
  {
    hide Purge, Keep, Eligible, EligibleSteer;
    var steer := SteerBatchOf(s, chosen, r);
    PurgeLeavesAnswers(s, r);
    PurgeLeavesAnswers(s.(frozen := Some(Frozen(steer, false))), r);
  }

  lemma PreemptionTakesNoAnswer(s: Slice, trigger: Delivery, r: Reading)
    requires NoSteerAnswer(s.preempting)
    ensures NoSteerAnswer(ReservePreemption(s, trigger, r).slice.preempting)
  {
    hide Eligible, EligibleSteer;
    var steer := EligibleSteer(s, Eligible(s.pending, r));
    assert trigger.mode == Steer ==> forall d :: d in PreemptingBatch(s, trigger, r) ==> !d.answer;
  }

  lemma QueueTakesNoAnswer(s: Slice, r: Reading, h: Host)
    requires NoSteerAnswer(s.preempting)
    ensures NoSteerAnswer(AdvanceQueue(s, r, h).slice.preempting)
  {
    hide Eligible, EligibleSteer, Freeze, ReservePreemption, WaitTrigger, NoSteerAnswer;
    var eligible := Eligible(s.pending, r);
    FreezeLeavesAnswers(s, EligibleSteer(s, eligible), r, h);
    if WaitTrigger(eligible).Some? {
      PreemptionTakesNoAnswer(s, WaitTrigger(eligible).value, r);
    }
  }

  lemma DrainTakesNoAnswer(s: Slice, r: Reading, h: Host)
    requires NoSteerAnswer(s.preempting)
    ensures NoSteerAnswer(Advance(s, r, h).slice.preempting)
  {
    hide Purge, AdvanceQueue, NoSteerAnswer;
    var p := Purge(s, r);
    PurgeLeavesAnswers(s, r);
    QueueTakesNoAnswer(p, r, h);
    if p.reserved.Some? {
      QueueTakesNoAnswer(p.(reserved := None, pending := Put(p.pending, p.reserved.value)), r, h);
    }
  }

  lemma EndingTakesNoAnswer(s: Slice, op: Operation, r: Reading, h: Host)
    requires NoSteerAnswer(s.preempting) && (op.Settlement? || op.Parking?)
    ensures NoSteerAnswer(Perform(s, op, r, h).slice.preempting)
  {
    hide Purge, Advance, NoSteerAnswer, Keep, HasUnprovenFrozenBatch;
    PurgeLeavesAnswers(s, r);
    NothingToAnswer();
    if op.Settlement? {
      var q := Release(s, true, true, true);
      PurgeLeavesAnswers(q, r);
      DrainTakesNoAnswer(Purge(q, r), r, h);
    } else {
      var q := Release(Release(s, true, false, false), false, true, false);
      PurgeLeavesAnswers(q, r);
      DrainTakesNoAnswer(Purge(q, r), r, h);
    }
  }

  lemma NothingToAnswer()
    ensures NoSteerAnswer(None)
  {
  }

  lemma PerformTakesNoAnswer(s: Slice, op: Operation, r: Reading, h: Host)
    requires NoSteerAnswer(s.preempting)
    ensures NoSteerAnswer(Perform(s, op, r, h).slice.preempting)
  {
    hide Purge, Advance, Settle, BeginParking, NoSteerAnswer, DispatchFrozen, Freeze, Keep;
    NothingToAnswer();
    match op {
      case Admission(d, _, _) =>
        DrainTakesNoAnswer(s, r, h);
        DrainTakesNoAnswer(s.(pending := Put(s.pending, d)), r, h);
      case Resumption(d, _) => DrainTakesNoAnswer(s.(reserved := Some(d)), r, h);
      case ResumptionReleased(_) => DrainTakesNoAnswer(s.(resumeHeldBack := false), r, h);
      case Drain => DrainTakesNoAnswer(s, r, h);
      case SafeBoundary =>
        PurgeLeavesAnswers(s, r);
        FreezeLeavesAnswers(Purge(s, r), [], r, h);
      case FrozenReleased(batch) => FreezeLeavesAnswers(s, batch, r, h);
      case Settlement(_) => EndingTakesNoAnswer(s, op, r, h);
      case Parking => EndingTakesNoAnswer(s, op, r, h);
      case _ =>
    }
  }

  /** In every run, whatever it resumes: no batch that preempts a Wait holds a Steer Answer. */
  lemma {:induction false} AnswersStayWithTheirWait(ws: seq<World>, acts: seq<Action>, i: nat)
    requires OpenRun(ws, acts) && i < |ws|
    ensures NoSteerAnswer(ws[i].slice.preempting)
    decreases i
  {
    hide Enabled, Perform, NoSteerAnswer, IdList;
    if i == 0 {
      NothingToAnswer();
    } else {
      AnswersStayWithTheirWait(ws, acts, i - 1);
      assert OpenStep(ws[i - 1], acts[i - 1], ws[i - 1 + 1]);
      match acts[i - 1] {
        case Lane(op, r, h) => PerformTakesNoAnswer(ws[i - 1].slice, op, r, h);
        case _ =>
      }
    }
  }
}
