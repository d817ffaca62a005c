/**
 * One recipient's slice of the delivery scheduler as values: its queue, its
 * reservations and the selection rules
 * (src/coordination/message-delivery-scheduler.ts:596-617, 1200-1284).
 * The source keys every map by recipient; no operation touches two recipients.
 */
module DeliveryQueue {
  type Id = string

  datatype Option<T> = None | Some(value: T)

  datatype Mode = Steer | Deferred | Background

  /** `serial` tells scheduling objects with equal contents apart; it grows with each object made. */
  datatype Delivery = Delivery(
    id: Id, serial: nat, mode: Mode, incomingRequest: bool, creation: bool,
    preemptsWait: bool, answer: bool, custom: bool, withdraws: Option<Id>)

  /** Deliveries handed over as one native prompt; `committed` are those already known proven. */
  datatype Batch = Batch(deliveries: seq<Delivery>, committed: set<Id>)

  datatype Frozen = Frozen(deliveries: seq<Delivery>, dispatched: bool)

  datatype Slice = Slice(
    pending: seq<Delivery>,
    deferred: Option<Batch>, preempting: Option<Batch>, frozen: Option<Frozen>,
    reserved: Option<Delivery>, resuming: Option<Delivery>, resumeHeldBack: bool)

  const IDLE := Slice([], None, None, None, None, None, false)

  /** What the Deliveries answer about themselves while one lane operation runs. */
  datatype Reading = Reading(proven: set<Id>, suppressed: set<Id>, unready: set<Id>, blocked: set<Id>)

  // ------------------------------------------------------------ Ids and order

  function Ids(ds: seq<Delivery>): set<Id> {
    set d | d in ds :: d.id
  }

  predicate IsDeferredRequest(d: Delivery) {
    d.incomingRequest && d.mode == Deferred
  }

  predicate IsBackground(d: Delivery) {
    d.mode == Background
  }

  /** May `a` stand before `b` in the queue? */
  predicate Precedes(a: Delivery, b: Delivery) {
    && a.id != b.id
    && (IsDeferredRequest(a) && IsDeferredRequest(b) ==> a.serial < b.serial)
    && (IsBackground(a) && IsBackground(b) ==> a.serial < b.serial)
  }

  predicate Ordered(ds: seq<Delivery>) {
    forall i, j {:trigger ds[i], ds[j]} :: 0 <= i < j < |ds| ==> Precedes(ds[i], ds[j])
  }

  function Keep(ds: seq<Delivery>, p: Delivery -> bool): (r: seq<Delivery>)
    ensures forall d :: d in r <==> d in ds && p(d)
  {
    if ds == [] then []
    else
      var rest := Keep(ds[1..], p);
      assert forall d :: d in ds <==> d == ds[0] || d in ds[1..];
      if p(ds[0]) then [ds[0]] + rest else rest
  }

  function First(ds: seq<Delivery>, p: Delivery -> bool): (r: Option<Delivery>)
    ensures r.Some? ==> r.value in ds && p(r.value)
    ensures r.None? ==> forall d :: d in ds ==> !p(d)
  {
    if ds == [] then None else if p(ds[0]) then Some(ds[0]) else First(ds[1..], p)
  }

  lemma {:induction false} KeepOrdered(ds: seq<Delivery>, p: Delivery -> bool)
    requires Ordered(ds)
    ensures Ordered(Keep(ds, p))
  {
    if ds != [] {
      var rest := Keep(ds[1..], p);
      KeepOrdered(ds[1..], p);
      forall d | d in rest
        ensures Precedes(ds[0], d)
      {
        var k :| 0 <= k < |ds[1..]| && ds[1..][k] == d;
        assert ds[k + 1] == d;
      }
    }
  }

  lemma {:induction false} KeepSame(ds: seq<Delivery>, p: Delivery -> bool, q: Delivery -> bool)
    requires forall d :: d in ds ==> p(d) == q(d)
    ensures Keep(ds, p) == Keep(ds, q)
  {
    if ds != [] {
      KeepSame(ds[1..], p, q);
    }
  }

  lemma {:induction false} KeepTwice(ds: seq<Delivery>, p: Delivery -> bool, q: Delivery -> bool)
    ensures Keep(Keep(ds, p), q) == Keep(ds, (d: Delivery) => p(d) && q(d))
  {
    if ds != [] {
      KeepTwice(ds[1..], p, q);
      var rest := Keep(ds[1..], p);
      if p(ds[0]) {
        assert ([ds[0]] + rest)[1..] == rest;
      }
    }
  }

  lemma {:induction false} FirstPrecedes(ds: seq<Delivery>, p: Delivery -> bool, d: Delivery)
    requires Ordered(ds) && d in ds && p(d)
    ensures First(ds, p).Some?
    ensures d == First(ds, p).value || Precedes(First(ds, p).value, d)
  {
    var k :| 0 <= k < |ds| && ds[k] == d;
    if p(ds[0]) {
      assert k == 0 || Precedes(ds[0], ds[k]);
    } else {
      assert ds[1..][k - 1] == d;
      FirstPrecedes(ds[1..], p, d);
    }
  }

  lemma AppendOrdered(ds: seq<Delivery>, d: Delivery)
    requires Ordered(ds) && forall x :: x in ds ==> Precedes(x, d)
    ensures Ordered(ds + [d])
  {
  }

  /** `Map.set`: an id already queued keeps its place. */
  function Put(ds: seq<Delivery>, d: Delivery): (r: seq<Delivery>)
    ensures d.id !in Ids(ds) ==> r == ds + [d]
    ensures d in r
  {
    if ds == [] then [d]
    else if ds[0].id == d.id then [d] + ds[1..]
    else
      assert ds == [ds[0]] + ds[1..];
      [ds[0]] + Put(ds[1..], d)
  }

  // ------------------------------------------------------------- Reservations

  function BatchIds(b: Option<Batch>): set<Id> {
    if b.Some? then Ids(b.value.deliveries) else {}
  }

  function FrozenIds(s: Slice): set<Id> {
    if s.frozen.Some? then Ids(s.frozen.value.deliveries) else {}
  }

  function SlotId(d: Option<Delivery>): set<Id> {
    if d.Some? then {d.value.id} else {}
  }

  predicate HasDispatchReservation(s: Slice, id: Id) {
    id in BatchIds(s.deferred) || id in BatchIds(s.preempting) || id in FrozenIds(s) || id in SlotId(s.resuming)
  }

  predicate HasScheduling(s: Slice, id: Id) {
    id in SlotId(s.reserved) || id in Ids(s.pending) || HasDispatchReservation(s, id)
  }

  /** Handed to the Runtime and still reserved: a frozen batch counts once dispatched. */
  function Dispatched(s: Slice): set<Id> {
    BatchIds(s.deferred) + BatchIds(s.preempting) + SlotId(s.resuming)
    + (if s.frozen.Some? && s.frozen.value.dispatched then FrozenIds(s) else {})
  }

  predicate HasUnprovenFrozenBatch(s: Slice) {
    FrozenIds(s) * Ids(s.pending) != {}
  }

  // ------------------------------------------------- Removing proven Deliveries

  predicate Stays(s: Slice, r: Reading, d: Delivery) {
    d.id !in r.proven && (d.id in BatchIds(s.deferred) || d.id in BatchIds(s.preempting) || d.id !in r.suppressed)
  }

  function Note(b: Option<Batch>, proven: set<Id>): Option<Batch> {
    if b.Some? then Some(b.value.(committed := b.value.committed + proven * Ids(b.value.deliveries))) else None
  }

  /** Drops what is proven or suppressed; suppression cannot recall a prompt already handed over. */
  function Purge(s: Slice, r: Reading): Slice {
    var gone := Ids(s.pending) * r.proven;
    var queue := Keep(s.pending, d => Stays(s, r, d));
    var deferred, preempting := Note(s.deferred, gone), Note(s.preempting, gone);
    s.(pending := queue, deferred := deferred,
       preempting :=
         if preempting.Some? && BatchIds(preempting) <= preempting.value.committed then None else preempting,
       frozen := if FrozenIds(s) * Ids(queue) == {} then None else s.frozen)
  }

  // -------------------------------------------------------------- Eligibility

  predicate MayGo(front: Option<Delivery>, r: Reading, d: Delivery) {
    (!d.incomingRequest || d.mode == Steer || front == Some(d)) && d.id !in r.blocked
  }

  function Eligible(pending: seq<Delivery>, r: Reading): (e: seq<Delivery>)
    ensures forall d :: d in e ==> d in pending && d.id !in r.blocked
  {
    if exists d :: d in pending && d.id in r.unready then []
    else
      var foreground := Keep(pending, d => !IsBackground(d));
      var front := First(foreground, IsDeferredRequest);
      var eligible := Keep(foreground, d => MayGo(front, r, d));
      if eligible != [] then eligible
      else
        var background := First(pending, IsBackground);
        if background.Some? && background.value.id !in r.blocked then [background.value] else []
  }

  function WithdrawnBy(ds: seq<Delivery>): set<Id> {
    set d | d in ds && d.withdraws.Some? :: d.withdraws.value
  }

  function EligibleSteer(s: Slice, eligible: seq<Delivery>): (r: seq<Delivery>)
    ensures forall d :: d in r ==> d in eligible && d.mode == Steer && !d.custom && !HasDispatchReservation(s, d.id)
    ensures forall c, d :: c in r && d in r ==> c.withdraws != Some(d.id)
  {
    var steer := Keep(eligible, (d: Delivery) => d.mode == Steer && !d.custom && !HasDispatchReservation(s, d.id));
    var withdrawn := WithdrawnBy(steer);
    Keep(steer, (d: Delivery) => d.id !in withdrawn)
  }

  lemma EligibleOrdered(pending: seq<Delivery>, r: Reading)
    requires Ordered(pending)
    ensures Ordered(Eligible(pending, r))
  {
    KeepOrdered(pending, d => !IsBackground(d));
    var foreground := Keep(pending, d => !IsBackground(d));
    KeepOrdered(foreground, d => MayGo(First(foreground, IsDeferredRequest), r, d));
  }

  lemma SteerOrdered(s: Slice, eligible: seq<Delivery>)
    requires Ordered(eligible)
    ensures Ordered(EligibleSteer(s, eligible))
  {
    var p := (d: Delivery) => d.mode == Steer && !d.custom && !HasDispatchReservation(s, d.id);
    KeepOrdered(eligible, p);
    var steer := Keep(eligible, p);
    KeepOrdered(steer, (d: Delivery) => d.id !in WithdrawnBy(steer));
  }

  /** Only the oldest queued Deferred Request is eligible, and only the oldest Background item, alone. */
  lemma EligibleIsOldest(pending: seq<Delivery>, r: Reading, d: Delivery, x: Delivery)
    requires Ordered(pending) && d in Eligible(pending, r) && x in pending && x != d
    ensures IsDeferredRequest(d) && IsDeferredRequest(x) ==> d.serial < x.serial
    ensures IsBackground(d) && IsBackground(x) ==> d.serial < x.serial
    ensures IsBackground(d) ==> Eligible(pending, r) == [d]
  {
    var foreground := Keep(pending, d => !IsBackground(d));
    KeepOrdered(pending, d => !IsBackground(d));
    if IsDeferredRequest(d) && IsDeferredRequest(x) {
      FirstPrecedes(foreground, IsDeferredRequest, x);
    }
    if IsBackground(d) && IsBackground(x) {
      FirstPrecedes(pending, IsBackground, x);
    }
  }
}
