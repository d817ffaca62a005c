/**
 * Per Request, whether the requester gets the committed Answer by retrieval or
 * by direct Delivery (src/coordination/answer-arbitration.ts:56-119).
 */
module AnswerArbitration {
  type Id = string

  datatype Option<T> = None | Some(value: T)

  /**
   * One requester's facts: Answers admitted and canonical, Requests cancelled, Answers
   * proven here, direct Deliveries frozen or dispatched.
   */
  datatype Evidence = Evidence(admitted: map<Id, Id>, canonical: set<Id>, cancelled: set<Id>, delivered: set<Id>,
      inFlight: set<Id>)

  /** Only a `Retrieved` slot of a published result is itself a proof of Delivery. */
  datatype Slot = Retrieved(request: Id, answer: Id) | AlreadyDelivered(request: Id, answer: Id)

  datatype State = Unanswered | Indeterminate | Retrievable(slot: Slot) | Delivered(slot: Slot) | DirectDeliveryInFlight

  datatype Inspection = Inspected(states: seq<State>) | Cancelled

  datatype Reconfirmation = Unchanged | Replaced(slots: seq<Slot>) | Lost | Invalid

  function InspectOne(e: Evidence, r: Id): State {
    if r !in e.admitted then Unanswered
    else if r !in e.canonical then Indeterminate
    else if e.admitted[r] in e.delivered then Delivered(AlreadyDelivered(r, e.admitted[r]))
    else if e.admitted[r] in e.inFlight then DirectDeliveryInFlight
    else Retrievable(Retrieved(r, e.admitted[r]))
  }

  /** Inspecting a cancelled Request fails, whatever the others are. */
  function Inspect(e: Evidence, requests: seq<Id>): Inspection {
    if exists r :: r in requests && r in e.cancelled then Cancelled
    else Inspected(seq(|requests|, i requires 0 <= i < |requests| => InspectOne(e, requests[i])))
  }

  predicate HasSlot(s: State) {
    s.Retrievable? || s.Delivered?
  }

  /** The complete outstanding snapshot, or nothing while one Request is neither retrievable nor delivered. */
  function CompletedAggregate(e: Evidence, requests: seq<Id>): Option<seq<Slot>> {
    match Inspect(e, requests)
    case Cancelled => None
    case Inspected(states) =>
      if forall s :: s in states ==> HasSlot(s)
      then Some(seq(|states|, i requires 0 <= i < |states| && HasSlot(states[i]) => states[i].slot)) else None
  }

  function Requests(slots: seq<Slot>): seq<Id> {
    seq(|slots|, i requires 0 <= i < |slots| => slots[i].request)
  }

  /** The Request still has a slot, with the Answer prepared for it. */
  predicate Repeats(state: State, slot: Slot) {
    HasSlot(state) && state.slot.answer == slot.answer
  }

  function Reconfirm(e: Evidence, slots: seq<Slot>): Reconfirmation {
    match Inspect(e, Requests(slots))
    case Cancelled => Invalid
    case Inspected(states) =>
      if DirectDeliveryInFlight in states then Lost
      else if exists i :: 0 <= i < |slots| && !Repeats(states[i], slots[i]) then Invalid
      else
        var current := seq(|slots|, i requires 0 <= i < |slots| && HasSlot(states[i]) => states[i].slot);
        if current == slots then Unchanged else Replaced(current)
  }

  /** The Answers that a published result proves. */
  function ProvedBy(slots: seq<Slot>): set<Id> {
    set s | s in slots && s.Retrieved? :: s.answer
  }

  /** Same Requests and Answers, slot by slot; only who proves the Answer may differ. */
  ghost predicate SameAnswers(a: seq<Slot>, b: seq<Slot>) {
    |a| == |b| && forall i :: 0 <= i < |a| ==> a[i].request == b[i].request && a[i].answer == b[i].answer
  }

  /** Slots that name the canonical Answers of uncancelled Requests. */
  ghost predicate NamesCanonical(e: Evidence, slots: seq<Slot>) {
    forall s :: s in slots ==>
        s.request !in e.cancelled && s.request in e.canonical && s.request in e.admitted
          && e.admitted[s.request] == s.answer
  }

  /** A slot says `AlreadyDelivered` exactly when its Answer is proven; otherwise no direct Delivery is under way. */
  ghost predicate Truthful(e: Evidence, slots: seq<Slot>) {
    forall s :: s in slots ==>
        (s.AlreadyDelivered? <==> s.answer in e.delivered) && (s.Retrieved? ==> s.answer !in e.inFlight)
  }

  /** The Answer of `r` can be had now: it is canonical, and proven already or not on its way by direct Delivery. */
  ghost predicate IsObtainable(e: Evidence, r: Id) {
    && r in e.admitted && r in e.canonical
    && (e.admitted[r] in e.delivered || e.admitted[r] !in e.inFlight)
  }

  ghost predicate AllObtainable(e: Evidence, requests: seq<Id>) {
    forall r :: r in requests ==> r !in e.cancelled && IsObtainable(e, r)
  }

  /** `slots` give every Request its canonical Answer, in order, and say who proves it. */
  ghost predicate ListsAnswers(e: Evidence, requests: seq<Id>, slots: seq<Slot>) {
    Requests(slots) == requests && NamesCanonical(e, slots) && Truthful(e, slots)
  }

  /** There is one way to list the Answers. */
  lemma OneListing(e: Evidence, requests: seq<Id>, a: seq<Slot>, b: seq<Slot>)
    requires ListsAnswers(e, requests, a) && ListsAnswers(e, requests, b)
    ensures a == b
  {
    assert |a| == |Requests(a)| && |b| == |Requests(b)|;
    forall i | 0 <= i < |a|
      ensures a[i] == b[i]
    {
      assert Requests(a)[i] == a[i].request && Requests(b)[i] == b[i].request;
      assert a[i] in a && b[i] in b;
    }
  }

  lemma RequestsAt(slots: seq<Slot>, r: Id)
    ensures r in Requests(slots) <==> exists s :: s in slots && s.request == r
  {
    if s :| s in slots && s.request == r {
      var i :| 0 <= i < |slots| && slots[i] == s;
      assert Requests(slots)[i] == r;
    }
    if r in Requests(slots) {
      var i :| 0 <= i < |slots| && Requests(slots)[i] == r;
      assert slots[i] in slots;
    }
  }

  /** The aggregate is complete exactly when every Answer can be had; then it lists them all. */
  lemma AggregateIsComplete(e: Evidence, requests: seq<Id>)
    ensures CompletedAggregate(e, requests).Some? <==> AllObtainable(e, requests)
    ensures CompletedAggregate(e, requests).Some? ==>
              ListsAnswers(e, requests, CompletedAggregate(e, requests).value)
  {
    if CompletedAggregate(e, requests).Some? {
      var slots := CompletedAggregate(e, requests).value;
      forall i | 0 <= i < |requests|
        ensures requests[i] !in e.cancelled && IsObtainable(e, requests[i])
        ensures slots[i] == InspectOne(e, requests[i]).slot
      {
        assert Inspect(e, requests).states[i] in Inspect(e, requests).states;
      }
    }
    if AllObtainable(e, requests) {
      assert forall i :: 0 <= i < |requests| ==> requests[i] in requests && IsObtainable(e, requests[i]);
      assert Inspect(e, requests).Inspected?;
      assert forall s :: s in Inspect(e, requests).states ==> HasSlot(s);
    }
  }

  /** What became of a canonical Answer. */
  function StateNow(e: Evidence, s: Slot): State {
    if s.answer in e.delivered then Delivered(AlreadyDelivered(s.request, s.answer))
    else if s.answer in e.inFlight then DirectDeliveryInFlight
    else Retrievable(Retrieved(s.request, s.answer))
  }

  lemma InspectedNow(e: Evidence, slots: seq<Slot>)
    requires NamesCanonical(e, slots)
    ensures var i := Inspect(e, Requests(slots));
            i.Inspected? && |i.states| == |slots| && forall k :: 0 <= k < |slots| ==>
                i.states[k] == StateNow(e, slots[k])
  {
    forall r | r in Requests(slots)
      ensures r !in e.cancelled
    {
      RequestsAt(slots, r);
    }
    forall k | 0 <= k < |slots|
      ensures InspectOne(e, slots[k].request) == StateNow(e, slots[k])
    {
      assert slots[k] in slots;
    }
  }

  lemma LostMeans(e: Evidence, slots: seq<Slot>, states: seq<State>)
    requires |states| == |slots| && forall k :: 0 <= k < |slots| ==> states[k] == StateNow(e, slots[k])
    ensures DirectDeliveryInFlight in states <==>
              exists s :: s in slots && s.answer in e.inFlight && s.answer !in e.delivered
  {
    if s :| s in slots && s.answer in e.inFlight && s.answer !in e.delivered {
      var k :| 0 <= k < |slots| && slots[k] == s;
      assert states[k] in states;
    }
  }

  /**
   * Reconfirmation of slots prepared earlier: the outcome depends only on what
   * became of their Answers, and a replacement keeps every Request and Answer
   * in place and tells the truth.
   */
  lemma ReconfirmDecides(e: Evidence, slots: seq<Slot>)
    requires NamesCanonical(e, slots)
    ensures Reconfirm(e, slots) != Invalid
    ensures Reconfirm(e, slots).Lost? <==> exists s :: s in slots && s.answer in e.inFlight && s.answer !in e.delivered
    ensures Reconfirm(e, slots).Unchanged? <==> Truthful(e, slots)
    ensures Reconfirm(e, slots).Replaced? ==>
              var current := Reconfirm(e, slots).slots;
              SameAnswers(current, slots) && Truthful(e, current) && NamesCanonical(e, current)
  {
    hide Inspect, InspectOne;
    InspectedNow(e, slots);
    var states := Inspect(e, Requests(slots)).states;
    LostMeans(e, slots, states);
    forall k | 0 <= k < |slots|
      ensures slots[k] in slots && states[k] in states
    {
    }
  }
}
