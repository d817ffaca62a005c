/**
 * Two conforming endpoints over FIFO links: what every interleaving of calls,
 * aborts, handlers, events and deliveries keeps.
 */
module ControlProtocol {
  import opened ControlEndpoint

  /** `out` is the link written by `here`, `inn` the one it reads. */
  datatype System = System(here: Endpoint, there: Endpoint, out: seq<Frame>, inn: seq<Frame>)

  /** What the two sides may send: `mine` from `here`, `yours` from `there`. */
  datatype Contract = Contract(mine: Direction, yours: Direction)

  datatype Action =
    | Call(name: Name, payload: Value)
    | CallRefused(name: Name)
    | RefusalSettles(id: nat)
    | Cancel(id: nat)
    | Emit(event: Name, payload: Value)
    | Finish(id: nat, handled: Handled)
    | Deliver(served: bool)

  function Flip(s: System): System {
    System(s.there, s.here, s.inn, s.out)
  }

  function FlipContract(k: Contract): Contract {
    Contract(k.yours, k.mine)
  }

  const INITIAL := System(FRESH_ENDPOINT, FRESH_ENDPOINT, [], [])

  predicate Enabled(k: Contract, s: System, a: Action) {
    match a
    case Call(name, payload) => k.mine.request(name, payload)
    case CallRefused(_) => true
    case RefusalSettles(id) => id in s.here.q.pending && id in s.here.q.unsent
    case Cancel(id) => id in s.here.q.pending
    case Emit(event, payload) => k.mine.event(event, payload)
    case Finish(_, _) => true
    case Deliver(served) => s.inn != [] && Receive(s.here, k.mine, k.yours, s.inn[0], served).Accepted?
  }

  /** One action of `here`. */
  function Act(k: Contract, s: System, a: Action): System
    requires Enabled(k, s, a)
  {
    var e := s.here;
    match a
    case Call(name, payload) =>
      s.(here := e.(q := Issue(e.q, name)), out := s.out + [RequestFrame(e.q.issued + 1, name, payload)])
    case CallRefused(name) => s.(here := e.(q := IssueUnsent(e.q, name)))
    case RefusalSettles(id) => s.(here := e.(q := SettleUnsent(e.q, id)))
    case Cancel(id) => s.(here := e.(q := Abort(e.q, id)), out := s.out + [CancelFrame(id)])
    case Emit(event, payload) =>
      s.(here := e.(sentEvents := e.sentEvents + 1), out := s.out + [EventFrame(e.sentEvents + 1, event, payload)])
    case Finish(id, handled) =>
      var (p, reply) := Complete(e.p, k.yours, id, handled);
      s.(here := e.(p := p), out := s.out + (if reply.Some? then [ResponseFrame(id, reply.value)] else []))
    case Deliver(served) =>
      var (e', replies) := Receive(e, k.mine, k.yours, s.inn[0], served).value;
      s.(here := e', out := s.out + replies, inn := s.inn[1..])
  }

  /** One action of either side. */
  ghost predicate Step(k: Contract, s: System, s': System) {
    || (exists a :: Enabled(k, s, a) && s' == Act(k, s, a))
    || (exists a :: Enabled(FlipContract(k), Flip(s), a) && s' == Flip(Act(FlipContract(k), Flip(s), a)))
  }

  // --------------------------------------------------- One direction's view

  predicate IsCall(f: Frame) {
    f.RequestFrame? || f.CancelFrame?
  }

  /** The frames of one kind on a link, in order. */
  function Calls(link: seq<Frame>): (r: seq<Frame>)
    ensures forall f :: f in r ==> IsCall(f)
  {
    if link == [] then [] else (if IsCall(link[0]) then [link[0]] else []) + Calls(link[1..])
  }

  function Replies(link: seq<Frame>): (r: seq<Frame>)
    ensures forall f :: f in r ==> f.ResponseFrame?
  {
    if link == [] then [] else (if link[0].ResponseFrame? then [link[0]] else []) + Replies(link[1..])
  }

  function Events(link: seq<Frame>): (r: seq<Frame>)
    ensures forall f :: f in r ==> f.EventFrame?
  {
    if link == [] then [] else (if link[0].EventFrame? then [link[0]] else []) + Events(link[1..])
  }

  lemma {:induction false} SnocCalls(link: seq<Frame>, f: Frame)
    ensures Calls(link + [f]) == Calls(link) + (if IsCall(f) then [f] else [])
  {
    if link == [] {
      assert link + [f] == [f];
    } else {
      assert (link + [f])[1..] == link[1..] + [f] && (link + [f])[0] == link[0];
      SnocCalls(link[1..], f);
    }
  }

  lemma {:induction false} SnocReplies(link: seq<Frame>, f: Frame)
    ensures Replies(link + [f]) == Replies(link) + (if f.ResponseFrame? then [f] else [])
  {
    if link == [] {
      assert link + [f] == [f];
    } else {
      assert (link + [f])[1..] == link[1..] + [f] && (link + [f])[0] == link[0];
      SnocReplies(link[1..], f);
    }
  }

  lemma {:induction false} SnocEvents(link: seq<Frame>, f: Frame)
    ensures Events(link + [f]) == Events(link) + (if f.EventFrame? then [f] else [])
  {
    if link == [] {
      assert link + [f] == [f];
    } else {
      assert (link + [f])[1..] == link[1..] + [f] && (link + [f])[0] == link[0];
      SnocEvents(link[1..], f);
    }
  }

  /** A frame written last is the last of its kind. */
  lemma Snoc(link: seq<Frame>, f: Frame)
    ensures Calls(link + [f]) == Calls(link) + (if IsCall(f) then [f] else [])
    ensures Replies(link + [f]) == Replies(link) + (if f.ResponseFrame? then [f] else [])
    ensures Events(link + [f]) == Events(link) + (if f.EventFrame? then [f] else [])
  {
    hide Calls, Replies, Events;
    SnocCalls(link, f);
    SnocReplies(link, f);
    SnocEvents(link, f);
  }

  // ------------------------------------------------------------- Invariant

  /** Request `id` was issued and its frame was put on the link. */
  predicate Sent(q: Requester, id: nat) {
    1 <= id <= q.issued && id !in q.unsent
  }

  ghost predicate RequesterOk(q: Requester) {
    && q.high <= q.issued
    && (forall id: nat :: id in q.pending || id in q.settled <==> 1 <= id <= q.issued)
    && (forall id :: id in q.pending ==> id !in q.settled)
    && (forall id :: id in q.unsent ==> 1 <= id <= q.issued)
    && (forall id: nat :: Sent(q, id) && id !in q.pending ==> id <= q.high)
  }

  /** Every request that arrived is being served, answered or withdrawn, and only those. */
  ghost predicate ResponderOk(q: Requester, p: Responder) {
    && p.high <= p.lastSeen <= q.issued
    && (forall id: nat :: Sent(q, id) && id <= p.lastSeen <==>
         id in p.incoming || id in p.answered || id in p.withdrawn)
    && (forall id :: id in p.incoming ==> id !in p.answered && id !in p.withdrawn)
    && (forall id :: id in p.answered ==> id !in p.withdrawn)
    && (forall id :: id in p.answered || id in p.withdrawn ==> id <= p.high)
    && (forall id :: id in p.withdrawn ==> id !in q.pending)
  }

  predicate IsRequest(f: Frame, id: nat) {
    f.RequestFrame? && f.id == id
  }

  ghost predicate InFlight(calls: seq<Frame>, id: nat) {
    exists i :: 0 <= i < |calls| && IsRequest(calls[i], id)
  }

  ghost predicate Answering(replies: seq<Frame>, id: nat, outcome: Outcome) {
    ResponseFrame(id, outcome) in replies
  }

  lemma InFlightSnoc(calls: seq<Frame>, f: Frame, id: nat)
    ensures InFlight(calls + [f], id) <==> InFlight(calls, id) || IsRequest(f, id)
  {
    var calls' := calls + [f];
    if InFlight(calls, id) {
      var i :| 0 <= i < |calls| && IsRequest(calls[i], id);
      assert calls'[i] == calls[i];
    }
    if IsRequest(f, id) {
      assert calls'[|calls|] == f;
    }
  }

  lemma InFlightTail(calls: seq<Frame>, id: nat)
    requires calls != []
    ensures InFlight(calls, id) <==> InFlight(calls[1..], id) || IsRequest(calls[0], id)
  {
    if InFlight(calls, id) {
      var i :| 0 <= i < |calls| && IsRequest(calls[i], id);
      assert i > 0 ==> calls[1..][i - 1] == calls[i];
    }
    if InFlight(calls[1..], id) {
      var i :| 0 <= i < |calls[1..]| && IsRequest(calls[1..][i], id);
      assert calls[i + 1] == calls[1..][i];
    }
  }

  /** Requests and Cancellations in flight. */
  ghost predicate CallsOk(q: Requester, p: Responder, calls: seq<Frame>, out: Direction) {
    && (forall i :: 0 <= i < |calls| && calls[i].RequestFrame? ==>
          Sent(q, calls[i].id) && p.lastSeen < calls[i].id && out.request(calls[i].name, calls[i].payload))
    && (forall i, j :: 0 <= i < j < |calls| && calls[i].RequestFrame? && calls[j].RequestFrame? ==>
         calls[i].id < calls[j].id)
    && (forall id: nat :: Sent(q, id) && p.lastSeen < id ==> InFlight(calls, id))
    && (forall i :: 0 <= i < |calls| && calls[i].CancelFrame? ==>
          calls[i].id in q.settled && q.settled[calls[i].id] == Aborted)
    && (forall i, j :: 0 <= i < j < |calls| && calls[i].CancelFrame? ==> !IsRequest(calls[j], calls[i].id))
  }

  /** Responses in flight: one for each answer that has not arrived. */
  ghost predicate RepliesOk(q: Requester, p: Responder, replies: seq<Frame>) {
    && (forall i :: 0 <= i < |replies| ==>
          replies[i].ResponseFrame? && replies[i].id in p.answered && p.answered[replies[i].id] == replies[i].outcome
            && replies[i].id !in q.delivered)
    && (forall i, j :: 0 <= i < j < |replies| ==> replies[i].id != replies[j].id)
    && (forall id {:trigger id in q.delivered} :: id in p.answered && id !in q.delivered ==>
         Answering(replies, id, p.answered[id]))
    && (forall id :: id in q.delivered ==> id in p.answered && id !in q.pending)
  }

  /** Requests from `q` to `p`, with `calls` towards `p` and `replies` back. */
  ghost predicate DirectionOk(q: Requester, p: Responder, calls: seq<Frame>, replies: seq<Frame>, out: Direction) {
    RequesterOk(q) && ResponderOk(q, p) && CallsOk(q, p, calls, out) && RepliesOk(q, p, replies)
  }

  /** Events in flight are valid and continue the expected numbering up to the last one sent. */
  ghost predicate EventsOk(sent: nat, expected: nat, events: seq<Frame>, out: Direction) {
    && expected + |events| == sent + 1
    && forall i :: 0 <= i < |events| ==>
         events[i].EventFrame? && events[i].sequence == expected + i && out.event(events[i].event, events[i].payload)
  }

  /** Both ends hold the method of a request as its caller named it, and a result answered passes its schema. */
  ghost predicate NamesOk(q: Requester, p: Responder, calls: seq<Frame>, out: Direction) {
    && (forall id: nat :: id in q.names <==> 1 <= id <= q.issued)
    && (forall id :: id in q.pending ==> id in q.names && q.names[id] == q.pending[id])
    && (forall f :: f in calls && f.RequestFrame? ==> f.id in q.names && f.name == q.names[f.id])
    && (forall id :: id in p.incoming ==> id in q.names && p.incoming[id] == q.names[id])
    && (forall id :: id in p.answered && p.answered[id].Ok? ==>
         id in q.names && out.response(q.names[id], p.answered[id].result))
  }

  /** A caller settles with what the responder answered, unless it aborted or its frame never left. */
  ghost predicate OutcomesOk(q: Requester, p: Responder) {
    forall id :: id in q.settled && q.settled[id] != Aborted ==>
        if id in q.unsent then q.settled[id] == Rejected("control_channel_frame_too_large")
        else id in p.answered && match p.answered[id]
             case Ok(result) => q.settled[id] == Resolved(result)
             case Failed(code) => q.settled[id] == Rejected(code)
  }

  ghost predicate HalfOk(k: Contract, s: System) {
    && OutcomesOk(s.here.q, s.there.p)
    && NamesOk(s.here.q, s.there.p, Calls(s.out), k.mine)
    && DirectionOk(s.here.q, s.there.p, Calls(s.out), Replies(s.inn), k.mine)
    && EventsOk(s.here.sentEvents, s.there.expectedEvent, Events(s.out), k.mine)
  }

  ghost predicate Inv(k: Contract, s: System) {
    HalfOk(k, s) && HalfOk(FlipContract(k), Flip(s))
  }

  // ------------------------------------------------------ Requester's steps

  lemma IssueKeeps(q: Requester, p: Responder, calls: seq<Frame>, replies: seq<Frame>, out: Direction, name: Name,
                   payload: Value)
    requires DirectionOk(q, p, calls, replies, out) && out.request(name, payload)
    ensures DirectionOk(Issue(q, name), p, calls + [RequestFrame(q.issued + 1, name, payload)], replies, out)
  {
    hide CallsOk, RequesterOk, ResponderOk, RepliesOk;
    IssueNumbers(q, p, replies, name);
    IssueCalls(q, p, calls, out, name, payload);
  }

  lemma IssueNumbers(q: Requester, p: Responder, replies: seq<Frame>, name: Name)
    requires RequesterOk(q) && ResponderOk(q, p) && RepliesOk(q, p, replies)
    ensures RequesterOk(Issue(q, name)) && ResponderOk(Issue(q, name), p) && RepliesOk(Issue(q, name), p, replies)
    ensures p.lastSeen <= q.issued
  {
    hide Answering;
    assert forall id: nat :: id <= q.issued ==> (Sent(Issue(q, name), id) <==> Sent(q, id));
  }

  lemma IssueRecords(q: Requester, p: Responder, calls: seq<Frame>, replies: seq<Frame>, out: Direction, name: Name,
                     payload: Value)
    requires DirectionOk(q, p, calls, replies, out) && OutcomesOk(q, p) && NamesOk(q, p, calls, out)
    ensures OutcomesOk(Issue(q, name), p)
    ensures NamesOk(Issue(q, name), p, calls + [RequestFrame(q.issued + 1, name, payload)], out)
  {
    hide InFlight, Answering, RepliesOk, ResponderOk;
  }

  lemma IssueCalls(q: Requester, p: Responder, calls: seq<Frame>, out: Direction, name: Name, payload: Value)
    requires RequesterOk(q) && CallsOk(q, p, calls, out) && p.lastSeen <= q.issued && out.request(name, payload)
    ensures CallsOk(Issue(q, name), p, calls + [RequestFrame(q.issued + 1, name, payload)], out)
  {
    hide InFlight;
    var f := RequestFrame(q.issued + 1, name, payload);
    assert forall id: nat :: id <= q.issued ==> (Sent(Issue(q, name), id) <==> Sent(q, id));
    forall id: nat | Sent(Issue(q, name), id) && p.lastSeen < id
      ensures InFlight(calls + [f], id)
    {
      InFlightSnoc(calls, f, id);
    }
  }

  lemma IssueUnsentKeeps(q: Requester, p: Responder, calls: seq<Frame>, replies: seq<Frame>, out: Direction, name: Name)
    requires DirectionOk(q, p, calls, replies, out)
    ensures DirectionOk(IssueUnsent(q, name), p, calls, replies, out)
  {
    hide InFlight;
    assert forall id: nat :: Sent(IssueUnsent(q, name), id) <==> Sent(q, id);
  }

  lemma IssueUnsentRecords(q: Requester, p: Responder, calls: seq<Frame>, replies: seq<Frame>, out: Direction,
                           name: Name)
    requires DirectionOk(q, p, calls, replies, out) && OutcomesOk(q, p) && NamesOk(q, p, calls, out)
    ensures OutcomesOk(IssueUnsent(q, name), p) && NamesOk(IssueUnsent(q, name), p, calls, out)
  {
  }

  lemma SettleUnsentKeeps(q: Requester, p: Responder, calls: seq<Frame>, replies: seq<Frame>, out: Direction, id: nat)
    requires DirectionOk(q, p, calls, replies, out) && id in q.pending && id in q.unsent
    ensures DirectionOk(SettleUnsent(q, id), p, calls, replies, out)
  {
    hide InFlight;
    assert forall x: nat :: Sent(SettleUnsent(q, id), x) <==> Sent(q, x);
  }

  lemma AbortKeeps(q: Requester, p: Responder, calls: seq<Frame>, replies: seq<Frame>, out: Direction, id: nat)
    requires DirectionOk(q, p, calls, replies, out) && id in q.pending
    ensures DirectionOk(Abort(q, id), p, calls + [CancelFrame(id)], replies, out)
  {
    hide InFlight, CallsOk;
    assert forall x: nat :: Sent(Abort(q, id), x) <==> Sent(q, x);
    AbortCalls(q, p, calls, out, id);
  }

  lemma AbortCalls(q: Requester, p: Responder, calls: seq<Frame>, out: Direction, id: nat)
    requires CallsOk(q, p, calls, out) && id in q.pending
    ensures CallsOk(Abort(q, id), p, calls + [CancelFrame(id)], out)
  {
    hide InFlight;
    var q' := Abort(q, id);
    assert forall x: nat :: Sent(q', x) <==> Sent(q, x);
    forall x: nat | Sent(q', x) && p.lastSeen < x
      ensures InFlight(calls + [CancelFrame(id)], x)
    {
      InFlightSnoc(calls, CancelFrame(id), x);
    }
  }

  lemma CallsStay(q: Requester, p: Responder, q': Requester, calls: seq<Frame>, out: Direction)
    requires CallsOk(q, p, calls, out) && forall id: nat :: Sent(q', id) <==> Sent(q, id)
    requires forall id :: id in q.settled ==> id in q'.settled && q'.settled[id] == q.settled[id]
    ensures CallsOk(q', p, calls, out)
  {
    hide InFlight;
  }

  lemma ResponseArrives(q: Requester, p: Responder, calls: seq<Frame>, replies: seq<Frame>, out: Direction)
    requires DirectionOk(q, p, calls, replies, out) && replies != []
    ensures var r := OnResponse(q, out, replies[0].id, replies[0].outcome);
            r.Accepted? && DirectionOk(r.value, p, calls, replies[1..], out)
  {
    hide InFlight, Answering, SettlementOf, CallsOk;
    var id := replies[0].id;
    assert Sent(q, id);
    var q' := OnResponse(q, out, id, replies[0].outcome).value;
    assert forall x: nat :: Sent(q', x) <==> Sent(q, x);
    CallsStay(q, p, q', calls, out);
    RepliesAdvance(q, p, q', replies);
  }

  /** The response settles its request as the responder answered: its result passes the caller's schema too. */
  lemma ResponseRecords(q: Requester, p: Responder, calls: seq<Frame>, replies: seq<Frame>, out: Direction)
    requires DirectionOk(q, p, calls, replies, out) && replies != []
    requires OutcomesOk(q, p) && NamesOk(q, p, calls, out)
    ensures var q' := OnResponse(q, out, replies[0].id, replies[0].outcome).value;
            OutcomesOk(q', p) && NamesOk(q', p, calls, out)
  {
    hide InFlight, Answering, DirectionOk;
    ReplyAnswers(q, p, calls, replies, out);
  }

  lemma ReplyAnswers(q: Requester, p: Responder, calls: seq<Frame>, replies: seq<Frame>, out: Direction)
    requires DirectionOk(q, p, calls, replies, out) && replies != []
    ensures replies[0].ResponseFrame? && replies[0].id !in q.unsent
    ensures replies[0].id in q.pending || replies[0].id <= q.high
    ensures replies[0].id in p.answered && p.answered[replies[0].id] == replies[0].outcome
  {
    hide CallsOk;
    assert Sent(q, replies[0].id);
  }

  lemma RepliesAdvance(q: Requester, p: Responder, q': Requester, replies: seq<Frame>)
    requires RepliesOk(q, p, replies) && replies != []
    requires q'.delivered == q.delivered + {replies[0].id} && q'.pending.Keys == q.pending.Keys - {replies[0].id}
    ensures RepliesOk(q', p, replies[1..])
  {
    var rest := replies[1..];
    forall x | x in p.answered && x !in q'.delivered
      ensures Answering(rest, x, p.answered[x])
    {
      assert Answering(replies, x, p.answered[x]);
      var i :| 0 <= i < |replies| && replies[i] == ResponseFrame(x, p.answered[x]);
      assert rest[i - 1] == replies[i];
    }
    assert forall i :: 0 <= i < |rest| ==> rest[i] == replies[i + 1] && replies[i + 1].id != replies[0].id;
  }

  // ------------------------------------------------------ Responder's steps

  lemma CompleteKeeps(q: Requester, p: Responder, calls: seq<Frame>, replies: seq<Frame>, out: Direction, id: nat,
                      handled: Handled)
    requires DirectionOk(q, p, calls, replies, out) && id in p.incoming
    ensures var (p', reply) := Complete(p, out, id, handled);
            DirectionOk(q, p', calls, replies + [ResponseFrame(id, reply.value)], out)
  {
    hide InFlight, ReplyOf;
    assert Sent(q, id);
    var (p', reply) := Complete(p, out, id, handled);
    AnswerKeeps(q, p, replies, id, reply.value, p');
  }

  /** A new answer adds exactly its own response to the link. */
  lemma AnswerKeeps(q: Requester, p: Responder, replies: seq<Frame>, id: nat, outcome: Outcome, p': Responder)
    requires RepliesOk(q, p, replies) && id !in p.answered && p'.answered == p.answered[id := outcome]
    ensures RepliesOk(q, p', replies + [ResponseFrame(id, outcome)])
  {
    var replies' := replies + [ResponseFrame(id, outcome)];
    forall x | x in p'.answered && x !in q.delivered
      ensures Answering(replies', x, p'.answered[x])
    {
      if x != id {
        assert Answering(replies, x, p.answered[x]);
      }
    }
  }

  lemma RequestArrives(q: Requester, p: Responder, calls: seq<Frame>, replies: seq<Frame>, out: Direction, served: bool)
    requires DirectionOk(q, p, calls, replies, out) && calls != [] && calls[0].RequestFrame?
    ensures var r := OnRequest(p, out, calls[0].id, calls[0].name, calls[0].payload, served);
            && r.Accepted? && r.value.1 == (if served then None else Some(Failed("handler_unavailable")))
            && DirectionOk(q, r.value.0, calls[1..], if served then replies
                 else replies + [ResponseFrame(calls[0].id, r.value.1.value)], out)
  {
    hide InFlight, Answering;
    var id := calls[0].id;
    assert Sent(q, id);
    var (p', reply) := OnRequest(p, out, id, calls[0].name, calls[0].payload, served).value;
    NothingSkipped(q, p, calls, out);
    CallsAdvance(q, p, p', calls, out);
    if !served {
      AnswerKeeps(q, p, replies, id, reply.value, p');
    }
    assert ResponderOk(q, p');
  }

  /** The first request in flight is the next one that was sent. */
  lemma NothingSkipped(q: Requester, p: Responder, calls: seq<Frame>, out: Direction)
    requires CallsOk(q, p, calls, out) && calls != [] && calls[0].RequestFrame?
    ensures forall x: nat :: Sent(q, x) && p.lastSeen < x ==> calls[0].id <= x
  {
    forall x: nat | Sent(q, x) && p.lastSeen < x
      ensures calls[0].id <= x
    {
      assert InFlight(calls, x);
      var i :| 0 <= i < |calls| && IsRequest(calls[i], x);
    }
  }

  lemma CallsAdvance(q: Requester, p: Responder, p': Responder, calls: seq<Frame>, out: Direction)
    requires CallsOk(q, p, calls, out) && calls != []
    requires p'.lastSeen == if calls[0].RequestFrame? then calls[0].id else p.lastSeen
    ensures CallsOk(q, p', calls[1..], out)
  {
    hide InFlight;
    assert calls[0].RequestFrame? ==> p.lastSeen < calls[0].id;
    forall x: nat | Sent(q, x) && p'.lastSeen < x
      ensures InFlight(calls[1..], x)
    {
      InFlightTail(calls, x);
    }
  }

  /** The request a Cancellation withdraws arrived before it, unless it was never sent. */
  lemma CancelledWasSeen(q: Requester, p: Responder, calls: seq<Frame>, out: Direction)
    requires RequesterOk(q) && CallsOk(q, p, calls, out) && ResponderOk(q, p) && calls != [] && calls[0].CancelFrame?
    requires calls[0].id !in q.unsent
    ensures calls[0].id in p.incoming || calls[0].id <= p.high
  {
    var id := calls[0].id;
    assert Sent(q, id);
    forall i | 0 <= i < |calls|
      ensures !IsRequest(calls[i], id)
    {
    }
    assert !InFlight(calls, id);
  }

  /**
   * A Cancellation closes the receiver exactly when its request was never sent
   * and nothing numbered as high has finished there.
   */
  lemma CancelArrives(q: Requester, p: Responder, calls: seq<Frame>, replies: seq<Frame>, out: Direction)
    requires DirectionOk(q, p, calls, replies, out) && calls != [] && calls[0].CancelFrame?
    ensures var r := OnCancel(p, calls[0].id);
            && (r.Closes? <==> calls[0].id in q.unsent && p.high < calls[0].id)
            && (r.Accepted? ==> DirectionOk(q, r.value, calls[1..], replies, out))
  {
    hide InFlight;
    var id := calls[0].id;
    if id !in q.unsent {
      CancelledWasSeen(q, p, calls, out);
    }
    assert id in p.incoming ==> Sent(q, id);
    var r := OnCancel(p, id);
    if r.Accepted? {
      CallsAdvance(q, p, r.value, calls, out);
    }
  }

  lemma EventArrives(sent: nat, expected: nat, events: seq<Frame>, out: Direction)
    requires EventsOk(sent, expected, events, out) && events != []
    ensures events[0].sequence == expected && out.event(events[0].event, events[0].payload)
    ensures EventsOk(sent, expected + 1, events[1..], out)
  {
  }

  // ------------------------------------------------------- Actions keep it

  lemma CallKeeps(k: Contract, s: System, a: Action)
    requires Inv(k, s) && Enabled(k, s, a) && a.Call?
    ensures Inv(k, Act(k, s, a))
  {
    hide DirectionOk, EventsOk;
    hide NamesOk, OutcomesOk;
    IssueKeeps(s.here.q, s.there.p, Calls(s.out), Replies(s.inn), k.mine, a.name, a.payload);
    IssueRecords(s.here.q, s.there.p, Calls(s.out), Replies(s.inn), k.mine, a.name, a.payload);
    Snoc(s.out, RequestFrame(s.here.q.issued + 1, a.name, a.payload));
    assert Replies(s.out) + [] == Replies(s.out) && Events(s.out) + [] == Events(s.out);
  }

  lemma RefusalKeeps(k: Contract, s: System, a: Action)
    requires Inv(k, s) && Enabled(k, s, a) && (a.CallRefused? || a.RefusalSettles?)
    ensures Inv(k, Act(k, s, a))
  {
    hide DirectionOk, EventsOk;
    if a.CallRefused? {
      IssueUnsentKeeps(s.here.q, s.there.p, Calls(s.out), Replies(s.inn), k.mine, a.name);
      IssueUnsentRecords(s.here.q, s.there.p, Calls(s.out), Replies(s.inn), k.mine, a.name);
    } else {
      SettleUnsentKeeps(s.here.q, s.there.p, Calls(s.out), Replies(s.inn), k.mine, a.id);
    }
  }

  lemma CancelKeeps(k: Contract, s: System, a: Action)
    requires Inv(k, s) && Enabled(k, s, a) && a.Cancel?
    ensures Inv(k, Act(k, s, a))
  {
    hide DirectionOk, EventsOk, Calls, Replies, Events;
    AbortKeeps(s.here.q, s.there.p, Calls(s.out), Replies(s.inn), k.mine, a.id);
    Snoc(s.out, CancelFrame(a.id));
    assert Replies(s.out) + [] == Replies(s.out) && Events(s.out) + [] == Events(s.out);
  }

  lemma EmitKeeps(k: Contract, s: System, a: Action)
    requires Inv(k, s) && Enabled(k, s, a) && a.Emit?
    ensures Inv(k, Act(k, s, a))
  {
    hide DirectionOk, NamesOk, OutcomesOk, Calls, Replies, Events;
    Snoc(s.out, EventFrame(s.here.sentEvents + 1, a.event, a.payload));
    assert Replies(s.out) + [] == Replies(s.out) && Calls(s.out) + [] == Calls(s.out);
  }

  lemma FinishKeeps(k: Contract, s: System, a: Action)
    requires Inv(k, s) && Enabled(k, s, a) && a.Finish?
    ensures Inv(k, Act(k, s, a))
  {
    hide DirectionOk, EventsOk, Calls, Replies, Events;
    if a.id in s.here.p.incoming {
      ServedIsUnanswered(s.there.q, s.here.p, Calls(s.inn), Replies(s.out), k.yours, a.id);
      CompleteKeeps(s.there.q, s.here.p, Calls(s.inn), Replies(s.out), k.yours, a.id, a.handled);
      Snoc(s.out, ResponseFrame(a.id, Complete(s.here.p, k.yours, a.id, a.handled).1.value));
      assert Calls(s.out) + [] == Calls(s.out) && Events(s.out) + [] == Events(s.out);
    } else {
      assert s.out + [] == s.out;
    }
  }

  lemma ServedIsUnanswered(q: Requester, p: Responder, calls: seq<Frame>, replies: seq<Frame>, out: Direction, id: nat)
    requires DirectionOk(q, p, calls, replies, out)
    ensures id in p.incoming ==> id !in p.answered
    ensures forall i :: 0 <= i < |calls| && calls[i].RequestFrame? ==> calls[i].id !in p.answered
  {
    assert forall i :: 0 <= i < |calls| && calls[i].RequestFrame? ==> Sent(q, calls[i].id);
  }

  // ---------------------------------------------------- Deliveries keep it

  lemma Rest(link: seq<Frame>)
    requires link != []
    ensures Calls(link) == if IsCall(link[0]) then [link[0]] + Calls(link[1..]) else Calls(link[1..])
    ensures Replies(link) == if link[0].ResponseFrame? then [link[0]] + Replies(link[1..]) else Replies(link[1..])
    ensures Events(link) == if link[0].EventFrame? then [link[0]] + Events(link[1..]) else Events(link[1..])
  {
    hide Calls, Replies, Events;
    RestCalls(link);
    RestReplies(link);
    RestEvents(link);
  }

  lemma RestCalls(link: seq<Frame>)
    requires link != []
    ensures Calls(link) == if IsCall(link[0]) then [link[0]] + Calls(link[1..]) else Calls(link[1..])
  {
    hide Replies, Events;
    assert [] + Calls(link[1..]) == Calls(link[1..]);
  }

  lemma RestReplies(link: seq<Frame>)
    requires link != []
    ensures Replies(link) == if link[0].ResponseFrame? then [link[0]] + Replies(link[1..]) else Replies(link[1..])
  {
    hide Calls, Events;
    assert [] + Replies(link[1..]) == Replies(link[1..]);
  }

  lemma RestEvents(link: seq<Frame>)
    requires link != []
    ensures Events(link) == if link[0].EventFrame? then [link[0]] + Events(link[1..]) else Events(link[1..])
  {
    hide Calls, Replies;
    assert [] + Events(link[1..]) == Events(link[1..]);
  }

  /** What the head of the link implies before it is delivered. */
  lemma HeadFacts(k: Contract, s: System)
    requires Inv(k, s) && s.inn != []
    ensures s.inn[0].RequestFrame? ==> s.inn[0].id !in s.here.p.answered
    ensures s.inn[0].ResponseFrame? ==>
              s.inn[0].id in s.there.p.answered && s.there.p.answered[s.inn[0].id] == s.inn[0].outcome
  {
    hide Calls, Replies, Events, EventsOk;
    Rest(s.inn);
    if s.inn[0].RequestFrame? {
      ServedIsUnanswered(s.there.q, s.here.p, Calls(s.inn), Replies(s.out), k.yours, s.inn[0].id);
      assert Calls(s.inn)[0] == s.inn[0];
    } else if s.inn[0].ResponseFrame? {
      assert Replies(s.inn)[0] == s.inn[0];
    }
  }

  lemma DeliverRequest(k: Contract, s: System, served: bool)
    requires Inv(k, s) && s.inn != [] && s.inn[0].RequestFrame?
    ensures Enabled(k, s, Deliver(served)) && Inv(k, Act(k, s, Deliver(served)))
  {
    hide DirectionOk, EventsOk, Calls, Replies, Events;
    HeadFacts(k, s);
    Rest(s.inn);
    var f := s.inn[0];
    assert ([s.inn[0]] + Calls(s.inn[1..]))[1..] == Calls(s.inn[1..]);
    RequestArrives(s.there.q, s.here.p, Calls(s.inn), Replies(s.out), k.yours, served);
    if served {
      assert s.out + [] == s.out;
    } else {
      var reply := OnRequest(s.here.p, k.yours, f.id, f.name, f.payload, served).value.1.value;
      Snoc(s.out, ResponseFrame(f.id, reply));
      assert Calls(s.out) + [] == Calls(s.out) && Events(s.out) + [] == Events(s.out);
    }
  }

  lemma DeliverCancel(k: Contract, s: System, served: bool)
    requires Inv(k, s) && s.inn != [] && s.inn[0].CancelFrame?
    ensures Enabled(k, s, Deliver(served)) <==> !(s.inn[0].id in s.there.q.unsent && s.here.p.high < s.inn[0].id)
    ensures Enabled(k, s, Deliver(served)) ==> Inv(k, Act(k, s, Deliver(served)))
  {
    hide DirectionOk, EventsOk, Calls, Replies, Events;
    Rest(s.inn);
    assert ([s.inn[0]] + Calls(s.inn[1..]))[1..] == Calls(s.inn[1..]);
    CancelArrives(s.there.q, s.here.p, Calls(s.inn), Replies(s.out), k.yours);
    assert s.out + [] == s.out;
  }

  lemma DeliverResponse(k: Contract, s: System, served: bool)
    requires Inv(k, s) && s.inn != [] && s.inn[0].ResponseFrame?
    ensures Enabled(k, s, Deliver(served)) && Inv(k, Act(k, s, Deliver(served)))
  {
    hide DirectionOk, EventsOk, Calls, Replies, Events;
    HeadFacts(k, s);
    Rest(s.inn);
    assert ([s.inn[0]] + Replies(s.inn[1..]))[1..] == Replies(s.inn[1..]);
    ResponseArrives(s.here.q, s.there.p, Calls(s.out), Replies(s.inn), k.mine);
    ResponseRecords(s.here.q, s.there.p, Calls(s.out), Replies(s.inn), k.mine);
    assert s.out + [] == s.out;
  }

  lemma DeliverEvent(k: Contract, s: System, served: bool)
    requires Inv(k, s) && s.inn != [] && s.inn[0].EventFrame?
    ensures Enabled(k, s, Deliver(served)) && Inv(k, Act(k, s, Deliver(served)))
  {
    hide DirectionOk, Calls, Replies, Events;
    Rest(s.inn);
    assert ([s.inn[0]] + Events(s.inn[1..]))[1..] == Events(s.inn[1..]);
    EventArrives(s.there.sentEvents, s.here.expectedEvent, Events(s.inn), k.yours);
    assert s.out + [] == s.out;
  }

  // ------------------------------------------------------------- All runs

  lemma ActKeeps(k: Contract, s: System, a: Action)
    requires Inv(k, s) && Enabled(k, s, a)
    ensures Inv(k, Act(k, s, a))
  {
    hide Inv;
    match a
    case Call(_, _) => CallKeeps(k, s, a);
    case CallRefused(_) => RefusalKeeps(k, s, a);
    case RefusalSettles(_) => RefusalKeeps(k, s, a);
    case Cancel(_) => CancelKeeps(k, s, a);
    case Emit(_, _) => EmitKeeps(k, s, a);
    case Finish(_, _) => FinishKeeps(k, s, a);
    case Deliver(served) =>
      match s.inn[0]
      case RequestFrame(_, _, _) => DeliverRequest(k, s, served);
      case ResponseFrame(_, _) => DeliverResponse(k, s, served);
      case CancelFrame(_) => DeliverCancel(k, s, served);
      case EventFrame(_, _, _) => DeliverEvent(k, s, served);
  }

  lemma FlipInv(k: Contract, s: System)
    ensures Inv(k, s) <==> Inv(FlipContract(k), Flip(s))
  {
    hide HalfOk;
  }

  lemma StepKeeps(k: Contract, s: System, s': System)
    requires Inv(k, s) && Step(k, s, s')
    ensures Inv(k, s')
  {
    hide Inv, Act, Enabled;
    if a :| Enabled(k, s, a) && s' == Act(k, s, a) {
      ActKeeps(k, s, a);
    } else {
      var a :| Enabled(FlipContract(k), Flip(s), a) && s' == Flip(Act(FlipContract(k), Flip(s), a));
      FlipInv(k, s);
      ActKeeps(FlipContract(k), Flip(s), a);
      FlipInv(FlipContract(k), Act(FlipContract(k), Flip(s), a));
    }
  }

  ghost predicate IsRun(k: Contract, run: seq<System>) {
    && run != [] && run[0] == INITIAL
    && forall i, j {:trigger run[i], run[j]} :: 0 <= i < j < |run| && j == i + 1 ==> Step(k, run[i], run[j])
  }

  lemma {:induction false} RunKeeps(k: Contract, run: seq<System>, n: nat)
    requires IsRun(k, run) && n < |run|
    ensures Inv(k, run[n])
    decreases n
  {
    if n > 0 {
      RunKeeps(k, run, n - 1);
      StepKeeps(k, run[n - 1], run[n]);
    } else {
      InitialInv(k);
    }
  }

  lemma InitialInv(k: Contract)
    ensures Inv(k, INITIAL)
  {
    hide HalfOk;
    InitialHalf(k);
    InitialHalf(FlipContract(k));
    assert Flip(INITIAL) == INITIAL;
  }

  lemma InitialDirection(k: Contract)
    ensures DirectionOk(FRESH_REQUESTER, FRESH_RESPONDER, [], [], k.mine)
  {
    hide InFlight, Answering;
    assert forall id: nat :: !Sent(FRESH_REQUESTER, id);
  }

  lemma InitialHalf(k: Contract)
    ensures HalfOk(k, INITIAL)
  {
    InitialDirection(k);
    hide DirectionOk;
  }

  // ------------------------------------------------------------ Main results

  /** The run as the other end sees it. */
  ghost function Mirror(run: seq<System>): seq<System> {
    seq(|run|, i requires 0 <= i < |run| => Flip(run[i]))
  }

  lemma MirrorIsRun(k: Contract, run: seq<System>)
    requires IsRun(k, run)
    ensures IsRun(FlipContract(k), Mirror(run))
  {
    hide Act, Enabled;
    var mirror := Mirror(run);
    assert FlipContract(FlipContract(k)) == k;
    forall i, j | 0 <= i < j < |mirror| && j == i + 1
      ensures Step(FlipContract(k), mirror[i], mirror[j])
    {
      var s, s' := run[i], run[j];
      assert Step(k, s, s');
      assert Flip(mirror[i]) == s && Flip(mirror[j]) == s';
      if a :| Enabled(k, s, a) && s' == Act(k, s, a) {
        assert Enabled(FlipContract(FlipContract(k)), Flip(mirror[i]), a);
      } else {
        var a :| Enabled(FlipContract(k), Flip(s), a) && s' == Flip(Act(FlipContract(k), Flip(s), a));
        assert mirror[j] == Act(FlipContract(k), mirror[i], a);
      }
    }
  }

  /** `here` is about to close its channel over the next frame. */
  predicate ClosesNext(k: Contract, s: System, served: bool) {
    s.inn != [] && Receive(s.here, k.mine, k.yours, s.inn[0], served).Closes?
  }

  /** A Cancellation of a request whose own frame never left, arriving before anything as late finished. */
  predicate StrayCancellation(s: System) {
    && s.inn != [] && s.inn[0].CancelFrame?
    && s.inn[0].id in s.there.q.unsent && s.here.p.high < s.inn[0].id
  }

  /** `here` closes exactly over a stray Cancellation, and then for that reason. */
  ghost predicate ClosesOnlyOverStray(k: Contract, s: System, served: bool) {
    && (ClosesNext(k, s, served) <==> StrayCancellation(s))
    && (ClosesNext(k, s, served) ==> Receive(s.here, k.mine, k.yours, s.inn[0], served) == Closes(UnknownCancellation))
  }

  /**
   * In every run neither endpoint closes over a frame of the other, with one
   * exact exception: an abort of a request that failed local admission, made
   * before its rejection reached the caller, and only while nothing numbered as
   * high has finished.
   */
  lemma ClosesOnlyOverStrayCancellation(k: Contract, run: seq<System>, n: nat, served: bool)
    requires IsRun(k, run) && n < |run|
    ensures ClosesOnlyOverStray(k, run[n], served)
    ensures ClosesOnlyOverStray(FlipContract(k), Flip(run[n]), served)
  {
    hide Inv, ClosesNext, StrayCancellation;
    RunKeeps(k, run, n);
    HeadDecides(k, run[n], served);
    FlipInv(k, run[n]);
    HeadDecides(FlipContract(k), Flip(run[n]), served);
  }

  lemma HeadDecides(k: Contract, s: System, served: bool)
    requires Inv(k, s)
    ensures ClosesOnlyOverStray(k, s, served)
  {
    hide Inv;
    if s.inn != [] {
      match s.inn[0]
      case RequestFrame(_, _, _) => DeliverRequest(k, s, served);
      case ResponseFrame(_, _) => DeliverResponse(k, s, served);
      case CancelFrame(_) => DeliverCancel(k, s, served);
      case EventFrame(_, _, _) => DeliverEvent(k, s, served);
    }
  }

  /** No caller aborted a request that was never sent. */
  ghost predicate Careful(e: Endpoint) {
    forall id :: id in e.q.unsent && id in e.q.settled ==> e.q.settled[id] != Aborted
  }

  /** While the callers of both ends are careful, nothing closes either channel. */
  lemma CarefulRunsNeverClose(k: Contract, run: seq<System>, n: nat, served: bool)
    requires IsRun(k, run) && n < |run|
    ensures Careful(run[n].there) ==> !ClosesNext(k, run[n], served)
    ensures Careful(run[n].here) ==> !ClosesNext(FlipContract(k), Flip(run[n]), served)
  {
    hide Inv, ClosesNext;
    ClosesOnlyOverStrayCancellation(k, run, n, served);
    RunKeeps(k, run, n);
    StrayWasAborted(k, run[n]);
    FlipInv(k, run[n]);
    StrayWasAborted(FlipContract(k), Flip(run[n]));
  }

  lemma StrayWasAborted(k: Contract, s: System)
    requires Inv(k, s)
    ensures StrayCancellation(s) ==> s.inn[0].id in s.there.q.settled && s.there.q.settled[s.inn[0].id] == Aborted
  {
    if StrayCancellation(s) {
      Rest(s.inn);
      assert Calls(s.inn)[0] == s.inn[0];
    }
  }

  /** The exception is real: refuse a call, abort it at once, deliver the Cancellation. */
  lemma StrayCancellationHappens(k: Contract, name: Name)
    ensures exists run :: IsRun(k, run) && ClosesNext(k, run[|run| - 1], true)
  {
    var k', s0 := FlipContract(k), Flip(INITIAL);
    var s1 := Act(k', s0, CallRefused(name));
    var s2 := Act(k', s1, Cancel(1));
    assert Enabled(k', s0, CallRefused(name)) && Enabled(k', s1, Cancel(1));
    var run := [INITIAL, Flip(s1), Flip(s2)];
    assert s0 == Flip(run[0]) && s1 == Flip(run[1]);
    assert Step(k, run[0], run[1]) && Step(k, run[1], run[2]);
    assert IsRun(k, run);
  }

  predicate Replied(replies: seq<Frame>, id: nat) {
    exists i :: 0 <= i < |replies| && replies[i].ResponseFrame? && replies[i].id == id
  }

  function One(b: bool): nat {
    if b then 1 else 0
  }

  /**
   * A pending request of `here` that was sent is one frame: on its way out, being served,
   * or answered and on its way back.
   */
  ghost predicate InOnePlace(s: System, id: nat) {
    id in s.here.q.pending && id !in s.here.q.unsent ==>
      && One(InFlight(s.out, id)) + One(id in s.there.p.incoming) + One(Replied(s.inn, id)) == 1
      && (forall i, j :: 0 <= i < j < |Calls(s.out)| ==>
           !(IsRequest(Calls(s.out)[i], id) && IsRequest(Calls(s.out)[j], id)))
      && (forall i, j :: 0 <= i < j < |Replies(s.inn)| && Replies(s.inn)[i].id == id ==> Replies(s.inn)[j].id != id)
  }

  /** Conservation, for the requests of both ends. */
  lemma PendingIsInOnePlace(k: Contract, run: seq<System>, n: nat, id: nat)
    requires IsRun(k, run) && n < |run|
    ensures InOnePlace(run[n], id) && InOnePlace(Flip(run[n]), id)
  {
    hide Inv, InOnePlace;
    RunKeeps(k, run, n);
    InvInOnePlace(k, run[n], id);
    FlipInv(k, run[n]);
    InvInOnePlace(FlipContract(k), Flip(run[n]), id);
  }

  lemma InvInOnePlace(k: Contract, s: System, id: nat)
    requires Inv(k, s)
    ensures InOnePlace(s, id)
  {
    if id in s.here.q.pending && id !in s.here.q.unsent {
      OnePlace(s.here.q, s.there.p, Calls(s.out), Replies(s.inn), k.mine, id);
      CallsHoldRequests(s.out, id);
      RepliesHoldResponses(s.inn, id);
    }
  }

  lemma OnePlace(q: Requester, p: Responder, calls: seq<Frame>, replies: seq<Frame>, out: Direction, id: nat)
    requires DirectionOk(q, p, calls, replies, out) && id in q.pending && id !in q.unsent
    ensures One(InFlight(calls, id)) + One(id in p.incoming) + One(Replied(replies, id)) == 1
  {
    assert Sent(q, id);
    if InFlight(calls, id) {
      var i :| 0 <= i < |calls| && IsRequest(calls[i], id);
      assert p.lastSeen < id;
    }
    if id in p.answered {
      assert Answering(replies, id, p.answered[id]);
      var i :| 0 <= i < |replies| && replies[i] == ResponseFrame(id, p.answered[id]);
      assert replies[i].id == id;
    }
  }

  lemma {:induction false} CallsHoldRequests(link: seq<Frame>, id: nat)
    ensures InFlight(link, id) <==> InFlight(Calls(link), id)
  {
    if link != [] {
      Rest(link);
      CallsHoldRequests(link[1..], id);
      InFlightTail(link, id);
      if IsCall(link[0]) {
        InFlightTail(Calls(link), id);
        assert Calls(link)[1..] == Calls(link[1..]);
      }
    }
  }

  lemma {:induction false} RepliesHoldResponses(link: seq<Frame>, id: nat)
    ensures Replied(link, id) <==> Replied(Replies(link), id)
  {
    if link != [] {
      Rest(link);
      RepliesHoldResponses(link[1..], id);
      RepliedTail(link, id);
      if link[0].ResponseFrame? {
        RepliedTail(Replies(link), id);
        assert Replies(link)[1..] == Replies(link[1..]);
      }
    }
  }

  lemma RepliedTail(link: seq<Frame>, id: nat)
    requires link != []
    ensures Replied(link, id) <==> Replied(link[1..], id) || (link[0].ResponseFrame? && link[0].id == id)
  {
    if Replied(link, id) {
      var i :| 0 <= i < |link| && link[i].ResponseFrame? && link[i].id == id;
      assert i > 0 ==> link[1..][i - 1] == link[i];
    }
    if Replied(link[1..], id) {
      var i :| 0 <= i < |link[1..]| && link[1..][i].ResponseFrame? && link[1..][i].id == id;
      assert link[i + 1] == link[1..][i];
    }
  }

  /**
   * With both links and all handlers drained, only requests that were never sent can
   * still be pending, at either end.
   */
  lemma DrainedMeansSettled(k: Contract, run: seq<System>, n: nat, id: nat)
    requires IsRun(k, run) && n < |run|
    requires run[n].out == [] && run[n].inn == [] && run[n].there.p.incoming == map[] && run[n].here.p.incoming == map[]
    ensures id in run[n].here.q.pending ==> id in run[n].here.q.unsent
    ensures id in run[n].there.q.pending ==> id in run[n].there.q.unsent
  {
    PendingIsInOnePlace(k, run, n, id);
  }

  /** `after` extends the settlements and answers of `before` without changing one. */
  ghost predicate Extends(before: Endpoint, after: Endpoint) {
    && (forall id :: id in before.q.settled ==> id in after.q.settled && after.q.settled[id] == before.q.settled[id])
    && (forall id :: id in before.p.answered ==>
         id in after.p.answered && after.p.answered[id] == before.p.answered[id])
  }

  /** What an action writes: at most one response, and only to a request without an answer. */
  ghost predicate AnswersOnce(s: System, s': System) {
    && s.out <= s'.out && |s'.out| <= |s.out| + 1
    && forall f :: f in s'.out[|s.out|..] && f.ResponseFrame? ==>
         f.id !in s.here.p.answered && f.id in s'.here.p.answered
  }

  /** An action reads at most the first frame of its link. */
  lemma ActReads(k: Contract, s: System, a: Action)
    requires Enabled(k, s, a)
    ensures Act(k, s, a).inn == s.inn || (s.inn != [] && Act(k, s, a).inn == s.inn[1..])
  {
    hide Receive, Complete;
  }

  /** Nothing settles twice and no request is answered twice. */
  lemma ActExtends(k: Contract, s: System, a: Action)
    requires Inv(k, s) && Enabled(k, s, a)
    ensures Act(k, s, a).there == s.there && Extends(s.here, Act(k, s, a).here) && AnswersOnce(s, Act(k, s, a))
  {
    hide Act, Enabled, Extends, AnswersOnce;
    SettledIsNotPending(k, s);
    if s.inn != [] {
      HeadFacts(k, s);
    }
    FreshEntries(k, s, a);
  }

  predicate NotYetRecorded(s: System) {
    && (forall id :: id in s.here.q.pending ==> id !in s.here.q.settled)
    && (forall id :: id in s.here.p.incoming ==> id !in s.here.p.answered)
    && (s.inn != [] && s.inn[0].RequestFrame? ==> s.inn[0].id !in s.here.p.answered)
  }

  lemma FreshEntries(k: Contract, s: System, a: Action)
    requires NotYetRecorded(s) && Enabled(k, s, a)
    ensures Act(k, s, a).there == s.there && Extends(s.here, Act(k, s, a).here) && AnswersOnce(s, Act(k, s, a))
  {
    var written := Act(k, s, a).out[|s.out|..];
    assert a.Call? || a.CallRefused? || a.RefusalSettles? || a.Cancel? || a.Emit? || a.Finish? || a.Deliver?;
    assert |written| == 0 || written == [written[0]];
  }

  lemma SettledIsNotPending(k: Contract, s: System)
    requires Inv(k, s)
    ensures forall id :: id in s.here.q.pending ==> id !in s.here.q.settled
    ensures forall id :: id in s.here.p.incoming ==> id !in s.here.p.answered
  {
  }

  lemma {:induction false} SettledOnce(k: Contract, run: seq<System>, m: nat, n: nat)
    requires IsRun(k, run) && m <= n < |run|
    ensures Extends(run[m].here, run[n].here) && Extends(run[m].there, run[n].there)
    decreases n - m
  {
    hide Inv, Step;
    if m < n {
      SettledOnce(k, run, m, n - 1);
      RunKeeps(k, run, n - 1);
      var s, s' := run[n - 1], run[n];
      assert Step(k, s, s');
      StepExtends(k, s, s');
    }
  }

  lemma StepExtends(k: Contract, s: System, s': System)
    requires Inv(k, s) && Step(k, s, s')
    ensures Extends(s.here, s'.here) && Extends(s.there, s'.there)
  {
    hide Inv, Act, Enabled, Extends;
    ExtendsSelf(s.here);
    ExtendsSelf(s.there);
    if a :| Enabled(k, s, a) && s' == Act(k, s, a) {
      ActExtends(k, s, a);
    } else {
      var a :| Enabled(FlipContract(k), Flip(s), a) && s' == Flip(Act(FlipContract(k), Flip(s), a));
      FlipInv(k, s);
      ActExtends(FlipContract(k), Flip(s), a);
    }
  }

  lemma ExtendsSelf(e: Endpoint)
    ensures Extends(e, e)
  {
  }

  // --------------------------------------------------- What a caller gets

  /** How a handler's end looks to the caller. */
  ghost predicate IsOutcomeOf(out: Direction, name: Name, handled: Handled, s: Settlement) {
    if handled.Returned? && out.response(name, handled.result) then s == Resolved(handled.result)
    else s == Rejected("request_failed")
  }

  lemma DeliverySettles(k: Contract, s: System, served: bool)
    requires Inv(k, s) && s.inn != [] && s.inn[0].ResponseFrame? && s.inn[0].id in s.here.q.pending
    ensures Enabled(k, s, Deliver(served))
    ensures var (id, q') := (s.inn[0].id, Act(k, s, Deliver(served)).here.q);
            && id in q'.settled && id in s.here.q.pending
            && match s.inn[0].outcome
               case Ok(v) => q'.settled[id] == Resolved(v) && k.mine.response(s.here.q.pending[id], v)
               case Failed(code) => q'.settled[id] == Rejected(code)
  {
    hide Inv, Calls, Replies, Events;
    DeliverResponse(k, s, served);
    PeerAnswersBySchema(k, s);
    ResponsesSettle(s.here, k.mine, k.yours, s.inn[0].id, s.inn[0].outcome, served);
  }

  lemma PeerAnswersBySchema(k: Contract, s: System)
    requires Inv(k, s) && s.inn != [] && s.inn[0].ResponseFrame? && s.inn[0].id in s.here.q.pending
    ensures s.inn[0].outcome.Ok? ==> k.mine.response(s.here.q.pending[s.inn[0].id], s.inn[0].outcome.result)
  {
    hide Calls, Replies, Events, DirectionOk;
    HeadFacts(k, s);
  }

  /**
   * Between conforming ends a response to a pending request always settles it
   * as it says, for good: a result resolves, and passes the schema of the
   * method that was called; an error rejects with its own code.
   */
  lemma ResponseDecides(k: Contract, run: seq<System>, m: nat, n: nat, served: bool)
    requires IsRun(k, run) && m < n < |run|
    requires run[m].inn != [] && run[m].inn[0].ResponseFrame? && run[m].inn[0].id in run[m].here.q.pending
    requires Enabled(k, run[m], Deliver(served)) && run[m + 1] == Act(k, run[m], Deliver(served))
    ensures var (id, q, q') := (run[m].inn[0].id, run[m].here.q, run[n].here.q);
            && id in q'.settled && id in q.pending
            && match run[m].inn[0].outcome
               case Ok(v) => q'.settled[id] == Resolved(v) && k.mine.response(q.pending[id], v)
               case Failed(code) => q'.settled[id] == Rejected(code)
  {
    hide Inv, Act, Enabled, Step;
    RunKeeps(k, run, m);
    DeliverySettles(k, run[m], served);
    SettledOnce(k, run, m + 1, n);
  }

  /** Only the caller's own abort settles a request as aborted. */
  lemma AbortedByCaller(k: Contract, s: System, a: Action, id: nat)
    requires Enabled(k, s, a) && id !in s.here.q.settled
    ensures var q' := Act(k, s, a).here.q; id in q'.settled && q'.settled[id] == Aborted <==> a == Cancel(id)
  {
    hide ReplyOf;
  }

  lemma FinishAnswers(k: Contract, s: System, id: nat, handled: Handled)
    requires Inv(k, s) && id in s.here.p.incoming
    ensures var p := Act(k, s, Finish(id, handled)).here.p;
            && id in p.answered && id !in s.there.q.unsent && id in s.there.q.names
            && s.here.p.incoming[id] == s.there.q.names[id]
            && p.answered[id] == ReplyOf(k.yours, s.here.p.incoming[id], handled)
  {
    hide Calls, Replies, Events, CallsOk, RepliesOk, ReplyOf;
    assert Sent(s.there.q, id);
  }

  lemma SettledAsAnswered(k: Contract, s: System, id: nat)
    requires Inv(k, s) && id in s.here.q.settled && s.here.q.settled[id] != Aborted && id !in s.here.q.unsent
    ensures id in s.there.p.answered && match s.there.p.answered[id]
            case Ok(result) => s.here.q.settled[id] == Resolved(result)
            case Failed(code) => s.here.q.settled[id] == Rejected(code)
  {
    hide DirectionOk, NamesOk, Calls, Replies, Events, EventsOk;
  }

  /** Which requests never left does not change once they are numbered. */
  lemma {:induction false} UnsentStays(k: Contract, run: seq<System>, m: nat, n: nat, id: nat)
    requires IsRun(k, run) && m <= n < |run| && id <= run[m].there.q.issued
    ensures id in run[n].there.q.unsent <==> id in run[m].there.q.unsent
    ensures run[m].there.q.issued <= run[n].there.q.issued
    decreases n - m
  {
    hide Inv, Step;
    if m < n {
      UnsentStays(k, run, m, n - 1, id);
      var s, s' := run[n - 1], run[n];
      assert Step(k, s, s');
      StepNumbers(k, s, s', id);
    }
  }

  lemma StepNumbers(k: Contract, s: System, s': System, id: nat)
    requires Step(k, s, s') && id <= s.there.q.issued
    ensures id in s'.there.q.unsent <==> id in s.there.q.unsent
    ensures s.there.q.issued <= s'.there.q.issued
  {
    hide SettlementOf, ReplyOf;
  }

  /**
   * In every run, a request whose handler ended at step `m` and whose caller
   * did not abort it settles, whenever it does, as that handler ended: the
   * caller resolves with exactly what the handler returned if that passes the
   * schema of the method the caller named, and is rejected otherwise.
   */
  lemma HandlerResultArrives(k: Contract, run: seq<System>, m: nat, n: nat, id: nat, handled: Handled)
    requires IsRun(k, run) && m < n < |run| && id in run[m].here.p.incoming
    requires run[m + 1] == Act(k, run[m], Finish(id, handled))
    requires id in run[n].there.q.settled && run[n].there.q.settled[id] != Aborted
    ensures id in run[m].there.q.names
    ensures IsOutcomeOf(k.yours, run[m].there.q.names[id], handled, run[n].there.q.settled[id])
  {
    hide Inv, Act, Step;
    RunKeeps(k, run, m);
    FinishAnswers(k, run[m], id, handled);
    SettledOnce(k, run, m + 1, n);
    NamedIsIssued(k, run[m], id);
    UnsentStays(k, run, m, n, id);
    RunKeeps(k, run, n);
    FlipInv(k, run[n]);
    SettledAsAnswered(FlipContract(k), Flip(run[n]), id);
  }

  lemma NamedIsIssued(k: Contract, s: System, id: nat)
    requires Inv(k, s) && id in s.there.q.names
    ensures id <= s.there.q.issued
  {
    hide DirectionOk, Calls, Replies, Events, EventsOk;
  }

  // -------------------------------------------------------- What a run writes

  /** What `here` wrote in one step; when the other end acts, its link only shrinks. */
  function NewFrames(s: System, s': System): seq<Frame> {
    if |s.out| < |s'.out| then s'.out[|s.out|..] else []
  }

  /** Every frame `here` wrote in the first `n` steps, in order. */
  ghost function Written(run: seq<System>, n: nat): seq<Frame>
    requires n < |run|
  {
    if n == 0 then [] else Written(run, n - 1) + NewFrames(run[n - 1], run[n])
  }

  ghost predicate NoAnswerTwice(frames: seq<Frame>) {
    forall i, j :: 0 <= i < j < |frames| && frames[i].ResponseFrame? && frames[j].ResponseFrame? ==>
        frames[i].id != frames[j].id
  }

  ghost predicate AllAnswered(frames: seq<Frame>, p: Responder) {
    forall f :: f in frames && f.ResponseFrame? ==> f.id in p.answered
  }

  /** A step writes at most one response, to a request without an answer, and forgets no answer. */
  ghost predicate AnswersNew(s: System, s': System) {
    && |NewFrames(s, s')| <= 1
    && (forall f :: f in NewFrames(s, s') && f.ResponseFrame? ==>
         f.id !in s.here.p.answered && f.id in s'.here.p.answered)
    && (forall id :: id in s.here.p.answered ==> id in s'.here.p.answered)
  }

  lemma StepAnswers(k: Contract, s: System, s': System)
    requires Inv(k, s) && Step(k, s, s')
    ensures AnswersNew(s, s')
  {
    hide Inv, Act, Enabled;
    if a :| Enabled(k, s, a) && s' == Act(k, s, a) {
      ActExtends(k, s, a);
    } else {
      var a :| Enabled(FlipContract(k), Flip(s), a) && s' == Flip(Act(FlipContract(k), Flip(s), a));
      FlipInv(k, s);
      ActExtends(FlipContract(k), Flip(s), a);
      ActReads(FlipContract(k), Flip(s), a);
    }
  }

  lemma OneMoreAnswer(frames: seq<Frame>, s: System, s': System)
    requires NoAnswerTwice(frames) && AllAnswered(frames, s.here.p) && AnswersNew(s, s')
    ensures NoAnswerTwice(frames + NewFrames(s, s')) && AllAnswered(frames + NewFrames(s, s'), s'.here.p)
  {
    hide NewFrames;
    var more := NewFrames(s, s');
    var all := frames + more;
    forall i, j | 0 <= i < j < |all| && all[i].ResponseFrame? && all[j].ResponseFrame?
      ensures all[i].id != all[j].id
    {
      assert i < |frames| && all[i] == frames[i] && all[i] in frames;
      assert j >= |frames| ==> all[j] == more[j - |frames|] && all[j] in more;
    }
  }

  lemma {:induction false} WrittenAnswers(k: Contract, run: seq<System>, n: nat)
    requires IsRun(k, run) && n < |run|
    ensures NoAnswerTwice(Written(run, n)) && AllAnswered(Written(run, n), run[n].here.p)
    decreases n
  {
    hide Inv, Step, NoAnswerTwice, AllAnswered, AnswersNew;
    if n == 0 {
      NothingWritten(run[0]);
    } else {
      WrittenAnswers(k, run, n - 1);
      RunKeeps(k, run, n - 1);
      assert Step(k, run[n - 1], run[n]);
      StepAnswers(k, run[n - 1], run[n]);
      OneMoreAnswer(Written(run, n - 1), run[n - 1], run[n]);
    }
  }

  lemma NothingWritten(s: System)
    ensures NoAnswerTwice([]) && AllAnswered([], s.here.p)
  {
  }

  /** In every run neither end writes two responses to one request. */
  lemma AnsweredOnce(k: Contract, run: seq<System>, n: nat)
    requires IsRun(k, run) && n < |run|
    ensures NoAnswerTwice(Written(run, n)) && NoAnswerTwice(Written(Mirror(run), n))
  {
    hide IsRun, NoAnswerTwice;
    WrittenAnswers(k, run, n);
    MirrorIsRun(k, run);
    WrittenAnswers(FlipContract(k), Mirror(run), n);
  }
}
