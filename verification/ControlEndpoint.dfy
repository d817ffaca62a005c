/**
 * One end of the Control channel as values: what each local call and each
 * received frame does (src/control/agent-control-channel.ts:263-338, 408-522).
 */
module ControlEndpoint {
  type Name = string
  type Value = string

  datatype Outcome = Ok(result: Value) | Failed(code: string)

  /** How a request handler ended. */
  datatype Handled = Returned(result: Value) | Threw

  /** Canonical Request ids are numbered from 1 by their sender; `id` is that number. */
  datatype Frame =
    | RequestFrame(id: nat, name: Name, payload: Value)
    | ResponseFrame(id: nat, outcome: Outcome)
    | CancelFrame(id: nat)
    | EventFrame(sequence: nat, event: Name, payload: Value)

  /** The declared methods and events of one direction. */
  datatype Direction = Direction(request: (Name, Value) -> bool, response: (Name, Value) -> bool,
      event: (Name, Value) -> bool)

  datatype Settlement = Resolved(result: Value) | Rejected(code: string) | Aborted

  /** Protocol violations that close a channel. */
  datatype Violation = DuplicateRequest | InvalidRequest | UnknownResponse | UnknownCancellation | EventSequence
      | InvalidEvent

  datatype Result<T> = Accepted(value: T) | Closes(violation: Violation)
  datatype Option<T> = None | Some(value: T)

  /**
   * The requesting half. `issued`, `pending` and `high` are the source's fields
   * (`high` is the high-water mark of `#outboundTerminal`); the rest is history:
   * the method of every request, how requests settled, whose frame never left,
   * and which responses arrived.
   */
  datatype Requester = Requester(
    issued: nat, pending: map<nat, Name>, high: nat,
    names: map<nat, Name>, settled: map<nat, Settlement>, unsent: set<nat>, delivered: set<nat>)

  /**
   * The responding half. `incoming` and `high` (of `#incomingTerminal`) are the
   * source's fields, where the source's handler closure remembers the method of
   * an incoming request; the rest is history: the last request that arrived, the
   * responses sent and the requests withdrawn by a Cancellation.
   */
  datatype Responder = Responder(
    incoming: map<nat, Name>, high: nat,
    lastSeen: nat, answered: map<nat, Outcome>, withdrawn: set<nat>)

  function Max(a: nat, b: nat): nat {
    if a < b then b else a
  }

  // ------------------------------------------------------------ Requesting

  function Issue(q: Requester, name: Name): Requester {
    q.(issued := q.issued + 1, pending := q.pending[q.issued + 1 := name], names := q.names[q.issued + 1 := name])
  }

  /** As `Issue`, but the frame fails local admission and never leaves. */
  function IssueUnsent(q: Requester, name: Name): Requester {
    Issue(q, name).(unsent := q.unsent + {q.issued + 1})
  }

  /** The rejection of an unsent request reaches its caller. */
  function SettleUnsent(q: Requester, id: nat): Requester
    requires id in q.pending
  {
    q.(pending := q.pending - {id}, settled := q.settled[id := Rejected("control_channel_frame_too_large")])
  }

  /** The caller aborts; a Cancellation frame is sent. */
  function Abort(q: Requester, id: nat): Requester
    requires id in q.pending
  {
    q.(pending := q.pending - {id}, high := Max(q.high, id), settled := q.settled[id := Aborted])
  }

  function SettlementOf(out: Direction, name: Name, outcome: Outcome): Settlement {
    match outcome
    case Failed(code) => Rejected(code)
    case Ok(result) =>
        if out.response(name, result) then Resolved(result) else Rejected("control_channel_invalid_response")
  }

  function OnResponse(q: Requester, out: Direction, id: nat, outcome: Outcome): Result<Requester> {
    if id !in q.pending then
      if id <= q.high then Accepted(q.(delivered := q.delivered + {id})) else Closes(UnknownResponse)
    else
      Accepted(q.(pending := q.pending - {id}, high := Max(q.high, id), delivered := q.delivered + {id},
      settled := q.settled[id := SettlementOf(out, q.pending[id], outcome)]))
  }

  // ------------------------------------------------------------ Responding

  /** `served` says whether a handler for the method is registered; without one the reply is immediate. */
  function OnRequest(p: Responder, inb: Direction, id: nat, name: Name, payload: Value, served: bool)
    : Result<(Responder, Option<Outcome>)> {
    if id in p.incoming || id <= p.high then Closes(DuplicateRequest)
    else if !inb.request(name, payload) then Closes(InvalidRequest)
    else if !served then
      var reply := Failed("handler_unavailable");
      Accepted((p.(high := Max(p.high, id), lastSeen := id, answered := p.answered[id := reply]), Some(reply)))
    else
      Accepted((p.(incoming := p.incoming[id := name], lastSeen := id), None))
  }

  /** A result that fails its schema is no better than none. */
  function ReplyOf(inb: Direction, name: Name, handled: Handled): Outcome {
    match handled
    case Threw => Failed("request_failed")
    case Returned(result) => if inb.response(name, result) then Ok(result) else Failed("request_failed")
  }

  /** A handler finishes; its reply is dropped when the request was withdrawn meanwhile. */
  function Complete(p: Responder, inb: Direction, id: nat, handled: Handled): (Responder, Option<Outcome>) {
    if id !in p.incoming then (p, None)
    else
      var reply := ReplyOf(inb, p.incoming[id], handled);
      (p.(incoming := p.incoming - {id}, high := Max(p.high, id), answered := p.answered[id := reply]), Some(reply))
  }

  function OnCancel(p: Responder, id: nat): Result<Responder> {
    if id in p.incoming then
      Accepted(p.(incoming := p.incoming - {id}, high := Max(p.high, id), withdrawn := p.withdrawn + {id}))
    else if id <= p.high then Accepted(p)
    else Closes(UnknownCancellation)
  }

  // -------------------------------------------------------------- Endpoint

  datatype Endpoint = Endpoint(q: Requester, p: Responder, sentEvents: nat, expectedEvent: nat)

  const FRESH_REQUESTER := Requester(0, map[], 0, map[], map[], {}, {})
  const FRESH_RESPONDER := Responder(map[], 0, 0, map[], {})
  const FRESH_ENDPOINT := Endpoint(FRESH_REQUESTER, FRESH_RESPONDER, 0, 1)

  /** One received frame: the next state and the frames written in reply. */
  function Receive(e: Endpoint, out: Direction, inb: Direction, f: Frame, served: bool)
    : Result<(Endpoint, seq<Frame>)> {
    match f
    case RequestFrame(id, name, payload) =>
      (match OnRequest(e.p, inb, id, name, payload, served)
       case Closes(v) => Closes(v)
       case Accepted((p, reply)) =>
         Accepted((e.(p := p), if reply.Some? then [ResponseFrame(id, reply.value)] else [])))
    case ResponseFrame(id, outcome) =>
      (match OnResponse(e.q, out, id, outcome)
       case Closes(v) => Closes(v)
       case Accepted(q) => Accepted((e.(q := q), [])))
    case CancelFrame(id) =>
      (match OnCancel(e.p, id)
       case Closes(v) => Closes(v)
       case Accepted(p) => Accepted((e.(p := p), [])))
    case EventFrame(sequence, event, payload) =>
      if sequence != e.expectedEvent then Closes(EventSequence)
      else if !inb.event(event, payload) then Closes(InvalidEvent)
      else Accepted((e.(expectedEvent := e.expectedEvent + 1), []))
  }

  // ---------------------------------------- What the replies of a peer mean

  /** A caller resolves exactly with a result that passes the schema of its method. */
  ghost predicate IsSettledBy(out: Direction, name: Name, outcome: Outcome, s: Settlement) {
    match outcome
    case Failed(code) => s == Rejected(code)
    case Ok(result) =>
      && (s == Resolved(result) <==> out.response(name, result))
      && (s == Rejected("control_channel_invalid_response") <==> !out.response(name, result))
  }

  /**
   * Whatever the peer sends: a response to a pending request settles that
   * request alone, by its schema, and a response to any other settles nothing.
   */
  lemma ResponsesSettle(e: Endpoint, out: Direction, inb: Direction, id: nat, outcome: Outcome, served: bool)
    ensures var r := Receive(e, out, inb, ResponseFrame(id, outcome), served);
            if id in e.q.pending then
              && r.Accepted? && r.value.1 == [] && r.value.0.q.pending == e.q.pending - {id}
              && id in r.value.0.q.settled && IsSettledBy(out, e.q.pending[id], outcome, r.value.0.q.settled[id])
              && r.value.0.q.settled - {id} == e.q.settled - {id}
            else
              r.Accepted? ==> r.value.0.q.settled == e.q.settled && r.value.0.q.pending == e.q.pending
  {
    var r := Receive(e, out, inb, ResponseFrame(id, outcome), served);
    if id in e.q.pending {
      assert r.value.0.q.settled.Keys == e.q.settled.Keys + {id};
    }
  }

  /** `v` is what the frame breaks, in the order in which a frame is examined. */
  ghost predicate Breaks(e: Endpoint, inb: Direction, f: Frame, v: Violation) {
    match v
    case DuplicateRequest => f.RequestFrame? && (f.id in e.p.incoming || f.id <= e.p.high)
    case InvalidRequest =>
      f.RequestFrame? && f.id !in e.p.incoming && e.p.high < f.id && !inb.request(f.name, f.payload)
    case UnknownResponse => f.ResponseFrame? && f.id !in e.q.pending && e.q.high < f.id
    case UnknownCancellation => f.CancelFrame? && f.id !in e.p.incoming && e.p.high < f.id
    case EventSequence => f.EventFrame? && f.sequence != e.expectedEvent
    case InvalidEvent => f.EventFrame? && f.sequence == e.expectedEvent && !inb.event(f.event, f.payload)
  }

  /** Whatever the peer sends: a frame closes the channel with a violation exactly when it breaks that rule. */
  lemma ClosesExactly(e: Endpoint, out: Direction, inb: Direction, f: Frame, served: bool)
    ensures forall v :: Receive(e, out, inb, f, served) == Closes(v) <==> Breaks(e, inb, f, v)
  {
    hide SettlementOf;
  }
}
