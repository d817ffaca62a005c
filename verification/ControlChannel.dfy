/**
 * The channel object: mutable fields updated call by call and frame by frame,
 * each method proved to be the endpoint function that the protocol results are
 * about (src/control/agent-control-channel.ts:170-193, 263-338, 408-522, 593-611).
 */
module ControlChannel {
  import opened ControlEndpoint
  import T = TerminalIds

  /**
   * The endpoint's plain high-water marks decide what the source's sets of
   * finished ids decide, and finishing an id moves them alike.
   */
  lemma TerminalIdsDecide(outbound: T.TerminalRequestIds, incoming: T.TerminalRequestIds, e: Endpoint, out: Direction,
                          inb: Direction, id: nat, outcome: Outcome, name: Name, payload: Value, served: bool)
    requires outbound.canonicalHighWater == e.q.high && incoming.canonicalHighWater == e.p.high
    requires 0 < id <= T.MAXIMUM_SAFE_INTEGER
    ensures OnResponse(e.q, out, id, outcome) == Closes(UnknownResponse) <==>
            id !in e.q.pending && !outbound.Has(outbound.canonicalPrefix + T.Decimal(id))
    ensures OnRequest(e.p, inb, id, name, payload, served) == Closes(DuplicateRequest) <==>
            id in e.p.incoming || incoming.Has(incoming.canonicalPrefix + T.Decimal(id))
    ensures OnCancel(e.p, id) == Closes(UnknownCancellation) <==>
            id !in e.p.incoming && !incoming.Has(incoming.canonicalPrefix + T.Decimal(id))
    ensures T.CanonicalSequence(incoming.canonicalPrefix, incoming.canonicalPrefix + T.Decimal(id)) == T.Some(id)
    ensures id in e.p.incoming ==> OnCancel(e.p, id).value.high == T.Max(incoming.canonicalHighWater, id)
    ensures id in e.q.pending ==> Abort(e.q, id).high == T.Max(outbound.canonicalHighWater, id)
  {
    hide T.Decimal, T.CanonicalSequence;
    outbound.OwnIds(id);
    incoming.OwnIds(id);
  }

  class FramedAgentControlChannel {
    const outbound: Direction
    const inbound: Direction
    /** Request handlers, by method name; installed before the first frame arrives. */
    const serveMap: set<Name>
    var pending: map<nat, Name>
    var outboundHighWater: nat
    /** Requests being served, with the method that each handler's closure remembers. */
    var incoming: map<nat, Name>
    var incomingHighWater: nat
    var nextRequestSequence: nat
    var nextEventSequence: nat
    var expectedEventSequence: nat
    var closed: bool
    /** Frames handed to the writer lane, in order. */
    var written: seq<Frame>

    ghost var names: map<nat, Name>
    ghost var settled: map<nat, Settlement>
    ghost var unsent: set<nat>
    ghost var delivered: set<nat>
    ghost var lastSeen: nat
    ghost var answered: map<nat, Outcome>
    ghost var withdrawn: set<nat>

    ghost function View(): Endpoint
      reads this
    {
      Endpoint(
        Requester(nextRequestSequence, pending, outboundHighWater, names, settled, unsent, delivered),
        Responder(incoming, incomingHighWater, lastSeen, answered, withdrawn),
        nextEventSequence, expectedEventSequence)
    }

    constructor (outbound: Direction, inbound: Direction, serveMap: set<Name>)
      ensures View() == FRESH_ENDPOINT && written == [] && !closed
      ensures this.outbound == outbound && this.inbound == inbound && this.serveMap == serveMap
    {
      this.outbound, this.inbound, this.serveMap := outbound, inbound, serveMap;
      pending, outboundHighWater, incoming, incomingHighWater := map[], 0, map[], 0;
      nextRequestSequence, nextEventSequence, expectedEventSequence, closed, written := 0, 0, 1, false, [];
      names, settled, unsent, delivered, lastSeen, answered, withdrawn := map[], map[], {}, {}, 0, map[], {};
    }

    /** `admits` says whether the frame passes local admission; `ok` whether the call was made at all. */
    method Request(name: Name, payload: Value, admits: bool) returns (ok: bool)
      modifies this
      ensures ok <==> !old(closed) && outbound.request(name, payload)
      ensures closed == old(closed)
      ensures !ok ==> View() == old(View()) && written == old(written)
      ensures ok && admits ==> View() == old(View()).(q := Issue(old(View()).q, name))
                               && written == old(written) + [RequestFrame(old(nextRequestSequence) + 1, name, payload)]
      ensures ok && !admits ==> View() == old(View()).(q := IssueUnsent(old(View()).q, name)) && written == old(written)
    {
      if closed || !outbound.request(name, payload) {
        return false;
      }
      nextRequestSequence := nextRequestSequence + 1;
      pending := pending[nextRequestSequence := name];
      names := names[nextRequestSequence := name];
      if admits {
        written := written + [RequestFrame(nextRequestSequence, name, payload)];
      } else {
        unsent := unsent + {nextRequestSequence};
      }
      return true;
    }

    /** The rejection of a frame that failed local admission reaches its caller. */
    method OnSendRejected(id: nat)
      modifies this
      ensures closed == old(closed) && written == old(written)
      ensures View() == if id in old(pending) then old(View()).(q := SettleUnsent(old(View()).q, id)) else old(View())
    {
      if id !in pending {
        return;
      }
      pending := pending - {id};
      settled := settled[id := Rejected("control_channel_frame_too_large")];
    }

    method OnAbort(id: nat)
      modifies this
      ensures closed == old(closed)
      ensures if id in old(pending) then View() == old(View()).(q := Abort(old(View()).q, id))
              && written == old(written) + [CancelFrame(id)]
              else View() == old(View()) && written == old(written)
    {
      if id !in pending {
        return;
      }
      pending := pending - {id};
      outboundHighWater := Max(outboundHighWater, id);
      settled := settled[id := Aborted];
      written := written + [CancelFrame(id)];
    }

    method SendEvent(event: Name, payload: Value) returns (ok: bool)
      modifies this
      ensures ok <==> !old(closed) && outbound.event(event, payload)
      ensures closed == old(closed)
      ensures if ok then View() == old(View()).(sentEvents := old(nextEventSequence) + 1)
                         && written == old(written) + [EventFrame(old(nextEventSequence) + 1, event, payload)]
              else View() == old(View()) && written == old(written)
    {
      if closed || !outbound.event(event, payload) {
        return false;
      }
      var sequence := nextEventSequence + 1;
      nextEventSequence := sequence;
      written := written + [EventFrame(sequence, event, payload)];
      return true;
    }

    /**
     * A handler ended. Its result is sent when it passes the schema of the
     * method, a failure otherwise; a request withdrawn meanwhile is no longer
     * incoming and gets no reply.
     */
    method CompleteIncoming(id: nat, handled: Handled)
      modifies this
      ensures closed == old(closed)
      ensures var (p, reply) := Complete(old(View()).p, inbound, id, handled);
              View() == old(View()).(p := p)
                && written == old(written) + (if reply.Some? then [ResponseFrame(id, reply.value)] else [])
      ensures id !in old(incoming) ==> written == old(written)
      ensures id in old(incoming) ==> id !in incoming && |written| == |old(written)| + 1
      ensures id in old(incoming) ==>
                forall v :: written[|written| - 1] == ResponseFrame(id, Ok(v)) <==>
                    handled == Returned(v) && inbound.response(old(incoming)[id], v)
      ensures id in old(incoming) && !(handled.Returned? && inbound.response(old(incoming)[id], handled.result)) ==>
                written[|written| - 1] == ResponseFrame(id, Failed("request_failed"))
    {
      if id !in incoming {
        return;
      }
      var name := incoming[id];
      incoming := incoming - {id};
      incomingHighWater := Max(incomingHighWater, id);
      var reply := Failed("request_failed");
      if handled.Returned? && inbound.response(name, handled.result) {
        reply := Ok(handled.result);
      }
      answered := answered[id := reply];
      written := written + [ResponseFrame(id, reply)];
    }

    /**
     * Handles one frame: the endpoint step and its replies, or the violation
     * that closes the channel. A closed channel ignores the frame.
     */
    method HandleFrame(f: Frame) returns (violation: Option<Violation>)
      modifies this
      ensures old(closed) ==> violation.None? && View() == old(View()) && written == old(written) && closed
      ensures !old(closed) ==>
                var served := f.RequestFrame? && f.name in serveMap;
                match Receive(old(View()), outbound, inbound, f, served)
                case Accepted((e, replies)) =>
                    violation.None? && View() == e && written == old(written) + replies && !closed
                case Closes(v) =>
                    violation == Some(v) && View() == ClosedView(old(View())) && written == old(written) && closed
      ensures !old(closed) && f.ResponseFrame? && f.id in old(pending) ==>
                && pending == old(pending) - {f.id} && f.id in settled && written == old(written)
                && IsSettledBy(outbound, old(pending)[f.id], f.outcome, settled[f.id])
    {
      if closed {
        return None;
      }
      match f {
        case RequestFrame(id, name, payload) => violation := HandleRequest(id, name, payload);
        case ResponseFrame(id, outcome) =>
          ResponsesSettle(View(), outbound, inbound, id, outcome, false);
          violation := HandleResponse(id, outcome);
        case CancelFrame(id) => violation := HandleCancel(id);
        case EventFrame(sequence, event, payload) => violation := HandleEvent(sequence, event, payload);
      }
      if violation.Some? {
        FinishClose();
      }
    }

    method HandleRequest(id: nat, name: Name, payload: Value) returns (violation: Option<Violation>)
      requires !closed
      modifies this
      ensures !closed
      ensures match OnRequest(old(View()).p, inbound, id, name, payload, name in serveMap)
              case Accepted((p, reply)) =>
                violation.None? && View() == old(View()).(p := p)
                && written == old(written) + (if reply.Some? then [ResponseFrame(id, reply.value)] else [])
              case Closes(v) => violation == Some(v) && View() == old(View()) && written == old(written)
    {
      if id in incoming || id <= incomingHighWater {
        return Some(DuplicateRequest);
      }
      if !inbound.request(name, payload) {
        return Some(InvalidRequest);
      }
      lastSeen := id;
      if name !in serveMap {
        incomingHighWater := Max(incomingHighWater, id);
        answered := answered[id := Failed("handler_unavailable")];
        written := written + [ResponseFrame(id, Failed("handler_unavailable"))];
        return None;
      }
      incoming := incoming[id := name];
      return None;
    }

    /** An error rejects; a result resolves if it passes the schema of its method. */
    method Settle(name: Name, outcome: Outcome) returns (settlement: Settlement)
      ensures settlement == SettlementOf(outbound, name, outcome)
    {
      if outcome.Failed? {
        return Rejected(outcome.code);
      }
      if !outbound.response(name, outcome.result) {
        return Rejected("control_channel_invalid_response");
      }
      return Resolved(outcome.result);
    }

    method HandleResponse(id: nat, outcome: Outcome) returns (violation: Option<Violation>)
      requires !closed
      modifies this
      ensures !closed && written == old(written)
      ensures match OnResponse(old(View()).q, outbound, id, outcome)
              case Accepted(q) => violation.None? && View() == old(View()).(q := q)
              case Closes(v) => violation == Some(v) && View() == old(View())
    {
      hide SettlementOf;
      if id !in pending {
        if id <= outboundHighWater {
          delivered := delivered + {id};
          return None;
        }
        return Some(UnknownResponse);
      }
      var name := pending[id];
      pending := pending - {id};
      outboundHighWater := Max(outboundHighWater, id);
      delivered := delivered + {id};
      var settlement := Settle(name, outcome);
      settled := settled[id := settlement];
      return None;
    }

    method HandleCancel(id: nat) returns (violation: Option<Violation>)
      requires !closed
      modifies this
      ensures !closed && written == old(written)
      ensures match OnCancel(old(View()).p, id)
              case Accepted(p) => violation.None? && View() == old(View()).(p := p)
              case Closes(v) => violation == Some(v) && View() == old(View())
    {
      if id in incoming {
        incoming := incoming - {id};
        incomingHighWater := Max(incomingHighWater, id);
        withdrawn := withdrawn + {id};
        return None;
      }
      if id <= incomingHighWater {
        return None;
      }
      return Some(UnknownCancellation);
    }

    method HandleEvent(sequence: nat, event: Name, payload: Value) returns (violation: Option<Violation>)
      requires !closed
      modifies this
      ensures !closed && written == old(written)
      ensures match Receive(old(View()), outbound, inbound, EventFrame(sequence, event, payload), false)
              case Accepted((e, _)) => violation.None? && View() == e
              case Closes(v) => violation == Some(v) && View() == old(View())
    {
      if sequence != expectedEventSequence {
        return Some(EventSequence);
      }
      if !inbound.event(event, payload) {
        return Some(InvalidEvent);
      }
      expectedEventSequence := expectedEventSequence + 1;
      return None;
    }

    /** Closing settles everything still pending and abandons everything being served, once. */
    method FinishClose()
      modifies this
      ensures closed && written == old(written)
      ensures View() == if old(closed) then old(View()) else ClosedView(old(View()))
    {
      if closed {
        return;
      }
      closed := true;
      ghost var left := pending;
      settled := settled + map id | id in left :: Rejected("control_channel_closed");
      pending := map[];
      incoming := map[];
    }
  }

  ghost function ClosedView(e: Endpoint): Endpoint {
    e.(q := e.q.(pending := map[],
                 settled := e.q.settled + map id | id in e.q.pending :: Rejected("control_channel_closed")),
       p := e.p.(incoming := map[]))
  }

  /** Nothing stays pending or served, every pending request is rejected and no settlement changes. */
  lemma ClosingSettlesAll(e: Endpoint)
    ensures var c := ClosedView(e);
            && c.q.pending == map[] && c.p.incoming == map[] && c.p.answered == e.p.answered
            && (forall id :: id in e.q.pending ==>
                  id in c.q.settled && c.q.settled[id] == Rejected("control_channel_closed"))
            && (forall id :: id in e.q.settled && id !in e.q.pending ==>
                  id in c.q.settled && c.q.settled[id] == e.q.settled[id])
            && (forall id :: id in c.q.settled ==> id in e.q.pending || id in e.q.settled)
  {
  }
}
