/**
 * The broker that pairs pending admissions with the Hello of a connecting
 * child (src/control/agent-control-admission.ts:66-131, 150-195).
 */
module AdmissionBroker {
  type Token = string

  datatype Option<T> = None | Some(value: T)

  datatype Expected = Expected(agentId: string, token: Token, sessionId: string)

  datatype Hello = Hello(version: nat, workflowId: string, agentId: string, token: Token, sessionId: string)

  datatype Settlement = Admitted | Aborted | IdentityMismatch | ConfigurationFailed | BrokerClosed

  datatype Refusal = AlreadyAborted | Closed | Invalid | DuplicateToken

  /** An admission is known by its number; `expected` is what it waits for. */
  datatype Admission = Admission(number: nat, expected: Expected)

  /** `settled` is what became of each admission; the first settlement stands. */
  datatype Broker = Broker(closed: bool, pending: map<Token, Admission>, admissions: seq<Expected>,
      settled: map<nat, Settlement>)

  const OPEN := Broker(false, map[], [], map[])

  predicate Incomplete(e: Expected) {
    e.agentId == [] || e.token == [] || e.sessionId == []
  }

  predicate Matches(version: nat, workflowId: string, e: Expected, h: Hello) {
    h.version == version && h.workflowId == workflowId && h.agentId == e.agentId && h.sessionId == e.sessionId
      && h.token == e.token
  }

  /** Each admission is pending under its own token or settled, never both; a closed broker has none pending. */
  ghost predicate BrokerOk(b: Broker) {
    && (forall t :: t in b.pending ==>
          var a := b.pending[t];
          a.expected.token == t && a.number < |b.admissions| && b.admissions[a.number] == a.expected
            && a.number !in b.settled)
    && (forall t, u :: t in b.pending && u in b.pending && b.pending[t].number == b.pending[u].number ==> t == u)
    && (forall n: nat {:trigger IsPending(b, n)} :: n < |b.admissions| ==> (IsPending(b, n) <==> n !in b.settled))
    && (forall n :: n in b.settled ==> n < |b.admissions|)
    && (b.closed ==> b.pending == map[])
  }

  ghost predicate IsPending(b: Broker, n: nat) {
    n < |b.admissions| && b.admissions[n].token in b.pending && b.pending[b.admissions[n].token].number == n
  }

  class AgentControlAdmissionBroker {
    const version: nat
    const workflowId: string
    var closed: bool
    var pending: map<Token, Admission>
    ghost var admissions: seq<Expected>
    ghost var settled: map<nat, Settlement>
    var count: nat

    ghost function View(): Broker
      reads this
    {
      Broker(closed, pending, admissions, settled)
    }

    ghost predicate Valid()
      reads this
    {
      BrokerOk(View()) && count == |admissions|
    }

    constructor (version: nat, workflowId: string)
      ensures Valid() && View() == OPEN && this.version == version && this.workflowId == workflowId
    {
      this.version, this.workflowId, closed, pending, count := version, workflowId, false, map[], 0;
      admissions, settled := [], map[];
    }

    method Admit(expected: Expected, aborted: bool) returns (refusal: Option<Refusal>)
      requires Valid()
      modifies this
      ensures Valid()
      ensures refusal == if aborted then Some(AlreadyAborted) else if old(closed) then Some(Closed)
                         else if expected.agentId == "" || expected.token == "" || expected.sessionId == ""
                         then Some(Invalid)
                         else if expected.token in old(pending) then Some(DuplicateToken) else None
      ensures refusal.Some? ==> View() == old(View())
      ensures refusal.None? ==>
                admissions == old(admissions) + [expected] && IsPending(View(), old(count)) && settled == old(settled)
                  && !closed
    {
      if aborted { return Some(AlreadyAborted); }
      if closed { return Some(Closed); }
      if Incomplete(expected) { return Some(Invalid); }
      if expected.token in pending { return Some(DuplicateToken); }
      ghost var before := View();
      pending := pending[expected.token := Admission(count, expected)];
      admissions := admissions + [expected];
      count := count + 1;
      forall n: nat | n < |admissions|
        ensures IsPending(View(), n) <==> n !in settled
      {
        assert n < |before.admissions| ==> (IsPending(before, n) <==> n !in before.settled);
      }
      return None;
    }

    /** The caller gives up; only the admission it made is removed. */
    method OnAbort(admission: Admission)
      requires Valid()
      modifies this
      ensures Valid() && closed == old(closed) && admissions == old(admissions)
      ensures if admission.expected.token in old(pending) && old(pending)[admission.expected.token] == admission
              then settled == old(settled)[admission.number := Aborted]
                && pending == old(pending) - {admission.expected.token}
              else View() == old(View())
    {
      if admission.expected.token !in pending || pending[admission.expected.token] != admission {
        return;
      }
      Take(admission.expected.token, Aborted);
    }

    method Take(token: Token, ghost s: Settlement)
      requires Valid() && token in pending
      modifies this`pending, this`settled
      ensures Valid() && pending == old(pending) - {token} && settled == old(settled)[old(pending)[token].number := s]
    {
      ghost var before, number := View(), pending[token].number;
      pending := pending - {token};
      settled := settled[number := s];
      forall n: nat | n < |admissions|
        ensures IsPending(View(), n) <==> n !in settled
      {
        assert IsPending(before, n) <==> n !in before.settled;
        assert IsPending(before, number);
      }
    }

    /**
     * A connection said Hello. It becomes a channel exactly when an admission
     * waits for that very token, identity and session; the token is used up
     * whether or not the rest agrees. `configures` says whether handlers could
     * be installed.
     */
    method Inspect(hello: Hello, configures: bool) returns (accepted: bool)
      requires Valid()
      modifies this
      ensures Valid() && closed == old(closed) && admissions == old(admissions)
      ensures accepted <==>
                hello.token in old(pending) && Matches(version, workflowId, old(pending)[hello.token].expected, hello)
                  && configures
      ensures hello.token !in pending
      ensures if hello.token !in old(pending) then View() == old(View())
              else var a := old(pending)[hello.token];
                   && pending == old(pending) - {hello.token}
                   && settled ==
                        old(settled)[a.number :=
                          if !Matches(version, workflowId, a.expected, hello) then IdentityMismatch
                          else if configures then Admitted else ConfigurationFailed]
    {
      if hello.token !in pending {
        return false;
      }
      var expected := pending[hello.token].expected;
      var matches := hello.version == version && hello.workflowId == workflowId && hello.agentId == expected.agentId
        && hello.sessionId == expected.sessionId;
      Take(hello.token, if !matches then IdentityMismatch else if configures then Admitted else ConfigurationFailed);
      return matches && configures;
    }

    /** Closing settles everything still pending, once; nothing is pending ever after. */
    method Close()
      requires Valid()
      modifies this
      ensures Valid() && closed && pending == map[] && admissions == old(admissions)
      ensures forall n :: n in old(settled) ==> n in settled && settled[n] == old(settled)[n]
      ensures forall n: nat :: n < |admissions| ==> n in settled && (n !in old(settled) ==> settled[n] == BrokerClosed)
    {
      ghost var before := View();
      closed := true;
      settled := map n: nat | n < |admissions| :: n := if n in before.settled then before.settled[n] else BrokerClosed;
      pending := map[];
      forall n: nat | n < |admissions|
        ensures IsPending(View(), n) <==> n !in settled
      {
      }
    }
  }
}
