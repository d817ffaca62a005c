/**
 * Boots deferred by the concurrency bound: a FIFO of dormant recipients and
 * the boots under way (src/coordination/message-delivery-scheduler.ts:474-507,
 * 1311-1378, 1387-1410).
 */
module DeferredBoots {
  type Id = string

  /** `ticket` numbers deferrals in the order they happened; the source keeps only the agent. */
  datatype Deferral = Deferral(agent: Id, ticket: nat)

  /** What a check finds: recipients that still await a boot, Runs at work, and the bound. */
  datatype Facts = Facts(awaiting: set<Id>, working: set<Id>, limit: nat)

  function Agents(queue: seq<Deferral>): set<Id> {
    set d | d in queue :: d.agent
  }

  function CountWorkingRuns(inFlight: set<Id>, f: Facts): nat {
    |inFlight| + |f.working - inFlight|
  }

  predicate HasFreeSlot(inFlight: set<Id>, f: Facts) {
    CountWorkingRuns(inFlight, f) < f.limit
  }

  predicate MayBootNow(queue: seq<Deferral>, inFlight: set<Id>, f: Facts) {
    queue == [] && HasFreeSlot(inFlight, f)
  }

  /** The Owner and the Moderators, which nobody spawned, never wait. */
  predicate MustDeferBoot(queue: seq<Deferral>, inFlight: set<Id>, a: Id, spawned: bool, f: Facts) {
    spawned && (a in inFlight || a in Agents(queue) || !MayBootNow(queue, inFlight, f))
  }

  ghost predicate Tidy(queue: seq<Deferral>, inFlight: set<Id>) {
    && Agents(queue) !! inFlight
    && (forall i, j {:trigger queue[i], queue[j]} :: 0 <= i < j < |queue| ==>
         queue[i].agent != queue[j].agent && queue[i].ticket < queue[j].ticket)
  }

  /** The deferrals that still await a boot, in order. */
  function Waiting(queue: seq<Deferral>, f: Facts): seq<Deferral> {
    if queue == [] then []
    else (if queue[0].agent in f.awaiting then [queue[0]] else []) + Waiting(queue[1..], f)
  }

  datatype Pass = Pass(queue: seq<Deferral>, inFlight: set<Id>, started: seq<Deferral>)

  /** One pass over the line: every visited deferral is removed or ends the pass. */
  function Round(queue: seq<Deferral>, inFlight: set<Id>, f: Facts): Pass {
    if queue == [] then Pass([], inFlight, [])
    else if queue[0].agent !in f.awaiting then Round(queue[1..], inFlight, f)
    else if !HasFreeSlot(inFlight, f) then Pass(queue, inFlight, [])
    else
      var p := Round(queue[1..], inFlight + {queue[0].agent}, f);
      p.(started := [queue[0]] + p.started)
  }

  /** Everyone in `a` was deferred before everyone in `b`. */
  ghost predicate Ahead(a: seq<Deferral>, b: seq<Deferral>) {
    forall i, j {:trigger a[i], b[j]} :: 0 <= i < |a| && 0 <= j < |b| ==> a[i].ticket < b[j].ticket
  }

  ghost predicate InOrder(a: seq<Deferral>) {
    forall i, j {:trigger a[i], a[j]} :: 0 <= i < j < |a| ==> a[i].ticket < a[j].ticket
  }

  lemma CountGrows(inFlight: set<Id>, a: Id, f: Facts)
    requires a !in inFlight
    ensures CountWorkingRuns(inFlight + {a}, f) <= CountWorkingRuns(inFlight, f) + 1
  {
    assert |inFlight + {a}| == |inFlight| + 1;
    if a in f.working {
      assert f.working - inFlight == (f.working - (inFlight + {a})) + {a};
    } else {
      assert f.working - inFlight == f.working - (inFlight + {a});
    }
  }

  lemma TidyRest(queue: seq<Deferral>, inFlight: set<Id>)
    requires Tidy(queue, inFlight) && queue != []
    ensures queue[0].agent !in inFlight
    ensures Tidy(queue[1..], inFlight + {queue[0].agent}) && Tidy(queue[1..], inFlight)
  {
    assert queue[0].agent in Agents(queue);
    assert forall k :: 0 <= k < |queue[1..]| ==> queue[1..][k] == queue[k + 1];
    assert queue[0].agent !in Agents(queue[1..]);
    assert Agents(queue[1..]) <= Agents(queue);
  }

  lemma {:induction false} RoundPassesNobody(queue: seq<Deferral>, inFlight: set<Id>, f: Facts)
    ensures var p := Round(queue, inFlight, f); Waiting(queue, f) == p.started + Waiting(p.queue, f)
  {
    hide HasFreeSlot;
    if queue != [] {
      var flying := if queue[0].agent in f.awaiting then inFlight + {queue[0].agent} else inFlight;
      RoundPassesNobody(queue[1..], flying, f);
      var p := Round(queue[1..], flying, f);
      assert [queue[0]] + (p.started + Waiting(p.queue, f)) == ([queue[0]] + p.started) + Waiting(p.queue, f);
    }
  }

  /** The count is the number of agents that boot or work. */
  lemma CountIsUnion(inFlight: set<Id>, f: Facts)
    ensures CountWorkingRuns(inFlight, f) == |inFlight + f.working|
  {
    assert inFlight + f.working == inFlight + (f.working - inFlight);
  }

  lemma {:induction false} RoundStopsAtBound(queue: seq<Deferral>, inFlight: set<Id>, f: Facts)
    requires Tidy(queue, inFlight)
    ensures var p := Round(queue, inFlight, f);
            && (p.started != [] ==> |p.inFlight + f.working| <= f.limit)
            && (p.queue != [] ==> |p.inFlight + f.working| >= f.limit)
  {
    hide Tidy, CountWorkingRuns;
    CountIsUnion(inFlight, f);
    if queue != [] {
      var rest := queue[1..];
      TidyRest(queue, inFlight);
      if queue[0].agent !in f.awaiting {
        RoundStopsAtBound(rest, inFlight, f);
      } else if HasFreeSlot(inFlight, f) {
        var flying := inFlight + {queue[0].agent};
        RoundStopsAtBound(rest, flying, f);
        RoundAddsStarted(rest, flying, f);
        CountGrows(inFlight, queue[0].agent, f);
        CountIsUnion(flying, f);
        assert Round(rest, flying, f).started == [] ==> Round(rest, flying, f).inFlight == flying;
      }
    }
  }

  lemma {:induction false} FullStartsNobody(queue: seq<Deferral>, inFlight: set<Id>, f: Facts)
    requires |inFlight + f.working| >= f.limit
    ensures Round(queue, inFlight, f).started == []
  {
    CountIsUnion(inFlight, f);
    if queue != [] && queue[0].agent !in f.awaiting {
      FullStartsNobody(queue[1..], inFlight, f);
    }
  }

  /** Only recipients that await a boot are started, and only those that do not are dropped. */
  lemma {:induction false} RoundStartsAwaiting(queue: seq<Deferral>, inFlight: set<Id>, f: Facts)
    ensures var p := Round(queue, inFlight, f);
            && (forall d :: d in p.started ==> d.agent in f.awaiting)
            && (forall d :: d in queue ==> d in p.started || d in p.queue || d.agent !in f.awaiting)
            && (p.queue != [] ==> p.queue[0].agent in f.awaiting)
  {
    hide HasFreeSlot;
    if queue != [] {
      var flying := if queue[0].agent in f.awaiting then inFlight + {queue[0].agent} else inFlight;
      RoundStartsAwaiting(queue[1..], flying, f);
      assert queue == [queue[0]] + queue[1..];
    }
  }

  /** What one check makes of the line, with no mention of how it counts. */
  ghost predicate IsFairCheck(queue: seq<Deferral>, inFlight: set<Id>, f: Facts, p: Pass) {
    && p.inFlight == inFlight + Agents(p.started)
    && (p.started != [] ==> |p.inFlight + f.working| <= f.limit)
    && (p.queue != [] ==> |p.inFlight + f.working| >= f.limit && p.queue[0].agent in f.awaiting)
    && (forall d :: d in p.started ==> d.agent in f.awaiting)
    && (forall d :: d in queue ==> d in p.started || d in p.queue || d.agent !in f.awaiting)
  }

  /**
   * A check starts boots from the front of the line and passes nobody over who
   * waits; it stops only at the bound or with nobody waiting, and starts nobody
   * beyond it: the bound is on the agents that boot or work.
   */
  lemma RoundIsFair(queue: seq<Deferral>, inFlight: set<Id>, f: Facts)
    requires Tidy(queue, inFlight)
    ensures var p := Round(queue, inFlight, f);
            Waiting(queue, f) == p.started + Waiting(p.queue, f) && IsFairCheck(queue, inFlight, f, p)
  {
    hide Round, Waiting, Agents;
    RoundPassesNobody(queue, inFlight, f);
    RoundStopsAtBound(queue, inFlight, f);
    RoundAddsStarted(queue, inFlight, f);
    RoundStartsAwaiting(queue, inFlight, f);
  }

  /** What is left is the end of the line. */
  lemma {:induction false} RoundLeavesSuffix(queue: seq<Deferral>, inFlight: set<Id>, f: Facts)
    ensures var p := Round(queue, inFlight, f);
            |p.queue| + |p.started| <= |queue| && p.queue == queue[|queue| - |p.queue|..]
  {
    if queue != [] {
      var rest := queue[1..];
      var flying := if queue[0].agent in f.awaiting then inFlight + {queue[0].agent} else inFlight;
      RoundLeavesSuffix(rest, flying, f);
      var p := Round(rest, flying, f);
      assert rest[|rest| - |p.queue|..] == queue[|queue| - |p.queue|..];
    }
  }

  lemma {:induction false} RoundAddsStarted(queue: seq<Deferral>, inFlight: set<Id>, f: Facts)
    ensures var p := Round(queue, inFlight, f); p.inFlight == inFlight + Agents(p.started)
  {
    if queue != [] {
      var flying := if queue[0].agent in f.awaiting then inFlight + {queue[0].agent} else inFlight;
      RoundAddsStarted(queue[1..], flying, f);
      var p := Round(queue[1..], flying, f);
      assert Agents([queue[0]] + p.started) == {queue[0].agent} + Agents(p.started);
    }
  }

  lemma {:induction false} RoundStartsFront(queue: seq<Deferral>, inFlight: set<Id>, f: Facts, d: Deferral)
    requires d in Round(queue, inFlight, f).started
    ensures var p := Round(queue, inFlight, f); |p.queue| <= |queue| && d in queue[..|queue| - |p.queue|]
  {
    RoundLeavesSuffix(queue, inFlight, f);
    if queue != [] {
      var rest := queue[1..];
      var flying := if queue[0].agent in f.awaiting then inFlight + {queue[0].agent} else inFlight;
      RoundLeavesSuffix(rest, flying, f);
      var p := Round(rest, flying, f);
      if d in p.started {
        RoundStartsFront(rest, flying, f, d);
      }
      var m := |rest| - |p.queue|;
      assert queue[..1 + m] == [queue[0]] + rest[..m];
    }
  }

  /** What was started came before what is left. */
  lemma RoundTakesFromTheFront(queue: seq<Deferral>, inFlight: set<Id>, f: Facts)
    ensures var p := Round(queue, inFlight, f);
            && |p.queue| + |p.started| <= |queue| && p.queue == queue[|queue| - |p.queue|..]
            && (forall d :: d in p.started ==> d in queue[..|queue| - |p.queue|] && d in queue)
            && (forall d :: d in p.queue ==> d in queue)
            && p.inFlight == inFlight + Agents(p.started)
  {
    hide Round, Agents;
    RoundLeavesSuffix(queue, inFlight, f);
    RoundAddsStarted(queue, inFlight, f);
    forall d | d in Round(queue, inFlight, f).started
      ensures d in queue[..|queue| - |Round(queue, inFlight, f).queue|] && d in queue
    {
      RoundStartsFront(queue, inFlight, f, d);
    }
  }

  lemma TidyAt(queue: seq<Deferral>, inFlight: set<Id>, d: Deferral)
    requires Tidy(queue, inFlight) && queue != [] && d in queue[1..]
    ensures queue[0].ticket < d.ticket
  {
    var k :| 0 <= k < |queue[1..]| && queue[1..][k] == d;
    assert queue[k + 1] == d;
  }

  /** Boots start in deferral order. */
  lemma {:induction false} RoundStartsInOrder(queue: seq<Deferral>, inFlight: set<Id>, f: Facts)
    requires Tidy(queue, inFlight)
    ensures InOrder(Round(queue, inFlight, f).started)
  {
    hide Tidy, HasFreeSlot;
    if queue != [] {
      var rest := queue[1..];
      TidyRest(queue, inFlight);
      if queue[0].agent !in f.awaiting {
        RoundStartsInOrder(rest, inFlight, f);
      } else if HasFreeSlot(inFlight, f) {
        var p := Round(rest, inFlight + {queue[0].agent}, f);
        RoundStartsInOrder(rest, inFlight + {queue[0].agent}, f);
        RoundTakesFromTheFront(rest, inFlight + {queue[0].agent}, f);
        forall d | d in p.started
          ensures queue[0].ticket < d.ticket
        {
          TidyAt(queue, inFlight, d);
        }
      }
    }
  }

  lemma Split(queue: seq<Deferral>, inFlight: set<Id>, n: nat)
    requires Tidy(queue, inFlight) && n <= |queue|
    ensures Tidy(queue[n..], inFlight + Agents(queue[..n])) && Ahead(queue[..n], queue[n..])
  {
    assert forall d :: d in queue[n..] ==> d in queue;
    forall id | id in Agents(queue[n..])
      ensures id !in Agents(queue[..n])
    {
      var k :| n <= k < |queue| && queue[k].agent == id;
      assert forall i :: 0 <= i < n ==> queue[..n][i] == queue[i] && queue[i].agent != queue[k].agent;
    }
  }

  /** No agent is both deferred and booting after a check, and whoever was started was ahead of whoever still waits. */
  lemma RoundKeepsOrder(queue: seq<Deferral>, inFlight: set<Id>, f: Facts)
    requires Tidy(queue, inFlight)
    ensures var p := Round(queue, inFlight, f); Tidy(p.queue, p.inFlight) && Ahead(p.started, p.queue)
  {
    hide Round;
    var p := Round(queue, inFlight, f);
    RoundTakesFromTheFront(queue, inFlight, f);
    var n := |queue| - |p.queue|;
    Split(queue, inFlight, n);
    assert forall d :: d in p.started ==> d in queue[..n];
    forall i | 0 <= i < |p.started|
      ensures forall j :: 0 <= j < |p.queue| ==> p.started[i].ticket < p.queue[j].ticket
    {
      assert p.started[i] in queue[..n];
      var k :| 0 <= k < n && queue[..n][k] == p.started[i];
    }
  }

  lemma AheadOfSome(log: seq<Deferral>, a: seq<Deferral>, b: seq<Deferral>)
    requires Ahead(log, b) && forall d :: d in a ==> d in b
    ensures Ahead(log, a)
  {
    forall i, j | 0 <= i < |log| && 0 <= j < |a|
      ensures log[i].ticket < a[j].ticket
    {
      assert a[j] in b;
      var k :| 0 <= k < |b| && b[k] == a[j];
    }
  }

  class DeferredBootQueue {
    var deferredBoots: seq<Deferral>
    var bootsInFlight: set<Id>
    /** How many deferrals were made; history only. */
    var deferrals: nat

    ghost predicate Valid()
      reads this
    {
      Tidy(deferredBoots, bootsInFlight) && forall d :: d in deferredBoots ==> d.ticket < deferrals
    }

    constructor ()
      ensures Valid() && deferredBoots == [] && bootsInFlight == {} && deferrals == 0
    {
      deferredBoots, bootsInFlight, deferrals := [], {}, 0;
    }

    /** An admission that must wait queues its recipient, unless its boot is already queued or under way. */
    method Defer(a: Id)
      requires Valid()
      modifies this
      ensures Valid() && bootsInFlight == old(bootsInFlight) && deferrals == old(deferrals) + 1
      ensures deferredBoots ==
              old(deferredBoots)
              + if a in Agents(old(deferredBoots)) || a in bootsInFlight then [] else [Deferral(a, old(deferrals))]
    {
      if a !in bootsInFlight && a !in Agents(deferredBoots) {
        assert forall d :: d in deferredBoots ==> d.agent in Agents(deferredBoots);
        deferredBoots := deferredBoots + [Deferral(a, deferrals)];
      }
      deferrals := deferrals + 1;
    }

    /** Discarded scheduling needs no boot. */
    method Discard(a: Id)
      requires Valid()
      modifies this
      ensures Valid() && bootsInFlight == old(bootsInFlight) && deferrals == old(deferrals)
      ensures deferredBoots == Without(old(deferredBoots), a)
      ensures forall d :: d in deferredBoots <==> d in old(deferredBoots) && d.agent != a
    {
      ghost var queue := deferredBoots;
      var kept: seq<Deferral> := [];
      for i := 0 to |deferredBoots|
        invariant deferredBoots == queue && bootsInFlight == old(bootsInFlight) && deferrals == old(deferrals)
        invariant kept == Without(queue[..i], a)
      {
        assert queue[..i + 1][..i] == queue[..i];
        if deferredBoots[i].agent != a {
          kept := kept + [deferredBoots[i]];
        }
      }
      assert queue[..|queue|] == queue;
      WithoutTidy(queue, bootsInFlight, a);
      WithoutHolds(queue, a);
      deferredBoots := kept;
    }

    method StartRound(f: Facts) returns (started: seq<Deferral>)
      requires Valid()
      modifies this
      ensures Valid() && deferrals == old(deferrals)
      ensures Pass(deferredBoots, bootsInFlight, started) == Round(old(deferredBoots), old(bootsInFlight), f)
      ensures IsFairCheck(old(deferredBoots), old(bootsInFlight), f, Pass(deferredBoots, bootsInFlight, started))
    {
      hide IsFairCheck;
      started := [];
      while deferredBoots != []
        invariant deferrals == old(deferrals)
        invariant var p := Round(deferredBoots, bootsInFlight, f);
                  Round(old(deferredBoots), old(bootsInFlight), f) == p.(started := started + p.started)
        decreases |deferredBoots|
      {
        var d := deferredBoots[0];
        if d.agent !in f.awaiting {
          deferredBoots := deferredBoots[1..];
          continue;
        }
        if !HasFreeSlot(bootsInFlight, f) {
          break;
        }
        ghost var p := Round(deferredBoots[1..], bootsInFlight + {d.agent}, f);
        assert started + ([d] + p.started) == (started + [d]) + p.started;
        deferredBoots := deferredBoots[1..];
        bootsInFlight := bootsInFlight + {d.agent};
        started := started + [d];
      }
      assert started + [] == started;
      RoundIsFair(old(deferredBoots), old(bootsInFlight), f);
      RoundKeepsOrder(old(deferredBoots), old(bootsInFlight), f);
      RoundTakesFromTheFront(old(deferredBoots), old(bootsInFlight), f);
    }

    /** Boots end: dispatched, failed, or found unneeded. */
    method FinishBoots(boots: seq<Deferral>)
      requires Valid()
      modifies this
      ensures Valid() && bootsInFlight == old(bootsInFlight) - Agents(boots)
      ensures deferredBoots == old(deferredBoots) && deferrals == old(deferrals)
    {
      bootsInFlight := bootsInFlight - Agents(boots);
    }

    /**
     * Checks, and checks again once the boots just started have ended, as long
     * as a check starts some and deferrals are left. `facts(k)` is what check
     * `k` finds. Without new deferrals in between it ends, and what it started
     * is in deferral order and ahead of all that still waits. Whoever it passed
     * over awaited no boot at some check; it leaves deferrals only at the bound.
     */
    method StartDeferredBoots(facts: nat -> Facts) returns (started: seq<Deferral>)
      requires Valid()
      modifies this
      ensures Valid() && bootsInFlight <= old(bootsInFlight)
      ensures InOrder(started) && Ahead(started, deferredBoots)
      ensures forall d :: d in started || d in deferredBoots ==> d in old(deferredBoots)
      ensures forall d :: d in started ==> exists k :: d.agent in facts(k).awaiting
      ensures forall d :: d in old(deferredBoots) ==>
                d in started || d in deferredBoots || exists k :: d.agent !in facts(k).awaiting
      ensures deferredBoots != [] ==> exists k :: |bootsInFlight + facts(k).working| >= facts(k).limit
    {
      started := [];
      var round: nat := 0;
      var more := true;
      while more
        invariant Valid() && bootsInFlight <= old(bootsInFlight)
        invariant InOrder(started) && Ahead(started, deferredBoots)
        invariant forall d :: d in started || d in deferredBoots ==> d in old(deferredBoots)
        invariant forall d :: d in started ==> exists k :: d.agent in facts(k).awaiting
        invariant forall d :: d in old(deferredBoots) ==>
                    d in started || d in deferredBoots || exists k :: d.agent !in facts(k).awaiting
        invariant !more && deferredBoots != [] ==>
                    exists k :: |bootsInFlight + facts(k).working| >= facts(k).limit
        decreases |deferredBoots|, more
      {
        hide Ahead, InOrder, Tidy, Round, Agents;
        ghost var queue, flying := deferredBoots, bootsInFlight;
        var f := facts(round);
        var boots := StartRound(f);
        RoundKeepsOrder(queue, flying, f);
        RoundTakesFromTheFront(queue, flying, f);
        RoundStartsInOrder(queue, flying, f);
        AheadOfSome(started, boots, queue);
        AheadOfSome(started, deferredBoots, queue);
        JoinOrdered(started, boots);
        AheadJoin(started, boots, deferredBoots);
        more := boots != [] && deferredBoots != [];
        FinishBoots(boots);
        NoBoots(boots);
        started := started + boots;
        round := round + 1;
      }
    }
  }

  lemma NoBoots(boots: seq<Deferral>)
    ensures boots == [] ==> Agents(boots) == {}
  {
  }

  lemma AheadJoin(a: seq<Deferral>, b: seq<Deferral>, c: seq<Deferral>)
    requires Ahead(a, c) && Ahead(b, c)
    ensures Ahead(a + b, c)
  {
  }

  lemma JoinOrdered(a: seq<Deferral>, b: seq<Deferral>)
    requires InOrder(a) && InOrder(b) && Ahead(a, b)
    ensures InOrder(a + b)
  {
  }

  function Without(queue: seq<Deferral>, a: Id): (r: seq<Deferral>) {
    if queue == [] then []
    else
      var last := queue[|queue| - 1];
      Without(queue[..|queue| - 1], a) + if last.agent == a then [] else [last]
  }

  lemma TidyLast(queue: seq<Deferral>, inFlight: set<Id>, d: Deferral)
    requires Tidy(queue, inFlight) && queue != [] && d in queue[..|queue| - 1]
    ensures d.agent != queue[|queue| - 1].agent && d.ticket < queue[|queue| - 1].ticket
  {
    var k :| 0 <= k < |queue| - 1 && queue[k] == d;
  }

  /** Exactly the deferrals of other agents stay. */
  lemma {:induction false} WithoutHolds(queue: seq<Deferral>, a: Id)
    ensures forall d :: d in Without(queue, a) <==> d in queue && d.agent != a
  {
    if queue != [] {
      var init := queue[..|queue| - 1];
      assert queue == init + [queue[|queue| - 1]];
      WithoutHolds(init, a);
    }
  }

  lemma {:induction false} WithoutTidy(queue: seq<Deferral>, inFlight: set<Id>, a: Id)
    requires Tidy(queue, inFlight)
    ensures Tidy(Without(queue, a), inFlight)
    ensures forall d :: d in Without(queue, a) ==> d in queue
  {
    WithoutHolds(queue, a);
    if queue != [] {
      var n := |queue| - 1;
      assert forall d :: d in queue[..n] ==> d in queue;
      WithoutTidy(queue[..n], inFlight, a);
      forall d | d in Without(queue[..n], a)
        ensures d.agent != queue[n].agent && d.ticket < queue[n].ticket
      {
        TidyLast(queue, inFlight, d);
      }
    }
  }

  // ------------------------------------------------------------------ All runs

  /** `log` lists the boots of spawned children in the order they started, direct ones included. */
  datatype Line = Line(queue: seq<Deferral>, inFlight: set<Id>, made: nat, log: seq<Deferral>)

  datatype Action =
    | Arrive(agent: Id, spawned: bool, f: Facts)
    | Check(f: Facts)
    | Finish(boots: seq<Deferral>)
    | Drop(agent: Id)

  /** An agent that needs a boot is deferred or boots at once. */
  function Next(l: Line, a: Action): Line {
    match a
    case Arrive(agent, spawned, f) =>
      var d := Deferral(agent, l.made);
      if !MustDeferBoot(l.queue, l.inFlight, agent, spawned, f)
      then l.(made := l.made + 1, log := l.log + if spawned then [d] else [])
      else if agent in l.inFlight || agent in Agents(l.queue) then l.(made := l.made + 1)
      else l.(made := l.made + 1, queue := l.queue + [d])
    case Check(f) =>
      var p := Round(l.queue, l.inFlight, f);
      l.(queue := p.queue, inFlight := p.inFlight, log := l.log + p.started)
    case Finish(boots) => l.(inFlight := l.inFlight - Agents(boots))
    case Drop(agent) => l.(queue := Without(l.queue, agent))
  }

  const EMPTY_LINE := Line([], {}, 0, [])

  function After(actions: seq<Action>): Line {
    if actions == [] then EMPTY_LINE else Next(After(actions[..|actions| - 1]), actions[|actions| - 1])
  }

  ghost predicate Fair(l: Line) {
    && Tidy(l.queue, l.inFlight) && InOrder(l.log) && Ahead(l.log, l.queue)
    && (forall d :: d in l.queue || d in l.log ==> d.ticket < l.made)
  }

  lemma NextFair(l: Line, a: Action)
    requires Fair(l)
    ensures Fair(Next(l, a))
  {
    hide Round, Without;
    match a {
      case Arrive(agent, _, f) =>
        assert forall d :: d in l.queue ==> d.agent in Agents(l.queue);
        assert Agents(l.queue + [Deferral(agent, l.made)]) == Agents(l.queue) + {agent};
      case Check(f) =>
        var p := Round(l.queue, l.inFlight, f);
        RoundTakesFromTheFront(l.queue, l.inFlight, f);
        RoundKeepsOrder(l.queue, l.inFlight, f);
        RoundStartsInOrder(l.queue, l.inFlight, f);
        AheadOfSome(l.log, p.started, l.queue);
        AheadOfSome(l.log, p.queue, l.queue);
        JoinOrdered(l.log, p.started);
      case Finish(_) =>
      case Drop(agent) =>
        WithoutTidy(l.queue, l.inFlight, agent);
        AheadOfSome(l.log, Without(l.queue, agent), l.queue);
    }
  }

  /**
   * In every run children boot in the order in which they asked, newcomers
   * included, everyone booted asked before everyone still deferred, and no
   * child is deferred twice or both deferred and booting.
   */
  lemma {:induction false} NobodyIsOvertaken(actions: seq<Action>)
    ensures var l := After(actions);
            InOrder(l.log) && Ahead(l.log, l.queue) && Tidy(l.queue, l.inFlight) && Fair(l)
    decreases |actions|
  {
    if actions != [] {
      NobodyIsOvertaken(actions[..|actions| - 1]);
      NextFair(After(actions[..|actions| - 1]), actions[|actions| - 1]);
    }
  }

  /** Agents that hold a slot: those that boot or work. */
  ghost function Slots(l: Line, f: Facts): nat {
    |l.inFlight + f.working|
  }

  /** At every point of a run no check lifts the slots above the bound; at the bound it starts nobody. */
  lemma ChecksKeepBound(actions: seq<Action>, f: Facts)
    ensures var l := After(actions);
            && (Slots(l, f) <= f.limit ==> Slots(Next(l, Check(f)), f) <= f.limit)
            && (Slots(l, f) >= f.limit ==> Next(l, Check(f)).inFlight == l.inFlight)
  {
    hide Round, CountWorkingRuns, Waiting, Fair, After;
    var l := After(actions);
    NobodyIsOvertaken(actions);
    RoundIsFair(l.queue, l.inFlight, f);
    NoBoots(Round(l.queue, l.inFlight, f).started);
    if Slots(l, f) >= f.limit {
      FullStartsNobody(l.queue, l.inFlight, f);
    }
  }

  /** `agent` waits in line or its boot is under way. */
  ghost predicate IsExpected(l: Line, agent: Id) {
    agent in l.inFlight || exists d :: d in l.queue && d.agent == agent
  }

  /**
   * At every point of a run a child boots at once exactly when nobody waits,
   * its own boot is not under way and a slot is free, so that the bound still
   * holds; otherwise it waits or is booting. The Owner and the Moderators never wait.
   */
  lemma ArrivalsKeepBound(actions: seq<Action>, agent: Id, f: Facts)
    ensures var l := After(actions);
            && Next(l, Arrive(agent, false, f)).queue == l.queue
            && var l' := Next(l, Arrive(agent, true, f));
               && (l'.log != l.log <==> l.queue == [] && agent !in l.inFlight && Slots(l, f) < f.limit)
               && (l'.log != l.log ==> |l'.inFlight + f.working + {agent}| <= f.limit)
               && (l'.log == l.log ==> IsExpected(l', agent))
  {
    hide CountWorkingRuns, After;
    var l := After(actions);
    CountIsUnion(l.inFlight, f);
    assert |l.inFlight + f.working + {agent}| <= Slots(l, f) + 1;
    if agent !in l.inFlight && agent !in Agents(l.queue) {
      var d := Deferral(agent, l.made);
      assert d in l.queue + [d];
    }
  }
}
