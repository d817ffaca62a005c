/**
 * The object that holds the shared journal and one Agent's graph, with the two
 * generators as explicit phases, and the synchronous read barrier
 * (src/coordination/request-relationships.ts:175-188, 272-400).
 */
module RequestRelationships {
  import opened RelationshipJournal
  import opened RelationshipProjection

  class RequestRelationshipCache {
    var relationshipSources: Option<Sources>
    var pendingRelationshipSources: Option<Gathering>
    var graph: Graph
    var made: nat

    ghost function View(): Cache
      reads this
    {
      Cache(relationshipSources, pendingRelationshipSources, graph, made)
    }

    constructor ()
      ensures View() == EMPTY_CACHE
    {
      relationshipSources, pendingRelationshipSources, graph, made := None, None, EMPTY_GRAPH, 0;
    }

    method StartRelationshipSourceUpdate(w: World)
      modifies this
      ensures View() == StartSources(w, old(View()))
    {
      if pendingRelationshipSources.Some? {
        if pendingRelationshipSources.value.identity == Identity(w) {
          return;
        }
        pendingRelationshipSources, relationshipSources := None, None;
      }
      var reset := relationshipSources.None? || relationshipSources.value.identity != Identity(w);
      if !reset && relationshipSources.value.counts == Lengths(w) {
        return;
      }
      if reset {
        var sources := Sources(made, Identity(w), Zeros(|w.journals|), [], w.creationIds);
        made := made + 1;
        pendingRelationshipSources := Some(Gathering(sources, true, Identity(w), Lengths(w), 0, 0));
      } else {
        var sources := relationshipSources.value;
        var start := if |sources.counts| > 0 then sources.counts[0] else 0;
        pendingRelationshipSources := Some(Gathering(sources, false, Identity(w), Lengths(w), 0, start));
      }
    }

    /** Says whether collecting goes on. */
    method AdvanceRelationshipSourceUpdate(w: World) returns (more: bool)
      requires pendingRelationshipSources.Some? ==> GatheringOk(w, pendingRelationshipSources.value)
      modifies this
      ensures View() == if old(pendingRelationshipSources).Some? then AdvanceSources(w, old(View())) else old(View())
      ensures more <==> pendingRelationshipSources.Some?
      ensures old(pendingRelationshipSources).Some? && more ==>
                Remaining(pendingRelationshipSources.value) < Remaining(old(pendingRelationshipSources).value)
    {
      if pendingRelationshipSources.None? {
        return false;
      }
      var g := pendingRelationshipSources.value;
      if g.record < |g.counts| {
        if g.index < g.counts[g.record] {
          var sources := g.into.(changes := g.into.changes + [w.journals[g.record].changes[g.index]]);
          pendingRelationshipSources := Some(g.(into := sources, index := g.index + 1));
          if !g.reset {
            relationshipSources := Some(sources);
          }
        } else {
          var start := if g.record + 1 < |g.into.counts| then g.into.counts[g.record + 1] else 0;
          pendingRelationshipSources := Some(g.(record := g.record + 1, index := start));
        }
        return true;
      }
      pendingRelationshipSources := None;
      relationshipSources := Some(g.into.(counts := g.counts, identity := g.identity));
      return false;
    }

    method StartRelationshipUpdate()
      requires relationshipSources.Some?
      modifies this
      ensures View() == StartGraph(old(View()))
    {
      var sources := relationshipSources.value;
      if graph.sources != Some(sources.id) {
        graph := Graph(Some(sources.id), 0, false, {}, {}, None);
      }
      if graph.pending.Some? || (graph.initialized && graph.count == |sources.changes|) {
        return;
      }
      var creationIds := if graph.initialized then [] else sources.creationIds;
      graph := graph.(pending := Some(Collecting(graph.count, creationIds, |sources.changes|)));
    }

    /** Says whether the update goes on; evaluation may bind further Requests, and may fail. */
    method AdvanceRelationshipUpdate(w: World, fails: bool) returns (w': World, more: bool)
      requires relationshipSources.Some? && graph.pending.Some?
      requires forall l :: l in w.latent ==> l.journal < |w.journals|
      modifies this
      ensures fails ==> w' == w && View() == FailGraph(old(View()))
      ensures !fails ==> (w', View()) == AdvanceGraph(w, old(View()))
      ensures more <==> graph.pending.Some?
    {
      if fails {
        graph := graph.(sources := None, pending := None);
        return w, false;
      }
      var changes := relationshipSources.value.changes;
      w' := w;
      match graph.pending.value {
        case Collecting(index, changed, end) =>
          if index < end && index < |changes| {
            graph := graph.(pending := Some(Collecting(index + 1, Add(changed, changes[index]), end)));
          } else {
            graph := graph.(pending := Some(Evaluating(changed, end)));
          }
          return w', true;
        case Evaluating(todo, end) =>
          if todo != [] {
            var requestId := todo[0];
            var stake := StakeOf(w, requestId);
            w' := Bind(w, requestId);
            if stake.awaiting {
              graph := graph.(awaiting := graph.awaiting + {requestId});
            } else {
              graph := graph.(awaiting := graph.awaiting - {requestId});
            }
            if stake.owed {
              graph := graph.(owed := graph.owed + {requestId});
            } else {
              graph := graph.(owed := graph.owed - {requestId});
            }
            graph := graph.(pending := Some(Evaluating(todo[1..], end)));
            return w', true;
          }
          graph := graph.(pending := None, count := end, initialized := true);
          return w', false;
      }
    }

    /** Runs the collecting generator to its end. */
    method DrainSources(w: World)
      requires Sound(w, View())
      requires if pendingRelationshipSources.Some? then pendingRelationshipSources.value.identity == Identity(w)
                 else Current(w, View())
      modifies this
      ensures Sound(w, View()) && pendingRelationshipSources.None? && Current(w, View()) && graph == old(graph)
      ensures match old(pendingRelationshipSources)
              case None => relationshipSources == old(relationshipSources)
              case Some(g) => relationshipSources.value.counts == g.counts && relationshipSources.value.id == g.into.id
    {
      hide Sound, AdvanceSources, GatheringOk, Remaining;
      var more := pendingRelationshipSources.Some?;
      ghost var start := pendingRelationshipSources;
      while more
        invariant Sound(w, View()) && graph == old(graph) && more == pendingRelationshipSources.Some?
        invariant more ==> start.Some? && pendingRelationshipSources.value.identity == Identity(w)
                           && pendingRelationshipSources.value.counts == start.value.counts
                           && pendingRelationshipSources.value.into.id == start.value.into.id
        invariant !more ==> Current(w, View())
        invariant !more && start.Some? ==>
                    relationshipSources.value.counts == start.value.counts
                      && relationshipSources.value.id == start.value.into.id
        invariant start.None? ==> relationshipSources == old(relationshipSources)
        decreases if pendingRelationshipSources.Some? then 1 + Remaining(pendingRelationshipSources.value) else 0
      {
        ghost var c := View();
        CollectorOk(w, c);
        AdvanceSourcesSound(w, c);
        CollectorStep(w, c);
        more := AdvanceRelationshipSourceUpdate(w);
      }
    }

    /** Runs the graph generator to its end, evaluations and their bindings included. */
    method DrainGraph(w: World) returns (w': World)
      requires Sound(w, View()) && Current(w, View()) && pendingRelationshipSources.None?
      requires graph.sources == Some(relationshipSources.value.id) && graph.pending.Some?
      modifies this
      ensures Sound(w', View()) && Current(w', View()) && pendingRelationshipSources.None?
      ensures relationshipSources == old(relationshipSources)
      ensures graph.sources == old(graph).sources && graph.pending.None? && graph.initialized
      ensures graph.count == UpdateEnd(old(graph))
      ensures |w'.latent| <= |w.latent| && (|w'.latent| == |w.latent| ==> w' == w)
    {
      hide Sound, AdvanceGraph, Bind;
      w' := w;
      var more := true;
      while more
        invariant Sound(w', View()) && Current(w', View()) && pendingRelationshipSources.None?
        invariant relationshipSources == old(relationshipSources)
        invariant graph.sources == old(graph).sources && more == graph.pending.Some?
        invariant |w'.latent| <= |w.latent| && (|w'.latent| == |w.latent| ==> w' == w)
        invariant if more then UpdateEnd(graph) == UpdateEnd(old(graph))
                  else graph.initialized && graph.count == UpdateEnd(old(graph))
        decreases if graph.pending.Some? then 1 + Turns(graph.pending.value) else 0, 0
      {
        ghost var c, v := View(), w';
        SoundLatent(w', c);
        AdvanceGraphSound(w', c);
        GraphStep(w', c);
        w', more := AdvanceRelationshipUpdate(w', false);
      }
    }

    /**
     * The synchronous read barrier: catches up until evaluation binds nothing
     * more, so what it returns is the recomputed projection of the world as
     * the last evaluation left it.
     */
    method CommittedRelationshipsFor(w: World) returns (w': World, awaiting: set<Id>, owed: set<Id>)
      requires Sound(w, View())
      modifies this
      ensures Sound(w', View()) && CaughtUp(w', View())
      ensures awaiting == Awaiting(w') && owed == Owed(w')
      ensures |w'.latent| == |w.latent| ==> w' == w
    {
      hide Sound, StartSources, AdvanceSources, AdvanceGraph, GatheringOk;
      w' := w;
      var more := true;
      while more
        invariant Sound(w', View())
        invariant |w'.latent| <= |w.latent| && (|w'.latent| == |w.latent| ==> w' == w)
        invariant !more ==> CaughtUp(w', View())
        decreases |w'.latent|, Rank(w', View()), more
      {
        ghost var v, before := w', View();
        StartRelationshipSourceUpdate(w');
        StartSourcesSound(w', before);
        ghost var started := View();
        DrainSources(w');
        ghost var ready := View();
        StartGraphSound(w', ready);
        StartRelationshipUpdate();
        if graph.pending.None? {
          NothingLeft(v, before, started, ready);
          more := false;
        } else {
          w' := DrainGraph(w');
          Closer(v, before, started, ready, View());
        }
      }
      CaughtUpAgrees(w', View());
      awaiting, owed := graph.awaiting, graph.owed;
    }
  }

  /** Turns the collecting generator still has to take. */
  ghost function Remaining(g: Gathering): nat {
    if g.record < |g.counts|
    then 1 + RemainingFrom(g.into.counts, g.counts, g.record + 1)
         + (if g.index < g.counts[g.record] then g.counts[g.record] - g.index else 0)
    else 0
  }

  ghost function RemainingFrom(from: seq<nat>, to: seq<nat>, i: nat): nat
    decreases |to| - i
  {
    if i >= |to| then 0
    else
      var start := if i < |from| then from[i] else 0;
      1 + (if start < to[i] then to[i] - start else 0) + RemainingFrom(from, to, i + 1)
  }

  lemma CollectorOk(w: World, c: Cache)
    requires Sound(w, c) && c.gathering.Some? && c.gathering.value.identity == Identity(w)
    ensures GatheringOk(w, c.gathering.value)
  {
  }

  /** A turn of the collector keeps what it was started for and gets closer to its end. */
  lemma CollectorStep(w: World, c: Cache)
    requires Sound(w, c) && c.gathering.Some? && c.gathering.value.identity == Identity(w)
    ensures var (g, d) := (c.gathering.value, AdvanceSources(w, c));
            && d.graph == c.graph
            && (d.gathering.Some? ==>
                  && d.gathering.value.identity == g.identity && d.gathering.value.counts == g.counts
                  && d.gathering.value.into.id == g.into.id && Remaining(d.gathering.value) < Remaining(g))
            && (d.gathering.None? ==>
                 Current(w, d) && d.sources.value.counts == g.counts && d.sources.value.id == g.into.id)
  {
    hide Gathered, Owing, GraphOk, WorldOk;
    var g := c.gathering.value;
    CollectorOk(w, c);
    assert RemainingFrom(g.into.counts, g.counts, g.record) >= 0;
  }

  ghost function UpdateEnd(g: Graph): nat
    requires g.pending.Some?
  {
    g.pending.value.end
  }

  ghost function Turns(u: Update): nat {
    match u
    case Collecting(index, changed, end) => if index < end then 2 * (end - index) + |changed| + 2 else |changed| + 2
    case Evaluating(todo, _) => |todo| + 1
  }

  lemma SoundLatent(w: World, c: Cache)
    requires Sound(w, c)
    ensures forall l :: l in w.latent ==> l.journal < |w.journals|
  {
  }

  lemma {:induction false} BindShrinks(w: World, r: Id)
    requires forall l :: l in w.latent ==> l.journal < |w.journals|
    ensures |Bind(w, r).latent| <= |w.latent| && (|Bind(w, r).latent| == |w.latent| ==> Bind(w, r) == w)
    decreases |w.latent|
  {
    if w.latent != [] && w.latent[0].trigger == r {
      var l := w.latent[0];
      var v := Touch(w.(latent := w.latent[1..]), l.journal, l.request, l.stake);
      assert forall x :: x in v.latent ==> x in w.latent;
      BindShrinks(v, r);
    }
  }

  lemma GraphStep(w: World, c: Cache)
    requires Sound(w, c) && Current(w, c) && c.graph.sources == Some(c.sources.value.id) && c.graph.pending.Some?
    requires forall l :: l in w.latent ==> l.journal < |w.journals|
    ensures var (w', d) := AdvanceGraph(w, c);
            && |w'.latent| <= |w.latent| && (|w'.latent| == |w.latent| ==> w' == w)
            && (d.graph.pending.Some? ==>
                 UpdateEnd(d.graph) == UpdateEnd(c.graph)
                   && Turns(d.graph.pending.value) < Turns(c.graph.pending.value))
            && (d.graph.pending.None? ==> d.graph.initialized && d.graph.count == UpdateEnd(c.graph))
  {
    hide Gathered, Owing, SourcesOk, WorldOk, Bind;
    match c.graph.pending.value {
      case Evaluating(todo, _) => if todo != [] { BindShrinks(w, todo[0]); }
      case Collecting(index, changed, end) =>
    }
  }

  /** How far the barrier is from being caught up, while nothing is bound. */
  ghost function Rank(w: World, c: Cache): nat {
    if c.gathering.Some? then 3
    else if Current(w, c) && c.graph.sources == Some(c.sources.value.id) && c.graph.pending.Some? then 2
    else if CaughtUp(w, c) then 0
    else 1
  }

  /** `ready` is what a check of the sources, started from `before`, leaves once it is collected. */
  ghost predicate Collected(w: World, before: Cache, started: Cache, ready: Cache) {
    && started == StartSources(w, before)
    && ready.gathering.None? && Current(w, ready) && ready.graph == before.graph
    && (if started.gathering.Some?
        then ready.sources.value.counts == started.gathering.value.counts
          && ready.sources.value.id == started.gathering.value.into.id
        else ready.sources == started.sources)
  }

  /** A collection started now reaches the present ends; one taken up again leaves the graph behind. */
  lemma CollectedFacts(w: World, before: Cache, started: Cache, ready: Cache)
    requires Sound(w, before) && Sound(w, ready) && Collected(w, before, started, ready)
    ensures ready.sources.value.counts == Lengths(w) || (started == before && before.gathering.Some?)
    ensures started == before && before.gathering.Some? ==> StartGraph(ready).graph.pending.Some?
    ensures CaughtUp(w, before) ==> StartGraph(ready).graph.pending.None?
    ensures before.graph.sources == Some(ready.sources.value.id) && before.gathering.None? ==>
              Current(w, before) && before.sources.value.id == ready.sources.value.id
  {
    hide Owing, WorldOk, GatheringOk, GraphOk;
    GatheredTotal(w, ready.sources.value.changes, ready.sources.value.counts);
    StartSourcesSound(w, before);
  }

  lemma NothingLeft(w: World, before: Cache, started: Cache, ready: Cache)
    requires Sound(w, before) && Sound(w, ready) && Collected(w, before, started, ready)
    requires StartGraph(ready).graph.pending.None?
    ensures CaughtUp(w, StartGraph(ready))
  {
    hide Sound, Collected;
    CollectedFacts(w, before, started, ready);
    assert ready.gathering.None? && Current(w, ready) by { ReadyFacts(w, before, started, ready); }
  }

  lemma ReadyFacts(w: World, before: Cache, started: Cache, ready: Cache)
    requires Collected(w, before, started, ready)
    ensures ready.gathering.None? && Current(w, ready) && ready.graph == before.graph
  {
  }

  /** A round of the barrier that bound nothing got closer to its end. */
  lemma Closer(w: World, before: Cache, started: Cache, ready: Cache, after: Cache)
    requires Sound(w, before) && Sound(w, ready) && Collected(w, before, started, ready)
    requires var g := StartGraph(ready).graph;
             && g.pending.Some? && after.sources == ready.sources && after.gathering.None?
             && after.graph.sources == g.sources && after.graph.pending.None? && after.graph.initialized
             && after.graph.count == UpdateEnd(g)
    ensures Rank(w, after) < Rank(w, before)
  {
    hide Sound, Collected;
    CollectedFacts(w, before, started, ready);
    ReadyFacts(w, before, started, ready);
  }
}
