/**
 * The shared change journal of Request Relationships and one Agent's graph fed
 * from it, in interruptible steps (src/coordination/request-relationships.ts:272-400).
 */
module RelationshipJournal {
  type Id = string

  datatype Option<T> = None | Some(value: T)

  // ----------------------------------------------------------- The outer world

  datatype Stake = Stake(awaiting: bool, owed: bool)

  const NO_STAKE := Stake(false, false)

  /** `state` and `scope` identify a transcript's journal; a new Identity entry starts a new scope. */
  datatype Journal = Journal(agent: Id, state: nat, scope: nat, changes: seq<Id>)

  /** Evaluating `trigger` for the first time binds `request`, journals it, and may change its stake. */
  datatype Latent = Latent(trigger: Id, journal: nat, request: Id, stake: Stake)

  /**
   * The roster's journals in roster order, the Creation Requests that name the
   * Agent as spawner, and the Agent's present stake in each Request. `past`
   * collects the journal identities of earlier rosters and scopes.
   */
  datatype World = World(
    journals: seq<Journal>, creationIds: seq<Id>, stakes: map<Id, Stake>, latent: seq<Latent>,
    past: set<seq<(Id, nat, nat)>>)

  function Identity(w: World): seq<(Id, nat, nat)> {
    seq(|w.journals|, i requires 0 <= i < |w.journals| =>
        (w.journals[i].agent, w.journals[i].state, w.journals[i].scope))
  }

  function Lengths(w: World): seq<nat> {
    seq(|w.journals|, i requires 0 <= i < |w.journals| => |w.journals[i].changes|)
  }

  function StakeOf(w: World, r: Id): Stake {
    if r in w.stakes then w.stakes[r] else NO_STAKE
  }

  ghost predicate Journaled(w: World, r: Id) {
    r in w.creationIds || exists i :: 0 <= i < |w.journals| && r in w.journals[i].changes
  }

  /** Whatever the Agent has a stake in is known from the journals or as a Creation Request. */
  ghost predicate WorldOk(w: World) {
    && (forall r {:trigger Journaled(w, r)} {:trigger w.stakes[r]} :: r in w.stakes && w.stakes[r] != NO_STAKE ==>
         Journaled(w, r))
    && (forall l :: l in w.latent ==> l.journal < |w.journals|)
    && Identity(w) !in w.past
  }

  /** A stake changes only together with an entry in some journal. */
  function Touch(w: World, i: nat, r: Id, s: Stake): World
    requires i < |w.journals|
  {
    w.(journals := w.journals[i := w.journals[i].(changes := w.journals[i].changes + [r])], stakes := w.stakes[r := s])
  }

  /** What evaluating `r` binds, one binding after the other. */
  function Bind(w: World, r: Id): World
    requires forall l :: l in w.latent ==> l.journal < |w.journals|
    decreases |w.latent|
  {
    if w.latent == [] || w.latent[0].trigger != r then w
    else
      var l := w.latent[0];
      Bind(Touch(w.(latent := w.latent[1..]), l.journal, l.request, l.stake), r)
  }

  // ------------------------------------------------------------------ The cache

  datatype Sources = Sources(id: nat, identity: seq<(Id, nat, nat)>, counts: seq<nat>, changes: seq<Id>,
      creationIds: seq<Id>)

  /**
   * The collecting generator: it appends `into.changes`, which are the published
   * ones unless `reset`, up to the captured `counts`.
   */
  datatype Gathering = Gathering(into: Sources, reset: bool, identity: seq<(Id, nat, nat)>, counts: seq<nat>,
      record: nat, index: nat)

  datatype Update = Collecting(index: nat, changed: seq<Id>, end: nat) | Evaluating(todo: seq<Id>, end: nat)

  datatype Graph = Graph(sources: Option<nat>, count: nat, initialized: bool, awaiting: set<Id>, owed: set<Id>,
      pending: Option<Update>)

  datatype Cache = Cache(sources: Option<Sources>, gathering: Option<Gathering>, graph: Graph, made: nat)

  const EMPTY_GRAPH := Graph(None, 0, false, {}, {}, None)
  const EMPTY_CACHE := Cache(None, None, EMPTY_GRAPH, 0)

  function Zeros(n: nat): seq<nat> {
    seq(n, i => 0)
  }

  // --------------------------------------------------------- Collecting changes

  function StartSources(w: World, c: Cache): Cache {
    if c.gathering.Some? && c.gathering.value.identity == Identity(w) then c
    else
      var previous := if c.gathering.Some? then None else c.sources;
      var d := c.(gathering := None, sources := previous);
      if previous.None? || previous.value.identity != Identity(w) then
        var into := Sources(c.made, Identity(w), Zeros(|w.journals|), [], w.creationIds);
        d.(made := c.made + 1, gathering := Some(Gathering(into, true, Identity(w), Lengths(w), 0, 0)))
      else if previous.value.counts == Lengths(w) then d
      else
        var start := if |previous.value.counts| > 0 then previous.value.counts[0] else 0;
        d.(gathering := Some(Gathering(previous.value, false, Identity(w), Lengths(w), 0, start)))
  }

  function StartOf(g: Gathering, record: nat): nat {
    if record < |g.into.counts| then g.into.counts[record] else 0
  }

  /** One turn of the collecting generator, within the slice that found its captured identity current. */
  function AdvanceSources(w: World, c: Cache): Cache
    requires c.gathering.Some?
  {
    var g := c.gathering.value;
    if g.record < |g.counts| then
      if g.index < g.counts[g.record] then
        if g.record < |w.journals| && g.index < |w.journals[g.record].changes| then
          var into := g.into.(changes := g.into.changes + [w.journals[g.record].changes[g.index]]);
          c.(gathering := Some(g.(into := into, index := g.index + 1)),
             sources := if g.reset then c.sources else Some(into))
        else c
      else c.(gathering := Some(g.(record := g.record + 1, index := StartOf(g, g.record + 1))))
    else
      c.(gathering := None, sources := Some(g.into.(counts := g.counts, identity := g.identity)))
  }

  // ------------------------------------------------------------ Updating a graph

  function StartGraph(c: Cache): Cache
    requires c.sources.Some?
  {
    var s := c.sources.value;
    var g := if c.graph.sources == Some(s.id) then c.graph else EMPTY_GRAPH.(sources := Some(s.id));
    if g.pending.Some? || (g.initialized && g.count == |s.changes|) then c.(graph := g)
    else
      c.(graph := g.(pending := Some(Collecting(g.count, if g.initialized then [] else s.creationIds, |s.changes|))))
  }

  function Add(ids: seq<Id>, id: Id): seq<Id> {
    if id in ids then ids else ids + [id]
  }

  function Member(g: Graph, r: Id): Stake {
    Stake(r in g.awaiting, r in g.owed)
  }

  function Write(g: Graph, r: Id, s: Stake): Graph {
    g.(awaiting := if s.awaiting then g.awaiting + {r} else g.awaiting - {r},
       owed := if s.owed then g.owed + {r} else g.owed - {r})
  }

  /** One turn of the graph generator; evaluating a Request may bind others. */
  function AdvanceGraph(w: World, c: Cache): (World, Cache)
    requires forall l :: l in w.latent ==> l.journal < |w.journals|
    requires c.sources.Some? && c.graph.pending.Some?
  {
    var g, changes := c.graph, c.sources.value.changes;
    match g.pending.value
    case Collecting(index, changed, end) =>
      if index < end && index < |changes| then
        (w, c.(graph := g.(pending := Some(Collecting(index + 1, Add(changed, changes[index]), end)))))
      else (w, c.(graph := g.(pending := Some(Evaluating(changed, end)))))
    case Evaluating(todo, end) =>
      if todo != [] then
        (Bind(w, todo[0]),
            c.(graph := Write(g, todo[0], StakeOf(w, todo[0])).(pending := Some(Evaluating(todo[1..], end)))))
      else (w, c.(graph := g.(pending := None, count := end, initialized := true)))
  }

  /** An evaluation that fails makes the graph start over from the journal. */
  function FailGraph(c: Cache): Cache {
    c.(graph := c.graph.(sources := None, pending := None))
  }
}
