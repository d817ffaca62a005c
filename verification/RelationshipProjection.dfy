/**
 * The incremental projection against recomputation: under any slicing, with
 * stake changes, resets, lazy bindings and failed evaluations in between.
 */
module RelationshipProjection {
  import opened RelationshipJournal

  // ------------------------------------------------------ What was collected

  ghost predicate Within(js: seq<Journal>, done: seq<nat>) {
    |done| == |js| && forall i :: 0 <= i < |js| ==> done[i] <= |js[i].changes|
  }

  /** The first `done[i]` entries of every journal, counted. */
  ghost function Prefixes(js: seq<Journal>, done: seq<nat>): multiset<Id>
    requires Within(js, done)
  {
    if js == [] then multiset{}
    else
      var n := |js| - 1;
      Prefixes(js[..n], done[..n]) + multiset(js[n].changes[..done[n]])
  }

  /** Each journal entry up to `done` was collected exactly once, and nothing else was. */
  ghost predicate Gathered(w: World, changes: seq<Id>, done: seq<nat>) {
    Within(w.journals, done) && multiset(changes) == Prefixes(w.journals, done)
  }

  ghost predicate Unseen(w: World, done: seq<nat>, r: Id)
    requires Within(w.journals, done)
  {
    exists i :: 0 <= i < |w.journals| && r in w.journals[i].changes[done[i]..]
  }

  lemma {:induction false} PrefixesPush(js: seq<Journal>, done: seq<nat>, i: nat)
    requires Within(js, done) && i < |js| && done[i] < |js[i].changes|
    ensures Within(js, done[i := done[i] + 1])
    ensures Prefixes(js, done[i := done[i] + 1]) == Prefixes(js, done) + multiset{js[i].changes[done[i]]}
  {
    var n := |js| - 1;
    var more := done[i := done[i] + 1];
    if i == n {
      assert more[..n] == done[..n];
      assert js[n].changes[..done[n] + 1] == js[n].changes[..done[n]] + [js[n].changes[done[n]]];
    } else {
      assert more[..n] == done[..n][i := done[i] + 1];
      PrefixesPush(js[..n], done[..n], i);
    }
  }

  lemma {:induction false} PrefixesSame(js: seq<Journal>, js': seq<Journal>, done: seq<nat>)
    requires Within(js, done) && Within(js', done)
    requires forall i :: 0 <= i < |js| ==> js[i].changes[..done[i]] == js'[i].changes[..done[i]]
    ensures Prefixes(js, done) == Prefixes(js', done)
  {
    if js != [] {
      PrefixesSame(js[..|js| - 1], js'[..|js| - 1], done[..|js| - 1]);
    }
  }

  lemma {:induction false} PrefixesZero(js: seq<Journal>)
    ensures Within(js, Zeros(|js|)) && Prefixes(js, Zeros(|js|)) == multiset{}
  {
    if js != [] {
      PrefixesZero(js[..|js| - 1]);
      assert Zeros(|js|)[..|js| - 1] == Zeros(|js| - 1);
    }
  }

  lemma {:induction false} PrefixesHold(js: seq<Journal>, done: seq<nat>, i: nat, r: Id)
    requires Within(js, done) && i < |js| && r in js[i].changes[..done[i]]
    ensures r in Prefixes(js, done)
  {
    if i < |js| - 1 {
      PrefixesHold(js[..|js| - 1], done[..|js| - 1], i, r);
    }
  }

  // ---------------------------------------------------------------- Invariant

  ghost function Done(g: Gathering): seq<nat> {
    seq(|g.counts|, i requires 0 <= i < |g.counts| =>
        if i < g.record then g.counts[i] else if i == g.record then g.index else StartOf(g, i))
  }

  ghost predicate GatheringOk(w: World, g: Gathering) {
    && g.into.identity == g.identity && g.into.creationIds == w.creationIds
    && Within(w.journals, g.counts) && |g.into.counts| == |g.counts| && g.record <= |g.counts|
    && (forall i :: 0 <= i < |g.counts| ==> g.into.counts[i] <= g.counts[i])
    && (g.record < |g.counts| ==> g.into.counts[g.record] <= g.index <= g.counts[g.record])
    && Gathered(w, g.into.changes, Done(g))
  }

  /** How far the published changes reach into the journals. */
  ghost function Reach(c: Cache): seq<nat>
    requires c.sources.Some?
  {
    if c.gathering.Some? && !c.gathering.value.reset then Done(c.gathering.value) else c.sources.value.counts
  }

  ghost predicate Current(w: World, c: Cache) {
    c.sources.Some? && c.sources.value.identity == Identity(w)
  }

  function Total(counts: seq<nat>): nat {
    if counts == [] then 0 else Total(counts[..|counts| - 1]) + counts[|counts| - 1]
  }

  /** A graph that waits for a collection under way has nothing of it yet. */
  ghost predicate Behind(g: Graph, counts: seq<nat>) {
    match g.pending
    case None => g.initialized ==> g.count <= Total(counts)
    case Some(Collecting(_, _, end)) => end <= Total(counts)
    case Some(Evaluating(_, end)) => end <= Total(counts)
  }

  ghost predicate Waits(c: Cache) {
    c.gathering.Some? && !c.gathering.value.reset ==>
      && Total(c.gathering.value.into.counts) < Total(c.gathering.value.counts)
      && (c.graph.sources == Some(c.gathering.value.into.id) ==> Behind(c.graph, c.gathering.value.into.counts))
  }

  lemma {:induction false} PrefixesTotal(js: seq<Journal>, done: seq<nat>)
    requires Within(js, done)
    ensures |Prefixes(js, done)| == Total(done)
  {
    if js != [] {
      PrefixesTotal(js[..|js| - 1], done[..|js| - 1]);
    }
  }

  lemma {:induction false} TotalGrows(a: seq<nat>, b: seq<nat>)
    requires |a| == |b| && forall i :: 0 <= i < |a| ==> a[i] <= b[i]
    ensures Total(a) <= Total(b) && (Total(a) == Total(b) ==> a == b)
  {
    if a != [] {
      var n := |a| - 1;
      TotalGrows(a[..n], b[..n]);
      assert a == a[..n] + [a[n]] && b == b[..n] + [b[n]];
    }
  }

  lemma GatheredTotal(w: World, changes: seq<Id>, done: seq<nat>)
    requires Gathered(w, changes, done)
    ensures |changes| == Total(done)
  {
    PrefixesTotal(w.journals, done);
    assert |multiset(changes)| == |changes|;
  }

  ghost predicate SourcesOk(w: World, c: Cache) {
    && (c.sources.Some? ==>
         c.sources.value.id < c.made && (c.sources.value.identity == Identity(w) || c.sources.value.identity in w.past))
    && (c.gathering.Some? ==>
          var g := c.gathering.value;
          && g.into.id < c.made && (g.identity == Identity(w) || g.identity in w.past)
          && (g.identity == Identity(w) ==> GatheringOk(w, g))
          && (g.reset ==> c.graph.sources != Some(g.into.id) && (c.sources.Some? ==> c.sources.value.id != g.into.id))
          && (!g.reset ==> c.sources == Some(g.into) && g.into.identity == g.identity))
    && (c.graph.sources.Some? ==> c.graph.sources.value < c.made)
    && (Current(w, c) ==>
         c.sources.value.creationIds == w.creationIds && Gathered(w, c.sources.value.changes, Reach(c)))
  }

  predicate Agrees(w: World, g: Graph, r: Id) {
    Member(g, r) == StakeOf(w, r)
  }

  /** Where the graph differs from the present stakes, the difference is still ahead of it. */
  ghost predicate Owing(w: World, g: Graph, queued: seq<Id>, rest: seq<Id>, done: seq<nat>)
    requires Within(w.journals, done)
  {
    forall r {:trigger Agrees(w, g, r)} :: Agrees(w, g, r) || r in queued || r in rest || Unseen(w, done, r)
  }

  ghost predicate GraphOk(w: World, g: Graph, changes: seq<Id>, done: seq<nat>)
    requires Within(w.journals, done)
  {
    match g.pending
    case None =>
        if g.initialized then g.count <= |changes| && Owing(w, g, [], changes[g.count..], done)
        else g.count == 0 && g.awaiting == {} && g.owed == {}
    case Some(Collecting(index, changed, end)) =>
        index <= end <= |changes| && Owing(w, g, changed, changes[index..], done)
    case Some(Evaluating(todo, end)) => end <= |changes| && Owing(w, g, todo, changes[end..], done)
  }

  ghost predicate Follows(w: World, c: Cache) {
    Current(w, c) && c.graph.sources == Some(c.sources.value.id) ==>
      Within(w.journals, Reach(c)) && GraphOk(w, c.graph, c.sources.value.changes, Reach(c))
  }

  ghost predicate Sound(w: World, c: Cache) {
    WorldOk(w) && SourcesOk(w, c) && Follows(w, c) && Waits(c)
  }

  // -------------------------------------------------------------- World steps

  ghost predicate Moves(w: World, w': World) {
    || (exists i: nat, r, s :: i < |w.journals| && w' == Touch(w, i, r, s))
    || (w'.past == w.past + {Identity(w)} && WorldOk(w'))
  }

  lemma TouchFacts(w: World, i: nat, r: Id, s: Stake)
    requires i < |w.journals|
    ensures Identity(Touch(w, i, r, s)) == Identity(w)
    ensures forall done :: Within(w.journals, done) ==> Within(Touch(w, i, r, s).journals, done)
  {
  }

  lemma TouchGathered(w: World, i: nat, r: Id, s: Stake, changes: seq<Id>, done: seq<nat>)
    requires i < |w.journals| && Gathered(w, changes, done)
    ensures Gathered(Touch(w, i, r, s), changes, done)
  {
    PrefixesSame(w.journals, Touch(w, i, r, s).journals, done);
  }

  lemma TouchOwing(w: World, i: nat, r: Id, s: Stake, g: Graph, queued: seq<Id>, rest: seq<Id>, done: seq<nat>)
    requires i < |w.journals| && Within(w.journals, done) && Within(Touch(w, i, r, s).journals, done)
    requires Owing(w, g, queued, rest, done)
    ensures Owing(Touch(w, i, r, s), g, queued, rest, done)
  {
    var w' := Touch(w, i, r, s);
    forall x
      ensures Agrees(w', g, x) || x in queued || x in rest || Unseen(w', done, x)
    {
      if x == r {
        assert w'.journals[i].changes[done[i]..][|w.journals[i].changes| - done[i]] == r;
      } else if Unseen(w, done, x) {
        var k :| 0 <= k < |w.journals| && x in w.journals[k].changes[done[k]..];
        assert x in w'.journals[k].changes[done[k]..] by {
          assert k == i ==> w'.journals[k].changes[done[k]..] == w.journals[k].changes[done[k]..] + [r];
        }
      } else {
        assert Agrees(w, g, x) || x in queued || x in rest;
      }
    }
  }

  lemma TouchWorld(w: World, i: nat, r: Id, s: Stake)
    requires i < |w.journals| && WorldOk(w)
    ensures WorldOk(Touch(w, i, r, s))
  {
    var w' := Touch(w, i, r, s);
    TouchFacts(w, i, r, s);
    assert w'.journals[i].changes[|w.journals[i].changes|] == r;
    forall x | x in w'.stakes && w'.stakes[x] != NO_STAKE
      ensures Journaled(w', x)
    {
      if x != r {
        assert Journaled(w, x);
        if k :| 0 <= k < |w.journals| && x in w.journals[k].changes {
          assert x in w'.journals[k].changes;
        }
      }
    }
  }

  /** A stake change, or any touch of a journal. */
  lemma TouchSound(w: World, c: Cache, i: nat, r: Id, s: Stake)
    requires Sound(w, c) && i < |w.journals|
    ensures Sound(Touch(w, i, r, s), c)
  {
    hide Owing, Gathered, WorldOk;
    var w' := Touch(w, i, r, s);
    TouchWorld(w, i, r, s);
    TouchFacts(w, i, r, s);
    if c.gathering.Some? && c.gathering.value.identity == Identity(w) {
      TouchGathered(w, i, r, s, c.gathering.value.into.changes, Done(c.gathering.value));
    }
    if Current(w, c) {
      TouchGathered(w, i, r, s, c.sources.value.changes, Reach(c));
      if c.graph.sources == Some(c.sources.value.id) {
        var g, changes, done := c.graph, c.sources.value.changes, Reach(c);
        match g.pending {
          case None => if g.initialized { TouchOwing(w, i, r, s, g, [], changes[g.count..], done); }
          case Some(Collecting(index, changed, end)) => TouchOwing(w, i, r, s, g, changed, changes[index..], done);
          case Some(Evaluating(todo, end)) => TouchOwing(w, i, r, s, g, todo, changes[end..], done);
        }
      }
    }
  }

  /** A new roster or scope: nothing cached is current any more. */
  lemma ResetSound(w: World, c: Cache, w': World)
    requires Sound(w, c) && w'.past == w.past + {Identity(w)} && WorldOk(w')
    ensures Sound(w', c)
  {
    hide GatheringOk, GraphOk, Gathered;
  }

  // -------------------------------------------------------- Collecting changes

  lemma StartSourcesSound(w: World, c: Cache)
    requires Sound(w, c)
    ensures Sound(w, StartSources(w, c)) && StartSources(w, c).graph == c.graph
    ensures var d := StartSources(w, c);
            if d.gathering.Some? then d.gathering.value.identity == Identity(w)
            else Current(w, d) && d.sources.value.counts == Lengths(w)
  {
    hide Owing, WorldOk;
    var d := StartSources(w, c);
    if d != c && d.gathering.Some? {
      var g := d.gathering.value;
      if g.reset {
        assert Done(g) == Zeros(|w.journals|);
        PrefixesZero(w.journals);
      } else {
        assert Done(g) == c.sources.value.counts;
        GatheredTotal(w, c.sources.value.changes, c.sources.value.counts);
        TotalGrows(c.sources.value.counts, Lengths(w));
      }
    }
  }

  lemma PushGathered(w: World, g: Gathering)
    requires GatheringOk(w, g) && g.record < |g.counts| && g.index < g.counts[g.record]
    ensures var into := g.into.(changes := g.into.changes + [w.journals[g.record].changes[g.index]]);
            GatheringOk(w, g.(into := into, index := g.index + 1))
  {
    hide Prefixes;
    var into := g.into.(changes := g.into.changes + [w.journals[g.record].changes[g.index]]);
    var g' := g.(into := into, index := g.index + 1);
    PrefixesPush(w.journals, Done(g), g.record);
    assert Done(g') == Done(g)[g.record := g.index + 1];
  }

  lemma PassGathered(w: World, g: Gathering)
    requires GatheringOk(w, g) && g.record < |g.counts| && g.index >= g.counts[g.record]
    ensures GatheringOk(w, g.(record := g.record + 1, index := StartOf(g, g.record + 1)))
    ensures Done(g.(record := g.record + 1, index := StartOf(g, g.record + 1))) == Done(g)
  {
    assert Done(g.(record := g.record + 1, index := StartOf(g, g.record + 1))) == Done(g);
  }

  /** More collected: what a graph is owed stays ahead of it. */
  lemma PushOwing(w: World, g: Graph, queued: seq<Id>, changes: seq<Id>, from: nat, done: seq<nat>, i: nat)
    requires Within(w.journals, done) && i < |done| && done[i] < |w.journals[i].changes| && from <= |changes|
    requires Owing(w, g, queued, changes[from..], done)
    ensures Within(w.journals, done[i := done[i] + 1])
    ensures Owing(w, g, queued, (changes + [w.journals[i].changes[done[i]]])[from..], done[i := done[i] + 1])
  {
    var e := w.journals[i].changes[done[i]];
    var rest := (changes + [e])[from..];
    assert rest == changes[from..] + [e];
    forall x
      ensures Agrees(w, g, x) || x in queued || x in rest || Unseen(w, done[i := done[i] + 1], x)
    {
      if Unseen(w, done, x) && x != e {
        var k :| 0 <= k < |w.journals| && x in w.journals[k].changes[done[k]..];
        assert k == i ==> w.journals[i].changes[done[i]..] == [e] + w.journals[i].changes[done[i] + 1..];
      } else {
        assert Agrees(w, g, x) || x in queued || x in changes[from..] || x == e;
      }
    }
  }

  lemma PushGraph(w: World, g: Graph, changes: seq<Id>, done: seq<nat>, i: nat)
    requires Within(w.journals, done) && i < |done| && done[i] < |w.journals[i].changes|
    requires GraphOk(w, g, changes, done)
    ensures Within(w.journals, done[i := done[i] + 1])
    ensures GraphOk(w, g, changes + [w.journals[i].changes[done[i]]], done[i := done[i] + 1])
  {
    hide Owing;
    match g.pending {
      case None => if g.initialized { PushOwing(w, g, [], changes, g.count, done, i); }
      case Some(Collecting(index, changed, end)) => PushOwing(w, g, changed, changes, index, done, i);
      case Some(Evaluating(todo, end)) => PushOwing(w, g, todo, changes, end, done, i);
    }
  }

  /** One turn of the collecting generator. */
  lemma AdvanceSourcesSound(w: World, c: Cache)
    requires Sound(w, c) && c.gathering.Some? && c.gathering.value.identity == Identity(w)
    ensures Sound(w, AdvanceSources(w, c))
  {
    hide Owing, GraphOk, WorldOk, GatheringOk, Gathered, Done;
    var g, d := c.gathering.value, AdvanceSources(w, c);
    GatheringBounds(w, g);
    if g.record < |g.counts| {
      if g.index < g.counts[g.record] {
        PushGathered(w, g);
        Published(w, d.gathering.value);
        DonePush(w, g);
        if !g.reset && Current(w, c) && c.graph.sources == Some(c.sources.value.id) {
          PushGraph(w, c.graph, g.into.changes, Done(g), g.record);
        }
      } else {
        PassGathered(w, g);
        Published(w, d.gathering.value);
      }
    } else {
      DoneAtEnd(w, g);
      Published(w, g);
    }
  }

  lemma GatheringBounds(w: World, g: Gathering)
    requires GatheringOk(w, g)
    ensures |g.counts| == |w.journals| && forall i :: 0 <= i < |g.counts| ==> g.counts[i] <= |w.journals[i].changes|
  {
  }

  lemma Published(w: World, g: Gathering)
    requires GatheringOk(w, g)
    ensures Gathered(w, g.into.changes, Done(g)) && g.into.creationIds == w.creationIds
    ensures Within(w.journals, Done(g))
  {
  }

  lemma DonePush(w: World, g: Gathering)
    requires GatheringOk(w, g) && g.record < |g.counts| && g.index < g.counts[g.record]
    ensures var into := g.into.(changes := g.into.changes + [w.journals[g.record].changes[g.index]]);
            g.record < |Done(g)| && Done(g)[g.record] == g.index
            && Done(g.(into := into, index := g.index + 1)) == Done(g)[g.record := g.index + 1]
  {
    var into := g.into.(changes := g.into.changes + [w.journals[g.record].changes[g.index]]);
    assert Done(g.(into := into, index := g.index + 1)) == Done(g)[g.record := g.index + 1];
  }

  lemma DoneAtEnd(w: World, g: Gathering)
    requires GatheringOk(w, g) && g.record >= |g.counts|
    ensures Done(g) == g.counts
  {
    assert Done(g) == g.counts;
  }

  // ------------------------------------------------------------ Updating a graph

  lemma NothingWritten(w: World, g: Graph, changed: seq<Id>, changes: seq<Id>, done: seq<nat>)
    requires WorldOk(w) && Gathered(w, changes, done) && changed == w.creationIds
    requires g.awaiting == {} && g.owed == {}
    ensures Owing(w, g, changed, changes, done)
  {
    forall r
      ensures Agrees(w, g, r) || r in changed || r in changes || Unseen(w, done, r)
    {
      if !Agrees(w, g, r) && r !in changed {
        assert Journaled(w, r);
        var i :| 0 <= i < |w.journals| && r in w.journals[i].changes;
        assert w.journals[i].changes == w.journals[i].changes[..done[i]] + w.journals[i].changes[done[i]..];
        if r in w.journals[i].changes[..done[i]] {
          PrefixesHold(w.journals, done, i, r);
          assert r in multiset(changes);
        }
      }
    }
  }

  lemma StartGraphSound(w: World, c: Cache)
    requires Sound(w, c) && Current(w, c) && c.gathering.None?
    ensures Sound(w, StartGraph(c))
    ensures var d := StartGraph(c);
            d.graph.sources == Some(c.sources.value.id) && d.sources == c.sources && d.gathering == c.gathering
  {
    hide Owing, WorldOk, GatheringOk;
    var d := StartGraph(c);
    var changes, done := c.sources.value.changes, Reach(c);
    if d.graph.pending.Some? && d.graph != c.graph {
      if d.graph.initialized {
        assert changes[c.graph.count..] == changes[d.graph.pending.value.index..];
        OwingMoves(w, c.graph, d.graph, [], changes[c.graph.count..], done);
      } else {
        assert changes[0..] == changes;
        NothingWritten(w, d.graph, w.creationIds, changes, done);
      }
    }
  }

  lemma OwingMoves(w: World, g: Graph, h: Graph, queued: seq<Id>, rest: seq<Id>, done: seq<nat>)
    requires Within(w.journals, done) && Owing(w, g, queued, rest, done)
    requires g.awaiting == h.awaiting && g.owed == h.owed
    ensures Owing(w, h, queued, rest, done)
  {
    forall r
      ensures Agrees(w, h, r) || r in queued || r in rest || Unseen(w, done, r)
    {
      assert Agrees(w, g, r) == Agrees(w, h, r);
    }
  }

  lemma {:induction false} BindSound(w: World, c: Cache, r: Id)
    requires Sound(w, c)
    ensures Sound(Bind(w, r), c) && Identity(Bind(w, r)) == Identity(w) && Bind(w, r).creationIds == w.creationIds
    decreases |w.latent|
  {
    hide SourcesOk, Follows, Waits;
    if w.latent != [] && w.latent[0].trigger == r {
      var l, v := w.latent[0], w.(latent := w.latent[1..]);
      LatentSound(w, c);
      TouchSound(v, c, l.journal, l.request, l.stake);
      TouchFacts(v, l.journal, l.request, l.stake);
      BindSound(Touch(v, l.journal, l.request, l.stake), c, r);
    }
  }

  lemma LatentSound(w: World, c: Cache)
    requires Sound(w, c) && w.latent != []
    ensures var v := w.(latent := w.latent[1..]); Sound(v, c) && Identity(v) == Identity(w)
    ensures forall l :: l in w.latent[1..] ==> l in w.latent
  {
    hide Gathered, Within;
    var v := w.(latent := w.latent[1..]);
    assert Identity(v) == Identity(w);
    forall r | r in v.stakes && v.stakes[r] != NO_STAKE
      ensures Journaled(v, r)
    {
      assert Journaled(w, r);
    }
    SameFacts(w, v, c);
  }

  /** Soundness looks at journals, stakes and identities only. */
  lemma SameFacts(w: World, v: World, c: Cache)
    requires v == w.(latent := v.latent) && SourcesOk(w, c) && Follows(w, c)
    ensures SourcesOk(v, c) && Follows(v, c)
  {
    hide Prefixes;
    assert Identity(v) == Identity(w);
    if Current(w, c) && c.graph.sources == Some(c.sources.value.id) {
      var g, changes, done := c.graph, c.sources.value.changes, Reach(c);
      match g.pending {
        case None => if g.initialized { SameOwing(w, v, g, [], changes[g.count..], done); }
        case Some(Collecting(index, changed, end)) => SameOwing(w, v, g, changed, changes[index..], done);
        case Some(Evaluating(todo, end)) => SameOwing(w, v, g, todo, changes[end..], done);
      }
    }
  }

  lemma SameOwing(w: World, v: World, g: Graph, queued: seq<Id>, rest: seq<Id>, done: seq<nat>)
    requires v == w.(latent := v.latent) && Within(w.journals, done) && Owing(w, g, queued, rest, done)
    ensures Owing(v, g, queued, rest, done)
  {
    forall r
      ensures Agrees(v, g, r) || r in queued || r in rest || Unseen(v, done, r)
    {
      assert Agrees(w, g, r) == Agrees(v, g, r);
      assert Unseen(w, done, r) == Unseen(v, done, r);
    }
  }

  lemma CollectOwing(w: World, g: Graph, h: Graph, changed: seq<Id>, changes: seq<Id>, index: nat, done: seq<nat>)
    requires Within(w.journals, done) && index < |changes| && Owing(w, g, changed, changes[index..], done)
    requires g.awaiting == h.awaiting && g.owed == h.owed
    ensures Owing(w, h, Add(changed, changes[index]), changes[index + 1..], done)
  {
    assert changes[index..] == [changes[index]] + changes[index + 1..];
    forall r
      ensures Agrees(w, h, r) || r in Add(changed, changes[index]) || r in changes[index + 1..] || Unseen(w, done, r)
    {
      assert Agrees(w, g, r) == Agrees(w, h, r);
    }
  }

  lemma WriteOwing(w: World, g: Graph, h: Graph, todo: seq<Id>, rest: seq<Id>, done: seq<nat>)
    requires Within(w.journals, done) && todo != [] && Owing(w, g, todo, rest, done)
    requires h.awaiting == Write(g, todo[0], StakeOf(w, todo[0])).awaiting
    requires h.owed == Write(g, todo[0], StakeOf(w, todo[0])).owed
    ensures Owing(w, h, todo[1..], rest, done)
  {
    assert todo == [todo[0]] + todo[1..];
    forall r
      ensures Agrees(w, h, r) || r in todo[1..] || r in rest || Unseen(w, done, r)
    {
      assert r != todo[0] ==> Agrees(w, g, r) == Agrees(w, h, r);
    }
  }

  /** One turn of the graph generator, lazy bindings included. */
  lemma AdvanceGraphSound(w: World, c: Cache)
    requires Sound(w, c) && Current(w, c) && c.gathering.None? && c.graph.sources == Some(c.sources.value.id)
    requires c.graph.pending.Some?
    ensures var (w', d) := AdvanceGraph(w, c);
            && Sound(w', d) && Current(w', d) && d.graph.sources == c.graph.sources
            && d.sources == c.sources && d.gathering == c.gathering && d.made == c.made
  {
    hide Owing, Gathered, WorldOk, GatheringOk, Bind;
    var g, changes, done := c.graph, c.sources.value.changes, Reach(c);
    LatentOk(w);
    match g.pending.value {
      case Collecting(index, changed, end) =>
        var h := AdvanceGraph(w, c).1.graph;
        if index < end {
          CollectOwing(w, g, h, changed, changes, index, done);
        } else {
          OwingMoves(w, g, h, changed, changes[end..], done);
        }
      case Evaluating(todo, end) =>
        if todo != [] {
          var h := Write(g, todo[0], StakeOf(w, todo[0])).(pending := Some(Evaluating(todo[1..], end)));
          WriteOwing(w, g, h, todo, changes[end..], done);
          BindSound(w, c.(graph := h), todo[0]);
        } else {
          var h := g.(pending := None, count := end, initialized := true);
          OwingMoves(w, g, h, [], changes[end..], done);
        }
    }
  }

  lemma LatentOk(w: World)
    requires WorldOk(w)
    ensures forall l :: l in w.latent ==> l.journal < |w.journals|
  {
  }

  lemma FailGraphSound(w: World, c: Cache)
    requires Sound(w, c)
    ensures Sound(w, FailGraph(c))
  {
    hide GraphOk, GatheringOk, Gathered;
  }

  // --------------------------------------------------------------------- Runs

  datatype State = State(world: World, cache: Cache)

  /**
   * One step: a stake change or a touch, a new roster or scope, or one turn of
   * the shared collection or of the graph in a slice that first brought what it
   * uses up to date.
   */
  ghost predicate Step(s: State, t: State) {
    || (s.cache == t.cache && Moves(s.world, t.world))
    || (t == s.(cache := StartSources(s.world, s.cache)))
    || (s.cache.gathering.Some? && s.cache.gathering.value.identity == Identity(s.world)
        && t == s.(cache := AdvanceSources(s.world, s.cache)))
    || (Current(s.world, s.cache) && s.cache.gathering.None? && t == s.(cache := StartGraph(s.cache)))
    || (Updating(s) && (t.world, t.cache) == AdvanceGraph(s.world, s.cache))
    || t == s.(cache := FailGraph(s.cache))
  }

  ghost predicate Updating(s: State) {
    && Current(s.world, s.cache) && s.cache.gathering.None? && s.cache.graph.sources == Some(s.cache.sources.value.id)
    && s.cache.graph.pending.Some?
    && (forall l :: l in s.world.latent ==> l.journal < |s.world.journals|)
  }

  ghost predicate Run(ss: seq<State>) {
    ss != [] && WorldOk(ss[0].world) && ss[0].cache == EMPTY_CACHE && forall i :: 0 <= i < |ss| - 1 ==>
        Step(ss[i], ss[i + 1])
  }

  lemma StepSound(s: State, t: State)
    requires Sound(s.world, s.cache) && Step(s, t)
    ensures Sound(t.world, t.cache)
  {
    hide SourcesOk, Follows, WorldOk, AdvanceGraph, AdvanceSources, StartGraph, StartSources, FailGraph, Touch;
    var w, c := s.world, s.cache;
    if s.cache == t.cache && Moves(s.world, t.world) {
      if i: nat, r, stake :| i < |w.journals| && t.world == Touch(w, i, r, stake) {
        TouchSound(w, c, i, r, stake);
      } else {
        ResetSound(w, c, t.world);
      }
    } else if t == s.(cache := StartSources(w, c)) {
      StartSourcesSound(w, c);
    } else if c.gathering.Some? && c.gathering.value.identity == Identity(w) && t == s.(cache := AdvanceSources(w, c)) {
      AdvanceSourcesSound(w, c);
    } else if Current(w, c) && c.gathering.None? && t == s.(cache := StartGraph(c)) {
      StartGraphSound(w, c);
    } else if t == s.(cache := FailGraph(c)) {
      FailGraphSound(w, c);
    } else {
      AdvanceGraphSound(w, c);
    }
  }

  lemma {:induction false} RunSound(ss: seq<State>, i: nat)
    requires Run(ss) && i < |ss|
    ensures Sound(ss[i].world, ss[i].cache)
    decreases i
  {
    hide Sound, Step;
    if i == 0 {
      StartSound(ss[0].world);
    } else {
      RunSound(ss, i - 1);
      assert Step(ss[i - 1], ss[i - 1 + 1]);
      StepSound(ss[i - 1], ss[i]);
    }
  }

  lemma StartSound(w: World)
    requires WorldOk(w)
    ensures Sound(w, EMPTY_CACHE)
  {
  }

  /** Nothing is left to collect or to evaluate. */
  ghost predicate CaughtUp(w: World, c: Cache) {
    && Current(w, c) && c.gathering.None? && c.sources.value.counts == Lengths(w)
    && c.graph.sources == Some(c.sources.value.id) && c.graph.pending.None?
    && c.graph.initialized && c.graph.count == |c.sources.value.changes|
  }

  ghost function Awaiting(w: World): set<Id> {
    set r | r in w.stakes && w.stakes[r].awaiting
  }

  ghost function Owed(w: World): set<Id> {
    set r | r in w.stakes && w.stakes[r].owed
  }

  lemma CaughtUpAgrees(w: World, c: Cache)
    requires Sound(w, c) && CaughtUp(w, c)
    ensures c.graph.awaiting == Awaiting(w) && c.graph.owed == Owed(w)
  {
    hide Gathered;
    var done := Reach(c);
    forall r
      ensures Member(c.graph, r) == StakeOf(w, r)
    {
      assert !Unseen(w, done, r);
      assert Agrees(w, c.graph, r);
    }
    forall r
      ensures r in c.graph.awaiting <==> r in Awaiting(w)
      ensures r in c.graph.owed <==> r in Owed(w)
    {
      var m := Member(c.graph, r);
    }
  }

  /** A caught-up graph is the recomputed projection, however the work was sliced and whatever happened in between. */
  lemma ProjectionEqualsRecomputation(ss: seq<State>, i: nat)
    requires Run(ss) && i < |ss| && CaughtUp(ss[i].world, ss[i].cache)
    ensures ss[i].cache.graph.awaiting == Awaiting(ss[i].world) && ss[i].cache.graph.owed == Owed(ss[i].world)
  {
    hide Run, Sound, CaughtUp;
    RunSound(ss, i);
    CaughtUpAgrees(ss[i].world, ss[i].cache);
  }

  /** The shared journal holds every entry it has reached exactly once. */
  lemma EntriesAreCollectedOnce(ss: seq<State>, i: nat)
    requires Run(ss) && i < |ss| && Current(ss[i].world, ss[i].cache)
    ensures var (w, c) := (ss[i].world, ss[i].cache);
            Within(w.journals, Reach(c)) && multiset(c.sources.value.changes) == Prefixes(w.journals, Reach(c))
  {
    hide Run, Follows, WorldOk, Prefixes;
    RunSound(ss, i);
  }

  /** A caught-up graph is served as it is: bringing it up to date neither collects nor evaluates anything. */
  lemma CaughtUpCostsNothing(w: World, c: Cache)
    requires CaughtUp(w, c)
    ensures StartSources(w, c) == c && StartGraph(c) == c
  {
  }

  /**
   * After one change a caught-up cache goes on from where it is: it collects
   * into the journal it has, and the graph looks at what is new there, keeping
   * its members; nothing starts over.
   */
  lemma CatchingUpIsIncremental(w: World, c: Cache, i: nat, r: Id, s: Stake, more: seq<Id>)
    requires CaughtUp(w, c) && i < |w.journals| && more != []
    ensures var d := StartSources(Touch(w, i, r, s), c);
            && d == c.(gathering := d.gathering) && d.gathering.Some?
            && !d.gathering.value.reset && d.gathering.value.into == c.sources.value
    ensures var into := c.sources.value.(changes := c.sources.value.changes + more);
            StartGraph(c.(sources := Some(into))).graph
              == c.graph.(pending := Some(Collecting(|c.sources.value.changes|, [], |into.changes|)))
  {
    var w' := Touch(w, i, r, s);
    assert Identity(w') == Identity(w);
    assert Lengths(w')[i] == Lengths(w)[i] + 1;
  }
}
