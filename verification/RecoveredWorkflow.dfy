/** From the files on disk to the Owner's authority order: both preorders agree. */
module RecoveredWorkflow {
  import opened SpawnerChains
  import C = ColdRecovery
  import R = WorkflowRoster
  import T = SpawnTree

  /** No recovered session claims the Owner's own id. */
  predicate OwnerUnclaimed(cs: seq<Candidate>, owner: Owner) {
    forall i :: 0 <= i < |cs| ==> cs[i].agent != owner.agent
  }

  lemma NobodyClaims(cs: seq<Candidate>, owner: Owner)
    requires OwnerUnclaimed(cs, owner)
    ensures C.NoOwnerClaim(cs, owner)
  {
    hide Accepted;
    var claim := IndexOf(cs, owner.agent);
  }

  /** A Moderator's id is nobody else's. */
  lemma ModeratorsApart(cs: seq<Candidate>, owner: Owner, ordered: seq<Candidate>, a: Id)
    requires OwnerUnclaimed(cs, owner) && C.IsRecoveryOrder(cs, owner, ordered) && C.IsModerator(cs, owner, a)
    ensures a != owner.agent && a !in C.Agents(ordered)
  {
    hide Accepted, T.SpawnersFirst, T.Distinct, C.SiblingsSorted;
    var i :| 0 <= i < |cs| && cs[i].agent == a && cs[i].role == Moderator && Individually(cs, owner, i);
    if a in C.Agents(ordered) {
      var k :| 0 <= k < |ordered| && C.Agents(ordered)[k] == a;
      assert C.IsAccepted(cs, owner, ordered[k]);
      var j :| 0 <= j < |cs| && cs[j] == ordered[k] && Accepted(cs, owner, j);
      C.AcceptedIndividually(cs, owner, j);
    }
  }

  /**
   * Rebuilding the roster from the recovered order never misses a Direct
   * Spawner, and its authority order is the Owner, the recovered agents as they
   * were ordered, and the Moderators.
   */
  method RecoverWorkflow(cs: seq<Candidate>, owner: Owner)
    returns (ordered: seq<Candidate>, moderators: seq<Id>, order: R.Option<seq<Id>>)
    requires OwnerUnclaimed(cs, owner)
    ensures C.IsRecoveryOrder(cs, owner, ordered) && forall a :: a in moderators <==> C.IsModerator(cs, owner, a)
    ensures order == R.Some([owner.agent] + C.Agents(ordered) + moderators)
  {
    hide C.IsModerator, C.IsRecoveryOrder, T.ShapeOk, T.Under, T.Preorder, T.KidsOf, C.Spawners, OwnerUnclaimed,
         R.RecoveryOf;
    NobodyClaims(cs, owner);
    var quarantined: set<Id>;
    ghost var s: T.Shape;
    ghost var f: seq<T.Tree>;
    ordered, moderators, quarantined, s, f := C.DiscoverColdWorkflow(cs, owner);
    forall a | a in moderators
      ensures a != s.root && a !in T.Preorder(f)
    {
      ModeratorsApart(cs, owner, ordered, a);
    }
    var list := C.Agents(ordered);
    var recovered :=
        seq(|ordered|, i requires 0 <= i < |ordered| => R.RecoveredAgent(ordered[i].agent, ordered[i].spawner))
                     + seq(|moderators|, i requires 0 <= i < |moderators| => R.RecoveredModerator(moderators[i]));
    RecoveredList(cs, owner, ordered, moderators, s);
    var roster := new R.Roster(owner.agent);
    var missing := roster.Integrate(recovered, s, f, moderators);
    order := roster.AgentAuthorityOrder(s, f, moderators);
  }

  lemma RecoveredList(cs: seq<Candidate>, owner: Owner, ordered: seq<Candidate>, moderators: seq<Id>, s: T.Shape)
    requires C.IsRecoveryOrder(cs, owner, ordered) && s.spawner == C.Spawners(cs, owner)
    ensures forall a :: a in C.Agents(ordered) ==> a in s.spawner
    ensures R.RecoveryOf(s, C.Agents(ordered), moderators) ==
            seq(|ordered|, i requires 0 <= i < |ordered| => R.RecoveredAgent(ordered[i].agent, ordered[i].spawner))
            + seq(|moderators|, i requires 0 <= i < |moderators| => R.RecoveredModerator(moderators[i]))
  {
    hide Accepted, T.SpawnersFirst, T.Distinct, C.SiblingsSorted;
    forall i | 0 <= i < |ordered|
      ensures ordered[i].agent in s.spawner && s.spawner[ordered[i].agent] == ordered[i].spawner
    {
      assert C.IsAccepted(cs, owner, ordered[i]);
      C.OneCandidate(cs, owner, ordered[i], ordered[i]);
      C.SpawnerOf(cs, owner, ordered[i].agent);
    }
  }
}
