/**
 * Which recovered candidates are accepted: individual checks, then a memoised
 * walk up the spawner chain with cycle detection
 * (src/bootstrap/cold-host-discovery.ts:130-256).
 */
module SpawnerChains {
  type Id = string

  datatype Option<T> = None | Some(value: T)

  datatype Role = Ordinary | Moderator

  /** `sound` says that the spawn resolves in the spawner's transcript and the child's own records agree with it. */
  datatype Candidate = Candidate(role: Role, agent: Id, workflow: Id, spawner: Id, source: Id, spawnOrder: (nat, nat),
      sound: bool)

  datatype Owner = Owner(agent: Id, workflow: Id)

  predicate UniqueAgent(cs: seq<Candidate>, i: nat)
    requires i < |cs|
  {
    forall j :: 0 <= j < |cs| && j != i ==> cs[j].agent != cs[i].agent
  }

  /** Only ordinary candidates claim spawn sources. */
  predicate UniqueSource(cs: seq<Candidate>, i: nat)
    requires i < |cs|
  {
    forall j :: 0 <= j < |cs| && j != i && cs[j].role == Ordinary ==> cs[j].source != cs[i].source
  }

  predicate Claims(cs: seq<Candidate>, j: nat, id: Id)
    requires j < |cs|
  {
    cs[j].role == Ordinary && cs[j].agent == id && UniqueAgent(cs, j)
  }

  /** The one ordinary candidate of that id, when no other candidate claims it. */
  function IndexOf(cs: seq<Candidate>, id: Id): (r: Option<nat>)
    ensures r.Some? ==> r.value < |cs| && Claims(cs, r.value, id)
    ensures r.None? ==> forall j :: 0 <= j < |cs| ==> !Claims(cs, j, id)
  {
    Search(cs, id, 0)
  }

  function Search(cs: seq<Candidate>, id: Id, from: nat): (r: Option<nat>)
    requires from <= |cs|
    ensures r.Some? ==> r.value < |cs| && Claims(cs, r.value, id)
    ensures r.None? ==> forall j :: from <= j < |cs| ==> !Claims(cs, j, id)
    decreases |cs| - from
  {
    if from == |cs| then None else if Claims(cs, from, id) then Some(from) else Search(cs, id, from + 1)
  }

  function Spawner(cs: seq<Candidate>, i: nat): (r: Option<nat>)
    requires i < |cs|
    ensures r.Some? ==> r.value < |cs| && cs[r.value].role == Ordinary
  {
    IndexOf(cs, cs[i].spawner)
  }

  predicate Individually(cs: seq<Candidate>, owner: Owner, i: nat)
    requires i < |cs|
  {
    && UniqueAgent(cs, i) && cs[i].workflow == owner.workflow
    && (cs[i].role == Ordinary ==>
          UniqueSource(cs, i) && (cs[i].spawner == owner.agent || Spawner(cs, i).Some?) && cs[i].sound)
  }

  /** The candidate and, going up at most `n` spawners, everyone up to the Owner is individually valid. */
  predicate Rooted(cs: seq<Candidate>, owner: Owner, i: nat, n: nat)
    requires i < |cs|
    decreases n
  {
    && cs[i].role == Ordinary && Individually(cs, owner, i)
    && (cs[i].spawner == owner.agent
        || (n > 0 && Spawner(cs, i).Some? && Rooted(cs, owner, Spawner(cs, i).value, n - 1)))
  }

  ghost predicate Accepted(cs: seq<Candidate>, owner: Owner, i: nat)
    requires i < |cs|
  {
    exists n: nat :: Rooted(cs, owner, i, n)
  }

  lemma AcceptedUp(cs: seq<Candidate>, owner: Owner, i: nat)
    requires i < |cs| && cs[i].role == Ordinary && Individually(cs, owner, i)
    ensures cs[i].spawner == owner.agent ==> Accepted(cs, owner, i)
    ensures cs[i].spawner != owner.agent ==>
              (Accepted(cs, owner, i) <==> Spawner(cs, i).Some? && Accepted(cs, owner, Spawner(cs, i).value))
  {
    hide Individually, Spawner;
    if cs[i].spawner == owner.agent {
      assert Rooted(cs, owner, i, 0);
    } else {
      if Accepted(cs, owner, i) {
        var n: nat :| Rooted(cs, owner, i, n);
        assert Rooted(cs, owner, Spawner(cs, i).value, n - 1);
      }
      if Spawner(cs, i).Some? && Accepted(cs, owner, Spawner(cs, i).value) {
        var n: nat :| Rooted(cs, owner, Spawner(cs, i).value, n);
        assert Rooted(cs, owner, i, n + 1);
      }
    }
  }

  /** Right on its own: the only claim of its agent and of its spawn, of this Workflow, its records in agreement. */
  ghost predicate IsRight(cs: seq<Candidate>, owner: Owner, i: int)
    requires 0 <= i < |cs|
  {
    && (forall j :: 0 <= j < |cs| && cs[j].agent == cs[i].agent ==> j == i)
    && (forall j :: 0 <= j < |cs| && cs[j].role == Ordinary && cs[j].source == cs[i].source ==> j == i)
    && cs[i].role == Ordinary && cs[i].workflow == owner.workflow && cs[i].sound
  }

  /** Candidates, each right on its own and spawned by the next, the last one by the Owner. */
  ghost predicate IsChain(cs: seq<Candidate>, owner: Owner, chain: seq<nat>) {
    && chain != [] && (forall k :: 0 <= k < |chain| ==> chain[k] < |cs| && IsRight(cs, owner, chain[k]))
    && (forall k, l {:trigger chain[k], chain[l]} :: 0 <= k < l < |chain| && l == k + 1 ==>
         cs[chain[k]].spawner == cs[chain[l]].agent)
    && cs[chain[|chain| - 1]].spawner == owner.agent
  }

  lemma RightIndividually(cs: seq<Candidate>, owner: Owner, i: nat)
    requires i < |cs|
    ensures cs[i].role == Ordinary && Individually(cs, owner, i) ==> IsRight(cs, owner, i)
    ensures IsRight(cs, owner, i) && (cs[i].spawner == owner.agent || Spawner(cs, i).Some?) ==>
              cs[i].role == Ordinary && Individually(cs, owner, i)
  {
    hide IndexOf;
  }

  /** A spawner that is right on its own is found by its id. */
  lemma RightIsFound(cs: seq<Candidate>, owner: Owner, i: nat, j: nat)
    requires i < |cs| && j < |cs| && IsRight(cs, owner, j) && cs[i].spawner == cs[j].agent
    ensures Spawner(cs, i) == Some(j)
  {
    assert Claims(cs, j, cs[i].spawner);
    var k := IndexOf(cs, cs[i].spawner).value;
    assert cs[k].agent == cs[j].agent;
  }

  lemma {:induction false} RootedHasChain(cs: seq<Candidate>, owner: Owner, i: nat, n: nat) returns (chain: seq<nat>)
    requires i < |cs| && Rooted(cs, owner, i, n)
    ensures IsChain(cs, owner, chain) && chain[0] == i
    decreases n
  {
    hide IsRight, Individually;
    RightIndividually(cs, owner, i);
    if cs[i].spawner == owner.agent {
      chain := [i];
    } else {
      var j := Spawner(cs, i).value;
      assert Claims(cs, j, cs[i].spawner);
      var rest := RootedHasChain(cs, owner, j, n - 1);
      chain := [i] + rest;
      assert forall k :: 0 < k < |chain| ==> chain[k] == rest[k - 1];
    }
  }

  lemma {:induction false} ChainIsRooted(cs: seq<Candidate>, owner: Owner, chain: seq<nat>)
    requires IsChain(cs, owner, chain)
    ensures Rooted(cs, owner, chain[0], |chain|)
    decreases |chain|
  {
    hide IsRight, Individually, Spawner;
    var i := chain[0];
    RightIndividually(cs, owner, i);
    if |chain| > 1 {
      var rest := chain[1..];
      assert forall k :: 0 <= k < |rest| ==> rest[k] == chain[k + 1];
      ChainIsRooted(cs, owner, rest);
      RightIsFound(cs, owner, i, chain[1]);
    }
  }

  /** Accepted are exactly those whom a chain of candidates, each right on its own, connects with the Owner. */
  lemma AcceptedExactly(cs: seq<Candidate>, owner: Owner, i: nat)
    requires i < |cs|
    ensures Accepted(cs, owner, i) <==> exists chain :: IsChain(cs, owner, chain) && chain[0] == i
  {
    hide Rooted;
    if Accepted(cs, owner, i) {
      var n: nat :| Rooted(cs, owner, i, n);
      var chain := RootedHasChain(cs, owner, i, n);
    }
    if chain :| IsChain(cs, owner, chain) && chain[0] == i {
      ChainIsRooted(cs, owner, chain);
    }
  }

  function Next(stack: seq<nat>, k: nat, i: nat): nat {
    if k + 1 < |stack| then stack[k + 1] else i
  }

  /** Candidates under verification, each the spawner of the one before, ending below `i`. */
  ghost predicate Climbs(cs: seq<Candidate>, owner: Owner, stack: seq<nat>, i: nat)
    requires i < |cs|
  {
    forall k :: 0 <= k < |stack| ==>
      && stack[k] < |cs| && cs[stack[k]].spawner != owner.agent
      && Spawner(cs, stack[k]) == Some(Next(stack, k, i))
  }

  /** Whoever can climb back to itself never reaches the Owner. */
  lemma {:induction false} CycleNeverRooted(cs: seq<Candidate>, owner: Owner, stack: seq<nat>, i: nat, n: nat)
    requires i < |cs| && Climbs(cs, owner, stack, i) && i in stack
    ensures !Rooted(cs, owner, i, n)
    decreases n
  {
    hide Individually, Spawner;
    var k :| 0 <= k < |stack| && stack[k] == i;
    if Rooted(cs, owner, i, n) {
      RootedUp(cs, owner, stack, i, k, n);
      CycleNeverRooted(cs, owner, stack, i, n - (|stack| - k));
    }
  }

  lemma {:induction false} RootedUp(cs: seq<Candidate>, owner: Owner, stack: seq<nat>, i: nat, k: nat, n: nat)
    requires i < |cs| && Climbs(cs, owner, stack, i) && k < |stack| && Rooted(cs, owner, stack[k], n)
    ensures n >= |stack| - k && Rooted(cs, owner, i, n - (|stack| - k))
    decreases |stack| - k
  {
    hide Individually, Spawner;
    assert cs[stack[k]].spawner != owner.agent;
    if k + 1 < |stack| {
      RootedUp(cs, owner, stack, i, k + 1, n - 1);
    } else {
      assert Spawner(cs, stack[k]) == Some(Next(stack, k, i));
      assert n > 0;
      assert Rooted(cs, owner, i, n - 1);
    }
  }

  ghost function Below(n: nat): (r: set<nat>)
    ensures forall i: nat :: i in r <==> i < n
  {
    if n == 0 then {} else Below(n - 1) + {n - 1}
  }

  class SpawnerVerification {
    const cs: seq<Candidate>
    const owner: Owner
    var invalid: seq<bool>
    var quarantined: set<Id>
    var reachesOwner: map<nat, bool>
    var visiting: set<nat>

    constructor (cs: seq<Candidate>, owner: Owner)
      ensures this.cs == cs && this.owner == owner
      ensures |invalid| == |cs| && (forall i :: 0 <= i < |cs| ==> !invalid[i]) && quarantined == {}
      ensures reachesOwner == map[] && visiting == {}
    {
      this.cs, this.owner := cs, owner;
      invalid := seq(|cs|, _ => false);
      quarantined, reachesOwner, visiting := {}, map[], {};
    }

    /** Quarantined are exactly the agents of invalid candidates. */
    ghost predicate Consistent()
      reads this
    {
      |invalid| == |cs| && quarantined == set i | 0 <= i < |cs| && invalid[i] :: cs[i].agent
    }

    method Quarantine(i: nat)
      requires Consistent() && i < |cs|
      modifies this`invalid, this`quarantined
      ensures Consistent() && invalid == old(invalid)[i := true]
    {
      invalid := invalid[i := true];
      quarantined := quarantined + {cs[i].agent};
    }

    method MarkInvalid()
      requires Consistent() && forall i :: 0 <= i < |cs| ==> !invalid[i]
      modifies this`invalid, this`quarantined
      ensures Consistent() && forall i :: 0 <= i < |cs| ==> invalid[i] == !Individually(cs, owner, i)
    {
      for i := 0 to |cs|
        invariant Consistent()
        invariant forall k :: 0 <= k < |cs| ==> invalid[k] == (k < i && !UniqueAgent(cs, k))
      {
        if !UniqueAgent(cs, i) {
          Quarantine(i);
        }
      }
      for i := 0 to |cs|
        invariant Consistent()
        invariant forall k :: 0 <= k < |cs| ==>
                    invalid[k] == (!UniqueAgent(cs, k) || (k < i && cs[k].role == Ordinary && !UniqueSource(cs, k)))
      {
        if cs[i].role == Ordinary && !UniqueSource(cs, i) {
          Quarantine(i);
        }
      }
      for i := 0 to |cs|
        invariant Consistent()
        invariant forall k :: 0 <= k < |cs| ==>
                    invalid[k] ==
                      if k < i then !Individually(cs, owner, k)
                      else !UniqueAgent(cs, k) || (cs[k].role == Ordinary && !UniqueSource(cs, k))
      {
        if cs[i].workflow != owner.workflow {
          Quarantine(i);
        }
        if cs[i].role == Moderator {
          continue;
        }
        if (cs[i].spawner != owner.agent && Spawner(cs, i).None?) || !cs[i].sound {
          Quarantine(i);
        }
      }
    }

    /** What is remembered is right, and only what is remembered as not reaching the Owner was invalidated since. */
    ghost predicate Remembers()
      reads this
    {
      && Consistent()
      && (forall i :: i in reachesOwner ==>
           i < |cs| && cs[i].role == Ordinary && (reachesOwner[i] <==> Accepted(cs, owner, i)))
      && (forall i :: 0 <= i < |cs| ==>
           (invalid[i] <==> !Individually(cs, owner, i) || (i in reachesOwner && !reachesOwner[i])))
    }

    /** Settles a candidate: remembers the answer, and invalidates it unless it reaches the Owner. */
    method Remember(i: nat, valid: bool)
      requires Remembers() && i < |cs| && cs[i].role == Ordinary && (valid <==> Accepted(cs, owner, i))
      requires valid ==> Individually(cs, owner, i)
      modifies this`invalid, this`quarantined, this`reachesOwner
      ensures Remembers() && reachesOwner == old(reachesOwner)[i := valid]
    {
      hide Individually, Accepted;
      if !valid {
        Quarantine(i);
      }
      reachesOwner := reachesOwner[i := valid];
    }

    method VerifyPath(i: nat, ghost stack: seq<nat>) returns (valid: bool)
      requires i < |cs| && cs[i].role == Ordinary && Remembers()
      requires Climbs(cs, owner, stack, i) && visiting == set k | k in stack
      modifies this
      ensures Remembers() && visiting == old(visiting)
      ensures valid <==> Accepted(cs, owner, i)
      ensures i in reachesOwner && old(reachesOwner).Keys <= reachesOwner.Keys
      decreases Below(|cs|) - visiting
    {
      hide Individually, Accepted, Spawner, Climbs;
      if i in reachesOwner {
        return reachesOwner[i];
      }
      if invalid[i] {
        InvalidNeverAccepted(cs, owner, i);
        Remember(i, false);
        return false;
      }
      if i in visiting {
        OnCycle(cs, owner, stack, i);
        Remember(i, false);
        return false;
      }
      AcceptedUp(cs, owner, i);
      ghost var before := visiting;
      visiting := visiting + {i};
      valid := cs[i].spawner == owner.agent;
      if !valid {
        var parent := Spawner(cs, i);
        if parent.Some? {
          ClimbOn(cs, owner, stack, i);
          assert visiting == set k | k in stack + [i];
          valid := VerifyPath(parent.value, stack + [i]);
        }
      }
      visiting := visiting - {i};
      assert visiting == before;
      Remember(i, valid);
    }

    method VerifyPaths()
      requires Consistent() && (forall i :: 0 <= i < |cs| ==> invalid[i] == !Individually(cs, owner, i))
      requires reachesOwner == map[] && visiting == {}
      modifies this
      ensures Consistent()
      ensures forall i :: 0 <= i < |cs| && cs[i].role == Ordinary ==> (invalid[i] <==> !Accepted(cs, owner, i))
      ensures forall i :: 0 <= i < |cs| && cs[i].role == Moderator ==> (invalid[i] <==> !Individually(cs, owner, i))
    {
      hide Individually, Accepted, Spawner;
      for i := 0 to |cs|
        invariant Remembers() && visiting == {}
        invariant forall k :: 0 <= k < i && cs[k].role == Ordinary ==> k in reachesOwner
      {
        if cs[i].role == Ordinary {
          var reaches := VerifyPath(i, []);
        }
      }
      forall i | 0 <= i < |cs| && cs[i].role == Ordinary && !Individually(cs, owner, i)
        ensures !Accepted(cs, owner, i)
      {
        InvalidNeverAccepted(cs, owner, i);
      }
    }
  }

  lemma InvalidNeverAccepted(cs: seq<Candidate>, owner: Owner, i: nat)
    requires i < |cs| && !Individually(cs, owner, i)
    ensures !Accepted(cs, owner, i)
  {
    hide Individually;
  }

  lemma OnCycle(cs: seq<Candidate>, owner: Owner, stack: seq<nat>, i: nat)
    requires i < |cs| && Climbs(cs, owner, stack, i) && i in stack
    ensures !Accepted(cs, owner, i)
  {
    if Accepted(cs, owner, i) {
      var n: nat :| Rooted(cs, owner, i, n);
      CycleNeverRooted(cs, owner, stack, i, n);
    }
  }

  lemma ClimbOn(cs: seq<Candidate>, owner: Owner, stack: seq<nat>, i: nat)
    requires i < |cs| && Climbs(cs, owner, stack, i) && cs[i].spawner != owner.agent && Spawner(cs, i).Some?
    ensures Spawner(cs, i).value < |cs| && Climbs(cs, owner, stack + [i], Spawner(cs, i).value)
  {
    hide Spawner;
    var up := stack + [i];
    forall k | 0 <= k < |up|
      ensures up[k] < |cs| && cs[up[k]].spawner != owner.agent
      ensures Spawner(cs, up[k]) == Some(Next(up, k, Spawner(cs, i).value))
    {
      if k < |stack| {
        assert up[k] == stack[k];
        assert Spawner(cs, stack[k]) == Some(Next(stack, k, i));
        assert up[k + 1] == Next(stack, k, i);
      }
    }
  }
}
