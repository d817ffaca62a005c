/**
 * Which Request ids a channel remembers as finished: every canonical id up to
 * a high-water mark, and the most recent other ids
 * (src/control/agent-control-channel.ts:123-163).
 */
module TerminalIds {
  datatype Option<T> = None | Some(value: T)

  const MAXIMUM_NONCANONICAL_TERMINAL_IDS: nat := 1024
  const MAXIMUM_SAFE_INTEGER: nat := 9007199254740991

  function Max(a: nat, b: nat): nat {
    if a < b then b else a
  }

  // ------------------------------------------------------------ Canonical ids

  predicate IsDigit(c: char) {
    '0' <= c <= '9'
  }

  function Digit(d: nat): (c: char)
    requires d < 10
    ensures IsDigit(c) && c as int - '0' as int == d
  {
    ('0' as int + d) as char
  }

  /** How a positive number is written. */
  function Decimal(n: nat): (s: string)
    ensures s != [] && forall c :: c in s ==> IsDigit(c)
    ensures n > 0 ==> s[0] != '0'
  {
    if n < 10 then [Digit(n)] else Decimal(n / 10) + [Digit(n % 10)]
  }

  function Value(s: string): nat
    requires forall c :: c in s ==> IsDigit(c)
  {
    if s == [] then 0
    else
      var n := |s| - 1;
      assert s[n] in s && IsDigit(s[n]) && forall c :: c in s[..n] ==> c in s;
      10 * Value(s[..n]) + (s[n] as int - '0' as int)
  }

  /** Digits without a leading zero, as the one number that is written so. */
  function Parse(s: string): Option<nat> {
    if s != [] && s[0] != '0' && forall c :: c in s ==> IsDigit(c) then Some(Value(s)) else None
  }

  lemma {:induction false} ParseDecimal(n: nat)
    ensures Value(Decimal(n)) == n
  {
    if n < 10 {
      assert Decimal(n)[..0] == [];
    } else {
      ParseDecimal(n / 10);
      var s := Decimal(n);
      assert s[..|s| - 1] == Decimal(n / 10);
    }
  }

  lemma {:induction false} DecimalParse(s: string)
    requires Parse(s).Some?
    ensures Parse(s).value > 0 && Decimal(Parse(s).value) == s
  {
    var n := |s| - 1;
    var d := s[n] as int - '0' as int;
    assert s == s[..n] + [s[n]];
    assert s[n] in s && forall c :: c in s[..n] ==> c in s;
    if n == 0 {
      assert s[..0] == [];
      assert Value(s) == d;
    } else {
      DecimalParse(s[..n]);
      var v := Value(s[..n]);
      assert Value(s) == 10 * v + d;
      assert (10 * v + d) / 10 == v && (10 * v + d) % 10 == d;
    }
  }

  /** The number of an id this agent issues: `agentId:n` with `n` a positive safe integer. */
  function CanonicalSequence(prefix: string, id: string): Option<nat> {
    if prefix <= id then
      match Parse(id[|prefix|..])
      case Some(n) => if n <= MAXIMUM_SAFE_INTEGER then Some(n) else None
      case None => None
    else None
  }

  /** Canonical ids and their numbers determine each other. */
  lemma CanonicalIsExact(prefix: string, id: string, n: nat)
    ensures CanonicalSequence(prefix, id) == Some(n) <==> 0 < n <= MAXIMUM_SAFE_INTEGER && id == prefix + Decimal(n)
  {
    if 0 < n && id == prefix + Decimal(n) {
      assert id[|prefix|..] == Decimal(n);
      ParseDecimal(n);
    }
    if CanonicalSequence(prefix, id) == Some(n) {
      DecimalParse(id[|prefix|..]);
      assert id == prefix + id[|prefix|..];
    }
  }

  // ----------------------------------------------------------------- Other ids

  function Without(ids: seq<string>, id: string): (r: seq<string>)
    ensures forall x :: x in r <==> x in ids && x != id
    ensures |r| <= |ids|
  {
    if ids == [] then []
    else
      assert forall x :: x in ids <==> x == ids[0] || x in ids[1..];
      (if ids[0] == id then [] else [ids[0]]) + Without(ids[1..], id)
  }

  /** Moves the id to the end and forgets the oldest beyond the bound. */
  function Recall(ids: seq<string>, id: string): (r: seq<string>)
    ensures id in r
  {
    var moved := Without(ids, id) + [id];
    assert moved[|moved| - 1] == id;
    if |moved| > MAXIMUM_NONCANONICAL_TERMINAL_IDS then
      assert moved[1..][|moved| - 2] == id;
      moved[1..]
    else moved
  }

  function RecallAll(ids: seq<string>, more: seq<string>): seq<string> {
    if more == [] then ids else Recall(RecallAll(ids, more[..|more| - 1]), more[|more| - 1])
  }

  /** `id` stands with at most `after` ids behind it. */
  ghost predicate Recent(ids: seq<string>, id: string, after: nat) {
    exists i :: 0 <= i < |ids| && ids[i] == id && |ids| - i <= after + 1
  }

  lemma {:induction false} WithoutKeepsPlace(ids: seq<string>, other: string, id: string, after: nat)
    requires Recent(ids, id, after) && id != other
    ensures Recent(Without(ids, other), id, after)
  {
    var i :| 0 <= i < |ids| && ids[i] == id && |ids| - i <= after + 1;
    var rest := Without(ids[1..], other);
    if i == 0 {
      assert Without(ids, other)[0] == id;
    } else {
      assert ids[1..][i - 1] == id;
      WithoutKeepsPlace(ids[1..], other, id, after);
      var j :| 0 <= j < |rest| && rest[j] == id && |rest| - j <= after + 1;
      var whole := Without(ids, other);
      assert whole[j + |whole| - |rest|] == id;
    }
  }

  lemma RecallKeepsPlace(ids: seq<string>, other: string, id: string, after: nat)
    requires Recent(ids, id, after) && id != other && after + 1 < MAXIMUM_NONCANONICAL_TERMINAL_IDS
    ensures Recent(Recall(ids, other), id, after + 1)
  {
    WithoutKeepsPlace(ids, other, id, after);
    var kept := Without(ids, other);
    var i :| 0 <= i < |kept| && kept[i] == id && |kept| - i <= after + 1;
    var moved := kept + [other];
    assert moved[i] == id;
    if |moved| > MAXIMUM_NONCANONICAL_TERMINAL_IDS {
      assert moved[1..][i - 1] == id;
    }
  }

  /** An id is remembered through the next 1023 additions, whatever they are. */
  lemma {:induction false} RememberedWhileRecent(ids: seq<string>, id: string, more: seq<string>)
    requires |more| < MAXIMUM_NONCANONICAL_TERMINAL_IDS
    ensures Recent(RecallAll(Recall(ids, id), more), id, |more|)
    ensures id in RecallAll(Recall(ids, id), more)
    decreases |more|
  {
    if more == [] {
      var last := Recall(ids, id);
      assert last[|last| - 1] == id;
    } else {
      var n := |more| - 1;
      RememberedWhileRecent(ids, id, more[..n]);
      var before := RecallAll(Recall(ids, id), more[..n]);
      if more[n] == id {
        var last := Recall(before, id);
        assert last[|last| - 1] == id;
      } else {
        RecallKeepsPlace(before, more[n], id, n);
      }
    }
  }

  class TerminalRequestIds {
    const canonicalPrefix: string
    var noncanonical: seq<string>
    var canonicalHighWater: nat

    constructor (agentId: string)
      ensures canonicalPrefix == agentId + ":" && noncanonical == [] && canonicalHighWater == 0
    {
      canonicalPrefix, noncanonical, canonicalHighWater := agentId + ":", [], 0;
    }

    predicate Has(id: string)
      reads this
    {
      match CanonicalSequence(canonicalPrefix, id)
      case Some(n) => n <= canonicalHighWater
      case None => id in noncanonical
    }

    /** Of the ids this agent issues, the finished ones are those up to the mark. */
    lemma OwnIds(n: nat)
      requires 0 < n <= MAXIMUM_SAFE_INTEGER
      ensures CanonicalSequence(canonicalPrefix, canonicalPrefix + Decimal(n)) == Some(n)
      ensures Has(canonicalPrefix + Decimal(n)) <==> n <= canonicalHighWater
    {
      CanonicalIsExact(canonicalPrefix, canonicalPrefix + Decimal(n), n);
    }

    /** Finishing number `n` finishes every smaller one; other ids are only as good as recent. */
    method Add(id: string)
      modifies this
      ensures Has(id)
      ensures CanonicalSequence(canonicalPrefix, id).None? ==>
                canonicalHighWater == old(canonicalHighWater) && noncanonical == Recall(old(noncanonical), id)
      ensures CanonicalSequence(canonicalPrefix, id).Some? ==>
                && noncanonical == old(noncanonical)
                && canonicalHighWater == Max(old(canonicalHighWater), CanonicalSequence(canonicalPrefix, id).value)
                && forall other: string :: Has(other) <==>
                     || old(Has(other))
                     || (CanonicalSequence(canonicalPrefix, other).Some?
                         && CanonicalSequence(canonicalPrefix, other).value
                            <= CanonicalSequence(canonicalPrefix, id).value)
    {
      var sequence := CanonicalSequence(canonicalPrefix, id);
      if sequence.Some? {
        canonicalHighWater := Max(canonicalHighWater, sequence.value);
        return;
      }
      noncanonical := Without(noncanonical, id) + [id];
      if |noncanonical| > MAXIMUM_NONCANONICAL_TERMINAL_IDS {
        noncanonical := noncanonical[1..];
      }
      assert noncanonical == Recall(old(noncanonical), id);
    }
  }
}
