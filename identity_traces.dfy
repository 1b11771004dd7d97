/** What holds of the identity pallet's storage over any sequence of dispatched calls. */
module IdentityTraces {
  import opened IdentitySpec

  /** The pallet's two dispatchable calls, with the signed sender made explicit. */
  datatype Call =
    | Originate(sender: AccountId)                  // try_add_as_social_graph_originator
    | Vouch(sender: AccountId, other: AccountId)    // vouch_for

  function Dispatch(minVouches: u32, s: Storage, c: Call): Outcome {
    match c
    case Originate(sender) => AddOriginator(minVouches, s, sender)
    case Vouch(sender, other) => VouchFor(minVouches, s, sender, other)
  }

  /** The storage a call leaves. A call that panics is not included in a block, so it leaves
      the storage as it found it. */
  function After(minVouches: u32, s: Storage, c: Call): Storage {
    var o := Dispatch(minVouches, s, c);
    if o.Returned? then o.post else s
  }

  /** The storage after dispatching `calls` in order, starting from `s`. */
  function Run(minVouches: u32, s: Storage, calls: seq<Call>): Storage
    decreases |calls|
  {
    if calls == [] then s
    else After(minVouches, Run(minVouches, s, calls[..|calls| - 1]), calls[|calls| - 1])
  }

  /** One call keeps the storage invariant, never panics, and never removes a voter. */
  lemma StepKeepsValid(minVouches: u32, s: Storage, c: Call)
    requires Valid(minVouches, s)
    ensures Dispatch(minVouches, s, c).Returned?
    ensures Valid(minVouches, After(minVouches, s, c))
    ensures s.voters <= After(minVouches, s, c).voters
  {
  }

  lemma {:induction false} RunKeepsValid(minVouches: u32, s: Storage, calls: seq<Call>)
    requires Valid(minVouches, s)
    ensures Valid(minVouches, Run(minVouches, s, calls))
    decreases |calls|
  {
    if calls != [] {
      RunKeepsValid(minVouches, s, calls[..|calls| - 1]);
      StepKeepsValid(minVouches, Run(minVouches, s, calls[..|calls| - 1]), calls[|calls| - 1]);
    }
  }

  /** Every storage the chain can reach from its empty start satisfies the invariant: each
      pending list is free of repeats, made of voters, and at most `max(1, MinVouches - 1)` long. */
  lemma ReachableValid(minVouches: u32, calls: seq<Call>)
    ensures Valid(minVouches, Run(minVouches, Genesis, calls))
  {
    RunKeepsValid(minVouches, Genesis, calls);
  }

  /** Neither `expect` of `vouch_for_impl` ever fires: from the empty start, no call of any
      sequence panics. */
  lemma NeverPanics(minVouches: u32, calls: seq<Call>, k: nat)
    requires k < |calls|
    ensures Dispatch(minVouches, Run(minVouches, Genesis, calls[..k]), calls[k]).Returned?
  {
    ReachableValid(minVouches, calls[..k]);
    StepKeepsValid(minVouches, Run(minVouches, Genesis, calls[..k]), calls[k]);
  }

  /** Voter membership is permanent: no call removes an account from `VoterSet`. */
  lemma {:induction false} VotersOnlyGrow(minVouches: u32, s: Storage, calls: seq<Call>)
    ensures s.voters <= Run(minVouches, s, calls).voters
    decreases |calls|
  {
    if calls != [] {
      VotersOnlyGrow(minVouches, s, calls[..|calls| - 1]);
    }
  }

  /** A pending list left behind for an account that became a voter by seeding is never
      removed or changed again: only a non-voter's list is ever touched. */
  lemma {:induction false} StaleEntryPersists(minVouches: u32, s: Storage, calls: seq<Call>, t: AccountId)
    requires t in s.voters && t in s.vouchedFor
    ensures t in Run(minVouches, s, calls).vouchedFor
    ensures Run(minVouches, s, calls).vouchedFor[t] == s.vouchedFor[t]
    decreases |calls|
  {
    if calls != [] {
      var prefix := calls[..|calls| - 1];
      StaleEntryPersists(minVouches, s, prefix, t);
      VotersOnlyGrow(minVouches, s, prefix);
    }
  }

  /** A storage in which no more than one account is a voter. */
  predicate AtMostOneVoter(s: Storage) {
    forall a, b | a in s.voters && b in s.voters :: a == b
  }

  /** With `MinVouches` set to 1, one call cannot take a storage with at most one voter to one
      with two: seeding stops at one member, and a promotion would need a second voter to vouch
      next to the one already listed. */
  lemma StepKeepsOneVoter(s: Storage, c: Call)
    requires Valid(1, s) && AtMostOneVoter(s)
    ensures AtMostOneVoter(After(1, s, c))
  {
    match c
    case Originate(sender) =>
      if sender !in s.voters && s.voters != {} {
        var a :| a in s.voters;
        assert {a} <= s.voters;
      }
    case Vouch(sender, other) =>
      if sender in s.voters && other !in s.voters && other in s.vouchedFor {
        var vouchers := s.vouchedFor[other];
        assert vouchers[0] in s.voters;
        assert sender == vouchers[0];
      }
  }

  /** With `MinVouches` set to 1 the voter set never grows past its single originator: the one
      voter cannot vouch twice for anybody, and nobody else can be seeded or promoted. */
  lemma {:induction false} QuorumOfOneAdmitsOneVoter(calls: seq<Call>)
    ensures AtMostOneVoter(Run(1, Genesis, calls))
    decreases |calls|
  {
    if calls != [] {
      var prefix := calls[..|calls| - 1];
      QuorumOfOneAdmitsOneVoter(prefix);
      ReachableValid(1, prefix);
      StepKeepsOneVoter(Run(1, Genesis, prefix), calls[|calls| - 1]);
    }
  }

  /** With `MinVouches` set to 2, as the voting pallet's test runtime configures it: two
      originators are seeded, a third is refused, and one vouch from each of them admits a
      newcomer and clears its pending list. */
  lemma TwoOriginatorsThenTwoVouches(a: AccountId, b: AccountId, c: AccountId, x: AccountId)
    requires a != b && x != a && x != b
    ensures Dispatch(2, Run(2, Genesis, [Originate(a), Originate(b)]), Originate(c)).result
              == if c == a || c == b then Err(AlreadyInSet) else Err(NoNeedForAdditionalOriginators)
    ensures Run(2, Genesis, [Originate(a), Originate(b), Vouch(a, x)]) == Storage({a, b}, map[x := [a]])
    ensures Run(2, Genesis, [Originate(a), Originate(b), Vouch(a, x), Vouch(b, x)]) == Storage({a, b, x}, map[])
  {
    var calls := [Originate(a), Originate(b), Vouch(a, x), Vouch(b, x)];
    assert calls[..0] == [];
    assert calls[..1] == [Originate(a)];
    assert calls[..2] == [Originate(a), Originate(b)];
    assert calls[..3] == [Originate(a), Originate(b), Vouch(a, x)];
    assert calls[..3][..2] == calls[..2];
    assert calls[..2][..1] == calls[..1];
    assert calls[..1][..0] == calls[..0];
    assert Run(2, Genesis, calls[..1]) == Storage({a}, map[]);
    assert Run(2, Genesis, calls[..2]) == Storage({a, b}, map[]);
    assert |{a, b}| == 2;
    var empty: map<AccountId, seq<AccountId>> := map[];
    assert Lookup(empty, x) == None;
    assert [] + [a] == [a];
    assert TryAppend(Lookup(empty, x), a, 2) == Some([a]);
    assert Run(2, Genesis, calls[..3]) == Storage({a, b}, map[x := [a]]);
    assert (map[x := [a]] - {x}) == map[];
  }

  /** With `MinVouches` set to 3: three originators are seeded; the first vouch for a newcomer
      creates its list, the second is appended to it, and the third admits the newcomer and
      clears its list. */
  lemma ThreeOriginatorsThenThreeVouches(a: AccountId, b: AccountId, c: AccountId, x: AccountId)
    requires a != b && a != c && b != c && x != a && x != b && x != c
    ensures Run(3, Genesis, [Originate(a), Originate(b), Originate(c), Vouch(a, x)])
              == Storage({a, b, c}, map[x := [a]])
    ensures Run(3, Genesis, [Originate(a), Originate(b), Originate(c), Vouch(a, x), Vouch(b, x)])
              == Storage({a, b, c}, map[x := [a, b]])
    ensures Run(3, Genesis, [Originate(a), Originate(b), Originate(c), Vouch(a, x), Vouch(b, x), Vouch(c, x)])
              == Storage({a, b, c, x}, map[])
  {
    var calls := [Originate(a), Originate(b), Originate(c), Vouch(a, x), Vouch(b, x), Vouch(c, x)];
    assert calls[..5][..4] == calls[..4];
    assert calls[..4][..3] == calls[..3];
    assert calls[..3][..2] == calls[..2];
    assert calls[..2][..1] == calls[..1];
    assert calls[..1][..0] == [];
    assert Run(3, Genesis, calls[..1]) == Storage({a}, map[]);
    assert Run(3, Genesis, calls[..2]) == Storage({a, b}, map[]);
    assert |{a, b}| == 2;
    assert Run(3, Genesis, calls[..3]) == Storage({a, b, c}, map[]);
    var empty: map<AccountId, seq<AccountId>> := map[];
    assert Lookup(empty, x) == None;
    assert [] + [a] == [a];
    assert Run(3, Genesis, calls[..4]) == Storage({a, b, c}, map[x := [a]]);
    assert [a] + [b] == [a, b];
    assert Run(3, Genesis, calls[..5]) == Storage({a, b, c}, map[x := [a, b]]);
    assert calls[..4] == [Originate(a), Originate(b), Originate(c), Vouch(a, x)];
    assert calls[..5] == [Originate(a), Originate(b), Originate(c), Vouch(a, x), Vouch(b, x)];
    assert (map[x := [a, b]] - {x}) == map[];
  }
}
