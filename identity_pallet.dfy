/** The identity pallet as the runtime runs it: one object whose two storage items the
    dispatchable calls update in place. Each dispatchable method is proved to do exactly what
    the matching function of IdentitySpec says, and to keep the storage invariant. */
module IdentityPallet {
  import opened IdentitySpec

  class Pallet {
    /** The `MinVouches` constant of the runtime configuration. */
    const minVouches: u32
    /** `VoterSet`; `VoterSet::count()` is its cardinality. */
    var voterSet: set<AccountId>
    /** `VouchedForSet`. */
    var vouchedForSet: map<AccountId, seq<AccountId>>
    /** Every event deposited so far, oldest first. */
    ghost var deposited: seq<Event>

    /** The storage as a value. */
    function Snapshot(): Storage
      reads this
    {
      Storage(voterSet, vouchedForSet)
    }

    ghost predicate Valid()
      reads this
    {
      IdentitySpec.Valid(minVouches, Snapshot())
    }

    /** A freshly built chain: both storage maps empty, no events. */
    constructor (minVouches: u32)
      ensures Valid()
      ensures this.minVouches == minVouches && Snapshot() == Genesis && deposited == []
    {
      this.minVouches := minVouches;
      voterSet := {};
      vouchedForSet := map[];
      deposited := [];
    }

    /** The `get_voter_set` storage getter. */
    function GetVoterSet(who: AccountId): Option<()>
      reads this
    {
      if who in voterSet then Some(()) else None
    }

    /** `try_add_as_social_graph_originator`, that is `add_originator_impl` for a signed sender. */
    method TryAddAsSocialGraphOriginator(sender: AccountId) returns (r: DispatchResult)
      requires Valid()
      modifies this
      ensures Valid()
      ensures old(voterSet) <= voterSet
      ensures AddOriginator(minVouches, old(Snapshot()), sender).result == r
      ensures AddOriginator(minVouches, old(Snapshot()), sender).post == Snapshot()
      ensures deposited == old(deposited) + AddOriginator(minVouches, old(Snapshot()), sender).events
    {
      if sender in voterSet {
        return Err(AlreadyInSet);
      }
      if |voterSet| >= minVouches as int {
        return Err(NoNeedForAdditionalOriginators);
      }
      voterSet := voterSet + {sender};
      deposited := deposited + [OriginatorAdded(sender)];
      r := Ok;
    }

    /** `VouchedForSet::try_append(&other, sender).expect("Already checked that there is room")`.
        The requires clause is the room the message claims; the panic branch is unreachable. */
    method AppendVoucher(other: AccountId, sender: AccountId)
      requires |Listed(Lookup(vouchedForSet, other))| < minVouches as int
      modifies this`vouchedForSet
      ensures vouchedForSet == old(vouchedForSet)[other := Listed(Lookup(old(vouchedForSet), other)) + [sender]]
    {
      match TryAppend(Lookup(vouchedForSet, other), sender, minVouches as nat)
      case None =>
        assert false;
      case Some(list) =>
        vouchedForSet := vouchedForSet[other := list];
    }

    /** `vouch_for`, that is `vouch_for_impl` for a signed sender. It never panics. */
    method VouchFor(sender: AccountId, other: AccountId) returns (r: DispatchResult)
      requires Valid()
      modifies this
      ensures Valid()
      ensures old(voterSet) <= voterSet
      ensures IdentitySpec.VouchFor(minVouches, old(Snapshot()), sender, other).Returned?
      ensures IdentitySpec.VouchFor(minVouches, old(Snapshot()), sender, other).result == r
      ensures IdentitySpec.VouchFor(minVouches, old(Snapshot()), sender, other).post == Snapshot()
      ensures deposited == old(deposited) + IdentitySpec.VouchFor(minVouches, old(Snapshot()), sender, other).events
    {
      ghost var before := Snapshot();
      VouchForPreservesValid(minVouches, before, sender, other);
      if sender !in voterSet {
        return Err(VoucherNotInVoterSet);
      }
      if other in voterSet {
        return Ok;
      }
      var entry := Lookup(vouchedForSet, other);
      if entry.Some? {
        var vouchers := entry.value;
        if sender in vouchers {
          return Err(VouchedForSameTwice);
        }
        if |vouchers| + 1 >= minVouches as int {
          voterSet := voterSet + {other};
          vouchedForSet := vouchedForSet - {other};
        } else {
          AppendVoucher(other, sender);
        }
      } else {
        assert minVouches != 0;
        AppendVoucher(other, sender);
      }
      deposited := deposited + [VoterVouchedForNonVoter(sender, other)];
      r := Ok;
    }
  }
}
