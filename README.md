# Identity pallet: social-graph admission engine

This project models the admission engine of the identity pallet
(`pallets/identity_pallet/src/lib.rs`) and proves properties of that model. The pallet keeps a
set of voters and lets it grow in two ways:

- **Seeding.** An account adds itself as an originator while the voter set has fewer than
  `MinVouches` members (`add_originator_impl`).
- **Vouching.** A voter vouches for a non-voter. The vouches are kept in a bounded list per
  non-voter (`VouchedForSet`, capacity `MinVouches`). The target is promoted to voter, and its
  list deleted, by a vouch on an existing list that would bring it to at least `MinVouches`
  entries; a first vouch only creates the list (`vouch_for_impl`).

The model has three modules:

- `IdentitySpec` (`identity_spec.dfy`) describes each call as a pure function. The function
  takes the storage the call finds and gives an `Outcome`: either the returned
  `DispatchResult`, the storage left behind and the events deposited, or `Panicked` when an
  `expect` fails. The module also holds the storage invariant `Valid` and the lemmas about one
  call.
- `IdentityPallet` (`identity_pallet.dfy`) is the pallet as the runtime runs it. It is a class
  whose `voterSet` and `vouchedForSet` fields the dispatchable methods update in place, with a
  ghost log of deposited events. Each dispatchable method is proved to do exactly what its
  `IdentitySpec` function says, to keep `Valid`, and never to remove a voter. The
  `try_append(..).expect(..)` step is its own method; its precondition is the room the `expect`
  message claims, and its postcondition gives the new `VouchedForSet` directly. `VouchFor`
  discharges that precondition from the branch guard when the target already has a list, and
  from the invariant when it has none.
- `IdentityTraces` (`identity_traces.dfy`) proves what holds over any sequence of calls
  starting from the empty storage. These properties are:
  - the invariant always holds, so no call ever panics;
  - membership only grows;
  - a stale pending list survives for good;
  - with `MinVouches = 1` the voter set never has more than one member;
  - concrete runs with `MinVouches = 2`, the value the voting pallet's test runtime uses, and
    with `MinVouches = 3`, which also goes through the append-to-a-list branch.

Behaviour of the code that is easy to misread:

- A first vouch never promotes, even when `MinVouches` is 1. Only an existing list is checked
  against the threshold (lines 105-118).
- As a result, a pending list holds at most `max(1, MinVouches - 1)` vouchers.
- Seeding does not delete a pending list the new originator may already have (line 97).
- `VoterVouchedForNonVoter` is emitted both when the target is promoted and when a vouch is
  appended. It is not emitted when the target is already a voter (lines 104 and 119).

## Model

| member | source | states |
|---|---|---|
| IdentitySpec.AddOriginator | pallets/identity_pallet/src/lib.rs:94-100 | Fails with `AlreadyInSet` exactly when the sender is a voter. Fails with `NoNeedForAdditionalOriginators` exactly when the sender is not a voter and the set already has `MinVouches` members. Succeeds exactly when the sender is not a voter and the set has fewer than `MinVouches` members. Both errors leave storage unchanged and emit nothing. Success adds exactly the sender to the voter set and deposits `[OriginatorAdded(sender)]`. `VouchedForSet` is never touched. |
| IdentitySpec.VouchFor | pallets/identity_pallet/src/lib.rs:102-121 | On a storage satisfying the invariant, the call never panics. No outcome removes a voter. Every error leaves storage unchanged with no event. `VoucherNotInVoterSet` is returned exactly when the sender is not a voter. `VouchedForSameTwice` is returned exactly when the sender already appears in the non-voter target's list. Vouching for an existing voter returns `Ok` and changes nothing. |
| IdentitySpec.PendingWithinCapacity | pallets/identity_pallet/src/lib.rs:42-45 | Under the invariant, every stored `VouchersFor` list is non-empty and no longer than its capacity `MinVouches`. |
| IdentitySpec.GenesisValid | pallets/identity_pallet/src/lib.rs:36-42 | The empty storage the pallet starts from satisfies the invariant. |
| IdentitySpec.AddOriginatorPreservesValid | pallets/identity_pallet/src/lib.rs:94-100 | Seeding keeps the invariant. |
| IdentitySpec.VouchForPreservesValid | pallets/identity_pallet/src/lib.rs:102-121 | Vouching keeps the invariant. Every pending list stays free of repeats, made of voters, and at most `max(1, MinVouches - 1)` long. |
| IdentitySpec.FirstVouchNeverPromotes | pallets/identity_pallet/src/lib.rs:115-118 | The first vouch for a non-voter creates the list `[sender]` and promotes nobody, whatever `MinVouches` is. |
| IdentitySpec.AppendBelowQuorum | pallets/identity_pallet/src/lib.rs:111-113 | A new vouch for a non-voter whose existing list stays short of `MinVouches` vouchers appends the sender to that list. Nobody is promoted, the voter set is unchanged, and the event is deposited. |
| IdentitySpec.SeedingKeepsPendingEntry | pallets/identity_pallet/src/lib.rs:97 | Seeding an account that has a pending list makes it a voter and leaves that list in place. |
| IdentitySpec.PromotionNeedsQuorum | pallets/identity_pallet/src/lib.rs:105-110 | A vouch that promotes a non-voter deletes its list. It does so only when the listed vouchers plus the sender are at least `MinVouches` distinct voters, and never fewer than two. |
| IdentitySpec.QuorumPromotes | pallets/identity_pallet/src/lib.rs:107-110 | A new vouch that brings an existing list to `MinVouches` vouchers promotes the target and deletes its list in that same call. The sender is not appended. The event is emitted. |
| IdentityPallet.Pallet.constructor | pallets/identity_pallet/src/lib.rs:36-42 | A new pallet starts with both storage maps empty and no events, and satisfies the invariant. |
| IdentityPallet.Pallet.TryAddAsSocialGraphOriginator | pallets/identity_pallet/src/lib.rs:94-100 | The in-place seeding returns, stores and logs exactly what `AddOriginator` prescribes. It keeps the invariant and removes no voter. |
| IdentityPallet.Pallet.AppendVoucher | pallets/identity_pallet/src/lib.rs:112-117 | Given the room its `expect` message claims, `try_append` never takes its panic branch. It appends the sender to the target's list, or creates `[sender]`. |
| IdentityPallet.Pallet.VouchFor | pallets/identity_pallet/src/lib.rs:102-121 | The in-place vouch never panics. It returns, stores and logs exactly what `IdentitySpec.VouchFor` prescribes. It keeps the invariant and removes no voter. |
| IdentityTraces.StepKeepsValid | pallets/identity_pallet/src/lib.rs:94-121 | Any one call on a valid storage returns without panicking, keeps the invariant and keeps every voter. |
| IdentityTraces.RunKeepsValid | pallets/identity_pallet/src/lib.rs:94-121 | Any sequence of calls keeps the invariant. |
| IdentityTraces.ReachableValid | pallets/identity_pallet/src/lib.rs:42-45 | Every storage reachable from the empty start satisfies the invariant. In particular, every pending list there is distinct, made of voters, and within `max(1, MinVouches - 1)`. |
| IdentityTraces.NeverPanics | pallets/identity_pallet/src/lib.rs:112-117 | No call of any sequence started from the empty storage panics in either `expect`. |
| IdentityTraces.VotersOnlyGrow | pallets/identity_pallet/src/lib.rs:94-121 | Voter membership is permanent over any sequence of calls, from any starting storage. |
| IdentityTraces.StaleEntryPersists | pallets/identity_pallet/src/lib.rs:97 | A pending list belonging to a voter is never removed or changed by any later sequence of calls. |
| IdentityTraces.StepKeepsOneVoter | pallets/identity_pallet/src/lib.rs:96-118 | With `MinVouches = 1`, no call takes a valid storage with at most one voter to one with two. |
| IdentityTraces.QuorumOfOneAdmitsOneVoter | pallets/identity_pallet/src/lib.rs:94-121 | With `MinVouches = 1`, the voter set reachable from the empty start never has more than one member. The lone originator cannot vouch twice, and nobody else can be seeded or promoted. |
| IdentityTraces.TwoOriginatorsThenTwoVouches | pallets/quadratic_voting/src/mock.rs:91-94 | With `MinVouches = 2`, as the test runtime configures it: two originators are seeded, and a third seed is refused. One vouch leaves the pending list `[a]`. A second voter's vouch then admits the newcomer and clears its list. |
| IdentityTraces.ThreeOriginatorsThenThreeVouches | pallets/identity_pallet/src/lib.rs:94-121 | With `MinVouches = 3`: three originators are seeded. The first vouch creates the list `[a]`, and the second appends to give `[a, b]`. The third vouch admits the newcomer and clears its list. |

## Left out

- The quadratic voting pallet, the kitties pallet and the soft-coupling traits
  (`IdentityInterface`, `KittiesInterface`) are not part of this model. The voting engine's
  shown source is a stub. The traits have no behaviour, and no shown file implements them for
  the identity pallet.
- Origin checking (`ensure_signed`): the sender is an account argument. An unsigned origin's
  `BadOrigin` error is not modelled.
- Weights, storage hashers and the `CountedStorageMap` counter bookkeeping. `VoterSet::count()`
  is the cardinality of the voter set, and the `u32` counter's upper limit is not modelled.
- Event deposit is a ghost log on the class. The spec functions return the events a call
  deposits.
- Transactional rollback: every check precedes every write, and the model's error outcomes
  leave storage unchanged. A panicking call is modelled as leaving storage as it was, and the
  model proves that no call panics.
- Account identifiers are naturals, since the pallet only compares them for equality.
- The unit-test bodies in `pallets/identity_pallet/src/tests.rs` are empty and add nothing to
  model.
