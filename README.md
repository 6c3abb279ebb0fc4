# Kitties and proof-of-existence pallets in Dafny

This project models two Substrate runtime pallets and proves properties of the models.

**The kitties pallet** (`pallets/kitties/src/lib.rs`) is a registry of collectible kitties. Its storage has three parts:

- an id counter, `LastKittyId`;
- a map `Kitties` from id to `{dna, price, gender, owner}`;
- an ownership index `KittiesOwned`, which maps each account to a list of ids capped at `MaxKittyOwned`.

Every kitty is backed by a stake, `KittyStake`, reserved from its owner's balance. Five dispatchable calls change this state: `create_kitty`, `set_price`, `transfer`, `buy_kitty` and `breed_kitty`. They are built from `get_next_id`, `get_kitty`, `is_kitty_owner`, `gen_gender`, `breed_dna`, `mint` and `transfer_kitty_to`.

**The proof-of-existence pallet** (`pallets/poe/src/lib.rs`) keeps one map, `Proofs`, from a claim of at most `MaxClaimLength` bytes to its holder and a block number. It has three calls: `create_claim`, `revoke_claim` and `transfer_claim`.

Files:

- `primitives.dfy`: account, balance and byte types, and `Option` and `Result`.
- `bounded_vec.dfy`: `try_push`, `iter().position` and `swap_remove` on an account's list of ids.
- `balances.dfy`: an abstract reservable currency. `Accounts` holds free and reserved balances, and the functions on it are `TryReserve`, `Release` and `TryTransfer`. The `Ledger` class is the mutable currency the pallet calls.
- `genetics.dfy`: DNA, gender, `gen_gender` and the bit-mask crossover used by `breed_dna`, with lemmas about the crossover.
- `registry.dfy`: the storage as values, and the invariants the calls keep:
  - ids are issued below the counter;
  - the lists are duplicate-free and each lists only kitties of its own account;
  - every kitty is listed under its owner;
  - no list exceeds the cap;
  - every owned kitty is backed by a reserved stake.

  It also holds the lemmas showing that minting, moving and repricing a kitty keep these invariants.
- `kitties.dfy`: the pallet as a class. Its fields are the storage, its methods are `mint`, `breed_dna` (a loop over a 16-byte array), `transfer_kitty_to` and the five calls.
- `kitties_scenarios.dfy`: call sequences on a freshly built pallet with their guaranteed outcomes.
- `poe.dfy`: the proof-of-existence pallet as a class, and the call sequences of its unit tests (`pallets/poe/src/tests.rs`).

## How the model treats the pallets

- **Non-transactional calls.** The calls are not marked transactional, so a write made before a later check fails stays in place. The model keeps the order of the code:
  - `create_kitty` keeps the stake reserved when `mint` fails.
  - `breed_kitty` reserves before its ownership checks and keeps the stake when they or `mint` fail.
  - `transfer` and `buy_kitty` change the ledger before `transfer_kitty_to`.
  - `transfer_kitty_to` writes the kitty and the previous owner's list before the push that can fail.

  Each method's contract states the exact state each failure leaves. The calls are not all-or-nothing: `breed_kitty` reserves the stake (pallets/kitties/src/lib.rs:319) before it checks ownership of the parents (lines 323-324).
- **Invariants are kept, not assumed.** No method requires the invariants. Each promises that it keeps `Valid()` (the registry invariants) if `Valid()` held before. Where it applies, it also keeps `Backed()` (the collateral invariant).
- **Shared outcomes.** The outcome that `transfer` and `buy_kitty` share once their checks pass is stated once, as the two-state predicate `KittyMoved`. The outcome of `breed_kitty` once ownership is settled is stated once as `ChildMinted`. Each handler and its helper method use the same predicate.
- **Error order.** The order in which a call checks for errors is stated by a function beside it: `MintError`, `OwnershipError`, `TransferError`, `BuyError` or `BreedError`.
- **Randomness.** The randomness one call would draw is an `Entropy` argument. It holds the 16 bytes `gen_dna` would return and the first byte of the gender random value.
- **Block number and signer.** The current block number is an argument of the PoE calls. The origin is the already verified signer's account.

## Model

| member | source | states |
|---|---|---|
| BoundedVec.TryPush | pallets/kitties/src/lib.rs:464-465 | the push succeeds exactly when the list is below the bound, and then gives the list with the id at its end, still within the bound |
| BoundedVec.Position | pallets/kitties/src/lib.rs:491 | finds an index exactly when the id is in the list; the element there is the id and no earlier element is |
| BoundedVec.SwapRemove | pallets/kitties/src/lib.rs:492 | the list shrinks by one; every other position keeps its element; the removed slot receives the former last element |
| BoundedVec.SwapRemoveMultiset | pallets/kitties/src/lib.rs:492 | `swap_remove` takes out exactly one copy of the removed element and keeps all others |
| BoundedVec.SwapRemoveDistinct | pallets/kitties/src/lib.rs:490-497 | on a duplicate-free list the result is duplicate-free and holds exactly the other ids |
| BoundedVec.DistinctOccurrences | pallets/kitties/src/lib.rs:164 | in a duplicate-free id list an id occurs once or not at all |
| Balances.TryReserve | pallets/kitties/src/lib.rs:179-180 | `reserve` succeeds exactly when the free balance covers the amount, then moves it from free to reserved for that account only |
| Balances.Release | pallets/kitties/src/lib.rs:250 | `unreserve` moves at most what is reserved back to free, conserving the account's total and touching no other account |
| Balances.TryTransfer | pallets/kitties/src/lib.rs:300 | a transfer succeeds exactly when the sender can pay; it moves the amount between the two free balances and leaves reservations alone |
| Balances.Ledger.constructor | pallets/kitties/src/lib.rs:60 | the currency starts with the given balances |
| Balances.Ledger.FreeBalance | pallets/kitties/src/lib.rs:288 | an account the ledger has never credited has a free balance of zero |
| Balances.Ledger.Reserve | pallets/kitties/src/lib.rs:179-180 | reports success exactly when `TryReserve` succeeds and then applies it; on failure nothing changes |
| Balances.Ledger.Unreserve | pallets/kitties/src/lib.rs:250 | applies `Release` |
| Balances.Ledger.Transfer | pallets/kitties/src/lib.rs:300 | reports success exactly when `TryTransfer` succeeds and then applies it; on failure nothing changes |
| Genetics.GenGender | pallets/kitties/src/lib.rs:412-417 | the gender is `Female` exactly when the low bit of the random byte is set, so an even byte gives `Male` |
| Genetics.MixByte | pallets/kitties/src/lib.rs:440 | an all-ones mask byte gives parent 1's byte, an all-zeros one gives parent 2's, and parents that agree give their common byte |
| Genetics.MixByteOneHot | pallets/kitties/src/lib.rs:440 | on any single bit, the mixed byte has parent 1's bit where the mask bit is set and parent 2's bit where it is clear |
| Genetics.Crossover | pallets/kitties/src/lib.rs:439-441 | at every one of the 16 positions, an all-ones mask byte copies parent 1, an all-zeros one copies parent 2, and agreeing parents pass their byte on |
| Genetics.MixByteBits | pallets/kitties/src/lib.rs:440 | each bit of the mixed byte comes from parent 1 where the mask bit is 1 and from parent 2 where it is 0 |
| Genetics.CrossoverBits | pallets/kitties/src/lib.rs:439-441 | every bit of every child byte is chosen by the same-position mask bit between the two parents |
| Genetics.CrossoverSameParents | pallets/kitties/src/lib.rs:439-441 | breeding two kitties with the same DNA gives that DNA back for any mask |
| Genetics.CrossoverComplement | pallets/kitties/src/lib.rs:439-441 | flipping every mask bit is the same as swapping the parents |
| Genetics.CrossoverExtremeMasks | pallets/kitties/src/lib.rs:439-441 | an all-ones mask copies parent 1 and an all-zeros mask copies parent 2 |
| Genetics.CrossoverLowNibbleExample | pallets/kitties/src/lib.rs:439-441 | mask 0x0F over parents of all 0xFF and all 0x00 gives 0x0F in every byte |
| Registry.Owned | pallets/kitties/src/lib.rs:160-166 | `KittiesOwned` is a value query: the stored list, or the empty list for an account without an entry |
| Registry.Attach | pallets/kitties/src/lib.rs:507-508 | the account's list gains the id at its end and every other account's list is unchanged |
| Registry.Detach | pallets/kitties/src/lib.rs:490-497 | the account's list loses one element, and when that list has no duplicates it keeps exactly its other ids; every other account's list is unchanged |
| Registry.OwnedExactlyOnce | pallets/kitties/src/lib.rs:152-166 | in a consistent state each kitty's id is in its owner's list exactly once and in no other list |
| Registry.MintKeepsConsistent | pallets/kitties/src/lib.rs:458-468 | the id `mint` takes from the counter is unused, and storing the kitty, appending its id and advancing the counter keeps the registry consistent |
| Registry.AttachKeepsSound | pallets/kitties/src/lib.rs:507-508 | pushing a kitty's id onto its owner's list, where it was absent, keeps every list sound |
| Registry.DetachKeepsSound | pallets/kitties/src/lib.rs:489-506 | removing a kitty from its previous owner's list and re-owning it leaves lists sound and no longer, the id absent from the new owner's list, and every other kitty still listed under its owner |
| Registry.TransferKeepsConsistent | pallets/kitties/src/lib.rs:482-509 | a completed `transfer_kitty_to` keeps the registry consistent, so the id then sits exactly once, in the new owner's list |
| Registry.RepriceKeepsConsistent | pallets/kitties/src/lib.rs:215-216 | changing only a kitty's price keeps the registry consistent |
| Registry.MintKeepsCollateral | pallets/kitties/src/lib.rs:179-182 | reserving one stake from the minter backs the minted kitty, and every other account stays backed |
| Registry.ShiftStake | pallets/kitties/src/lib.rs:248-250 | reserving from the recipient and releasing from the sender moves exactly one stake of reservation from one to the other |
| Registry.MoveLengths | pallets/kitties/src/lib.rs:490-508 | moving a kitty shortens the previous owner's list by one, lengthens the new owner's by one and leaves all others |
| Registry.ShiftKeepsCollateral | pallets/kitties/src/lib.rs:248-252 | when one stake and one kitty move together between two accounts, every account stays backed |
| Registry.MoveKeepsCollateral | pallets/kitties/src/lib.rs:248-252 | the stake moves of `transfer` and `buy_kitty`, followed by the kitty move, keep every account backed |
| Registry.FreeOnlyKeepsCollateral | pallets/kitties/src/lib.rs:300 | a change that only touches free balances keeps every account backed |
| Kitties.SettlementMovesFunds | pallets/kitties/src/lib.rs:288-300 | a sale takes bid plus stake from the buyer's free balance to the seller's, moves the stake reservation from seller to buyer and leaves all other accounts alone |
| Kitties.Settled | pallets/kitties/src/lib.rs:292-300 | after a sale's ledger calls the buyer's free balance is lower by bid plus stake and its reservation higher by the stake, the seller's total is higher by the bid, and no other account changes |
| Kitties.SaleKeepsCollateral | pallets/kitties/src/lib.rs:292-302 | the ledger calls of a sale followed by the kitty's move keep every account backed |
| Kitties.Pallet.constructor | pallets/kitties/src/lib.rs:146-166 | genesis storage is empty with the counter at zero, and it is consistent and backed |
| Kitties.Pallet.GetNextId | pallets/kitties/src/lib.rs:391-396 | fails with `KittyIndexOverflow` exactly when counter + 1 reaches the index maximum, and otherwise returns counter + 1, which stays below the maximum |
| Kitties.Pallet.GetKitty | pallets/kitties/src/lib.rs:404-409 | returns the stored kitty exactly when the id is present, and otherwise `KittyNotExist` |
| Kitties.Pallet.IsKittyOwner | pallets/kitties/src/lib.rs:472-480 | fails with `KittyNotExist` exactly when the id is absent, and otherwise answers whether the account is the owner |
| Kitties.Pallet.OwnershipError | pallets/kitties/src/lib.rs:211 | no error exactly when the kitty exists and belongs to the account; `KittyNotExist` exactly when the kitty is missing |
| Kitties.Pallet.MintError | pallets/kitties/src/lib.rs:458-465 | no error exactly when counter + 1 is below the maximum, the counter's id is free and the owner's list has room; `KittyIndexOverflow` exactly when counter + 1 is the maximum |
| Kitties.Pallet.NextIdIsFree | pallets/kitties/src/lib.rs:458-460 | in a consistent state the counter names no stored kitty, so `mint` for any owner never fails with `KittyExists` |
| Kitties.Pallet.Mint | pallets/kitties/src/lib.rs:447-470 | fails, in order, with `KittyIndexOverflow`, `KittyExists` or `ExceedMaxKittyOwned`, changing nothing; otherwise returns the old counter, stores an unpriced kitty for the owner, appends the id to the end of the owner's list and advances the counter; keeps consistency |
| Kitties.Pallet.BreedDna | pallets/kitties/src/lib.rs:431-443 | fails with `KittyNotExist` exactly when a parent is missing, and otherwise returns the byte-wise crossover of the parents under the mask |
| Kitties.Pallet.TransferKittyTo | pallets/kitties/src/lib.rs:482-510 | a missing kitty or id gives `KittyNotExist` with no change; otherwise the kitty gets the new owner and no price, and the id leaves the previous list; it then joins the new list, or the call fails with `ExceedMaxKittyOwned` with only those writes done; success keeps consistency |
| Kitties.Pallet.CreateKitty | pallets/kitties/src/lib.rs:171-199 | too little free balance gives `NotEnoughBalance` with no change; otherwise the stake is reserved and `mint`'s outcome follows, its error keeping the reservation; keeps consistency and backing |
| Kitties.Pallet.SetPrice | pallets/kitties/src/lib.rs:203-222 | a missing kitty or a non-owner gets `KittyNotExist` or `NotKittyOwner` with no change; the owner changes only that kitty's price and gets a `PriceSet` event |
| Kitties.Pallet.TransferError | pallets/kitties/src/lib.rs:233-243 | no error exactly when the sender owns the existing kitty, the recipient is someone else and the recipient's list has room; an ownership error comes first |
| Kitties.Pallet.Transfer | pallets/kitties/src/lib.rs:225-256 | ownership, self-transfer and capacity errors, in that order, change nothing; then the recipient's stake is reserved or `NotEnoughBalance` comes back with no change; the sender's stake is released and the kitty moved; keeps consistency and backing |
| Kitties.Pallet.MoveOwned | pallets/kitties/src/lib.rs:245-255 | after the checks: too little recipient balance gives `NotEnoughBalance` with no change; otherwise the recipient's stake is reserved, the sender's released and the kitty moved unlisted with a `Transferred` event; keeps consistency and backing |
| Kitties.Pallet.BuyError | pallets/kitties/src/lib.rs:267-289 | no error exactly when the kitty exists under another owner, the buyer's list has room, the kitty is listed at an ask the bid covers, and the buyer's free balance strictly exceeds bid plus stake |
| Kitties.Pallet.BuyKitty | pallets/kitties/src/lib.rs:259-306 | the six sale checks in order, including bid equal to ask accepted and a strict balance test, change nothing on failure; a passing sale settles the ledger and moves the kitty to the buyer unlisted; keeps consistency and backing |
| Kitties.Pallet.SettleSale | pallets/kitties/src/lib.rs:286-305 | after the sale checks: the ledger ends as `Settled`, the kitty goes to the buyer unlisted with a `Bought` event, and on a consistent registry the sale succeeds and stays backed |
| Kitties.Pallet.PaySeller | pallets/kitties/src/lib.rs:292-300 | the buyer's reservation, the seller's release and the payment, none of which can fail after the balance check, leave exactly the `Settled` ledger |
| Kitties.Pallet.BreedError | pallets/kitties/src/lib.rs:323-324 | no error exactly when the sender owns both existing parents; parent 1's error comes first |
| Kitties.Pallet.BreedKitty | pallets/kitties/src/lib.rs:309-336 | too little free balance gives `NotEnoughBalance` with no change; otherwise the stake is reserved and stays reserved on every later failure; succeeds exactly as `BreedOwned` does; keeps consistency and backing |
| Kitties.Pallet.BreedOwned | pallets/kitties/src/lib.rs:322-335 | ownership errors for parent 1, then parent 2, change nothing; then `mint`'s errors; on success the child carries the parents' crossover, is owned by the sender and the `BredSuccess` event names child and parents |
| KittiesScenarios.CreateFirst | pallets/kitties/src/lib.rs:171-199 | the first `create_kitty` on an empty pallet mints id 0 for the caller |
| KittiesScenarios.CreateSecond | pallets/kitties/src/lib.rs:171-199 | a second `create_kitty` by the same owner mints id 1 and lists it after id 0 |
| KittiesScenarios.BreedFirstTwo | pallets/kitties/src/lib.rs:309-336 | breeding the owner's kitties 0 and 1 mints id 2 with their crossover |
| KittiesScenarios.CreateTwiceThenBreed | pallets/kitties/src/lib.rs:309-336 | two creates and a breed by one account succeed; child 2 has the crossover of kitties 0 and 1 and the last event is `BredSuccess(owner, 2, 0, 1)` |
| KittiesScenarios.BuyListed | pallets/kitties/src/lib.rs:259-306 | a bid equal to the asking price buys the only kitty from its owner |
| KittiesScenarios.BuyAtAskingPrice | pallets/kitties/src/lib.rs:280-281 | a bid of exactly the asking price succeeds; the buyer then owns the unlisted kitty and the seller's free balance holds the price and the released stake |
| KittiesScenarios.TransferToOwnerFails | pallets/kitties/src/lib.rs:236 | transferring a kitty to its own owner fails with `TransferToSelf` and leaves it in place |
| KittiesScenarios.CreateIntoFullList | pallets/kitties/src/lib.rs:179-182 | with a cap of one, a second `create_kitty` fails with `ExceedMaxKittyOwned` but leaves two stakes reserved for one kitty |
| Poe.Pallet.constructor | pallets/poe/src/lib.rs:30-36 | genesis has no proofs |
| Poe.Pallet.Get | pallets/poe/src/lib.rs:93 | returns the stored holder and block exactly when the claim is stored; in a valid state a stored claim is at most `MaxClaimLength` bytes long |
| Poe.Pallet.CreateClaim | pallets/poe/src/lib.rs:59-74 | `ClaimTooLong` before any lookup, then `ProofAlreadyExist` for a stored claim, both without change; otherwise stores (sender, block) under the claim only and deposits `ClaimCreated` |
| Poe.Pallet.RevokeClaim | pallets/poe/src/lib.rs:76-105 | `ClaimTooLong`, `ClaimNotExist`, `NostClaimOwner` in that order without change; otherwise removes exactly that claim and deposits `ClaimRevoked` |
| Poe.Pallet.TransferClaim | pallets/poe/src/lib.rs:108-121 | the same three errors without change; otherwise sets the claim to (dest, block), touches no other claim and deposits no event |
| Poe.CreateThenRevoke | pallets/poe/src/lib.rs:59-105 | revoking a freshly created claim as its creator restores the proofs exactly |
| Poe.CreateClaimWorks | pallets/poe/src/tests.rs:7-28 | a created claim is stored under its creator and block, and creating it again fails with `ProofAlreadyExist` |
| Poe.RevokeClaimWorks | pallets/poe/src/tests.rs:31-52 | the creator's revocation succeeds and a second one fails with `ClaimNotExist` |
| Poe.TransferClaimWorks | pallets/poe/src/tests.rs:55-79 | a missing claim gives `ClaimNotExist`, a non-holder gets `NostClaimOwner`, and the holder's transfer stores (dest, block) |

## Left out

- Randomness and hashing are not modelled: `T::KittyRandomness::random`, `blake2_128`, the SCALE encoding, and the extrinsic index and block number mixed into `gen_dna` (pallets/kitties/src/lib.rs:421-428). Their outputs arrive as the `Entropy` argument. The model assumes one call draws the same values wherever it draws them.
- Currency internals are not modelled: existential deposit, `KeepAlive` and account reaping. The ledger's transfer fails only when the sender's free balance is short. So in `buy_kitty` the failures after the balance check (lines 292, 296 and 300) cannot happen in the model, and those branches are asserted unreachable.
- Kitties.Pallet.BuyKitty: `bid_price + stake_amount` is not checked for `u128` overflow, because balances are unbounded naturals.
- Kitties.Pallet.GetNextId: the generic `KittyIndex` is a natural number below the parameter `maxIndex`. The overflow of `last_kitty_id() + 1` cannot happen, because the counter never reaches the maximum.
- Origin checks (`ensure_signed`), weights, `log::info!`, the storage macros and hashers are not modelled. Events are an appended list.
- The error variants `InvalidKittyId` and `SameKittyId` are never raised and are not modelled. Neither is the commented-out code.
- `MaxKittyOwned`, `KittyStake` and `MaxClaimLength` are constructor parameters, not runtime configuration.
- Genesis configuration, runtime wiring and the mock runtime of the PoE tests are not part of this model.
- Kitties.Pallet.TransferKittyTo: `Valid()` is promised only after success. On the capacity failure the kitty already names the new owner but is in no list. That failure cannot happen from the handlers, which check capacity first.
- Registry.Collateralised: the collateral invariant says an account's reservation covers one stake per kitty it owns, not that it equals it. `create_kitty` and `breed_kitty` keep the stake reserved when they fail after reserving it, so a reservation can exceed the stakes owed.
