/**
 * The kitties pallet: storage (`LastKittyId`, `Kitties`, `KittiesOwned`),
 * its read-only helpers, `mint`, `breed_dna`, `transfer_kitty_to` and the
 * five dispatchable calls. Calls take the already verified signer as an
 * account; the randomness they would draw is an `Entropy` argument; the
 * reservable currency is the `Ledger` the pallet was built with.
 *
 * The calls are not transactional: a write made before a later check fails
 * stays in place, and each call's contract says which writes those are.
 */
module Kitties {
  import opened Primitives
  import opened BoundedVec
  import opened Genetics
  import opened Balances
  import opened Registry

  datatype Error =
    | KittyIndexOverflow
    | ExceedMaxKittyOwned
    | BuyerIsKittyOwner
    | TransferToSelf
    | KittyNotExist
    | KittyExists
    | NotKittyOwner
    | KittyNotForSale
    | KittyBidPriceTooLow
    | NotEnoughBalance

  datatype Event =
    | Created(sender: AccountId, kittyId: KittyIndex)
    | PriceSet(sender: AccountId, kittyId: KittyIndex, newPrice: Option<Balance>)
    | Transferred(from: AccountId, to: AccountId, kittyId: KittyIndex)
    | Bought(buyer: AccountId, seller: AccountId, kittyId: KittyIndex, bidPrice: Balance)
    | BredSuccess(sender: AccountId, kittyId: KittyIndex, parent1: KittyIndex, parent2: KittyIndex)

  type DispatchResult = Result<(), Error>

  /**
   * The ledger after `buy_kitty` has reserved the buyer's stake, released
   * the seller's and paid the bid to the seller.
   */
  function Settled(acc: Accounts, buyer: AccountId, seller: AccountId, stake: Balance, bidPrice: Balance): (r: Accounts)
    requires bidPrice + stake < FreeOf(acc, buyer) && buyer != seller
    ensures FreeOf(r, buyer) == FreeOf(acc, buyer) - bidPrice - stake
    ensures ReservedOf(r, buyer) == ReservedOf(acc, buyer) + stake
    ensures FreeOf(r, seller) + ReservedOf(r, seller) == FreeOf(acc, seller) + ReservedOf(acc, seller) + bidPrice
    ensures forall b | b != buyer && b != seller :: FreeOf(r, b) == FreeOf(acc, b) && ReservedOf(r, b) == ReservedOf(acc, b)
  {
    var staked := Release(TryReserve(acc, buyer, stake).value, seller, stake);
    TryTransfer(staked, buyer, seller, bidPrice).value
  }

  /**
   * A sale moves the bid and one stake from the buyer's free balance to the
   * seller's, and the stake reservation from the seller to the buyer.
   */
  lemma SettlementMovesFunds(acc: Accounts, buyer: AccountId, seller: AccountId, stake: Balance, bidPrice: Balance)
    requires bidPrice + stake < FreeOf(acc, buyer) && buyer != seller
    requires stake <= ReservedOf(acc, seller)
    ensures var acc' := Settled(acc, buyer, seller, stake, bidPrice);
      && FreeOf(acc', buyer) == FreeOf(acc, buyer) - bidPrice - stake
      && FreeOf(acc', seller) == FreeOf(acc, seller) + bidPrice + stake
      && ReservedOf(acc', buyer) == ReservedOf(acc, buyer) + stake
      && ReservedOf(acc', seller) == ReservedOf(acc, seller) - stake
      && forall b | b != buyer && b != seller :: FreeOf(acc', b) == FreeOf(acc, b) && ReservedOf(acc', b) == ReservedOf(acc, b)
  {
    var reserved := TryReserve(acc, buyer, stake).value;
    var staked := Release(reserved, seller, stake);
    assert ReservedOf(reserved, seller) == ReservedOf(acc, seller);
    assert FreeOf(staked, buyer) == FreeOf(acc, buyer) - stake;
  }

  /** A sale keeps every kitty backed: the stake and the kitty move together, the bid only moves free balance. */
  lemma SaleKeepsCollateral(kitties: map<KittyIndex, Kitty>, index: OwnershipIndex, acc: Accounts, stake: Balance,
                            bidPrice: Balance, id: KittyIndex, buyer: AccountId)
    requires ListsComplete(kitties, index) && Collateralised(index, acc, stake)
    requires id in kitties && kitties[id].owner != buyer
    requires bidPrice + stake < FreeOf(acc, buyer)
    ensures var seller := kitties[id].owner;
      Collateralised(Attach(Detach(index, seller, id), buyer, id), Settled(acc, buyer, seller, stake, bidPrice), stake)
  {
    var seller := kitties[id].owner;
    MoveKeepsCollateral(kitties, index, acc, stake, id, buyer);
    var staked := Release(TryReserve(acc, buyer, stake).value, seller, stake);
    FreeOnlyKeepsCollateral(Attach(Detach(index, seller, id), buyer, id), staked, Settled(acc, buyer, seller, stake, bidPrice), stake);
  }

  class Pallet {
    /** `MaxKittyOwned`: the capacity of every account's list. */
    const maxKittyOwned: nat
    /** `KittyStake`: the collateral reserved for every kitty an account holds. */
    const kittyStake: Balance
    /** `KittyIndex::max_value()`. */
    const maxIndex: nat
    const currency: Ledger

    var lastKittyId: KittyIndex
    var kitties: map<KittyIndex, Kitty>
    var kittiesOwned: OwnershipIndex
    /** Events deposited so far. */
    var events: seq<Event>

    /** Genesis: no kitties, counter at its default of zero. */
    constructor (maxKittyOwned: nat, kittyStake: Balance, maxIndex: nat, currency: Ledger)
      requires maxIndex > 0
      ensures Valid() && Backed()
      ensures this.maxKittyOwned == maxKittyOwned && this.kittyStake == kittyStake
      ensures this.maxIndex == maxIndex && this.currency == currency
      ensures lastKittyId == 0 && kitties == map[] && kittiesOwned == map[] && events == []
    {
      this.maxKittyOwned, this.kittyStake, this.maxIndex, this.currency := maxKittyOwned, kittyStake, maxIndex, currency;
      lastKittyId, kitties, kittiesOwned, events := 0, map[], map[], [];
    }

    /** Ids unique and below the counter, index and registry agree, no list over capacity. */
    ghost predicate Valid()
      reads this
    {
      Consistent(kitties, kittiesOwned, lastKittyId, maxIndex, maxKittyOwned)
    }

    /** Every kitty an account owns is backed by one stake in its reserved balance. */
    ghost predicate Backed()
      reads this, currency
    {
      Collateralised(kittiesOwned, currency.accounts, kittyStake)
    }

    // ----- read-only helpers -----

    /** `get_next_id`: the counter's successor, unless that is the index type's maximum. */
    function GetNextId(): (r: Result<KittyIndex, Error>)
      reads this
      ensures r.Err? <==> lastKittyId + 1 == maxIndex
      ensures r.Err? ==> r.error == KittyIndexOverflow
      ensures r.Ok? ==> r.value == lastKittyId + 1
      ensures r.Ok? && lastKittyId < maxIndex ==> r.value < maxIndex
    {
      var kittyId := lastKittyId + 1;
      if kittyId == maxIndex then Err(KittyIndexOverflow) else Ok(kittyId)
    }

    /** `get_kitty`. */
    function GetKitty(kittyId: KittyIndex): (r: Result<Kitty, Error>)
      reads this
      ensures r.Ok? <==> kittyId in kitties
      ensures r.Ok? ==> r.value == kitties[kittyId]
      ensures r.Err? ==> r.error == KittyNotExist
    {
      if kittyId in kitties then Ok(kitties[kittyId]) else Err(KittyNotExist)
    }

    /** `is_kitty_owner`: whether `acct` owns the kitty; a missing kitty is an error, not `false`. */
    function IsKittyOwner(kittyId: KittyIndex, acct: AccountId): (r: Result<bool, Error>)
      reads this
      ensures r.Err? <==> kittyId !in kitties
      ensures r.Err? ==> r.error == KittyNotExist
      ensures r.Ok? ==> (r.value <==> kitties[kittyId].owner == acct)
    {
      match GetKitty(kittyId)
      case Ok(kitty) => Ok(kitty.owner == acct)
      case Err(e) => Err(e)
    }

    /** The error of `ensure!(Self::is_kitty_owner(id, who)?, NotKittyOwner)`, if any. */
    function OwnershipError(kittyId: KittyIndex, who: AccountId): (r: Option<Error>)
      reads this
      ensures r.None? <==> kittyId in kitties && kitties[kittyId].owner == who
      ensures r == Some(KittyNotExist) <==> kittyId !in kitties
    {
      if kittyId !in kitties then Some(KittyNotExist)
      else if kitties[kittyId].owner != who then Some(NotKittyOwner)
      else None
    }

    /** The error `mint` returns for `owner` in the current state, if any, in the order it checks. */
    function MintError(owner: AccountId): (r: Option<Error>)
      reads this
      ensures r.None? <==> lastKittyId + 1 != maxIndex && lastKittyId !in kitties && |Owned(kittiesOwned, owner)| < maxKittyOwned
      ensures r == Some(KittyIndexOverflow) <==> lastKittyId + 1 == maxIndex
    {
      if GetNextId().Err? then Some(KittyIndexOverflow)
      else if lastKittyId in kitties then Some(KittyExists)
      else if |Owned(kittiesOwned, owner)| >= maxKittyOwned then Some(ExceedMaxKittyOwned)
      else None
    }

    /** A consistent registry never holds a kitty under the id the counter will hand out next. */
    lemma NextIdIsFree()
      requires Valid()
      ensures lastKittyId !in kitties
      ensures forall owner :: MintError(owner) != Some(KittyExists)
    {
    }

    // ----- storage-changing logic -----

    /**
     * `mint`: stores a new kitty under the current counter value, pushes the
     * id onto the owner's list and advances the counter. A missing DNA or
     * gender is drawn from `entropy`. Every failure happens before any write.
     */
    method Mint(owner: AccountId, dna: Option<Dna>, gender: Option<Gender>, entropy: Entropy)
      returns (r: Result<KittyIndex, Error>)
      modifies this
      ensures events == old(events)
      ensures r.Err? <==> old(MintError(owner)).Some?
      ensures r.Err? ==> r.error == old(MintError(owner)).value && unchanged(this)
      ensures r.Ok? ==>
        && r.value == old(lastKittyId)
        && lastKittyId == old(lastKittyId) + 1
        && kitties == old(kitties)[r.value := Kitty(dna.GetOr(entropy.dna), None, gender.GetOr(GenGender(entropy.gender)), owner)]
        && kittiesOwned == Attach(old(kittiesOwned), owner, r.value)
      ensures old(Valid()) ==> Valid() && r != Err(KittyExists)
    {
      var kitty := Kitty(dna.GetOr(entropy.dna), None, gender.GetOr(GenGender(entropy.gender)), owner);
      var kittyId := lastKittyId;
      var nextId := GetNextId();
      if nextId.Err? {
        return Err(nextId.error);
      }
      if kittyId in kitties {
        return Err(KittyExists);
      }
      var pushed := TryPush(Owned(kittiesOwned, owner), kittyId, maxKittyOwned);
      if pushed.None? {
        return Err(ExceedMaxKittyOwned);
      }
      if Valid() {
        MintKeepsConsistent(kitties, kittiesOwned, lastKittyId, maxIndex, maxKittyOwned, kitty);
      }
      kittiesOwned := kittiesOwned[owner := pushed.value];
      kitties := kitties[kittyId := kitty];
      lastKittyId := nextId.value;
      r := Ok(kittyId);
    }

    /**
     * `breed_dna`: starts from the mask `gen_dna` draws and overwrites it,
     * byte by byte, with the crossover of the two parents' DNA.
     */
    method BreedDna(parent1: KittyIndex, parent2: KittyIndex, mask: Dna) returns (r: Result<Dna, Error>)
      ensures r.Err? <==> parent1 !in kitties || parent2 !in kitties
      ensures r.Err? ==> r.error == KittyNotExist
      ensures r.Ok? ==> r.value == Crossover(mask, kitties[parent1].dna, kitties[parent2].dna)
    {
      var kitty1 := GetKitty(parent1);
      if kitty1.Err? {
        return Err(kitty1.error);
      }
      var kitty2 := GetKitty(parent2);
      if kitty2.Err? {
        return Err(kitty2.error);
      }
      var dna1, dna2 := kitty1.value.dna, kitty2.value.dna;
      var newDna := new Byte[DnaLength](i requires 0 <= i < DnaLength => mask[i]);
      for i := 0 to DnaLength
        invariant forall j | 0 <= j < i :: newDna[j] == MixByte(mask[j], dna1[j], dna2[j])
        invariant forall j | i <= j < DnaLength :: newDna[j] == mask[j]
      {
        newDna[i] := (newDna[i] & dna1[i]) | (!newDna[i] & dna2[i]);
      }
      assert newDna[..] == Crossover(mask, dna1, dna2);
      r := Ok(newDna[..]);
    }

    /**
     * `transfer_kitty_to`: takes the id out of the previous owner's list,
     * makes `to` the owner with no asking price, and pushes the id onto
     * `to`'s list. When that last push finds the list full, the first two
     * writes have already happened.
     */
    method TransferKittyTo(kittyId: KittyIndex, to: AccountId) returns (r: DispatchResult)
      modifies this
      ensures lastKittyId == old(lastKittyId) && events == old(events)
      ensures kittyId !in old(kitties) ==> r == Err(KittyNotExist) && unchanged(this)
      ensures kittyId in old(kitties) && kittyId !in old(Owned(kittiesOwned, kitties[kittyId].owner)) ==>
        r == Err(KittyNotExist) && unchanged(this)
      ensures kittyId in old(kitties) && kittyId in old(Owned(kittiesOwned, kitties[kittyId].owner)) ==>
        var detached := Detach(old(kittiesOwned), old(kitties[kittyId].owner), kittyId);
        && kitties == old(kitties)[kittyId := old(kitties[kittyId]).(owner := to, price := None)]
        && (r.Ok? <==> |Owned(detached, to)| < maxKittyOwned)
        && (r.Ok? ==> kittiesOwned == Attach(detached, to, kittyId))
        && (r.Err? ==> r.error == ExceedMaxKittyOwned && kittiesOwned == detached)
      ensures old(Valid()) && r.Ok? ==> Valid()
      ensures (old(Valid()) && kittyId in old(kitties) && old(kitties[kittyId].owner) != to
               && |old(Owned(kittiesOwned, to))| < maxKittyOwned) ==> r.Ok?
    {
      if kittyId !in kitties {
        return Err(KittyNotExist);
      }
      var kitty := kitties[kittyId];
      var prevOwner := kitty.owner;
      var owned := Owned(kittiesOwned, prevOwner);
      var ind := Position(owned, kittyId);
      if ind.None? {
        return Err(KittyNotExist);
      }
      ghost var wasValid := Valid();
      ghost var (kitties0, index0) := (kitties, kittiesOwned);
      kittiesOwned := kittiesOwned[prevOwner := SwapRemove(owned, ind.value)];
      kitty := kitty.(owner := to, price := None);
      kitties := kitties[kittyId := kitty];
      var pushed := TryPush(Owned(kittiesOwned, to), kittyId, maxKittyOwned);
      if pushed.None? {
        return Err(ExceedMaxKittyOwned);
      }
      kittiesOwned := kittiesOwned[to := pushed.value];
      if wasValid {
        TransferKeepsConsistent(kitties0, index0, lastKittyId, maxIndex, maxKittyOwned, kittyId, to);
      }
      r := Ok(());
    }
    // ----- dispatchable calls -----

    /**
     * `create_kitty`: reserves the stake, then mints a kitty with random DNA
     * and gender. When `mint` fails the stake stays reserved.
     */
    method CreateKitty(sender: AccountId, entropy: Entropy) returns (r: DispatchResult)
      modifies this, currency
      ensures old(currency.FreeBalance(sender)) < kittyStake ==>
        r == Err(NotEnoughBalance) && unchanged(this, currency)
      ensures kittyStake <= old(currency.FreeBalance(sender)) ==>
        && currency.accounts == TryReserve(old(currency.accounts), sender, kittyStake).value
        && (r.Err? <==> old(MintError(sender)).Some?)
        && (r.Err? ==> r.error == old(MintError(sender)).value && unchanged(this))
        && (r.Ok? ==>
             && lastKittyId == old(lastKittyId) + 1
             && kitties == old(kitties)[old(lastKittyId) := Kitty(entropy.dna, None, GenGender(entropy.gender), sender)]
             && kittiesOwned == Attach(old(kittiesOwned), sender, old(lastKittyId))
             && events == old(events) + [Created(sender, old(lastKittyId))])
      ensures old(Valid()) ==> Valid()
      ensures old(Valid() && Backed()) ==> Backed()
    {
      var stakeAmount := kittyStake;
      var reserved := currency.Reserve(sender, stakeAmount);
      if !reserved {
        return Err(NotEnoughBalance);
      }
      ghost var (acc0, index0) := (old(currency.accounts), kittiesOwned);
      var kittyId := Mint(sender, None, None, entropy);
      if old(Valid() && Backed()) {
        MintKeepsCollateral(index0, acc0, stakeAmount, sender, old(lastKittyId));
      }
      if kittyId.Err? {
        return Err(kittyId.error);
      }
      events := events + [Created(sender, kittyId.value)];
      r := Ok(());
    }

    /** `set_price`: the owner sets or clears the asking price; nothing else changes. */
    method SetPrice(sender: AccountId, kittyId: KittyIndex, newPrice: Option<Balance>) returns (r: DispatchResult)
      modifies this
      ensures old(OwnershipError(kittyId, sender)).Some? ==>
        r == Err(old(OwnershipError(kittyId, sender)).value) && unchanged(this)
      ensures old(OwnershipError(kittyId, sender)).None? ==>
        && r.Ok?
        && kitties == old(kitties)[kittyId := old(kitties[kittyId]).(price := newPrice)]
        && kittiesOwned == old(kittiesOwned) && lastKittyId == old(lastKittyId)
        && events == old(events) + [PriceSet(sender, kittyId, newPrice)]
      ensures old(Valid()) ==> Valid()
    {
      var isOwner := IsKittyOwner(kittyId, sender);
      if isOwner.Err? {
        return Err(isOwner.error);
      }
      if !isOwner.value {
        return Err(NotKittyOwner);
      }
      // `kitties(kitty_id).ok_or(KittyNotExist)` cannot fail: `is_kitty_owner` found the kitty
      var kitty := kitties[kittyId];
      if Valid() {
        RepriceKeepsConsistent(kitties, kittiesOwned, lastKittyId, maxIndex, maxKittyOwned, kittyId, newPrice);
      }
      kitty := kitty.(price := newPrice);
      kitties := kitties[kittyId := kitty];
      events := events + [PriceSet(sender, kittyId, newPrice)];
      r := Ok(());
    }

    /**
     * What `transfer_kitty_to(kittyId, to)` leaves when a handler has passed
     * its checks and deposits `ev` on success: it succeeds exactly when the id
     * is in `from`'s list; the kitty then has the new owner and no price, its
     * id moves from `from`'s list to the end of `to`'s, and `ev` is appended.
     * Otherwise the result is `KittyNotExist` and the storage is untouched.
     */
    twostate predicate KittyMoved(from: AccountId, to: AccountId, kittyId: KittyIndex, ev: Event, new r: DispatchResult)
      reads this
    {
      && lastKittyId == old(lastKittyId)
      && (r.Ok? <==> kittyId in old(Owned(kittiesOwned, from)))
      && (r.Ok? ==>
           && kittyId in old(kitties)
           && kitties == old(kitties)[kittyId := old(kitties[kittyId]).(owner := to, price := None)]
           && kittiesOwned == Attach(Detach(old(kittiesOwned), from, kittyId), to, kittyId)
           && events == old(events) + [ev])
      && (r.Err? ==> r == Err(KittyNotExist) && unchanged(this))
    }

    /** The checks `transfer` makes before it touches the ledger, in order. */
    function TransferError(from: AccountId, to: AccountId, kittyId: KittyIndex): (r: Option<Error>)
      reads this
      ensures r.None? <==> OwnershipError(kittyId, from).None? && from != to && |Owned(kittiesOwned, to)| < maxKittyOwned
      ensures OwnershipError(kittyId, from).Some? ==> r == OwnershipError(kittyId, from)
    {
      if OwnershipError(kittyId, from).Some? then OwnershipError(kittyId, from)
      else if from == to then Some(TransferToSelf)
      else if |Owned(kittiesOwned, to)| >= maxKittyOwned then Some(ExceedMaxKittyOwned)
      else None
    }

    /**
     * `transfer`: after the ownership, self-transfer and capacity checks,
     * reserves the stake from the recipient, releases the sender's, and moves
     * the kitty. On a consistent registry nothing fails after the reservation.
     */
    method Transfer(from: AccountId, to: AccountId, kittyId: KittyIndex) returns (r: DispatchResult)
      modifies this, currency
      ensures old(TransferError(from, to, kittyId)).Some? ==>
        r == Err(old(TransferError(from, to, kittyId)).value) && unchanged(this, currency)
      ensures old(TransferError(from, to, kittyId)).None? && old(currency.FreeBalance(to)) < kittyStake ==>
        r == Err(NotEnoughBalance) && unchanged(this, currency)
      ensures old(TransferError(from, to, kittyId)).None? && kittyStake <= old(currency.FreeBalance(to)) ==>
        && currency.accounts == Release(TryReserve(old(currency.accounts), to, kittyStake).value, from, kittyStake)
        && KittyMoved(from, to, kittyId, Transferred(from, to, kittyId), r)
      ensures old(Valid()) ==> Valid()
      ensures old(Valid()) && r.Err? ==> unchanged(currency)
      ensures old(Valid() && Backed()) ==> Backed()
    {
      var isOwner := IsKittyOwner(kittyId, from);
      if isOwner.Err? {
        return Err(isOwner.error);
      }
      if !isOwner.value {
        return Err(NotKittyOwner);
      }
      if from == to {
        return Err(TransferToSelf);
      }
      var toOwned := Owned(kittiesOwned, to);
      if !(|toOwned| < maxKittyOwned) {
        return Err(ExceedMaxKittyOwned);
      }
      r := MoveOwned(from, to, kittyId);
    }

    /**
     * The part of `transfer` after its checks have passed: moves the stake
     * from the sender to the recipient on the ledger, then the kitty.
     */
    method MoveOwned(from: AccountId, to: AccountId, kittyId: KittyIndex) returns (r: DispatchResult)
      requires TransferError(from, to, kittyId).None?
      modifies this, currency
      ensures old(currency.FreeBalance(to)) < kittyStake ==>
        r == Err(NotEnoughBalance) && unchanged(this, currency)
      ensures kittyStake <= old(currency.FreeBalance(to)) ==>
        && currency.accounts == Release(TryReserve(old(currency.accounts), to, kittyStake).value, from, kittyStake)
        && KittyMoved(from, to, kittyId, Transferred(from, to, kittyId), r)
      ensures old(Valid()) ==> Valid()
      ensures old(Valid()) && r.Err? ==> unchanged(currency)
      ensures old(Valid() && Backed()) ==> Backed()
    {
      var stakeAmount := kittyStake;
      var reserved := currency.Reserve(to, stakeAmount);
      if !reserved {
        return Err(NotEnoughBalance);
      }
      currency.Unreserve(from, stakeAmount);
      if old(Valid() && Backed()) {
        MoveKeepsCollateral(kitties, kittiesOwned, old(currency.accounts), stakeAmount, kittyId, to);
      }
      var moved := TransferKittyTo(kittyId, to);
      if moved.Err? {
        return moved;
      }
      events := events + [Transferred(from, to, kittyId)];
      r := Ok(());
    }

    /** The checks `buy_kitty` makes before it touches the ledger, in order. */
    function BuyError(buyer: AccountId, kittyId: KittyIndex, bidPrice: Balance): (r: Option<Error>)
      reads this, currency
      ensures r.None? <==>
        && kittyId in kitties && kitties[kittyId].owner != buyer
        && |Owned(kittiesOwned, buyer)| < maxKittyOwned
        && kitties[kittyId].price.Some? && kitties[kittyId].price.value <= bidPrice
        && bidPrice + kittyStake < currency.FreeBalance(buyer)
    {
      if kittyId !in kitties then Some(KittyNotExist)
      else if kitties[kittyId].owner == buyer then Some(BuyerIsKittyOwner)
      else if |Owned(kittiesOwned, buyer)| >= maxKittyOwned then Some(ExceedMaxKittyOwned)
      else if kitties[kittyId].price.None? then Some(KittyNotForSale)
      else if kitties[kittyId].price.value > bidPrice then Some(KittyBidPriceTooLow)
      else if currency.FreeBalance(buyer) <= bidPrice + kittyStake then Some(NotEnoughBalance)
      else None
    }

    /**
     * `buy_kitty`: after the sale checks, reserves the buyer's stake,
     * releases the seller's, pays the bid to the seller and moves the kitty.
     * The balance check guarantees the reservation and the payment succeed.
     */
    method BuyKitty(buyer: AccountId, kittyId: KittyIndex, bidPrice: Balance) returns (r: DispatchResult)
      modifies this, currency
      ensures old(BuyError(buyer, kittyId, bidPrice)).Some? ==>
        r == Err(old(BuyError(buyer, kittyId, bidPrice)).value) && unchanged(this, currency)
      ensures old(BuyError(buyer, kittyId, bidPrice)).None? ==>
        var seller := old(kitties[kittyId].owner);
        && currency.accounts == Settled(old(currency.accounts), buyer, seller, kittyStake, bidPrice)
        && KittyMoved(seller, buyer, kittyId, Bought(buyer, seller, kittyId, bidPrice), r)
      ensures old(Valid()) ==> Valid() && (r.Ok? <==> old(BuyError(buyer, kittyId, bidPrice)).None?)
      ensures old(Valid() && Backed()) ==> Backed()
    {
      var found := GetKitty(kittyId);
      if found.Err? {
        return Err(found.error);
      }
      var kitty := found.value;
      if kitty.owner == buyer {
        return Err(BuyerIsKittyOwner);
      }
      var toOwned := Owned(kittiesOwned, buyer);
      if !(|toOwned| < maxKittyOwned) {
        return Err(ExceedMaxKittyOwned);
      }
      match kitty.price {
        case Some(askPrice) =>
          if !(askPrice <= bidPrice) {
            return Err(KittyBidPriceTooLow);
          }
        case None =>
          return Err(KittyNotForSale);
      }
      var buyerBalance := currency.FreeBalance(buyer);
      if !(buyerBalance > bidPrice + kittyStake) {
        return Err(NotEnoughBalance);
      }
      r := SettleSale(buyer, kittyId, bidPrice);
    }

    /**
     * The part of `buy_kitty` after its checks have passed: moves the stake
     * and the bid on the ledger, then the kitty.
     */
    method SettleSale(buyer: AccountId, kittyId: KittyIndex, bidPrice: Balance) returns (r: DispatchResult)
      requires BuyError(buyer, kittyId, bidPrice).None?
      modifies this, currency
      ensures var seller := old(kitties[kittyId].owner);
        && currency.accounts == Settled(old(currency.accounts), buyer, seller, kittyStake, bidPrice)
        && KittyMoved(seller, buyer, kittyId, Bought(buyer, seller, kittyId, bidPrice), r)
      ensures old(Valid()) ==> Valid() && r.Ok?
      ensures old(Valid() && Backed()) ==> Backed()
    {
      var seller := kitties[kittyId].owner;
      ghost var (kitties0, index0, acc0) := (kitties, kittiesOwned, currency.accounts);
      PaySeller(buyer, seller, bidPrice);
      if old(Valid() && Backed()) {
        SaleKeepsCollateral(kitties0, index0, acc0, kittyStake, bidPrice, kittyId, buyer);
      }
      var moved := TransferKittyTo(kittyId, buyer);
      if moved.Err? {
        return moved;
      }
      events := events + [Bought(buyer, seller, kittyId, bidPrice)];
      r := Ok(());
    }

    /**
     * The ledger calls of `buy_kitty`: reserve the buyer's stake, release the
     * seller's, pay the bid. The balance check before them guarantees that
     * none fails.
     */
    method PaySeller(buyer: AccountId, seller: AccountId, bidPrice: Balance)
      requires bidPrice + kittyStake < currency.FreeBalance(buyer) && buyer != seller
      modifies currency
      ensures currency.accounts == Settled(old(currency.accounts), buyer, seller, kittyStake, bidPrice)
    {
      var stakeAmount := kittyStake;
      var reserved := currency.Reserve(buyer, stakeAmount);
      if !reserved {
        // unreachable: the buyer's free balance exceeds the stake
        assert false;
      }
      currency.Unreserve(seller, stakeAmount);
      if !(currency.FreeBalance(buyer) >= bidPrice) {
        // unreachable: only the stake has left the buyer's free balance
        assert false;
      }
      var paid := currency.Transfer(buyer, seller, bidPrice);
      if !paid {
        // unreachable: the buyer can pay the bid
        assert false;
      }
    }

    /**
     * What `breed_kitty` leaves once the sender owns both parents: `mint`'s
     * error with the storage untouched, or a new kitty under the old counter
     * that carries the parents' crossover under the random mask, is owned by
     * the sender and is announced by `BredSuccess`.
     */
    twostate predicate ChildMinted(sender: AccountId, parent1: KittyIndex, parent2: KittyIndex, entropy: Entropy, new r: DispatchResult)
      reads this
    {
      && (r.Err? <==> old(MintError(sender)).Some?)
      && (r.Err? ==> r.error == old(MintError(sender)).value && unchanged(this))
      && (r.Ok? ==>
           && parent1 in old(kitties) && parent2 in old(kitties)
           && var child := Crossover(entropy.dna, old(kitties[parent1].dna), old(kitties[parent2].dna));
           && lastKittyId == old(lastKittyId) + 1
           && kitties == old(kitties)[old(lastKittyId) := Kitty(child, None, GenGender(entropy.gender), sender)]
           && kittiesOwned == Attach(old(kittiesOwned), sender, old(lastKittyId))
           && events == old(events) + [BredSuccess(sender, old(lastKittyId), parent1, parent2)])
    }

    /** The ownership checks `breed_kitty` makes after reserving the stake, in order. */
    function BreedError(sender: AccountId, parent1: KittyIndex, parent2: KittyIndex): (r: Option<Error>)
      reads this
      ensures r.None? <==> OwnershipError(parent1, sender).None? && OwnershipError(parent2, sender).None?
      ensures OwnershipError(parent1, sender).Some? ==> r == OwnershipError(parent1, sender)
    {
      if OwnershipError(parent1, sender).Some? then OwnershipError(parent1, sender)
      else OwnershipError(parent2, sender)
    }

    /**
     * `breed_kitty`: reserves the stake, checks that the sender owns both
     * parents, and mints a kitty whose DNA is the crossover of theirs under
     * the random mask. The stake stays reserved when a later check or `mint`
     * fails.
     */
    method BreedKitty(sender: AccountId, parent1: KittyIndex, parent2: KittyIndex, entropy: Entropy)
      returns (r: DispatchResult)
      modifies this, currency
      ensures old(currency.FreeBalance(sender)) < kittyStake ==>
        r == Err(NotEnoughBalance) && unchanged(this, currency)
      ensures kittyStake <= old(currency.FreeBalance(sender)) ==>
        currency.accounts == TryReserve(old(currency.accounts), sender, kittyStake).value
      ensures kittyStake <= old(currency.FreeBalance(sender)) && old(BreedError(sender, parent1, parent2)).Some? ==>
        r == Err(old(BreedError(sender, parent1, parent2)).value) && unchanged(this)
      ensures kittyStake <= old(currency.FreeBalance(sender)) && old(BreedError(sender, parent1, parent2)).None? ==>
        ChildMinted(sender, parent1, parent2, entropy, r)
      ensures old(Valid()) ==> Valid()
      ensures old(Valid() && Backed()) ==> Backed()
    {
      var stakeAmount := kittyStake;
      var reserved := currency.Reserve(sender, stakeAmount);
      if !reserved {
        return Err(NotEnoughBalance);
      }
      if old(Valid() && Backed()) {
        MintKeepsCollateral(kittiesOwned, old(currency.accounts), stakeAmount, sender, lastKittyId);
      }
      r := BreedOwned(sender, parent1, parent2, entropy);
    }

    /**
     * The part of `breed_kitty` after the stake is reserved: the ownership
     * checks, the crossover and `mint`. It does not touch the ledger.
     */
    method BreedOwned(sender: AccountId, parent1: KittyIndex, parent2: KittyIndex, entropy: Entropy)
      returns (r: DispatchResult)
      modifies this
      ensures old(BreedError(sender, parent1, parent2)).Some? ==>
        r == Err(old(BreedError(sender, parent1, parent2)).value) && unchanged(this)
      ensures old(BreedError(sender, parent1, parent2)).None? ==>
        ChildMinted(sender, parent1, parent2, entropy, r)
      ensures old(Valid()) ==> Valid()
    {
      var owns1 := IsKittyOwner(parent1, sender);
      if owns1.Err? {
        return Err(owns1.error);
      }
      if !owns1.value {
        return Err(NotKittyOwner);
      }
      var owns2 := IsKittyOwner(parent2, sender);
      if owns2.Err? {
        return Err(owns2.error);
      }
      if !owns2.value {
        return Err(NotKittyOwner);
      }
      var newDna := BreedDna(parent1, parent2, entropy.dna);
      if newDna.Err? {
        // unreachable: both parents were just found
        assert false;
      }
      var kittyId := Mint(sender, Some(newDna.value), None, entropy);
      if kittyId.Err? {
        return Err(kittyId.error);
      }
      events := events + [BredSuccess(sender, kittyId.value, parent1, parent2)];
      r := Ok(());
    }
  }
}
