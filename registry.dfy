/**
 * The kitties pallet's storage as values: the `Kitties` map from id to
 * kitty, the `KittiesOwned` index from account to its list of ids, and the
 * `LastKittyId` counter, together with the invariants the pallet's
 * operations keep and the lemmas that prove each step keeps them.
 */
module Registry {
  import opened Primitives
  import opened BoundedVec
  import opened Genetics
  import opened Balances

  /** The generic `KittyIndex`; its upper bound is the pallet's `maxIndex`. */
  type KittyIndex = nat

  datatype Kitty = Kitty(dna: Dna, price: Option<Balance>, gender: Gender, owner: AccountId)

  /** `KittiesOwned`: account to the ids it owns, in the order they were pushed. */
  type OwnershipIndex = map<AccountId, seq<KittyIndex>>

  /** `KittiesOwned::get`: a value query, so an account without an entry owns the empty list. */
  function Owned(index: OwnershipIndex, a: AccountId): (r: seq<KittyIndex>)
    ensures a in index ==> r == index[a]
    ensures a !in index ==> r == []
  {
    if a in index then index[a] else []
  }

  /** The index after `try_push(id)` on `a`'s list succeeded. */
  function Attach(index: OwnershipIndex, a: AccountId, id: KittyIndex): (r: OwnershipIndex)
    ensures Owned(r, a) == Owned(index, a) + [id]
    ensures forall b | b != a :: Owned(r, b) == Owned(index, b)
  {
    index[a := Owned(index, a) + [id]]
  }

  /** The index after `a`'s list found `id` and `swap_remove`d it. */
  function Detach(index: OwnershipIndex, a: AccountId, id: KittyIndex): (r: OwnershipIndex)
    requires id in Owned(index, a)
    ensures |Owned(r, a)| == |Owned(index, a)| - 1
    ensures forall b | b != a :: Owned(r, b) == Owned(index, b)
    ensures Distinct(Owned(index, a)) ==> forall x :: x in Owned(r, a) <==> x in Owned(index, a) && x != id
  {
    var list := Owned(index, a);
    var pos := Position(list, id).value;
    SwapRemoveOnly(list, pos);
    index[a := SwapRemove(list, pos)]
  }

  /** Every stored id was handed out before the counter's current value, which is below the maximum. */
  ghost predicate IdsIssued(kitties: map<KittyIndex, Kitty>, last: KittyIndex, maxIndex: nat) {
    last < maxIndex && forall id | id in kitties :: id < last
  }

  /** Every list holds distinct ids of existing kitties owned by that account. */
  ghost predicate ListsSound(kitties: map<KittyIndex, Kitty>, index: OwnershipIndex) {
    forall a | a in index ::
      Distinct(index[a]) && forall id | id in index[a] :: id in kitties && kitties[id].owner == a
  }

  /** Every kitty is listed under its owner. */
  ghost predicate ListsComplete(kitties: map<KittyIndex, Kitty>, index: OwnershipIndex) {
    forall id | id in kitties :: id in Owned(index, kitties[id].owner)
  }

  ghost predicate ListsBounded(index: OwnershipIndex, cap: nat) {
    forall a | a in index :: |index[a]| <= cap
  }

  ghost predicate Consistent(kitties: map<KittyIndex, Kitty>, index: OwnershipIndex, last: KittyIndex, maxIndex: nat, cap: nat) {
    && IdsIssued(kitties, last, maxIndex)
    && ListsSound(kitties, index)
    && ListsComplete(kitties, index)
    && ListsBounded(index, cap)
  }

  /** In a consistent index each kitty's id is in its owner's list exactly once and in no other list. */
  lemma OwnedExactlyOnce(kitties: map<KittyIndex, Kitty>, index: OwnershipIndex, id: KittyIndex, a: AccountId)
    requires ListsSound(kitties, index) && ListsComplete(kitties, index)
    requires id in kitties
    ensures multiset(Owned(index, a))[id] == if a == kitties[id].owner then 1 else 0
  {
    if a in index {
      DistinctOccurrences(index[a], id);
    }
  }

  /** The id a mint hands out is free, and minting it keeps the storage consistent. */
  lemma MintKeepsConsistent(kitties: map<KittyIndex, Kitty>, index: OwnershipIndex, last: KittyIndex, maxIndex: nat, cap: nat, k: Kitty)
    requires Consistent(kitties, index, last, maxIndex, cap)
    requires last + 1 != maxIndex
    requires |Owned(index, k.owner)| < cap
    ensures last !in kitties
    ensures Consistent(kitties[last := k], Attach(index, k.owner, last), last + 1, maxIndex, cap)
  {
    var kitties' := kitties[last := k];
    forall a | a in index ensures forall id | id in index[a] :: id in kitties' && kitties'[id].owner == a {
      forall id | id in index[a] ensures id in kitties' && kitties'[id].owner == a {
        assert id in kitties;
      }
    }
    AttachKeepsSound(kitties', index, last);
  }

  /**
   * Appending a kitty's id to its owner's list, where it was missing, keeps
   * every list duplicate-free and listing only kitties of that account.
   */
  lemma AttachKeepsSound(kitties: map<KittyIndex, Kitty>, index: OwnershipIndex, id: KittyIndex)
    requires ListsSound(kitties, index)
    requires id in kitties && id !in Owned(index, kitties[id].owner)
    ensures ListsSound(kitties, Attach(index, kitties[id].owner, id))
  {
    var list := Owned(index, kitties[id].owner);
    assert Distinct(list + [id]) by {
      assert forall i | 0 <= i < |list| :: (list + [id])[i] == list[i];
    }
  }

  /**
   * Taking a kitty out of its owner's list and handing it to `to` leaves
   * the lists sound and no longer than before, `to`'s list without the id,
   * and every other kitty listed under its owner.
   */
  lemma DetachKeepsSound(kitties: map<KittyIndex, Kitty>, index: OwnershipIndex, id: KittyIndex, to: AccountId)
    requires ListsSound(kitties, index) && ListsComplete(kitties, index)
    requires id in kitties
    ensures var kitties', index' := kitties[id := kitties[id].(owner := to, price := None)], Detach(index, kitties[id].owner, id);
      && ListsSound(kitties', index')
      && id !in Owned(index', to)
      && (forall x | x in kitties' && x != id :: x in Owned(index', kitties'[x].owner))
      && (forall a | a in index' :: |index'[a]| <= |Owned(index, a)|)
  {
    var prev := kitties[id].owner;
    var list := Owned(index, prev);
    var pos := Position(list, id).value;
    var removed := SwapRemove(list, pos);
    SwapRemoveDistinct(list, pos);
    var kitties', index' := kitties[id := kitties[id].(owner := to, price := None)], Detach(index, prev, id);
    assert index' == index[prev := removed];
    forall a | a in index'
      ensures Distinct(index'[a]) && forall x | x in index'[a] :: x in kitties' && kitties'[x].owner == a
    {
      if a != prev {
        assert index'[a] == index[a];
      }
    }
    if to != prev {
      assert Owned(index', to) == Owned(index, to);
    }
    forall x | x in kitties' && x != id ensures x in Owned(index', kitties'[x].owner) {
      assert x in Owned(index, kitties[x].owner);
    }
  }

  /**
   * Moving a kitty to another owner (detach from the old list, attach to
   * the new one, clear the price) keeps the storage consistent, provided
   * the new owner's list has room.
   */
  lemma TransferKeepsConsistent(kitties: map<KittyIndex, Kitty>, index: OwnershipIndex, last: KittyIndex, maxIndex: nat, cap: nat,
                                id: KittyIndex, to: AccountId)
    requires Consistent(kitties, index, last, maxIndex, cap)
    requires id in kitties
    requires |Owned(Detach(index, kitties[id].owner, id), to)| < cap
    ensures Consistent(kitties[id := kitties[id].(owner := to, price := None)],
                       Attach(Detach(index, kitties[id].owner, id), to, id), last, maxIndex, cap)
  {
    var kitties', index1 := kitties[id := kitties[id].(owner := to, price := None)], Detach(index, kitties[id].owner, id);
    DetachKeepsSound(kitties, index, id, to);
    AttachKeepsSound(kitties', index1, id);
    var index2 := Attach(index1, to, id);
    forall x | x in kitties' ensures x in Owned(index2, kitties'[x].owner) {
      if x != id {
        assert x in Owned(index1, kitties'[x].owner);
      }
    }
    forall a | a in index2 ensures |index2[a]| <= cap {
      if a != to {
        assert index2[a] == index1[a];
      }
    }
  }

  /** Changing only a kitty's price keeps the storage consistent. */
  lemma RepriceKeepsConsistent(kitties: map<KittyIndex, Kitty>, index: OwnershipIndex, last: KittyIndex, maxIndex: nat, cap: nat,
                               id: KittyIndex, price: Option<Balance>)
    requires Consistent(kitties, index, last, maxIndex, cap)
    requires id in kitties
    ensures Consistent(kitties[id := kitties[id].(price := price)], index, last, maxIndex, cap)
  {
    var kitties' := kitties[id := kitties[id].(price := price)];
    forall a | a in index ensures forall x | x in index[a] :: x in kitties' && kitties'[x].owner == a {
    }
  }

  /** The collateral invariant: every kitty an account owns is backed by a stake it has reserved. */
  ghost predicate Collateralised(index: OwnershipIndex, acc: Accounts, stake: Balance) {
    forall a | a in index :: stake * |index[a]| <= ReservedOf(acc, a)
  }

  lemma MulSucc(stake: nat, n: nat)
    ensures stake * (n + 1) == stake * n + stake
  {
  }

  /** Reserving a stake and then minting for the same account keeps every kitty backed. */
  lemma MintKeepsCollateral(index: OwnershipIndex, acc: Accounts, stake: Balance, owner: AccountId, id: KittyIndex)
    requires Collateralised(index, acc, stake)
    requires stake <= FreeOf(acc, owner)
    ensures Collateralised(index, TryReserve(acc, owner, stake).value, stake)
    ensures Collateralised(Attach(index, owner, id), TryReserve(acc, owner, stake).value, stake)
  {
    var acc' := TryReserve(acc, owner, stake).value;
    MulSucc(stake, |Owned(index, owner)|);
    assert Collateralised(index, acc', stake) by {
      forall a | a in index ensures stake * |index[a]| <= ReservedOf(acc', a) {
        assert ReservedOf(acc', a) >= ReservedOf(acc, a);
      }
    }
  }

  /** Reserving from `to` and then releasing from `from` shifts one stake between their reservations. */
  lemma ShiftStake(acc: Accounts, stake: Balance, from: AccountId, to: AccountId)
    requires from != to && stake <= FreeOf(acc, to) && stake <= ReservedOf(acc, from)
    ensures var acc' := Release(TryReserve(acc, to, stake).value, from, stake);
      && ReservedOf(acc', from) == ReservedOf(acc, from) - stake
      && ReservedOf(acc', to) == ReservedOf(acc, to) + stake
      && forall b | b != from && b != to :: ReservedOf(acc', b) == ReservedOf(acc, b)
  {
  }

  /** Moving an id from `from`'s list to `to`'s list changes those two lengths by one and nothing else. */
  lemma MoveLengths(index: OwnershipIndex, from: AccountId, to: AccountId, id: KittyIndex)
    requires from != to && id in Owned(index, from)
    ensures var index' := Attach(Detach(index, from, id), to, id);
      && |Owned(index', from)| == |Owned(index, from)| - 1
      && |Owned(index', to)| == |Owned(index, to)| + 1
      && forall b | b != from && b != to :: Owned(index', b) == Owned(index, b)
  {
  }

  /**
   * Collateral survives one account losing a kitty together with one stake
   * and another gaining a kitty together with one stake.
   */
  lemma ShiftKeepsCollateral(index: OwnershipIndex, acc: Accounts, index': OwnershipIndex, acc': Accounts, stake: Balance,
                             from: AccountId, to: AccountId)
    requires Collateralised(index, acc, stake)
    requires from != to && from in index
    requires |Owned(index', from)| + 1 == |index[from]| && ReservedOf(acc', from) + stake == ReservedOf(acc, from)
    requires |Owned(index', to)| == |Owned(index, to)| + 1 && ReservedOf(acc', to) == ReservedOf(acc, to) + stake
    requires forall b | b != from && b != to :: Owned(index', b) == Owned(index, b) && ReservedOf(acc', b) == ReservedOf(acc, b)
    ensures Collateralised(index', acc', stake)
  {
    var n, m := |Owned(index', from)|, |Owned(index, to)|;
    MulSucc(stake, n);
    MulSucc(stake, m);
    assert stake * m <= ReservedOf(acc, to) by {
      if to !in index {
        assert m == 0;
      }
    }
    forall a | a in index' ensures stake * |index'[a]| <= ReservedOf(acc', a) {
      assert index'[a] == Owned(index', a);
      if a != from && a != to && a !in index {
        assert |index'[a]| == 0;
      }
    }
  }

  /**
   * Reserving the stake from the new owner, releasing it from the old one
   * and moving the id between their lists keeps every kitty backed.
   */
  lemma MoveKeepsCollateral(kitties: map<KittyIndex, Kitty>, index: OwnershipIndex, acc: Accounts, stake: Balance,
                            id: KittyIndex, to: AccountId)
    requires ListsComplete(kitties, index) && Collateralised(index, acc, stake)
    requires id in kitties && kitties[id].owner != to
    requires stake <= FreeOf(acc, to)
    ensures var from := kitties[id].owner;
      Collateralised(Attach(Detach(index, from, id), to, id), Release(TryReserve(acc, to, stake).value, from, stake), stake)
  {
    var from := kitties[id].owner;
    var n := |Owned(index, from)|;
    assert from in index && n >= 1 && stake * n <= ReservedOf(acc, from);
    MulSucc(stake, n - 1);
    ShiftStake(acc, stake, from, to);
    MoveLengths(index, from, to, id);
    ShiftKeepsCollateral(index, acc, Attach(Detach(index, from, id), to, id),
                         Release(TryReserve(acc, to, stake).value, from, stake), stake, from, to);
  }

  /** A ledger change that leaves every reservation as it was keeps every kitty backed. */
  lemma FreeOnlyKeepsCollateral(index: OwnershipIndex, acc: Accounts, acc': Accounts, stake: Balance)
    requires Collateralised(index, acc, stake)
    requires forall b :: ReservedOf(acc', b) == ReservedOf(acc, b)
    ensures Collateralised(index, acc', stake)
  {
  }
}
