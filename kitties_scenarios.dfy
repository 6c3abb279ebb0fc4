/**
 * Call sequences on a freshly built kitties pallet, with the outcomes its
 * contracts guarantee: minting and breeding, a sale at exactly the asking
 * price, a transfer to oneself, and a mint into a full list. Each step
 * that leads up to the call of interest is a method of its own that pins
 * down the state it leaves behind.
 */
module KittiesScenarios {
  import opened Primitives
  import opened Genetics
  import opened Balances
  import opened Registry
  import opened Kitties

  /** The first `create_kitty` on an empty pallet mints id 0 for the sender. */
  method CreateFirst(pallet: Pallet, owner: AccountId, e: Entropy) returns (r: DispatchResult)
    requires pallet.lastKittyId == 0 && pallet.kitties == map[] && pallet.kittiesOwned == map[]
    requires pallet.maxKittyOwned >= 1 && pallet.maxIndex > 1
    requires pallet.kittyStake <= pallet.currency.FreeBalance(owner)
    modifies pallet, pallet.currency
    ensures r.Ok? && pallet.lastKittyId == 1
    ensures pallet.kitties == map[0 := Kitty(e.dna, None, GenGender(e.gender), owner)]
    ensures pallet.kittiesOwned == map[owner := [0]]
    ensures pallet.events == old(pallet.events) + [Created(owner, 0)]
    ensures pallet.currency.accounts == TryReserve(old(pallet.currency.accounts), owner, pallet.kittyStake).value
  {
    assert pallet.MintError(owner).None?;
    r := pallet.CreateKitty(owner, e);
    assert Owned(map[], owner) + [0] == [0];
  }

  /** A second `create_kitty` by the owner of kitty 0 mints id 1 for them. */
  method CreateSecond(pallet: Pallet, owner: AccountId, e: Entropy) returns (r: DispatchResult)
    requires pallet.lastKittyId == 1 && pallet.kitties.Keys == {0} && pallet.kittiesOwned == map[owner := [0]]
    requires pallet.maxKittyOwned >= 2 && pallet.maxIndex > 2
    requires pallet.kittyStake <= pallet.currency.FreeBalance(owner)
    modifies pallet, pallet.currency
    ensures r.Ok? && pallet.lastKittyId == 2
    ensures pallet.kitties == old(pallet.kitties)[1 := Kitty(e.dna, None, GenGender(e.gender), owner)]
    ensures pallet.kittiesOwned == map[owner := [0, 1]]
    ensures pallet.events == old(pallet.events) + [Created(owner, 1)]
    ensures pallet.currency.accounts == TryReserve(old(pallet.currency.accounts), owner, pallet.kittyStake).value
  {
    assert pallet.MintError(owner).None?;
    r := pallet.CreateKitty(owner, e);
    assert [0] + [1] == [0, 1];
  }

  /** Breeding kitties 0 and 1, both the sender's, mints id 2 for the sender. */
  method BreedFirstTwo(pallet: Pallet, owner: AccountId, e: Entropy) returns (r: DispatchResult)
    requires pallet.lastKittyId == 2 && pallet.kitties.Keys == {0, 1} && pallet.kittiesOwned == map[owner := [0, 1]]
    requires pallet.kitties[0].owner == owner && pallet.kitties[1].owner == owner
    requires pallet.maxKittyOwned >= 3 && pallet.maxIndex > 3
    requires pallet.kittyStake <= pallet.currency.FreeBalance(owner)
    modifies pallet, pallet.currency
    ensures r.Ok?
    ensures pallet.kitties == old(pallet.kitties)[2 :=
      Kitty(Crossover(e.dna, old(pallet.kitties[0].dna), old(pallet.kitties[1].dna)), None, GenGender(e.gender), owner)]
    ensures pallet.events == old(pallet.events) + [BredSuccess(owner, 2, 0, 1)]
  {
    assert pallet.BreedError(owner, 0, 1).None? && pallet.MintError(owner).None?;
    r := pallet.BreedKitty(owner, 0, 1, e);
  }

  /**
   * Two kitties created by one account get ids 0 and 1; breeding them mints
   * id 2 for that account with the crossover of their DNA, and deposits
   * the event naming the child and both parents.
   */
  method CreateTwiceThenBreed(owner: AccountId, stake: Balance, e0: Entropy, e1: Entropy, e2: Entropy)
    returns (created0: DispatchResult, created1: DispatchResult, bred: DispatchResult,
             child: Option<Kitty>, lastEvent: Option<Event>)
    ensures created0.Ok? && created1.Ok? && bred.Ok?
    ensures child == Some(Kitty(Crossover(e2.dna, e0.dna, e1.dna), None, GenGender(e2.gender), owner))
    ensures lastEvent == Some(BredSuccess(owner, 2, 0, 1))
  {
    var ledger := new Ledger(Accounts(map[owner := 3 * stake], map[]));
    var pallet := new Pallet(10, stake, 0xFFFF_FFFF, ledger);
    created0 := CreateFirst(pallet, owner, e0);
    created1 := CreateSecond(pallet, owner, e1);
    bred := BreedFirstTwo(pallet, owner, e2);
    child := if 2 in pallet.kitties then Some(pallet.kitties[2]) else None;
    lastEvent := if |pallet.events| > 0 then Some(pallet.events[|pallet.events| - 1]) else None;
  }

  /** A bid equal to the asking price buys kitty 0, listed by its only owner. */
  method BuyListed(pallet: Pallet, buyer: AccountId, price: Balance) returns (r: DispatchResult)
    requires pallet.kitties.Keys == {0} && pallet.kitties[0].price == Some(price)
    requires pallet.kittiesOwned == map[pallet.kitties[0].owner := [0]] && pallet.kitties[0].owner != buyer
    requires pallet.maxKittyOwned >= 1 && price + pallet.kittyStake < pallet.currency.FreeBalance(buyer)
    modifies pallet, pallet.currency
    ensures r.Ok?
    ensures pallet.kitties == map[0 := old(pallet.kitties[0]).(owner := buyer, price := None)]
    ensures pallet.currency.accounts ==
      Settled(old(pallet.currency.accounts), buyer, old(pallet.kitties[0].owner), pallet.kittyStake, price)
  {
    assert pallet.BuyError(buyer, 0, price).None?;
    r := pallet.BuyKitty(buyer, 0, price);
  }

  /**
   * A kitty listed at `price` sells to a bid of exactly `price`: the buyer
   * owns it afterwards, unlisted, and the seller's free balance holds the
   * price and the released stake.
   */
  method BuyAtAskingPrice(seller: AccountId, buyer: AccountId, stake: Balance, price: Balance, funds: Balance, e: Entropy)
    returns (listed: DispatchResult, bought: DispatchResult, kitty: Option<Kitty>,
             sellerFree: Balance, buyerFree: Balance)
    requires seller != buyer && funds > price + stake
    ensures listed.Ok? && bought.Ok?
    ensures kitty == Some(Kitty(e.dna, None, GenGender(e.gender), buyer))
    ensures sellerFree == price + stake && buyerFree == funds - price - stake
  {
    var ledger := new Ledger(Accounts(map[seller := stake, buyer := funds], map[]));
    var pallet := new Pallet(10, stake, 0xFFFF_FFFF, ledger);
    var _ := CreateFirst(pallet, seller, e);
    listed := pallet.SetPrice(seller, 0, Some(price));
    bought := BuyListed(pallet, buyer, price);
    kitty := if 0 in pallet.kitties then Some(pallet.kitties[0]) else None;
    SettlementMovesFunds(Accounts(map[seller := 0, buyer := funds], map[seller := stake]), buyer, seller, stake, price);
    sellerFree, buyerFree := ledger.FreeBalance(seller), ledger.FreeBalance(buyer);
  }

  /** Transferring a kitty to its own owner fails and leaves the kitty where it was. */
  method TransferToOwnerFails(owner: AccountId, stake: Balance, e: Entropy)
    returns (transferred: DispatchResult, kitty: Option<Kitty>, owned: seq<KittyIndex>)
    ensures transferred == Err(TransferToSelf)
    ensures kitty == Some(Kitty(e.dna, None, GenGender(e.gender), owner)) && owned == [0]
  {
    var ledger := new Ledger(Accounts(map[owner := stake], map[]));
    var pallet := new Pallet(10, stake, 0xFFFF_FFFF, ledger);
    var _ := CreateFirst(pallet, owner, e);
    transferred := pallet.Transfer(owner, owner, 0);
    kitty := if 0 in pallet.kitties then Some(pallet.kitties[0]) else None;
    owned := Owned(pallet.kittiesOwned, owner);
  }

  /**
   * With room for one kitty, a second `create_kitty` fails on the full list
   * and leaves the counter and the registry as they were, but, because the
   * stake is reserved before `mint` runs, the account ends up with two
   * stakes reserved for one kitty.
   */
  method CreateIntoFullList(owner: AccountId, stake: Balance, e0: Entropy, e1: Entropy)
    returns (created: DispatchResult, again: DispatchResult, lastId: KittyIndex, count: nat, reserved: Balance)
    ensures created.Ok? && again == Err(ExceedMaxKittyOwned)
    ensures lastId == 1 && count == 1 && reserved == 2 * stake
  {
    var ledger := new Ledger(Accounts(map[owner := 2 * stake], map[]));
    var pallet := new Pallet(1, stake, 0xFFFF_FFFF, ledger);
    created := CreateFirst(pallet, owner, e0);
    again := pallet.CreateKitty(owner, e1);
    lastId, count := pallet.lastKittyId, |pallet.kitties|;
    reserved := ReservedOf(ledger.accounts, owner);
  }
}
