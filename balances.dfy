/**
 * An abstract stand-in for the reservable currency the kitties pallet is
 * configured with (`T::Currency`). Each account has a free and a reserved
 * balance; `reserve` moves funds from free to reserved and fails when the
 * free balance is too small, `unreserve` moves back as much as is reserved
 * (up to the amount asked for), and `transfer` moves free funds between
 * accounts and fails when the sender's free balance is too small.
 * Existential deposits and the keep-alive requirement are not modelled.
 */
module Balances {
  import opened Primitives

  datatype Accounts = Accounts(free: map<AccountId, Balance>, reserved: map<AccountId, Balance>)

  /** An account never seen by the ledger has zero balance. */
  function Get(m: map<AccountId, Balance>, a: AccountId): Balance {
    if a in m then m[a] else 0
  }

  function FreeOf(acc: Accounts, a: AccountId): Balance { Get(acc.free, a) }

  function ReservedOf(acc: Accounts, a: AccountId): Balance { Get(acc.reserved, a) }

  /** `reserve(a, amount)`. */
  function TryReserve(acc: Accounts, a: AccountId, amount: Balance): (r: Option<Accounts>)
    ensures r.Some? <==> amount <= FreeOf(acc, a)
    ensures r.Some? ==> FreeOf(r.value, a) == FreeOf(acc, a) - amount
    ensures r.Some? ==> ReservedOf(r.value, a) == ReservedOf(acc, a) + amount
    ensures r.Some? ==> forall b | b != a ::
      FreeOf(r.value, b) == FreeOf(acc, b) && ReservedOf(r.value, b) == ReservedOf(acc, b)
  {
    var f := FreeOf(acc, a);
    if f < amount then None
    else Some(Accounts(acc.free[a := f - amount], acc.reserved[a := ReservedOf(acc, a) + amount]))
  }

  /** `unreserve(a, amount)`: releases what is reserved, at most `amount`; never fails. */
  function Release(acc: Accounts, a: AccountId, amount: Balance): (r: Accounts)
    ensures ReservedOf(r, a) == if amount <= ReservedOf(acc, a) then ReservedOf(acc, a) - amount else 0
    ensures FreeOf(r, a) + ReservedOf(r, a) == FreeOf(acc, a) + ReservedOf(acc, a)
    ensures forall b | b != a :: FreeOf(r, b) == FreeOf(acc, b) && ReservedOf(r, b) == ReservedOf(acc, b)
  {
    var moved := if amount <= ReservedOf(acc, a) then amount else ReservedOf(acc, a);
    Accounts(acc.free[a := FreeOf(acc, a) + moved], acc.reserved[a := ReservedOf(acc, a) - moved])
  }

  /** `transfer(from, to, amount)`: a transfer to oneself succeeds and changes nothing. */
  function TryTransfer(acc: Accounts, from: AccountId, to: AccountId, amount: Balance): (r: Option<Accounts>)
    ensures r.Some? <==> from == to || amount <= FreeOf(acc, from)
    ensures r.Some? && from != to ==> FreeOf(r.value, from) == FreeOf(acc, from) - amount
    ensures r.Some? && from != to ==> FreeOf(r.value, to) == FreeOf(acc, to) + amount
    ensures r.Some? ==> forall b | b != from && b != to :: FreeOf(r.value, b) == FreeOf(acc, b)
    ensures r.Some? ==> forall b :: ReservedOf(r.value, b) == ReservedOf(acc, b)
  {
    if from == to then Some(acc)
    else if FreeOf(acc, from) < amount then None
    else
      var f := acc.free[from := FreeOf(acc, from) - amount];
      Some(Accounts(f[to := FreeOf(acc, to) + amount], acc.reserved))
  }

  /** The ledger the pallet's handlers call into; it changes in place. */
  class Ledger {
    var accounts: Accounts

    constructor (initial: Accounts)
      ensures accounts == initial
    {
      accounts := initial;
    }

    /** `free_balance(a)`: zero for an account the ledger has never credited. */
    function FreeBalance(a: AccountId): (r: Balance)
      reads this
      ensures a !in accounts.free ==> r == 0
    {
      FreeOf(accounts, a)
    }

    method Reserve(a: AccountId, amount: Balance) returns (ok: bool)
      modifies this
      ensures ok == TryReserve(old(accounts), a, amount).Some?
      ensures accounts == if ok then TryReserve(old(accounts), a, amount).value else old(accounts)
      ensures !ok ==> unchanged(this)
    {
      var r := TryReserve(accounts, a, amount);
      ok := r.Some?;
      if ok {
        accounts := r.value;
      }
    }

    method Unreserve(a: AccountId, amount: Balance)
      modifies this
      ensures accounts == Release(old(accounts), a, amount)
    {
      accounts := Release(accounts, a, amount);
    }

    method Transfer(from: AccountId, to: AccountId, amount: Balance) returns (ok: bool)
      modifies this
      ensures ok == TryTransfer(old(accounts), from, to, amount).Some?
      ensures accounts == if ok then TryTransfer(old(accounts), from, to, amount).value else old(accounts)
      ensures !ok ==> unchanged(this)
    {
      var r := TryTransfer(accounts, from, to, amount);
      ok := r.Some?;
      if ok {
        accounts := r.value;
      }
    }
  }
}
