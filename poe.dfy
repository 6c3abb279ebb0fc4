/**
 * The proof-of-existence pallet: a single `Proofs` map from a claim (a byte
 * string of at most `MaxClaimLength` bytes) to the account that holds it and
 * the block in which it was last stored. Calls take the verified signer as
 * an account and the current block number as an argument.
 */
module Poe {
  import opened Primitives

  type Claim = seq<Byte>

  datatype Error = ProofAlreadyExist | ClaimTooLong | ClaimNotExist | NostClaimOwner

  datatype Event = ClaimCreated(who: AccountId, claim: Claim) | ClaimRevoked(who: AccountId, claim: Claim)

  type DispatchResult = Result<(), Error>

  class Pallet {
    const maxClaimLength: nat
    var proofs: map<Claim, (AccountId, BlockNumber)>
    /** Events deposited so far. */
    var events: seq<Event>

    constructor (maxClaimLength: nat)
      ensures this.maxClaimLength == maxClaimLength && proofs == map[] && events == []
      ensures Valid()
    {
      this.maxClaimLength := maxClaimLength;
      proofs, events := map[], [];
    }

    /** Only claims that fit the bound are ever stored. */
    ghost predicate Valid()
      reads this
    {
      forall c | c in proofs :: |c| <= maxClaimLength
    }

    /** `Proofs::get`. */
    function Get(claim: Claim): (r: Option<(AccountId, BlockNumber)>)
      reads this
      ensures r.Some? <==> claim in proofs
      ensures r.Some? ==> r.value == proofs[claim]
      ensures r.Some? && Valid() ==> |claim| <= maxClaimLength
    {
      if claim in proofs then Some(proofs[claim]) else None
    }

    /**
     * `create_claim`: after the length check, stores `(sender, now)` under an
     * unused claim; an existing claim is left as it is.
     */
    method CreateClaim(sender: AccountId, claim: Claim, now: BlockNumber) returns (r: DispatchResult)
      modifies this
      ensures |claim| > maxClaimLength ==> r == Err(ClaimTooLong) && unchanged(this)
      ensures |claim| <= maxClaimLength && claim in old(proofs) ==> r == Err(ProofAlreadyExist) && unchanged(this)
      ensures |claim| <= maxClaimLength && claim !in old(proofs) ==>
        && r == Ok(())
        && proofs == old(proofs)[claim := (sender, now)]
        && events == old(events) + [ClaimCreated(sender, claim)]
      ensures old(Valid()) ==> Valid()
    {
      if |claim| > maxClaimLength {
        return Err(ClaimTooLong);
      }
      if claim in proofs {
        return Err(ProofAlreadyExist);
      }
      proofs := proofs[claim := (sender, now)];
      events := events + [ClaimCreated(sender, claim)];
      r := Ok(());
    }

    /** `revoke_claim`: the holder of a stored claim removes it. */
    method RevokeClaim(sender: AccountId, claim: Claim) returns (r: DispatchResult)
      modifies this
      ensures |claim| > maxClaimLength ==> r == Err(ClaimTooLong) && unchanged(this)
      ensures |claim| <= maxClaimLength && claim !in old(proofs) ==> r == Err(ClaimNotExist) && unchanged(this)
      ensures |claim| <= maxClaimLength && claim in old(proofs) && old(proofs[claim]).0 != sender ==>
        r == Err(NostClaimOwner) && unchanged(this)
      ensures |claim| <= maxClaimLength && claim in old(proofs) && old(proofs[claim]).0 == sender ==>
        && r == Ok(())
        && proofs == old(proofs) - {claim}
        && events == old(events) + [ClaimRevoked(sender, claim)]
      ensures old(Valid()) ==> Valid()
    {
      if |claim| > maxClaimLength {
        return Err(ClaimTooLong);
      }
      var stored := Get(claim);
      if stored.None? {
        return Err(ClaimNotExist);
      }
      var (owner, _) := stored.value;
      if sender != owner {
        return Err(NostClaimOwner);
      }
      proofs := proofs - {claim};
      events := events + [ClaimRevoked(sender, claim)];
      r := Ok(());
    }

    /**
     * `transfer_claim`: the holder of a stored claim hands it to `dest`, which
     * restamps it with the current block. No event is deposited.
     */
    method TransferClaim(sender: AccountId, claim: Claim, dest: AccountId, now: BlockNumber) returns (r: DispatchResult)
      modifies this
      ensures events == old(events)
      ensures |claim| > maxClaimLength ==> r == Err(ClaimTooLong) && unchanged(this)
      ensures |claim| <= maxClaimLength && claim !in old(proofs) ==> r == Err(ClaimNotExist) && unchanged(this)
      ensures |claim| <= maxClaimLength && claim in old(proofs) && old(proofs[claim]).0 != sender ==>
        r == Err(NostClaimOwner) && unchanged(this)
      ensures |claim| <= maxClaimLength && claim in old(proofs) && old(proofs[claim]).0 == sender ==>
        r == Ok(()) && proofs == old(proofs)[claim := (dest, now)]
      ensures old(Valid()) ==> Valid()
    {
      if |claim| > maxClaimLength {
        return Err(ClaimTooLong);
      }
      var stored := Get(claim);
      if stored.None? {
        return Err(ClaimNotExist);
      }
      var (owner, _) := stored.value;
      if owner != sender {
        return Err(NostClaimOwner);
      }
      proofs := proofs[claim := (dest, now)];
      r := Ok(());
    }
  }

  /**
   * Creating a fresh claim and then revoking it as its holder leaves the
   * proofs as they were, with both events deposited.
   */
  method CreateThenRevoke(poe: Pallet, sender: AccountId, claim: Claim, now: BlockNumber)
    returns (created: DispatchResult, revoked: DispatchResult)
    requires |claim| <= poe.maxClaimLength && claim !in poe.proofs
    modifies poe
    ensures created == Ok(()) && revoked == Ok(())
    ensures poe.proofs == old(poe.proofs)
    ensures poe.events == old(poe.events) + [ClaimCreated(sender, claim), ClaimRevoked(sender, claim)]
  {
    created := poe.CreateClaim(sender, claim, now);
    revoked := poe.RevokeClaim(sender, claim);
  }

  /**
   * `create_claim_works`: a new claim is stored with its creator and block,
   * and creating it again fails.
   */
  method CreateClaimWorks(maxClaimLength: nat, now: BlockNumber)
    returns (created: DispatchResult, stored: Option<(AccountId, BlockNumber)>, again: DispatchResult)
    requires maxClaimLength >= 2
    ensures created == Ok(()) && stored == Some((1, now)) && again == Err(ProofAlreadyExist)
  {
    var poe := new Pallet(maxClaimLength);
    created := poe.CreateClaim(1, [0, 1], now);
    stored := poe.Get([0, 1]);
    again := poe.CreateClaim(1, [0, 1], now);
  }

  /** `revoke_claim`: the creator revokes a claim, and a second revocation finds nothing. */
  method RevokeClaimWorks(maxClaimLength: nat, now: BlockNumber)
    returns (created: DispatchResult, revoked: DispatchResult, again: DispatchResult)
    requires maxClaimLength >= 2
    ensures created == Ok(()) && revoked == Ok(()) && again == Err(ClaimNotExist)
  {
    var poe := new Pallet(maxClaimLength);
    created := poe.CreateClaim(1, [0, 1], now);
    revoked := poe.RevokeClaim(1, [0, 1]);
    again := poe.RevokeClaim(1, [0, 1]);
  }

  /**
   * `transfer_claim_works` and `transfer_claim_failed`: a missing claim
   * cannot be transferred, a non-holder cannot transfer it, the holder can.
   */
  method TransferClaimWorks(maxClaimLength: nat, now: BlockNumber)
    returns (missing: DispatchResult, notOwner: DispatchResult, moved: DispatchResult, stored: Option<(AccountId, BlockNumber)>)
    requires maxClaimLength >= 4
    ensures missing == Err(ClaimNotExist) && notOwner == Err(NostClaimOwner)
    ensures moved == Ok(()) && stored == Some((2, now))
  {
    var poe := new Pallet(maxClaimLength);
    var claim: Claim := [0, 1, 3, 4];
    missing := poe.TransferClaim(1, claim, 2, now);
    var _ := poe.CreateClaim(1, claim, now);
    notOwner := poe.TransferClaim(3, claim, 2, now);
    moved := poe.TransferClaim(1, claim, 2, now);
    stored := poe.Get(claim);
  }
}
