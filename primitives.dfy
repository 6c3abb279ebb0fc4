/**
 * Types shared by both pallets, and the Option/Result wrappers that stand for
 * Rust's `Option` and `Result` (dispatchables return a `Result` whose error
 * is the pallet's `Error` enum).
 */
module Primitives {

  /** Accounts are opaque to both pallets: they are only compared for equality. */
  type AccountId = nat

  /** Block numbers as supplied by the host. */
  type BlockNumber = nat

  /** Balances are unbounded here; the generic `Balance` width is not modelled. */
  type Balance = nat

  type Byte = bv8

  datatype Option<+T> = None | Some(value: T) {
    function GetOr(default: T): T {
      match this
      case Some(v) => v
      case None => default
    }
  }

  datatype Result<+T, +E> = Ok(value: T) | Err(error: E)
}
