/** Primitive types shared by both pallets: bytes, the runtime's account,
    balance and moment types, and the Option / Outcome wrappers that stand
    for Rust's `Option` and `DispatchResult`. */
module Base {

  /** One byte of a `Vec<u8>`. */
  newtype uint8 = x: int | 0 <= x < 256

  /** `Vec<u8>`: identifiers, info names and info values. */
  type Bytes = seq<uint8>

  /** The runtime's `AccountId`; only equality matters to the pallets. */
  type AccountId = nat

  /** `BalanceOf<T>`: an unsigned amount of the native currency. */
  type Balance = nat

  /** `T::Moment` from the timestamp module. */
  type Moment = nat

  datatype Option<+T> = None | Some(value: T) {
    /** `Option::unwrap_or_default` for a list. */
    function UnwrapOr(default: T): T {
      match this
      case Some(v) => v
      case None => default
    }
  }

  /** A value or an error, for lookups that may fail. */
  datatype Result<+T, +E> = Ok(value: T) | Err(error: E)

  /** `DispatchResult`: `Ok(())` or an error of the pallet. */
  datatype Outcome<+E> = Pass | Fail(error: E)
}
