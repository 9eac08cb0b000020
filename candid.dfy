/** Types the canister receives from and returns to its environment: Candid's
    `opt`, the `Result` variant, principals, blobs and the fixed-width naturals. */
module Candid {

  /** Candid `opt T`. */
  datatype Option<+T> = None | Some(value: T)

  /** Candid's `Result` variant: `Ok` carries the value, `Err` the error. */
  datatype Result<+T, +E> = Ok(value: T) | Err(error: E)

  /** Raw bytes (`blob`). */
  type Blob = seq<bv8>

  /** An opaque caller identity, compared by its bytes. */
  datatype Principal = Principal(bytes: Blob)

  newtype Nat8 = x: int | 0 <= x < 0x100

  newtype Nat64 = x: int | 0 <= x < 0x1_0000_0000_0000_0000
}
