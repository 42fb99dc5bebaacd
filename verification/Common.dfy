/** Wrappers shared by every component of the model. */
module Common {

  datatype Option<+T> = None | Some(value: T)

  datatype Result<+T, +E> = Ok(value: T) | Err(error: E)

  const U64_MAX: nat := 0xFFFF_FFFF_FFFF_FFFF

  type U64 = n: nat | n <= U64_MAX

  /** One more, in a 64-bit counter that stays at its maximum. */
  function Bump(n: nat): nat {
    if n < U64_MAX then n + 1 else n
  }

  function Min(a: nat, b: nat): nat {
    if a < b then a else b
  }
}
