/** Host-level notions shared by both canisters: principals, the fixed-width
    unsigned integers Rust uses, and the outcome of a canister call. */
module IcTypes {

  /** A principal, identified by its textual form. */
  datatype Principal = Principal(text: string)

  /** `Principal::anonymous()`. */
  const ANONYMOUS: Principal := Principal("2vxsx-fae")

  const U8_BOUND: int := 0x100
  const U32_BOUND: int := 0x1_0000_0000
  const U64_BOUND: int := 0x1_0000_0000_0000_0000
  const U128_BOUND: int := 0x1_0000_0000_0000_0000_0000_0000_0000_0000
  const U128_MAX: int := U128_BOUND - 1

  type U8 = x: int | 0 <= x < U8_BOUND
  type U32 = x: int | 0 <= x < U32_BOUND
  type U64 = x: int | 0 <= x < U64_BOUND
  type U128 = x: int | 0 <= x < U128_BOUND

  datatype Option<T> = None | Some(value: T) {
    function GetOr(default: T): T {
      if Some? then value else default
    }
  }

  /** The outcome of a call into a canister: it either returns a value, or it
      traps with a message, in which case the host discards every change the
      call made. */
  datatype Reply<T> = Ok(value: T) | Trap(message: string)

  /** A Rust `Result` returned to the caller (not a trap). */
  datatype Result<T, E> = Success(value: T) | Failure(error: E)
}
