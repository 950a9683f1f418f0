/** Values shared by every contract: addresses, results, and the machine arithmetic
    of the chain's integers (saturating and checked). */
module Prelude {

  datatype Option<+T> = None | Some(value: T)

  /** The ways in which a contract call can panic; a panicking call leaves no trace. */
  datatype Error =
    | Unauthorized
    | InvalidState
    | NotFound
    | Duplicate
    | NotInitialized
    | ProtocolPaused
    | InsufficientFunds
    | InvalidFee
    | InvalidToken
    | InvalidAmount
    | InvalidDriver
    | InvalidMetadata
    | InvalidRecord
    | NegativeTransfer
    | Overdraft
    | Overflow
    | BatchTooLarge
    | AlreadyInitialized
    | AlreadyInvited
    | AlreadyActive
    | InviteNotFound
    | NoPendingChange
    | TimelockNotElapsed
    | FleetInactive
    | RosterFull

  datatype Result<+T> = Ok(value: T) | Err(error: Error) {
    predicate IsFailure() { Err? }

    function PropagateFailure<U>(): Result<U>
      requires Err?
    {
      Err(error)
    }

    function Extract(): T
      requires Ok?
    {
      value
    }

    /** The value of a committed call, or the untouched state of a rolled-back one. */
    function OrElse(rolledBack: T): T {
      if Ok? then value else rolledBack
    }
  }

  datatype Unit = Unit

  /** The escrow and dispute contracts have addresses of their own; everybody else is an account. */
  datatype Address = EscrowAddress | DisputeAddress | Account(id: nat)

  const I128_MAX: int := 0x7fff_ffff_ffff_ffff_ffff_ffff_ffff_ffff
  const I128_MIN: int := -0x8000_0000_0000_0000_0000_0000_0000_0000
  const U64_MAX: nat := 0xffff_ffff_ffff_ffff
  const U32_MAX: nat := 0xffff_ffff
  const BPS: nat := 10_000

  function Min(a: int, b: int): int { if a <= b then a else b }

  function Max(a: int, b: int): int { if a <= b then b else a }

  /** Clamps an exact result to the range of i128. */
  function Saturate(x: int): int { Max(I128_MIN, Min(I128_MAX, x)) }

  /** Rust's integer division truncates toward zero. */
  function TruncDiv(a: int, b: int): int
    requires b > 0
  {
    if a >= 0 then a / b else -((-a) / b)
  }

  /** A u64 addition under overflow checks. */
  function AddU64(a: nat, b: nat): Result<nat> {
    if a + b > U64_MAX then Err(Overflow) else Ok(a + b)
  }

  /** A u32 addition under overflow checks. */
  function AddU32(a: nat, b: nat): Result<nat> {
    if a + b > U32_MAX then Err(Overflow) else Ok(a + b)
  }

  /** No element occurs twice. */
  ghost predicate Distinct<T>(s: seq<T>) {
    forall i, j :: 0 <= i < j < |s| ==> s[i] != s[j]
  }
}
