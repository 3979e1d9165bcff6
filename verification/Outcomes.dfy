/** What a contract call yields, and the EVM's number types.
    A call either succeeds with a value or reverts, and a revert leaves every
    contract as it was: steps are functions from a state to a Result. */
module Outcomes {

  type Address = nat

  const ZERO_ADDRESS: Address := 0

  /** One more than the largest uint256. */
  const TWO_256: nat := 0x1_0000000000000000_0000000000000000_0000000000000000_0000000000000000
  const MAX_UINT256: nat := TWO_256 - 1

  /** One more than the largest int256. */
  const TWO_255: int := 0x8000000000000000_0000000000000000_0000000000000000_0000000000000000

  type Uint256 = x: nat | x < TWO_256

  type Int256 = x: int | -TWO_255 <= x < TWO_255

  datatype Error =
    | Panic                 // checked arithmetic left its range, or a division by zero
    | MissingRole
    | FeaturePaused
    | BlockedAccount
    | SanctionedAccount
    | DepositTooSmall
    | RedemptionTooSmall
    | PriceIdNotSet
    | PriceIdAlreadySet
    | DepositorNull
    | DepositProofAlreadyExists
    | ArraySizeMismatch
    | AmountTooSmall
    | FeeTooLarge
    | ClaimableTimestampNotSet
    | ClaimableTimestampInPast
    | MintNotYetClaimable
    | InvalidPrice
    | PriceIdDoesNotExist
    | LatestPriceMismatch
    | PricesAlreadyMatch
    | InvalidAddress
    | InvalidRWAPrice
    | CorruptedChainlinkResponse
    | ChainlinkOraclePriceStale
    | ChainlinkRoundNotUpdated
    | PriceUpdateWindowViolation
    | AbsoluteDifferenceConstraintViolated
    | DeltaDifferenceConstraintViolation
    | InvalidTermIndex
    | AlreadyVerified
    | InvalidSigner
    | InvalidVSignature
    | TransferToOrFromZero
    | BalanceTooSmall
    | AllowanceTooSmall
    | TokenPaused
    | NotOnAllowlist

  datatype Result<+T> = Ok(value: T) | Revert(error: Error) {
    predicate IsFailure() {
      Revert?
    }

    function PropagateFailure<U>(): Result<U>
      requires Revert?
    {
      Revert(error)
    }

    function Extract(): T
      requires Ok?
    {
      value
    }
  }

  /** A require or an `if (...) revert` of the source. */
  function Need(condition: bool, error: Error): Result<()> {
    if condition then Ok(()) else Revert(error)
  }

  function CheckedAdd(a: nat, b: nat): Result<nat> {
    if a + b <= MAX_UINT256 then Ok(a + b) else Revert(Panic)
  }

  function CheckedSub(a: nat, b: nat): Result<nat> {
    if b <= a then Ok(a - b) else Revert(Panic)
  }

  function CheckedMul(a: nat, b: nat): Result<nat> {
    if a * b <= MAX_UINT256 then Ok(a * b) else Revert(Panic)
  }

  function CheckedDiv(a: nat, b: nat): Result<nat> {
    if b != 0 then Ok(a / b) else Revert(Panic)
  }

  /** The range check of signed checked arithmetic. */
  function CheckedInt(x: int): Result<Int256> {
    if -TWO_255 <= x < TWO_255 then Ok(x) else Revert(Panic)
  }

  /** The conversions `uint256(x)` and `int256(x)`: same bits, no check. */
  function ToUint(x: Int256): Uint256 {
    if x < 0 then x + TWO_256 else x
  }

  function ToInt(x: Uint256): Int256 {
    if x < TWO_255 then x else x - TWO_256
  }

  /** The conversions keep the word: results differ from their argument by 2^256 or
      nothing, and undo each other. */
  lemma SameWord(x: Int256, y: Uint256)
    ensures ToUint(x) == (if x < 0 then x + TWO_256 else x as int)
    ensures ToInt(y) == (if y < TWO_255 then y as int else y - TWO_256)
    ensures ToInt(ToUint(x)) == x && ToUint(ToInt(y)) == y
  {
  }
}
