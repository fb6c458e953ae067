/**
 * Value types shared by the leaderboard hooks: the records the contract returns,
 * the hook option records, JavaScript numbers and thrown errors.
 */
module Types {

  datatype Option<+T> = None | Some(value: T) {
    /** The `x ?? default` of the source: the value when present. */
    function GetOr(default: T): T {
      if Some? then value else default
    }
  }

  /** A thrown JavaScript `Error`; only its message is observable to callers. */
  datatype Error = Error(message: string)

  /** A call that either resolves with a value or rejects with an error. */
  datatype Result<+T> = Ok(value: T) | Err(error: Error)

  /** A call that resolves with nothing or rejects with an error. */
  datatype Outcome = Pass | Fail(error: Error)

  /**
   * A JavaScript `number`. Finite values are kept as exact reals; the three
   * non-finite values are kept apart because comparisons treat them specially.
   */
  datatype JsNumber = Finite(value: real) | NaN | PosInfinity | NegInfinity

  function FromInt(i: int): JsNumber {
    Finite(i as real)
  }

  /** `Number.isInteger(n)`: finite and without a fractional part. */
  predicate IsInteger(n: JsNumber) {
    n.Finite? && n.value.Floor as real == n.value
  }

  /** `n >= c`; NaN compares false with everything. */
  predicate AtLeast(n: JsNumber, c: real) {
    match n
    case Finite(v) => v >= c
    case PosInfinity => true
    case _ => false
  }

  /** `n <= c`. */
  predicate AtMost(n: JsNumber, c: real) {
    match n
    case Finite(v) => v <= c
    case NegInfinity => true
    case _ => false
  }

  /** `n > c`. */
  predicate Above(n: JsNumber, c: real) {
    match n
    case Finite(v) => v > c
    case PosInfinity => true
    case _ => false
  }

  /** `n < c`. */
  predicate Below(n: JsNumber, c: real) {
    match n
    case Finite(v) => v < c
    case NegInfinity => true
    case _ => false
  }

  /** An Ethereum address as the wallet and the contract hand it over. */
  type Address = string

  /** `!!a` for an optional string: undefined and the empty string are falsy. */
  predicate Truthy(a: Option<Address>) {
    a.Some? && a.value != ""
  }

  /** A leaderboard entry as the contract returns it (`score` is a uint256). */
  datatype UserScore = UserScore(user: Address, score: int)

  /** A leaderboard entry prepared for display, with an optional 1-based rank. */
  datatype FormattedUserScore = FormattedUserScore(user: Address, score: int, rank: Option<int>)

  /** Options every read hook accepts; a missing field is `None`. */
  datatype HookOptions = HookOptions(enabled: Option<bool>, refetchInterval: Option<int>)

  /** Options of the leaderboard hooks, which also carry the read options. */
  datatype LeaderboardOptions = LeaderboardOptions(
    includeRank: Option<bool>, formatScores: Option<bool>, hook: HookOptions)
}
