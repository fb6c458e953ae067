/**
 * Validation predicates and constants of the leaderboard contract configuration.
 */
module Config {
  import opened Types

  const MIN_SCORE: int := 0
  /** `Number.MAX_SAFE_INTEGER`, 2^53 - 1. */
  const MAX_SCORE: int := 0x1F_FFFF_FFFF_FFFF
  /** The largest `limit` a top-scores read accepts. */
  const MAX_LIMIT: int := 1000

  const DEFAULT_LIMIT: int := 10
  const DEFAULT_INCLUDE_RANK: bool := true
  const DEFAULT_FORMAT_SCORES: bool := true
  const DEFAULT_ENABLED: bool := true
  const DEFAULT_REFETCH_INTERVAL: int := 0

  const GET_MY_SCORE: string := "getMyScore"
  const GET_SCORE: string := "getScore"
  const GET_TOP_SCORES: string := "getTopScores"
  const GET_ALL_SCORES_DESCENDING: string := "getAllScoresDescending"
  const GET_TOTAL_USERS: string := "getTotalUsers"
  const GET_USER_RANK: string := "getUserRank"
  const HAS_SCORE: string := "hasScore"
  const SET_SCORE: string := "setScore"

  const INVALID_SCORE: string := "Score must be a valid positive integer"
  const INVALID_ADDRESS: string := "Invalid Ethereum address format"
  const INVALID_LIMIT: string := "Limit must be a positive integer between 1 and 1000"
  const CONTRACT_NOT_CONNECTED: string := "Contract not connected"
  const WALLET_NOT_CONNECTED: string := "Wallet not connected"
  const TRANSACTION_FAILED: string := "Transaction failed"
  const READ_FAILED: string := "Failed to read from contract"
  const NETWORK_ERROR: string := "Network error occurred"

  /** `isValidScore`: at least MIN_SCORE, at most MAX_SCORE, and an integer. */
  predicate IsValidScore(score: JsNumber) {
    AtLeast(score, MIN_SCORE as real) && AtMost(score, MAX_SCORE as real) && IsInteger(score)
  }

  /** One character of the class `[a-fA-F0-9]`. */
  predicate IsHexDigit(c: char) {
    ('a' <= c <= 'f') || ('A' <= c <= 'F') || ('0' <= c <= '9')
  }

  /** `isValidAddress`: the whole string matches `^0x[a-fA-F0-9]{40}$`. */
  predicate IsValidAddress(address: string) {
    |address| == 42 && address[0] == '0' && address[1] == 'x' &&
    forall i :: 2 <= i < |address| ==> IsHexDigit(address[i])
  }

  /** `isValidLimit`: above 0, at most 1000, and an integer. */
  predicate IsValidLimit(limit: JsNumber) {
    Above(limit, 0.0) && AtMost(limit, MAX_LIMIT as real) && IsInteger(limit)
  }

  /** The integer a valid score stands for. */
  function ScoreValue(score: JsNumber): (v: int)
    requires IsValidScore(score)
    ensures MIN_SCORE <= v <= MAX_SCORE && FromInt(v) == score
  {
    score.value.Floor
  }

  /** A score is valid exactly when it is an integer in [0, 2^53 - 1]. */
  lemma ValidScoreIsSafeInteger(score: JsNumber)
    ensures IsValidScore(score) <==>
      exists v: int {:trigger FromInt(v)} :: 0 <= v <= MAX_SCORE && score == FromInt(v)
  {
    if IsValidScore(score) {
      var v := score.value.Floor;
      assert 0 <= v <= MAX_SCORE && score == FromInt(v);
    }
  }

  /** Every negative number, every non-integer and NaN and the infinities are rejected. */
  lemma InvalidScores(v: real)
    ensures v < 0.0 ==> !IsValidScore(Finite(v))
    ensures v.Floor as real != v ==> !IsValidScore(Finite(v))
    ensures !IsValidScore(NaN) && !IsValidScore(PosInfinity) && !IsValidScore(NegInfinity)
  {
  }

  /** 0 and 2^53 - 1 are accepted; -1 and 2^53 are rejected. */
  lemma ScoreBoundaries()
    ensures IsValidScore(FromInt(0)) && IsValidScore(FromInt(MAX_SCORE))
    ensures !IsValidScore(FromInt(-1)) && !IsValidScore(FromInt(MAX_SCORE + 1))
  {
  }

  /** A limit is valid exactly when it is an integer in [1, 1000]. */
  lemma ValidLimitRange(limit: JsNumber)
    ensures IsValidLimit(limit) <==>
      exists v: int {:trigger FromInt(v)} :: 1 <= v <= MAX_LIMIT && limit == FromInt(v)
  {
    if IsValidLimit(limit) {
      var v := limit.value.Floor;
      assert 1 <= v <= MAX_LIMIT && limit == FromInt(v);
    }
  }

  /** 1 and 1000 are accepted; 0 and 1001 are rejected. */
  lemma LimitBoundaries()
    ensures IsValidLimit(FromInt(1)) && IsValidLimit(FromInt(MAX_LIMIT))
    ensures !IsValidLimit(FromInt(0)) && !IsValidLimit(FromInt(MAX_LIMIT + 1))
  {
  }

  /** [1, 1000] lies inside [0, MAX_SCORE], so a valid limit is also a valid score. */
  lemma ValidLimitIsValidScore(limit: JsNumber)
    requires IsValidLimit(limit)
    ensures IsValidScore(limit)
  {
  }

  /** "0x" followed by forty hexadecimal digits of either case is a valid address. */
  lemma HexDigitsMakeAddress(digits: string)
    requires |digits| == 40 && forall i :: 0 <= i < 40 ==> IsHexDigit(digits[i])
    ensures IsValidAddress("0x" + digits)
  {
    var a := "0x" + digits;
    forall i | 2 <= i < |a| ensures IsHexDigit(a[i]) {
      assert a[i] == digits[i - 2];
    }
  }

  /** Any other length, and the upper-case prefix "0X", are rejected. */
  lemma AddressRejections(address: string)
    ensures |address| != 42 ==> !IsValidAddress(address)
    ensures |address| >= 2 && address[..2] == "0X" ==> !IsValidAddress(address)
  {
    if |address| >= 2 && address[..2] == "0X" {
      assert address[1] == address[..2][1] == 'X';
    }
  }
}
