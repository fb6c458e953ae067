/**
 * The read side of the leaderboard hooks: which contract reads are issued, how
 * their answers are shaped for display, pagination, and the combined user stats.
 * The query client itself is outside the model: a read is described by the
 * `ReadQuery` a hook hands to it, and its answers arrive as `ReadResult` snapshots.
 */
module ReadHooks {
  import opened Types
  import opened Config

  /** What a read hook exposes (and what the query client reports): data, flags and error. */
  datatype ReadResult<T> = ReadResult(data: Option<T>, isLoading: bool, isError: bool, error: Option<Error>)

  /** A contract call argument: an address or a uint256. */
  datatype Arg = AddressArg(address: Address) | UintArg(value: int)

  /** The read a hook asks the query client for; no network call is made unless `enabled`. */
  datatype ReadQuery = ReadQuery(functionName: string, args: seq<Arg>, enabled: bool, refetchInterval: int)

  /** Message of the RangeError that `BigInt(n)` throws for a number that is not an integer. */
  const BIGINT_RANGE_ERROR: string := "The number cannot be converted to a BigInt because it is not an integer"

  // ---------------------------------------------------------------------------
  // Formatting of leaderboard entries

  /** One display entry per contract entry, in the contract's order; rank = position + 1 when asked for. */
  function FormatUserScores(scores: seq<UserScore>, includeRank: bool): (r: seq<FormattedUserScore>)
    ensures |r| == |scores| && Unformat(r) == scores
    ensures forall i :: 0 <= i < |r| ==> r[i].rank == (if includeRank then Some(i + 1) else None)
  {
    seq(|scores|, i requires 0 <= i < |scores| =>
      FormattedUserScore(scores[i].user, scores[i].score, if includeRank then Some(i + 1) else None))
  }

  /** The contract entries a list of display entries was made from (the rank dropped). */
  function Unformat(entries: seq<FormattedUserScore>): (r: seq<UserScore>)
    ensures |r| == |entries|
  {
    seq(|entries|, i requires 0 <= i < |entries| => UserScore(entries[i].user, entries[i].score))
  }

  /** The display entries carry the ranks 1, 2, ..., n in increasing order. */
  lemma RanksStrictlyIncreasing(scores: seq<UserScore>, i: int, j: int)
    requires 0 <= i < j < |scores|
    ensures var r := FormatUserScores(scores, true);
      r[i].rank.Some? && r[j].rank.Some? && 1 <= r[i].rank.value < r[j].rank.value <= |scores|
  {
  }

  /** Formatting keeps an entry iff it was in the input: rank k names input k - 1 and nothing else. */
  lemma RankNamesPosition(scores: seq<UserScore>, e: FormattedUserScore)
    ensures e in FormatUserScores(scores, true) <==>
      (e.rank.Some? && 1 <= e.rank.value <= |scores| &&
       scores[e.rank.value - 1] == UserScore(e.user, e.score))
  {
    var r := FormatUserScores(scores, true);
    if e.rank.Some? && 1 <= e.rank.value <= |scores| && scores[e.rank.value - 1] == UserScore(e.user, e.score) {
      assert r[e.rank.value - 1] == e;
    }
  }

  /**
   * The data of `useTopScores` and `useAllScores`: formatted (ranked unless `includeRank`
   * is false) when `formatScores` is on, otherwise copied without rank; undefined stays undefined.
   */
  function ShapeScores(data: Option<seq<UserScore>>, options: LeaderboardOptions): (r: Option<seq<FormattedUserScore>>)
    ensures r.Some? <==> data.Some?
    ensures r.Some? ==> Unformat(r.value) == data.value
    ensures r.Some? && options.includeRank != Some(false) && options.formatScores != Some(false) ==>
      forall i :: 0 <= i < |r.value| ==> r.value[i].rank == Some(i + 1)
    ensures r.Some? && (options.includeRank == Some(false) || options.formatScores == Some(false)) ==>
      forall i :: 0 <= i < |r.value| ==> r.value[i].rank.None?
  {
    var includeRank := options.includeRank.GetOr(DEFAULT_INCLUDE_RANK);
    var formatScores := options.formatScores.GetOr(DEFAULT_FORMAT_SCORES);
    if data.Some? && formatScores then Some(FormatUserScores(data.value, includeRank))
    else if data.Some? then
      Some(seq(|data.value|, i requires 0 <= i < |data.value| =>
        FormattedUserScore(data.value[i].user, data.value[i].score, None)))
    else None
  }

  // ---------------------------------------------------------------------------
  // Which reads are issued

  /** `options.enabled !== false`. */
  predicate NotDisabled(options: HookOptions) {
    options.enabled != Some(false)
  }

  /** `address ? [address] : []`. */
  function AddressArgs(address: Option<Address>): seq<Arg> {
    if Truthy(address) then [AddressArg(address.value)] else []
  }

  /** The generic read: `enabled` defaults to true and `refetchInterval` to 0. */
  function ContractRead(functionName: string, args: seq<Arg>, options: HookOptions): (q: ReadQuery)
    ensures q.enabled <==> NotDisabled(options)
    ensures q.refetchInterval == (if options.refetchInterval.Some? then options.refetchInterval.value else 0)
    ensures q.functionName == functionName && q.args == args
  {
    ReadQuery(functionName, args, options.enabled.GetOr(DEFAULT_ENABLED),
              options.refetchInterval.GetOr(DEFAULT_REFETCH_INTERVAL))
  }

  /** The read options a hook bound to the connected account passes on. */
  function AccountOptions(account: Option<Address>, options: HookOptions): HookOptions {
    options.(enabled := Some(NotDisabled(options) && Truthy(account)))
  }

  /** The read options a hook bound to a given user passes on. */
  function UserOptions(user: Option<Address>, options: HookOptions): HookOptions {
    options.(enabled := Some(NotDisabled(options) && Truthy(user) && IsValidAddress(user.value)))
  }

  /** `useMyScore`: issued only while an account is connected. */
  function MyScoreQuery(account: Option<Address>, options: HookOptions): (q: ReadQuery)
    ensures q.functionName == GET_MY_SCORE && q.args == []
    ensures q.enabled <==> NotDisabled(options) && Truthy(account)
  {
    ContractRead(GET_MY_SCORE, [], AccountOptions(account, options))
  }

  /** `useUserScore`: issued only for a present, well-formed address. */
  function UserScoreQuery(user: Option<Address>, options: HookOptions): (q: ReadQuery)
    ensures q.functionName == GET_SCORE
    ensures q.enabled <==> NotDisabled(options) && Truthy(user) && IsValidAddress(user.value)
    ensures q.enabled ==> q.args == [AddressArg(user.value)]
  {
    ContractRead(GET_SCORE, AddressArgs(user), UserOptions(user, options))
  }

  /**
   * `useTopScores`: `BigInt(limit)` throws for a limit that is not an integer; otherwise
   * the read is issued only for a valid limit, with the limit as its argument.
   */
  function TopScoresQuery(limit: JsNumber, options: LeaderboardOptions): (r: Result<ReadQuery>)
    ensures r.Err? <==> !IsInteger(limit)
    ensures r.Ok? ==> r.value.functionName == GET_TOP_SCORES && r.value.args == [UintArg(limit.value.Floor)]
    ensures r.Ok? ==> (r.value.enabled <==> NotDisabled(options.hook) && IsValidLimit(limit))
  {
    if !IsInteger(limit) then Err(Error(BIGINT_RANGE_ERROR))
    else
      Ok(ContractRead(GET_TOP_SCORES, [UintArg(limit.value.Floor)],
                      options.hook.(enabled := Some(NotDisabled(options.hook) && IsValidLimit(limit)))))
  }

  /** `useAllScores`: the options are passed on unchanged. */
  function AllScoresQuery(options: LeaderboardOptions): (q: ReadQuery)
    ensures q.functionName == GET_ALL_SCORES_DESCENDING && q.args == []
    ensures q.enabled <==> NotDisabled(options.hook)
  {
    ContractRead(GET_ALL_SCORES_DESCENDING, [], options.hook)
  }

  /** `useTotalUsers`: the options are passed on unchanged. */
  function TotalUsersQuery(options: HookOptions): (q: ReadQuery)
    ensures q.functionName == GET_TOTAL_USERS && q.args == []
    ensures q.enabled <==> NotDisabled(options)
  {
    ContractRead(GET_TOTAL_USERS, [], options)
  }

  /** `useMyRank`: issued only while an account is connected, for that account. */
  function MyRankQuery(account: Option<Address>, options: HookOptions): (q: ReadQuery)
    ensures q.functionName == GET_USER_RANK
    ensures q.enabled <==> NotDisabled(options) && Truthy(account)
    ensures q.enabled ==> q.args == [AddressArg(account.value)]
  {
    ContractRead(GET_USER_RANK, AddressArgs(account), AccountOptions(account, options))
  }

  /** `useUserRank`: issued only for a present, well-formed address. */
  function UserRankQuery(user: Option<Address>, options: HookOptions): (q: ReadQuery)
    ensures q.functionName == GET_USER_RANK
    ensures q.enabled <==> NotDisabled(options) && Truthy(user) && IsValidAddress(user.value)
    ensures q.enabled ==> q.args == [AddressArg(user.value)]
  {
    ContractRead(GET_USER_RANK, AddressArgs(user), UserOptions(user, options))
  }

  /** `useHasScore`: issued only while an account is connected, for that account. */
  function HasScoreQuery(account: Option<Address>, options: HookOptions): (q: ReadQuery)
    ensures q.functionName == HAS_SCORE
    ensures q.enabled <==> NotDisabled(options) && Truthy(account)
    ensures q.enabled ==> q.args == [AddressArg(account.value)]
  {
    ContractRead(HAS_SCORE, AddressArgs(account), AccountOptions(account, options))
  }

  /** `useUserHasScore`: issued only for a present, well-formed address. */
  function UserHasScoreQuery(user: Option<Address>, options: HookOptions): (q: ReadQuery)
    ensures q.functionName == HAS_SCORE
    ensures q.enabled <==> NotDisabled(options) && Truthy(user) && IsValidAddress(user.value)
    ensures q.enabled ==> q.args == [AddressArg(user.value)]
  {
    ContractRead(HAS_SCORE, AddressArgs(user), UserOptions(user, options))
  }

  /** Without a connected account none of the three own-account reads is issued. */
  lemma OwnReadsNeedAccount(account: Option<Address>, options: HookOptions)
    requires !Truthy(account)
    ensures !MyScoreQuery(account, options).enabled
    ensures !MyRankQuery(account, options).enabled
    ensures !HasScoreQuery(account, options).enabled
  {
  }

  /** For a missing or malformed address none of the three per-user reads is issued. */
  lemma UserReadsNeedValidAddress(user: Option<Address>, options: HookOptions)
    requires user.None? || !IsValidAddress(user.value)
    ensures !UserScoreQuery(user, options).enabled
    ensures !UserRankQuery(user, options).enabled
    ensures !UserHasScoreQuery(user, options).enabled
  {
  }

  /** A top-scores read goes out exactly when it is not disabled and the limit is valid. */
  lemma TopScoresIssuedIffValidLimit(limit: JsNumber, options: LeaderboardOptions)
    ensures (TopScoresQuery(limit, options).Ok? && TopScoresQuery(limit, options).value.enabled)
      <==> (NotDisabled(options.hook) && IsValidLimit(limit))
  {
  }

  // ---------------------------------------------------------------------------
  // The generic read state (`useContractRead`)

  /** The state cells of one read hook, mirrored from the query client's snapshots. */
  class ReadState<T> {
    var data: Option<T>
    var isLoading: bool
    var isError: bool
    var error: Option<Error>
    /** Data handed to `onSuccess`, and errors handed to `onError`, in call order. */
    var successCalls: seq<T>
    var errorCalls: seq<Option<Error>>

    constructor ()
      ensures data.None? && !isLoading && !isError && error.None?
      ensures successCalls == [] && errorCalls == []
    {
      data, isLoading, isError, error := None, false, false, None;
      successCalls, errorCalls := [], [];
    }

    /** The hook's current result. */
    function Current(): (r: ReadResult<T>)
      reads this
      ensures r.data == data && r.isLoading == isLoading && r.isError == isError && r.error == error
    {
      ReadResult(data, isLoading, isError, error)
    }

    /**
     * The effect that copies a new snapshot: flags and error are overwritten, but data is
     * only replaced by defined data, so once defined it never becomes undefined again.
     */
    method Sync(snapshot: ReadResult<T>, hasOnSuccess: bool, hasOnError: bool)
      modifies this
      ensures isLoading == snapshot.isLoading && isError == snapshot.isError && error == snapshot.error
      ensures data == (if snapshot.data.Some? then snapshot.data else old(data))
      ensures old(data).Some? ==> data.Some?
      ensures successCalls == old(successCalls) +
        (if snapshot.data.Some? && hasOnSuccess then [snapshot.data.value] else [])
      ensures errorCalls == old(errorCalls) +
        (if snapshot.isError && hasOnError then [snapshot.error] else [])
    {
      isLoading := snapshot.isLoading;
      isError := snapshot.isError;
      error := snapshot.error;
      if snapshot.data.Some? {
        data := snapshot.data;
        if hasOnSuccess {
          successCalls := successCalls + [snapshot.data.value];
        }
      }
      if snapshot.isError && hasOnError {
        errorCalls := errorCalls + [snapshot.error];
      }
    }

    /** `refetch`: a rejected refetch records its error; data and loading are left alone. */
    method Refetch(outcome: Outcome)
      modifies this
      ensures outcome.Fail? ==> error == Some(outcome.error) && isError
      ensures outcome.Pass? ==> error == old(error) && isError == old(isError)
      ensures data == old(data) && isLoading == old(isLoading)
      ensures successCalls == old(successCalls) && errorCalls == old(errorCalls)
    {
      if outcome.Fail? {
        error := Some(outcome.error);
        isError := true;
      }
    }
  }

  // ---------------------------------------------------------------------------
  // Pagination (`useLeaderboard`)

  /** One page of the leaderboard, as `useLeaderboard` publishes it. */
  datatype Page = Page(
    scores: seq<FormattedUserScore>, currentPage: int, totalPages: JsNumber,
    hasNextPage: bool, hasPreviousPage: bool)

  /** An `Array.prototype.slice` bound: negative counts from the end, then clamped to [0, len]. */
  function RelativeIndex(k: int, len: nat): (r: nat)
    ensures r <= len
    ensures 0 <= k <= len ==> r == k
    ensures k > len ==> r == len
  {
    if k < 0 then (if len + k < 0 then 0 else len + k)
    else if k > len then len
    else k
  }

  /** `s.slice(start, end)` for integer bounds. */
  function Slice<T>(s: seq<T>, start: int, end: int): (r: seq<T>)
    ensures |r| <= |s|
    ensures 0 <= start <= end ==> r == s[Min(start, |s|)..Min(end, |s|)]
  {
    var from := RelativeIndex(start, |s|);
    var to := RelativeIndex(end, |s|);
    if from < to then s[from..to] else []
  }

  function Min(a: int, b: int): int {
    if a <= b then a else b
  }

  /** `Math.ceil(n / d)` for a non-zero integer divisor. */
  function CeilDiv(n: int, d: int): (q: int)
    requires d != 0
    ensures d > 0 ==> (q - 1) * d < n <= q * d
    ensures d < 0 ==> q * d <= n < (q - 1) * d
  {
    if d > 0 then CeilDivPos(n, d) else CeilDivPos(-n, -d)
  }

  function CeilDivPos(n: int, d: int): (q: int)
    requires d > 0
    ensures (q - 1) * d < n <= q * d
  {
    var q := (n + d - 1) / d;
    var r := (n + d - 1) % d;
    assert n + d - 1 == q * d + r && 0 <= r < d;
    assert (q - 1) * d == q * d - d;
    q
  }

  /** `Math.ceil(totalUsers / limit)`: a division by zero gives Infinity, or NaN for 0 / 0. */
  function TotalPages(totalUsers: int, limit: int): (t: JsNumber)
    ensures limit != 0 ==> t == FromInt(CeilDiv(totalUsers, limit))
    ensures limit == 0 && totalUsers > 0 ==> t == PosInfinity
    ensures limit == 0 && totalUsers == 0 ==> t == NaN
  {
    if limit != 0 then FromInt(CeilDiv(totalUsers, limit))
    else if totalUsers > 0 then PosInfinity
    else if totalUsers < 0 then NegInfinity
    else NaN
  }

  /** The entries on page `page` (1-based) of `limit` entries each. */
  function PageScores(allScores: seq<FormattedUserScore>, page: int, limit: int): seq<FormattedUserScore> {
    var startIndex := (page - 1) * limit;
    Slice(allScores, startIndex, startIndex + limit)
  }

  /** The page `useLeaderboard` publishes; the page count comes from `totalUsers`, not the list. */
  function Paginate(allScores: seq<FormattedUserScore>, totalUsers: int, page: int, limit: int): Page {
    var totalPages := TotalPages(totalUsers, limit);
    Page(PageScores(allScores, page, limit), page, totalPages,
         Above(totalPages, page as real), page > 1)
  }

  /** For page >= 1 and limit > 0 the page is the window [(page-1)*limit, page*limit) clipped to the list. */
  lemma PageIsWindow(allScores: seq<FormattedUserScore>, totalUsers: int, page: int, limit: int)
    requires page >= 1 && limit > 0
    ensures var start := (page - 1) * limit;
      var p := Paginate(allScores, totalUsers, page, limit);
      start >= 0 &&
      p.scores == allScores[Min(start, |allScores|)..Min(start + limit, |allScores|)] &&
      |p.scores| <= limit
  {
    var start := (page - 1) * limit;
    assert start >= 0 by { MulNonNegative(page - 1, limit); }
  }

  lemma MulNonNegative(a: int, b: int)
    requires a >= 0 && b >= 0
    ensures a * b >= 0
  {
  }

  /** Page count and navigation flags for a positive limit. */
  lemma PageNavigation(allScores: seq<FormattedUserScore>, totalUsers: int, page: int, limit: int)
    requires limit > 0
    ensures var p := Paginate(allScores, totalUsers, page, limit);
      p.totalPages.Finite? &&
      var t := p.totalPages.value.Floor;
      p.totalPages == FromInt(t) &&
      (t - 1) * limit < totalUsers <= t * limit &&
      (p.hasNextPage <==> page < t) &&
      (p.hasPreviousPage <==> page > 1) &&
      p.currentPage == page
  {
  }

  /** Pages 1 .. k, concatenated in order. */
  function PagesUpTo(allScores: seq<FormattedUserScore>, limit: int, k: nat): seq<FormattedUserScore> {
    if k == 0 then [] else PagesUpTo(allScores, limit, k - 1) + PageScores(allScores, k, limit)
  }

  /** Reading pages 1 .. k in order yields the first k * limit entries: no entry is skipped or repeated. */
  lemma {:induction false} PagesCoverList(allScores: seq<FormattedUserScore>, limit: int, k: nat)
    requires limit > 0
    ensures k * limit >= 0
    ensures PagesUpTo(allScores, limit, k) == allScores[..Min(k * limit, |allScores|)]
  {
    MulNonNegative(k, limit);
    if k > 0 {
      PagesCoverList(allScores, limit, k - 1);
      var start := (k - 1) * limit;
      assert k * limit == start + limit;
      assert start >= 0 by { MulNonNegative(k - 1, limit); }
      assert PageScores(allScores, k, limit) == Slice(allScores, start, start + limit);
      var a := Min(start, |allScores|);
      var b := Min(start + limit, |allScores|);
      assert allScores[..a] + allScores[a..b] == allScores[..b];
    }
  }

  /** Entry i is on page i / limit + 1, at position i % limit. */
  lemma EntryPage(allScores: seq<FormattedUserScore>, limit: int, i: int)
    requires limit > 0 && 0 <= i < |allScores|
    ensures var page := i / limit + 1;
      i % limit < |PageScores(allScores, page, limit)| &&
      PageScores(allScores, page, limit)[i % limit] == allScores[i]
  {
    var page := i / limit + 1;
    assert (page - 1) * limit == i / limit * limit;
    assert i == i / limit * limit + i % limit;
    PageIsWindow(allScores, 0, page, limit);
  }

  /** When totalUsers counts the list: the last page is non-empty and has no next page, later pages are empty. */
  lemma LastPage(allScores: seq<FormattedUserScore>, limit: int, page: int)
    requires limit > 0 && |allScores| > 0
    ensures var t := CeilDiv(|allScores|, limit);
      t >= 1 &&
      PageScores(allScores, t, limit) != [] &&
      !Paginate(allScores, |allScores|, t, limit).hasNextPage &&
      (page > t ==> PageScores(allScores, page, limit) == [])
  {
    var n := |allScores|;
    var t := CeilDiv(n, limit);
    assert (t - 1) * limit < n <= t * limit;
    if t < 1 {
      MulNonNegative(-t, limit);
      assert false;
    }
    var start := (t - 1) * limit;
    assert start >= 0 by { MulNonNegative(t - 1, limit); }
    assert PageScores(allScores, t, limit) == allScores[start..Min(start + limit, n)];
    assert allScores[start] in PageScores(allScores, t, limit);
    if page > t {
      var later := (page - 1) * limit;
      assert later - t * limit == (page - 1 - t) * limit;
      assert later >= t * limit by { MulNonNegative(page - 1 - t, limit); }
      assert PageScores(allScores, page, limit) == Slice(allScores, later, later + limit);
    }
  }

  /** Page 0 has no entries. */
  lemma PageZeroEmpty(allScores: seq<FormattedUserScore>, limit: int)
    requires limit > 0
    ensures PageScores(allScores, 0, limit) == []
  {
  }

  /** The `paginatedData` cell: set only once both the list and the user count are known. */
  class LeaderboardState {
    var paginatedData: Option<Page>

    constructor ()
      ensures paginatedData.None?
    {
      paginatedData := None;
    }

    method Sync(allScores: Option<seq<FormattedUserScore>>, totalUsers: Option<int>, page: int, limit: int)
      modifies this
      ensures allScores.Some? && totalUsers.Some? ==>
        paginatedData == Some(Paginate(allScores.value, totalUsers.value, page, limit))
      ensures allScores.None? || totalUsers.None? ==> paginatedData == old(paginatedData)
    {
      if allScores.Some? && totalUsers.Some? {
        paginatedData := Some(Paginate(allScores.value, totalUsers.value, page, limit));
      }
    }
  }

  // ---------------------------------------------------------------------------
  // Combined user stats (`useUserStats`)

  datatype UserStats = UserStats(score: int, rank: int, hasScore: bool)

  /** `a || b || ...` over nullable errors: the first error present, if any. */
  function FirstError(errors: seq<Option<Error>>): (r: Option<Error>)
    ensures r.None? <==> forall i :: 0 <= i < |errors| ==> errors[i].None?
    ensures r.Some? ==> exists k :: 0 <= k < |errors| && errors[k] == r &&
                                   (forall j :: 0 <= j < k ==> errors[j].None?)
  {
    if errors == [] then None
    else if errors[0].Some? then errors[0]
    else
      var r := FirstError(errors[1..]);
      assert r.Some? ==> exists k :: 1 <= k < |errors| && errors[k] == r &&
                                      (forall j :: 0 <= j < k ==> errors[j].None?) by {
        if r.Some? {
          var k :| 0 <= k < |errors[1..]| && errors[1..][k] == r &&
            forall j :: 0 <= j < k ==> errors[1..][j].None?;
          assert errors[k + 1] == r;
          forall j | 0 <= j < k + 1 ensures errors[j].None? {
            if j > 0 { assert errors[j] == errors[1..][j - 1]; }
          }
        }
      }
      r
  }

  /** With three candidates, `a || b || c`. */
  lemma FirstErrorOfThree(a: Option<Error>, b: Option<Error>, c: Option<Error>)
    ensures FirstError([a, b, c]) == (if a.Some? then a else if b.Some? then b else c)
  {
    assert [a, b, c][1..] == [b, c];
    assert [b, c][1..] == [c];
    assert [c][1..] == [];
    assert FirstError([c]) == c;
    assert FirstError([b, c]) == (if b.Some? then b else c);
  }

  /** The result of `useUserStats`: combined data, OR-ed loading, first error in score, rank, hasScore order. */
  function UserStatsResult(combined: Option<UserStats>, score: ReadResult<int>, rank: ReadResult<int>,
                           hasScore: ReadResult<bool>): (r: ReadResult<UserStats>)
    ensures r.data == combined
    ensures r.isLoading <==> score.isLoading || rank.isLoading || hasScore.isLoading
    ensures r.isError <==> r.error.Some?
    ensures r.error.None? <==> score.error.None? && rank.error.None? && hasScore.error.None?
    ensures score.error.Some? ==> r.error == score.error
    ensures score.error.None? && rank.error.Some? ==> r.error == rank.error
    ensures score.error.None? && rank.error.None? ==> r.error == hasScore.error
  {
    var error := FirstError([score.error, rank.error, hasScore.error]);
    FirstErrorOfThree(score.error, rank.error, hasScore.error);
    ReadResult(combined, score.isLoading || rank.isLoading || hasScore.isLoading, error.Some?, error)
  }

  /** The `combinedData` cell: set only once score, rank and hasScore are all defined. */
  class UserStatsState {
    var combinedData: Option<UserStats>

    constructor ()
      ensures combinedData.None?
    {
      combinedData := None;
    }

    method Sync(score: Option<int>, rank: Option<int>, hasScore: Option<bool>)
      modifies this
      ensures score.Some? && rank.Some? && hasScore.Some? ==>
        combinedData == Some(UserStats(score.value, rank.value, hasScore.value))
      ensures score.None? || rank.None? || hasScore.None? ==> combinedData == old(combinedData)
    {
      if score.Some? && rank.Some? && hasScore.Some? {
        combinedData := Some(UserStats(score.value, rank.value, hasScore.value));
      }
    }
  }
}
