/**
 * The contract context: the provider that gathers the read hooks and the score write
 * into one value, its refresh functions and the timestamp of the last full refresh,
 * and the statistics and ranking hooks derived from that value.
 *
 * Timers do not run here: whether an auto-refresh interval is scheduled is recorded,
 * and its firing is an operation of its own. `Date.now()` is the time of a `Clock`
 * that only moves forward.
 */
module ContractContext {
  import opened Types
  import opened Config
  import ReadHooks
  import WriteHooks

  const DEFAULT_AUTO_REFRESH: bool := false
  /** Milliseconds between automatic refreshes when none is given. */
  const DEFAULT_REFRESH_INTERVAL: int := 30000
  /** A rank at most this is a top player. */
  const TOP_PLAYER_RANK: int := 10
  /** An unrounded percentile at least this is in the top ten percent. */
  const TOP_PERCENTILE: real := 90.0

  // ---------------------------------------------------------------------------
  // `Math.round` on exact values

  /** `Math.round(x)`: the nearest integer, halves rounded up. */
  function Round(x: real): (r: int)
    ensures r as real - 0.5 <= x < r as real + 0.5
  {
    (x + 0.5).Floor
  }

  /** Only one integer lies within half a unit below and less than half a unit above x. */
  lemma RoundUnique(x: real, r: int)
    requires r as real - 0.5 <= x < r as real + 0.5
    ensures Round(x) == r
  {
    var q := Round(x);
    assert q as real - 0.5 <= x < q as real + 0.5;
    assert r - 1 < q < r + 1;
  }

  // ---------------------------------------------------------------------------
  // `useContractStats`

  /** The statistics the hook computes. */
  datatype Stats = Stats(totalUsers: int, totalScores: int, averageScore: int, highestScore: int, lowestScore: int)

  /** `allScores.reduce((sum, s) => sum + s.score, 0)`, added from the front. */
  function Sum(entries: seq<FormattedUserScore>): int
  {
    if entries == [] then 0 else Sum(entries[..|entries| - 1]) + entries[|entries| - 1].score
  }

  /** Scores within [lo, hi] sum to between n * lo and n * hi. */
  lemma {:induction false} SumBounds(entries: seq<FormattedUserScore>, lo: int, hi: int)
    requires forall i :: 0 <= i < |entries| ==> lo <= entries[i].score <= hi
    ensures |entries| * lo <= Sum(entries) <= |entries| * hi
    decreases |entries|
  {
    if entries != [] {
      var n := |entries|;
      SumBounds(entries[..n - 1], lo, hi);
      assert (n - 1) * lo + lo == n * lo;
      assert (n - 1) * hi + hi == n * hi;
    }
  }

  /** The mean of the scores, rounded; 0 for an empty list. */
  function Average(entries: seq<FormattedUserScore>): (a: int)
    ensures |entries| == 0 ==> a == 0
    ensures |entries| > 0 ==>
      a as real - 0.5 <= Sum(entries) as real / |entries| as real < a as real + 0.5
  {
    if |entries| > 0 then Round(Sum(entries) as real / |entries| as real) else 0
  }

  /**
   * The statistics of `useContractStats`: the number of entries, the rounded mean,
   * the first top score and the last entry of the full list, with 0 for a missing one.
   */
  function ContractStats(totalUsers: int, topScores: seq<FormattedUserScore>,
                         allScores: seq<FormattedUserScore>): (s: Stats)
    ensures s.totalUsers == totalUsers && s.totalScores == |allScores|
    ensures |allScores| == 0 ==> s.averageScore == 0 && s.lowestScore == 0
    ensures |topScores| == 0 ==> s.highestScore == 0
    ensures |topScores| > 0 ==> s.highestScore == topScores[0].score
    ensures |allScores| > 0 ==> s.lowestScore == allScores[|allScores| - 1].score
    ensures |allScores| > 0 ==>
      s.averageScore as real - 0.5 <= Sum(allScores) as real / |allScores| as real < s.averageScore as real + 0.5
  {
    Stats(totalUsers, |allScores|, Average(allScores),
          if |topScores| > 0 then topScores[0].score else 0,
          if |allScores| > 0 then allScores[|allScores| - 1].score else 0)
  }

  /** The rounded average never leaves the range the scores lie in. */
  lemma AverageWithinBounds(entries: seq<FormattedUserScore>, lo: int, hi: int)
    requires |entries| > 0
    requires forall i :: 0 <= i < |entries| ==> lo <= entries[i].score <= hi
    ensures lo <= Average(entries) <= hi
  {
    var n := |entries|;
    var s := Sum(entries);
    SumBounds(entries, lo, hi);
    var mean := s as real / n as real;
    assert mean * n as real == s as real;
    assert (n * lo) as real == n as real * lo as real;
    assert (n * hi) as real == n as real * hi as real;
    MeanBetween(s as real, n as real, lo as real, hi as real);
    var a := Average(entries);
    assert a as real - 0.5 <= mean < a as real + 0.5;
  }

  /** Dividing by a positive n keeps comparisons with a bound c, scaled by n. */
  lemma DivCompare(x: real, n: real, c: real)
    requires n > 0.0
    ensures x / n >= c <==> x >= c * n
    ensures x / n <= c <==> x <= c * n
  {
    var q := x / n;
    assert q * n == x;
    assert x - c * n == (q - c) * n;
  }

  /** s / n lies in [lo, hi] when s lies in [n * lo, n * hi] and n is positive. */
  lemma MeanBetween(s: real, n: real, lo: real, hi: real)
    requires n > 0.0 && n * lo <= s <= n * hi
    ensures lo <= s / n <= hi
  {
    DivCompare(s, n, lo);
    DivCompare(s, n, hi);
  }

  /** Scores in the contract's order: no entry is above an earlier one. */
  predicate Descending(entries: seq<FormattedUserScore>) {
    forall i, j :: 0 <= i < j < |entries| ==> entries[i].score >= entries[j].score
  }

  /**
   * On a descending list whose first entry is also the first top score, every score
   * lies between the lowest and the highest, and so does the rounded average.
   */
  lemma StatsBracketScores(totalUsers: int, topScores: seq<FormattedUserScore>, allScores: seq<FormattedUserScore>)
    requires Descending(allScores) && |allScores| > 0
    requires |topScores| > 0 && topScores[0].score == allScores[0].score
    ensures var s := ContractStats(totalUsers, topScores, allScores);
      (forall i :: 0 <= i < |allScores| ==> s.lowestScore <= allScores[i].score <= s.highestScore) &&
      s.lowestScore <= s.averageScore <= s.highestScore
  {
    var n := |allScores|;
    assert forall i :: 0 <= i < n ==> allScores[n - 1].score <= allScores[i].score <= allScores[0].score;
    AverageWithinBounds(allScores, allScores[n - 1].score, allScores[0].score);
  }

  // ---------------------------------------------------------------------------
  // `useUserRanking`

  /** `toLowerCase` on the characters of an address: A-Z become a-z, all else stays. */
  function LowerChar(c: char): (d: char)
    ensures 'A' <= c <= 'Z' ==> 'a' <= d <= 'z' && d as int - c as int == 32
    ensures !('A' <= c <= 'Z') ==> d == c
  {
    if 'A' <= c <= 'Z' then (c as int + 32) as char else c
  }

  function ToLower(s: string): (r: string)
    ensures |r| == |s| && forall i :: 0 <= i < |s| ==> r[i] == LowerChar(s[i])
  {
    seq(|s|, i requires 0 <= i < |s| => LowerChar(s[i]))
  }

  /** Two addresses name the same user when they agree up to the case of letters. */
  predicate SameUser(a: Address, b: Address) {
    ToLower(a) == ToLower(b)
  }

  /** Lowering a character twice is lowering it once. */
  lemma LowerCharIdempotent(c: char)
    ensures LowerChar(LowerChar(c)) == LowerChar(c)
  {
  }

  /** An address and its lower-case spelling name the same user. */
  lemma LowerIsSameUser(a: Address)
    ensures SameUser(a, ToLower(a))
  {
    forall i | 0 <= i < |a| ensures ToLower(ToLower(a))[i] == ToLower(a)[i] {
      LowerCharIdempotent(a[i]);
    }
  }

  /** Two spellings that agree position by position, except that a letter A-Z may stand for its lower-case form. */
  predicate CaseVariant(a: Address, b: Address) {
    |a| == |b| &&
    forall i :: 0 <= i < |a| ==>
      a[i] == b[i] || ('A' <= a[i] <= 'Z' && b[i] == LowerChar(a[i])) || ('A' <= b[i] <= 'Z' && a[i] == LowerChar(b[i]))
  }

  /** Two addresses name the same user exactly when they differ only in the case of letters A-Z. */
  lemma SameUserIffCaseVariant(a: Address, b: Address)
    ensures SameUser(a, b) <==> CaseVariant(a, b)
  {
    if SameUser(a, b) {
      forall i | 0 <= i < |a|
        ensures a[i] == b[i] || ('A' <= a[i] <= 'Z' && b[i] == LowerChar(a[i])) || ('A' <= b[i] <= 'Z' && a[i] == LowerChar(b[i]))
      {
        assert ToLower(a)[i] == ToLower(b)[i];
      }
    }
    if CaseVariant(a, b) {
      forall i | 0 <= i < |a| ensures ToLower(a)[i] == ToLower(b)[i] {
        LowerCharIdempotent(a[i]);
        LowerCharIdempotent(b[i]);
      }
    }
  }

  /** The position of the first entry of user `address` at or after i, or |entries| when there is none. */
  function FindFrom(entries: seq<FormattedUserScore>, address: Address, i: nat): (k: nat)
    requires i <= |entries|
    ensures i <= k <= |entries|
    ensures forall j :: i <= j < k ==> !SameUser(entries[j].user, address)
    ensures k < |entries| ==> SameUser(entries[k].user, address)
    decreases |entries| - i
  {
    if i == |entries| then i
    else if SameUser(entries[i].user, address) then i
    else FindFrom(entries, address, i + 1)
  }

  /** `allScores.find(...)`: the index of the first entry of the user, |entries| if none. */
  function FindUser(entries: seq<FormattedUserScore>, address: Address): (k: nat)
    ensures k <= |entries|
    ensures forall j :: 0 <= j < k ==> !SameUser(entries[j].user, address)
    ensures k < |entries| ==> SameUser(entries[k].user, address)
  {
    FindFrom(entries, address, 0)
  }

  /** What `useUserRanking` returns for a user that was found. */
  datatype Ranking = Ranking(rank: int, score: int, totalPlayers: int, percentile: int,
                             isTopPlayer: bool, isTopPercent: bool)

  /** `((total - rank + 1) / total) * 100`, before rounding. */
  function ExactPercentile(rank: int, total: int): real
    requires total > 0
  {
    (total - rank + 1) as real / total as real * 100.0
  }

  /**
   * `useUserRanking`: null without an address, for an empty list, or when no entry is
   * the user's; otherwise the first entry of the user, with a missing rank read as 0.
   */
  function UserRanking(userAddress: Option<Address>, allScores: seq<FormattedUserScore>): (r: Option<Ranking>)
    ensures r.None? <==>
      !Truthy(userAddress) || |allScores| == 0 || FindUser(allScores, userAddress.value) == |allScores|
    ensures r.Some? ==>
      var e := allScores[FindUser(allScores, userAddress.value)];
      && r.value.rank == (if e.rank.Some? then e.rank.value else 0)
      && r.value.score == e.score
      && r.value.totalPlayers == |allScores|
      && r.value.percentile == Round(ExactPercentile(r.value.rank, |allScores|))
      && (r.value.isTopPlayer <==> r.value.rank <= TOP_PLAYER_RANK)
      && (r.value.isTopPercent <==> ExactPercentile(r.value.rank, |allScores|) >= TOP_PERCENTILE)
  {
    if !Truthy(userAddress) || |allScores| == 0 then None
    else
      var k := FindUser(allScores, userAddress.value);
      if k == |allScores| then None
      else
        var entry := allScores[k];
        var rank := entry.rank.GetOr(0);
        var totalPlayers := |allScores|;
        var percentile := ExactPercentile(rank, totalPlayers);
        Some(Ranking(rank, entry.score, totalPlayers, Round(percentile),
                     rank <= TOP_PLAYER_RANK, percentile >= TOP_PERCENTILE))
  }

  /** For a rank in 1 .. total the percentile, exact and rounded, lies in [0, 100]; rank 1 gives 100. */
  lemma PercentileBounds(rank: int, total: int)
    requires 1 <= rank <= total
    ensures 0.0 < ExactPercentile(rank, total) <= 100.0
    ensures 0 <= Round(ExactPercentile(rank, total)) <= 100
    ensures rank == 1 ==> Round(ExactPercentile(rank, total)) == 100
  {
    var f := (total - rank + 1) as real / total as real;
    MeanBetween((total - rank + 1) as real, total as real, 0.0, 1.0);
    assert f > 0.0 by {
      assert f * total as real == (total - rank + 1) as real;
    }
    if rank == 1 {
      assert f == 1.0;
      RoundUnique(100.0, 100);
    }
  }

  /** The top ten percent are exactly the ranks with 10 * rank <= total + 10. */
  lemma TopPercentByRank(rank: int, total: int)
    requires total > 0
    ensures ExactPercentile(rank, total) >= TOP_PERCENTILE <==> 10 * rank <= total + 10
  {
    var t := total as real;
    var f := (total - rank + 1) as real / t;
    DivCompare((total - rank + 1) as real, t, 0.9);
    assert f * 100.0 >= TOP_PERCENTILE <==> f >= 0.9;
    assert (total - rank + 1) as real >= 0.9 * t <==> 10 * (total - rank + 1) >= 9 * total;
  }

  /**
   * On the ranked list the provider reads (rank i + 1 at position i), the user's rank is
   * one more than the position of their first entry, so it lies in 1 .. total, the
   * percentile lies in [0, 100], and a top player is one of the first ten entries.
   */
  lemma RankingOnRankedList(userAddress: Address, allScores: seq<FormattedUserScore>)
    requires forall i :: 0 <= i < |allScores| ==> allScores[i].rank == Some(i + 1)
    requires userAddress != "" && |allScores| > 0
    requires FindUser(allScores, userAddress) < |allScores|
    ensures var r := UserRanking(Some(userAddress), allScores);
      && r.Some?
      && r.value.rank == FindUser(allScores, userAddress) + 1
      && 1 <= r.value.rank <= |allScores|
      && 0 <= r.value.percentile <= 100
      && (r.value.isTopPlayer <==> FindUser(allScores, userAddress) < TOP_PLAYER_RANK)
      && (r.value.isTopPercent <==> 10 * r.value.rank <= |allScores| + 10)
  {
    var r := UserRanking(Some(userAddress), allScores);
    PercentileBounds(r.value.rank, |allScores|);
    TopPercentByRank(r.value.rank, |allScores|);
  }

  // ---------------------------------------------------------------------------
  // The context value

  /** What the six read hooks of the provider currently report. */
  datatype ContextReads = ContextReads(
    myScore: ReadHooks.ReadResult<int>,
    myRank: ReadHooks.ReadResult<int>,
    hasScore: ReadHooks.ReadResult<bool>,
    totalUsers: ReadHooks.ReadResult<int>,
    topScores: ReadHooks.ReadResult<seq<FormattedUserScore>>,
    allScores: ReadHooks.ReadResult<seq<FormattedUserScore>>)

  /** The data, flags and error the context hands to its consumers. */
  datatype ContextValue = ContextValue(
    myScore: int, myRank: int, hasScore: bool,
    totalUsers: int, topScores: seq<FormattedUserScore>, allScores: seq<FormattedUserScore>,
    isLoadingMyScore: bool, isLoadingTopScores: bool, isLoadingAllScores: bool, isLoadingTotalUsers: bool,
    error: Option<Error>,
    isSettingScore: bool, setScoreError: Option<Error>)

  /** `a || b || ... || g` over the seven error cells, in the provider's order. */
  function ContextError(cells: ContextReads, setScoreError: Option<Error>): (r: Option<Error>)
    ensures r.None? <==>
      cells.myScore.error.None? && cells.myRank.error.None? && cells.hasScore.error.None? &&
      cells.totalUsers.error.None? && cells.topScores.error.None? && cells.allScores.error.None? &&
      setScoreError.None?
  {
    FirstErrorOfSeven(cells.myScore.error, cells.myRank.error, cells.hasScore.error, cells.totalUsers.error,
                      cells.topScores.error, cells.allScores.error, setScoreError);
    ReadHooks.FirstError([cells.myScore.error, cells.myRank.error, cells.hasScore.error, cells.totalUsers.error,
                          cells.topScores.error, cells.allScores.error, setScoreError])
  }

  /** The first error present, earlier cells winning: an explicit chain of the seven cases. */
  lemma ContextErrorPrecedence(cells: ContextReads, setScoreError: Option<Error>)
    ensures ContextError(cells, setScoreError) ==
      if cells.myScore.error.Some? then cells.myScore.error
      else if cells.myRank.error.Some? then cells.myRank.error
      else if cells.hasScore.error.Some? then cells.hasScore.error
      else if cells.totalUsers.error.Some? then cells.totalUsers.error
      else if cells.topScores.error.Some? then cells.topScores.error
      else if cells.allScores.error.Some? then cells.allScores.error
      else setScoreError
  {
    FirstErrorOfSeven(cells.myScore.error, cells.myRank.error, cells.hasScore.error, cells.totalUsers.error,
                      cells.topScores.error, cells.allScores.error, setScoreError);
  }

  /** The first error of seven candidates, as nested choices. */
  lemma FirstErrorOfSeven(a: Option<Error>, b: Option<Error>, c: Option<Error>, d: Option<Error>,
                          e: Option<Error>, f: Option<Error>, g: Option<Error>)
    ensures ReadHooks.FirstError([a, b, c, d, e, f, g]) ==
      if a.Some? then a else if b.Some? then b else if c.Some? then c else if d.Some? then d
      else if e.Some? then e else if f.Some? then f else g
  {
    FirstErrorCons(g, []);
    FirstErrorCons(f, [g]);
    FirstErrorCons(e, [f, g]);
    FirstErrorCons(d, [e, f, g]);
    FirstErrorCons(c, [d, e, f, g]);
    FirstErrorCons(b, [c, d, e, f, g]);
    FirstErrorCons(a, [b, c, d, e, f, g]);
  }

  /** The first error of a list is its head when present, otherwise the first error of the rest. */
  lemma FirstErrorCons(x: Option<Error>, rest: seq<Option<Error>>)
    ensures ReadHooks.FirstError([x] + rest) == if x.Some? then x else ReadHooks.FirstError(rest)
  {
    assert ([x] + rest)[1..] == rest;
  }

  /**
   * The context value: missing data read as 0, false or the empty list, the own-score
   * loading flag the OR of score, rank and hasScore loading, the combined error, and
   * the score write's loading flag and error.
   */
  function ContextValueOf(cells: ContextReads, write: WriteHooks.Flags): (v: ContextValue)
    ensures v.myScore == (if cells.myScore.data.Some? then cells.myScore.data.value else 0)
    ensures v.myRank == (if cells.myRank.data.Some? then cells.myRank.data.value else 0)
    ensures v.hasScore <==> cells.hasScore.data == Some(true)
    ensures v.totalUsers == (if cells.totalUsers.data.Some? then cells.totalUsers.data.value else 0)
    ensures v.topScores == (if cells.topScores.data.Some? then cells.topScores.data.value else [])
    ensures v.allScores == (if cells.allScores.data.Some? then cells.allScores.data.value else [])
    ensures v.isLoadingMyScore <==> cells.myScore.isLoading || cells.myRank.isLoading || cells.hasScore.isLoading
    ensures v.isLoadingTopScores == cells.topScores.isLoading && v.isLoadingAllScores == cells.allScores.isLoading
    ensures v.isLoadingTotalUsers == cells.totalUsers.isLoading
    ensures v.error == ContextError(cells, write.error)
    ensures v.isSettingScore == write.isLoading && v.setScoreError == write.error
  {
    ContextValue(
      cells.myScore.data.GetOr(0), cells.myRank.data.GetOr(0), cells.hasScore.data.GetOr(false),
      cells.totalUsers.data.GetOr(0), cells.topScores.data.GetOr([]), cells.allScores.data.GetOr([]),
      cells.myScore.isLoading || cells.myRank.isLoading || cells.hasScore.isLoading,
      cells.topScores.isLoading, cells.allScores.isLoading, cells.totalUsers.isLoading,
      ContextError(cells, write.error),
      write.isLoading, write.error)
  }

  /** What `useLeaderboardData` returns, without its refresh functions. */
  datatype LeaderboardData = LeaderboardData(topScores: seq<FormattedUserScore>, allScores: seq<FormattedUserScore>,
                                             totalUsers: int, isLoading: bool)

  /** `useLeaderboardData`: the three lists, loading while any of the three reads is. */
  function LeaderboardDataOf(v: ContextValue): (d: LeaderboardData)
    ensures d.topScores == v.topScores && d.allScores == v.allScores && d.totalUsers == v.totalUsers
    ensures !d.isLoading <==> !v.isLoadingTopScores && !v.isLoadingAllScores && !v.isLoadingTotalUsers
  {
    LeaderboardData(v.topScores, v.allScores, v.totalUsers,
                    v.isLoadingTopScores || v.isLoadingAllScores || v.isLoadingTotalUsers)
  }

  // ---------------------------------------------------------------------------
  // The provider's reads and refresh schedule

  /** The provider's props; a missing one is `None` and takes its default. */
  datatype ProviderProps = ProviderProps(autoRefresh: Option<bool>, refreshInterval: Option<int>,
                                         topScoresLimit: Option<JsNumber>)

  /** The `refetchInterval` every read of the provider is given: the refresh interval only with auto-refresh on. */
  function HookInterval(props: ProviderProps): (t: int)
    ensures !props.autoRefresh.GetOr(DEFAULT_AUTO_REFRESH) ==> t == 0
    ensures props.autoRefresh.GetOr(DEFAULT_AUTO_REFRESH) ==> t == props.refreshInterval.GetOr(DEFAULT_REFRESH_INTERVAL)
  {
    if props.autoRefresh.GetOr(DEFAULT_AUTO_REFRESH) then props.refreshInterval.GetOr(DEFAULT_REFRESH_INTERVAL) else 0
  }

  /** The period of the auto-refresh interval, when one is scheduled. */
  function AutoRefreshPeriod(props: ProviderProps): (p: Option<int>)
    ensures p.Some? <==>
      props.autoRefresh.GetOr(DEFAULT_AUTO_REFRESH) && props.refreshInterval.GetOr(DEFAULT_REFRESH_INTERVAL) > 0
    ensures p.Some? ==> p.value > 0 && p.value == HookInterval(props)
  {
    var interval := props.refreshInterval.GetOr(DEFAULT_REFRESH_INTERVAL);
    if props.autoRefresh.GetOr(DEFAULT_AUTO_REFRESH) && interval > 0 then Some(interval) else None
  }

  /** With no props at all nothing is polled and no interval is scheduled. */
  lemma DefaultPropsDoNotPoll()
    ensures HookInterval(ProviderProps(None, None, None)) == 0
    ensures AutoRefreshPeriod(ProviderProps(None, None, None)).None?
    ensures AutoRefreshPeriod(ProviderProps(Some(true), None, None)) == Some(DEFAULT_REFRESH_INTERVAL)
  {
  }

  /** The six reads the provider issues. */
  datatype ProviderQueries = ProviderQueries(
    myScore: ReadHooks.ReadQuery, myRank: ReadHooks.ReadQuery, hasScore: ReadHooks.ReadQuery,
    totalUsers: ReadHooks.ReadQuery, topScores: Result<ReadHooks.ReadQuery>, allScores: ReadHooks.ReadQuery)

  /** The reads of the provider: the own-account ones gated on `mounted && isConnected`, all polled at HookInterval. */
  function QueriesOf(props: ProviderProps, mounted: bool, isConnected: bool, account: Option<Address>): ProviderQueries {
    var interval := HookInterval(props);
    var own := HookOptions(Some(mounted && isConnected), Some(interval));
    var global := HookOptions(None, Some(interval));
    ProviderQueries(
      ReadHooks.MyScoreQuery(account, own), ReadHooks.MyRankQuery(account, own), ReadHooks.HasScoreQuery(account, own),
      ReadHooks.TotalUsersQuery(global),
      ReadHooks.TopScoresQuery(props.topScoresLimit.GetOr(FromInt(DEFAULT_LIMIT)), LeaderboardOptions(None, None, global)),
      ReadHooks.AllScoresQuery(LeaderboardOptions(None, None, global)))
  }

  /**
   * The own-account reads go out only after mounting, while connected, with an account;
   * the total and the full list always go out; the top scores go out for a valid limit,
   * which the default limit is; every read is polled at HookInterval.
   */
  lemma ProviderReadGating(props: ProviderProps, mounted: bool, isConnected: bool, account: Option<Address>)
    ensures var q := QueriesOf(props, mounted, isConnected, account);
      && (q.myScore.enabled <==> mounted && isConnected && Truthy(account))
      && (q.myRank.enabled <==> mounted && isConnected && Truthy(account))
      && (q.hasScore.enabled <==> mounted && isConnected && Truthy(account))
      && q.totalUsers.enabled && q.allScores.enabled
      && (q.topScores.Ok? && q.topScores.value.enabled <==> IsValidLimit(props.topScoresLimit.GetOr(FromInt(DEFAULT_LIMIT))))
      && q.myScore.refetchInterval == q.totalUsers.refetchInterval == q.allScores.refetchInterval == HookInterval(props)
    ensures props.topScoresLimit.None? ==> QueriesOf(props, mounted, isConnected, account).topScores.Ok?
    ensures props.topScoresLimit.None? ==> QueriesOf(props, mounted, isConnected, account).topScores.value.enabled
  {
    ReadHooks.TopScoresIssuedIffValidLimit(props.topScoresLimit.GetOr(FromInt(DEFAULT_LIMIT)),
                                            LeaderboardOptions(None, None, HookOptions(None, Some(HookInterval(props)))));
  }

  // ---------------------------------------------------------------------------
  // The provider

  /** `Date.now()`: a clock that never goes back. */
  class Clock {
    var time: int

    constructor (time: int)
      ensures this.time == time
    {
      this.time := time;
    }
  }

  /** The reads a refresh can refetch. */
  datatype ReadKind = MyScoreRead | MyRankRead | HasScoreRead | TopScoresRead | AllScoresRead | TotalUsersRead

  /** The refetches of `refreshMyScore`: the three own-account reads, only when mounted and connected. */
  function MyScoreRefetches(mounted: bool, isConnected: bool): (ks: seq<ReadKind>)
    ensures ks == [] <==> !(mounted && isConnected)
    ensures ks != [] ==> multiset(ks) == multiset{MyScoreRead, MyRankRead, HasScoreRead}
  {
    if mounted && isConnected then [MyScoreRead, MyRankRead, HasScoreRead] else []
  }

  /** The refetches of `refreshAll`: those of `refreshMyScore`, then top scores, all scores and total. */
  function AllRefetches(mounted: bool, isConnected: bool): (ks: seq<ReadKind>)
    ensures |ks| == (if mounted && isConnected then 6 else 3)
    ensures forall i, j :: 0 <= i < j < |ks| ==> ks[i] != ks[j]
  {
    MyScoreRefetches(mounted, isConnected) + [TopScoresRead, AllScoresRead, TotalUsersRead]
  }

  /**
   * A full refresh refetches every read when mounted and connected, and otherwise
   * exactly the three reads that do not depend on the account.
   */
  lemma RefreshAllCoverage(mounted: bool, isConnected: bool, k: ReadKind)
    ensures k in AllRefetches(mounted, isConnected) <==>
      (mounted && isConnected) || k.TopScoresRead? || k.AllScoresRead? || k.TotalUsersRead?
  {
    var ks := AllRefetches(mounted, isConnected);
    if mounted && isConnected {
      assert ks == [MyScoreRead, MyRankRead, HasScoreRead, TopScoresRead, AllScoresRead, TotalUsersRead];
    } else {
      assert ks == [TopScoresRead, AllScoresRead, TotalUsersRead];
    }
  }

  /** The `ContractProvider` component's own state and effects. */
  class Provider {
    const clock: Clock
    const props: ProviderProps
    var mounted: bool
    var address: Option<Address>
    var isConnected: bool
    var lastUpdateTimestamp: int
    /** The period of the running auto-refresh interval, if any. */
    var interval: Option<int>
    /** Every refetch issued, in order. */
    var refetches: seq<ReadKind>

    /** The timestamp is a time the clock has shown, and the interval is the one the props ask for. */
    predicate Valid()
      reads this, clock
    {
      lastUpdateTimestamp <= clock.time && interval == AutoRefreshPeriod(props)
    }

    /** First render: not mounted, the timestamp taken now, the auto-refresh effect run. */
    constructor (clock: Clock, props: ProviderProps, address: Option<Address>, isConnected: bool)
      ensures this.clock == clock && this.props == props
      ensures this.address == address && this.isConnected == isConnected
      ensures !mounted && lastUpdateTimestamp == clock.time && refetches == []
      ensures interval == AutoRefreshPeriod(props)
      ensures Valid()
    {
      this.clock := clock;
      this.props := props;
      this.address := address;
      this.isConnected := isConnected;
      mounted := false;
      lastUpdateTimestamp := clock.time;
      interval := AutoRefreshPeriod(props);
      refetches := [];
    }

    /** The contract context's read options for the current account and mount state. */
    function Queries(): ProviderQueries
      reads this
    {
      QueriesOf(props, mounted, isConnected, address)
    }

    /** Time passes; the clock never goes back. */
    method Elapse(d: nat)
      requires Valid()
      modifies clock
      ensures clock.time == old(clock.time) + d
      ensures Valid()
    {
      clock.time := clock.time + d;
    }

    /** `refreshMyScore`: the three own-account refetches, only while mounted and connected. */
    method RefreshMyScore()
      modifies this
      ensures refetches == old(refetches) + MyScoreRefetches(mounted, isConnected)
      ensures !(mounted && isConnected) ==> refetches == old(refetches)
      ensures lastUpdateTimestamp == old(lastUpdateTimestamp)
      ensures mounted == old(mounted) && address == old(address) && isConnected == old(isConnected)
      ensures interval == old(interval)
    {
      if mounted && isConnected {
        refetches := refetches + [MyScoreRead, MyRankRead, HasScoreRead];
      }
    }

    /** `refreshTopScores`, `refreshAllScores`, `refreshTotalUsers`: one refetch each. */
    method Refresh(kind: ReadKind)
      requires kind in {TopScoresRead, AllScoresRead, TotalUsersRead}
      modifies this
      ensures refetches == old(refetches) + [kind]
      ensures lastUpdateTimestamp == old(lastUpdateTimestamp)
      ensures mounted == old(mounted) && address == old(address) && isConnected == old(isConnected)
      ensures interval == old(interval)
    {
      refetches := refetches + [kind];
    }

    /**
     * `refreshAll`: every refresh, then the timestamp set to the time they complete.
     * Refetch errors are kept by each read and never reject, so the timestamp is always
     * reached, and it never goes back.
     */
    method RefreshAll()
      requires Valid()
      modifies this
      ensures refetches == old(refetches) + AllRefetches(mounted, isConnected)
      ensures lastUpdateTimestamp == clock.time >= old(lastUpdateTimestamp)
      ensures mounted == old(mounted) && address == old(address) && isConnected == old(isConnected)
      ensures Valid()
    {
      RefreshMyScore();
      Refresh(TopScoresRead);
      Refresh(AllScoresRead);
      Refresh(TotalUsersRead);
      lastUpdateTimestamp := clock.time;
    }

    /** The effect on the mount flag and the address: a full refresh once mounted with an account. */
    method AccountEffect()
      requires Valid()
      modifies this
      ensures mounted && Truthy(address) ==>
        refetches == old(refetches) + AllRefetches(mounted, isConnected) && lastUpdateTimestamp == clock.time
      ensures !(mounted && Truthy(address)) ==>
        refetches == old(refetches) && lastUpdateTimestamp == old(lastUpdateTimestamp)
      ensures lastUpdateTimestamp >= old(lastUpdateTimestamp)
      ensures mounted == old(mounted) && address == old(address) && isConnected == old(isConnected)
      ensures Valid()
    {
      if mounted && Truthy(address) {
        RefreshAll();
      }
    }

    /** The mount effect: `mounted` becomes true, which re-runs the account effect. */
    method Mount()
      requires Valid()
      modifies this
      ensures mounted && address == old(address) && isConnected == old(isConnected)
      ensures Truthy(address) ==>
        refetches == old(refetches) + AllRefetches(true, isConnected) && lastUpdateTimestamp == clock.time
      ensures !Truthy(address) ==> refetches == old(refetches) && lastUpdateTimestamp == old(lastUpdateTimestamp)
      ensures Valid()
    {
      mounted := true;
      AccountEffect();
    }

    /** The wallet reports a new account: the account effect runs for it. */
    method AccountChanged(address: Option<Address>, isConnected: bool)
      requires Valid()
      modifies this
      ensures this.address == address && this.isConnected == isConnected && mounted == old(mounted)
      ensures mounted && Truthy(address) ==>
        refetches == old(refetches) + AllRefetches(mounted, isConnected) && lastUpdateTimestamp == clock.time
      ensures !(mounted && Truthy(address)) ==>
        refetches == old(refetches) && lastUpdateTimestamp == old(lastUpdateTimestamp)
      ensures lastUpdateTimestamp >= old(lastUpdateTimestamp)
      ensures Valid()
    {
      this.address := address;
      this.isConnected := isConnected;
      AccountEffect();
    }

    /** The auto-refresh interval fires: a full refresh, only when one is scheduled. */
    method IntervalFires()
      requires Valid()
      modifies this
      ensures interval.Some? ==>
        refetches == old(refetches) + AllRefetches(mounted, isConnected) && lastUpdateTimestamp == clock.time
      ensures interval.None? ==> refetches == old(refetches) && lastUpdateTimestamp == old(lastUpdateTimestamp)
      ensures mounted == old(mounted) && address == old(address) && isConnected == old(isConnected)
      ensures Valid()
    {
      if interval.Some? {
        RefreshAll();
      }
    }
  }
}
