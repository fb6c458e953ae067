# Leaderboard hooks of the Celo word-puzzle games, in Dafny

This project models the leaderboard hook layer that the games share. The layer has four parts:

- the validation rules and error messages of the contract configuration;
- the read hooks, which decide which contract reads are issued and shape their answers (ranked entries, pages, combined user stats);
- the write hooks, which submit scores with a wallet guard, with retry and linear back-off, with a plausibility check, or as a sequential batch;
- the contract context, which gathers all reads and the score write into one value and adds statistics, user ranking and refresh logic.

The leaderboard contract and the wallet connector are oracles. A write is answered by `respond(k)`, where k counts the client's calls over its whole life. A read is described by the query a hook hands to the query client; its answers arrive as snapshots. Timers do not run: requested delays are logged in order, and `Date.now()` is the time of a clock that only moves forward. JavaScript numbers are `JsNumber`: an exact real, NaN, or one of the two infinities.

Modules, one per source file:

| file | module | models |
|---|---|---|
| `types.dfy` | `Types` | the records of `types.ts`, JavaScript numbers and truthiness, thrown errors |
| `config.dfy` | `Config` | `chainjump/smartcontracthooks/config.ts` |
| `read_hooks.dfy` | `ReadHooks` | `chainjump/smartcontracthooks/read-hooks.ts` |
| `write_hooks.dfy` | `WriteHooks` | `chainjump/smartcontracthooks/write-hooks.ts` |
| `contract_context.dfy` | `ContractContext` | `celojump/smartcontracthooks/contract-context.tsx` |

The code is modelled as written, including these behaviours:

- The flags of `useContractWrite` are only ever set by `write`, `writeAsync` and `reset`. The one-time `useState` initialisers never update them again. So `isSuccess` is never set by a write, and `isLoading` stays true after a successful write (`WriteHooks.WriteFlagsInvariant`).
- `setScoreWithRetry` catches every rejection of `setScoreAsync`, including its wallet and score guards, and retries it. Without a wallet the whole budget is spent, each attempt failing with "Wallet not connected" (`WriteHooks.NoWalletEveryAttemptFails`).
- `setBatchScores` does not clear `isSuccess` when it starts, so a success followed by a failure shows both flags (`WriteHooks.StaleBatchSuccess`).
- The `score < 0` check of `setValidatedScore` can never fire after `isValidScore` (`WriteHooks.NegativeCheckUnreachable`).
- A refetch catches its own rejection and keeps it as the read's error. So `refreshAll` always reaches its timestamp update.

## Model

| member | source | states |
|---|---|---|
| Config.IsValidScore | chainjump/smartcontracthooks/config.ts:89-91 | the score check: at least 0, at most 2^53 - 1, and an integer; ValidScoreIsSafeInteger is its partner |
| Config.IsValidLimit | chainjump/smartcontracthooks/config.ts:97-99 | the limit check: above 0, at most 1000, and an integer; ValidLimitRange is its partner |
| Config.ScoreValue | chainjump/smartcontracthooks/config.ts:89-91 | a valid score stands for an integer in [0, 2^53 - 1] whose number is the score itself |
| Config.ValidScoreIsSafeInteger | chainjump/smartcontracthooks/config.ts:89-91 | a score is valid iff it is an integer from 0 to 2^53 - 1, both directions |
| Config.InvalidScores | chainjump/smartcontracthooks/config.ts:89-91 | every negative number, every non-integer, NaN and both infinities are rejected |
| Config.ScoreBoundaries | chainjump/smartcontracthooks/config.ts:86-91 | 0 and 2^53 - 1 are accepted; -1 and 2^53 are rejected |
| Config.ValidLimitRange | chainjump/smartcontracthooks/config.ts:97-99 | a limit is valid iff it is an integer from 1 to 1000, both directions |
| Config.LimitBoundaries | chainjump/smartcontracthooks/config.ts:97-99 | 1 and 1000 are accepted; 0 and 1001 are rejected |
| Config.ValidLimitIsValidScore | chainjump/smartcontracthooks/config.ts:86-99 | every valid limit is also a valid score |
| Config.IsValidAddress | chainjump/smartcontracthooks/config.ts:93-95 | the address regex: 42 characters, the prefix "0x", then hex digits of either case; HexDigitsMakeAddress and AddressRejections are its partners |
| Config.HexDigitsMakeAddress | chainjump/smartcontracthooks/config.ts:93-95 | "0x" followed by any 40 hex digits is accepted |
| Config.AddressRejections | chainjump/smartcontracthooks/config.ts:93-95 | any other length is rejected, and so is the prefix "0X" |
| ReadHooks.FormatUserScores | chainjump/smartcontracthooks/read-hooks.ts:25-31 | same length and order; entry i keeps user and score of input i; its rank is i + 1 with includeRank, none without |
| ReadHooks.Unformat | chainjump/smartcontracthooks/read-hooks.ts:26-28 | dropping the ranks gives a list of the same length; it recovers the contract entries from a formatted list |
| ReadHooks.RanksStrictlyIncreasing | chainjump/smartcontracthooks/read-hooks.ts:26-30 | ranks are strictly increasing and lie in 1 .. n; nothing is re-sorted |
| ReadHooks.RankNamesPosition | chainjump/smartcontracthooks/read-hooks.ts:26-30 | an entry is in the ranked list iff its rank k is in 1 .. n and input k - 1 has its user and score |
| ReadHooks.ShapeScores | chainjump/smartcontracthooks/read-hooks.ts:163-206 | data is defined iff the read's data is, with the same users and scores; ranked unless includeRank or formatScores is false, and then no entry has a rank |
| ReadHooks.ContractRead | chainjump/smartcontracthooks/read-hooks.ts:46-66 | a read is enabled unless the options say enabled: false; refetchInterval defaults to 0 |
| ReadHooks.MyScoreQuery | chainjump/smartcontracthooks/read-hooks.ts:120-136 | the own-score read is issued iff it is not disabled and an account is connected |
| ReadHooks.UserScoreQuery | chainjump/smartcontracthooks/read-hooks.ts:141-158 | a user's score is read iff not disabled and the address is present and valid, and then with that address |
| ReadHooks.TopScoresQuery | chainjump/smartcontracthooks/read-hooks.ts:163-185 | a non-integer limit throws from BigInt; otherwise the read carries the limit and is issued iff not disabled and the limit is valid |
| ReadHooks.AllScoresQuery | chainjump/smartcontracthooks/read-hooks.ts:189-206 | the full list is read with no arguments and only the caller's enabled option |
| ReadHooks.TotalUsersQuery | chainjump/smartcontracthooks/read-hooks.ts:211-222 | the user count is read with no arguments and only the caller's enabled option |
| ReadHooks.MyRankQuery | chainjump/smartcontracthooks/read-hooks.ts:227-243 | the own rank is read iff not disabled and an account is connected, with that account |
| ReadHooks.UserRankQuery | chainjump/smartcontracthooks/read-hooks.ts:248-265 | a user's rank is read iff not disabled and the address is present and valid |
| ReadHooks.HasScoreQuery | chainjump/smartcontracthooks/read-hooks.ts:270-281 | hasScore for the own account is read iff not disabled and an account is connected |
| ReadHooks.UserHasScoreQuery | chainjump/smartcontracthooks/read-hooks.ts:286-298 | hasScore for a user is read iff not disabled and the address is present and valid |
| ReadHooks.OwnReadsNeedAccount | chainjump/smartcontracthooks/read-hooks.ts:120-281 | without a connected account none of the three own-account reads is issued |
| ReadHooks.UserReadsNeedValidAddress | chainjump/smartcontracthooks/read-hooks.ts:141-298 | for a missing or malformed address none of the three per-user reads is issued |
| ReadHooks.TopScoresIssuedIffValidLimit | chainjump/smartcontracthooks/read-hooks.ts:170-175 | the top-scores read goes out iff it is not disabled and the limit is valid; an invalid limit never issues a query |
| ReadHooks.ReadState.constructor | chainjump/smartcontracthooks/read-hooks.ts:41-44 | a read starts with no data, not loading, no error |
| ReadHooks.ReadState.Current | chainjump/smartcontracthooks/read-hooks.ts:108-114 | the hook returns exactly its four state cells |
| ReadHooks.ReadState.Sync | chainjump/smartcontracthooks/read-hooks.ts:84-97 | flags and error are copied; data is replaced only by defined data, so defined data stays defined; callbacks are called for data and for errors |
| ReadHooks.ReadState.Refetch | chainjump/smartcontracthooks/read-hooks.ts:99-106 | a rejected refetch records its error and sets isError; a resolved one changes nothing; data and loading are untouched |
| ReadHooks.RelativeIndex | chainjump/smartcontracthooks/read-hooks.ts:329 | a slice bound: negative counts from the end, then clamped to [0, length]; a bound inside the list is kept |
| ReadHooks.Slice | chainjump/smartcontracthooks/read-hooks.ts:329 | for 0 <= start <= end the slice is the window [start, end) clipped to the list |
| ReadHooks.CeilDiv | chainjump/smartcontracthooks/read-hooks.ts:330 | the least q with n <= q * d for positive d, mirrored for negative d |
| ReadHooks.TotalPages | chainjump/smartcontracthooks/read-hooks.ts:330 | a non-zero limit gives the ceiling of totalUsers / limit; a zero limit gives Infinity, or NaN for 0 / 0 |
| ReadHooks.PageScores | chainjump/smartcontracthooks/read-hooks.ts:327-329 | the entries of a page, the slice from (page-1)·limit of limit entries; PageIsWindow, PagesCoverList, EntryPage and PageZeroEmpty are its partners |
| ReadHooks.Paginate | chainjump/smartcontracthooks/read-hooks.ts:327-338 | the published page: its entries, its number, the page count from totalUsers, and the two navigation flags; PageNavigation and LastPage are its partners |
| ReadHooks.PageIsWindow | chainjump/smartcontracthooks/read-hooks.ts:327-329 | for page >= 1 and limit > 0 the page is the window [(page-1)·limit, page·limit) clipped to the list, of length <= limit |
| ReadHooks.PageNavigation | chainjump/smartcontracthooks/read-hooks.ts:330-337 | totalPages is the ceiling of totalUsers / limit; hasNextPage iff page < totalPages; hasPreviousPage iff page > 1 |
| ReadHooks.PagesCoverList | chainjump/smartcontracthooks/read-hooks.ts:327-329 | pages 1 .. k read in order give exactly the first k·limit entries: none skipped or repeated |
| ReadHooks.EntryPage | chainjump/smartcontracthooks/read-hooks.ts:327-329 | entry i is on page i / limit + 1 at position i mod limit |
| ReadHooks.LastPage | chainjump/smartcontracthooks/read-hooks.ts:327-337 | when totalUsers counts the list, the last page is non-empty with no next page and later pages are empty |
| ReadHooks.PageZeroEmpty | chainjump/smartcontracthooks/read-hooks.ts:327-329 | page 0 has no entries |
| ReadHooks.LeaderboardState.constructor | chainjump/smartcontracthooks/read-hooks.ts:317-323 | no page is published at first |
| ReadHooks.LeaderboardState.Sync | chainjump/smartcontracthooks/read-hooks.ts:325-340 | a page is published once both the list and the user count are defined; otherwise the old page stays |
| ReadHooks.FirstError | chainjump/smartcontracthooks/read-hooks.ts:370 | none iff every error is missing; otherwise the first error present |
| ReadHooks.FirstErrorOfThree | chainjump/smartcontracthooks/read-hooks.ts:370 | the first of score, rank and hasScore errors that is present |
| ReadHooks.UserStatsResult | chainjump/smartcontracthooks/read-hooks.ts:369-393 | loading is the OR of the three; isError iff an error; the error is score's, else rank's, else hasScore's |
| ReadHooks.UserStatsState.constructor | chainjump/smartcontracthooks/read-hooks.ts:363-367 | no combined data at first |
| ReadHooks.UserStatsState.Sync | chainjump/smartcontracthooks/read-hooks.ts:372-380 | combined data is set only when score, rank and hasScore are all defined |
| WriteHooks.ContractClient.WriteContract | chainjump/smartcontracthooks/write-hooks.ts:73-78 | each write logs its score and is answered by the oracle for its call number |
| WriteHooks.Begin | chainjump/smartcontracthooks/write-hooks.ts:67-70 | a write starts loading with the error cleared and isSuccess untouched |
| WriteHooks.AfterWrite | chainjump/smartcontracthooks/write-hooks.ts:66-84 | a failed write sets isError and the error and clears isLoading; a successful one stays loading with no error |
| WriteHooks.AfterBatch | chainjump/smartcontracthooks/write-hooks.ts:326-349 | a batch ends not loading; success sets isSuccess; failure sets isError and the error and keeps the old isSuccess |
| WriteHooks.WriteFlagsInvariant | chainjump/smartcontracthooks/write-hooks.ts:27-114 | any sequence of writes and resets keeps isError iff an error, never loading and failed at once, and never sets isSuccess |
| WriteHooks.BatchFlagsInvariant | chainjump/smartcontracthooks/write-hooks.ts:319-356 | any sequence of batches and resets keeps the batch flags consistent |
| WriteHooks.StaleBatchSuccess | chainjump/smartcontracthooks/write-hooks.ts:327-329 | a success then a failure leaves isSuccess and isError both set |
| WriteHooks.ContractWrite.constructor | chainjump/smartcontracthooks/write-hooks.ts:27-31 | all flags false and no error at first |
| WriteHooks.ContractWrite.Write | chainjump/smartcontracthooks/write-hooks.ts:66-84 | one call is made; the flags follow AfterWrite; a rejection is passed to onError and not rethrown |
| WriteHooks.ContractWrite.WriteAsync | chainjump/smartcontracthooks/write-hooks.ts:86-106 | one call is made; the flags follow AfterWrite; the answer, or the rejection, is returned; onError is not called |
| WriteHooks.ContractWrite.Reset | chainjump/smartcontracthooks/write-hooks.ts:108-114 | every flag false and no error |
| WriteHooks.SubmitGuard | chainjump/smartcontracthooks/write-hooks.ts:163-171 | no wallet fails with "Wallet not connected" whatever the score; then an invalid score fails; no failure iff both pass |
| WriteHooks.SubmitResult | chainjump/smartcontracthooks/write-hooks.ts:175-185 | a guard failure is the answer; otherwise the contract's answer |
| WriteHooks.ScoreSubmitter.constructor | chainjump/smartcontracthooks/write-hooks.ts:131-161 | the hook is bound to the account and a fresh write state |
| WriteHooks.ScoreSubmitter.SetScore | chainjump/smartcontracthooks/write-hooks.ts:163-173 | a guard failure rejects without writing; otherwise exactly the score is written and write failures are swallowed |
| WriteHooks.ScoreSubmitter.SetScoreAsync | chainjump/smartcontracthooks/write-hooks.ts:175-185 | the guard failure or the contract's answer; a write happens iff the guards pass |
| WriteHooks.AttemptIsSubmission | chainjump/smartcontracthooks/write-hooks.ts:214-217 | attempt i is setScoreAsync on a client written once per earlier attempt that passed the guards |
| WriteHooks.AttemptsFrom | chainjump/smartcontracthooks/write-hooks.ts:214-229 | the number of attempts lies between the start and the budget |
| WriteHooks.AttemptsMade | chainjump/smartcontracthooks/write-hooks.ts:210-233 | never more attempts than the budget |
| WriteHooks.AttemptsFromCharacterized | chainjump/smartcontracthooks/write-hooks.ts:214-229 | every attempt before the last fails, and the attempts stop short of the budget only on a success |
| WriteHooks.AttemptsMadeCharacterized | chainjump/smartcontracthooks/write-hooks.ts:214-229 | at least one attempt when the budget allows; all but the last fail; the last succeeds unless the budget ran out |
| WriteHooks.AlwaysFailingUsesBudget | chainjump/smartcontracthooks/write-hooks.ts:214-232 | if every attempt fails, exactly maxRetries attempts are made |
| WriteHooks.FirstSuccessStops | chainjump/smartcontracthooks/write-hooks.ts:214-219 | if attempt j is the first success, exactly j attempts are made |
| WriteHooks.NoWalletEveryAttemptFails | chainjump/smartcontracthooks/write-hooks.ts:214-232 | without a wallet every attempt fails with "Wallet not connected" and the whole budget is used |
| WriteHooks.Backoff | chainjump/smartcontracthooks/write-hooks.ts:222-227 | one wait per failed attempt that is followed by another |
| WriteHooks.BackoffElements | chainjump/smartcontracthooks/write-hooks.ts:224-227 | the wait after failed attempt k is retryDelay·k |
| WriteHooks.BackoffNonDecreasing | chainjump/smartcontracthooks/write-hooks.ts:222-227 | with a non-negative delay the waits never decrease and grow by retryDelay per attempt |
| WriteHooks.Counting | chainjump/smartcontracthooks/write-hooks.ts:216 | one retryCount value per attempt |
| WriteHooks.CountingElements | chainjump/smartcontracthooks/write-hooks.ts:216 | during attempt k, retryCount is k |
| WriteHooks.RetrySubmitter.constructor | chainjump/smartcontracthooks/write-hooks.ts:197-208 | retryCount starts at 0 with a fresh score hook; an omitted maxRetries is 3 and an omitted retryDelay is 1000 ms |
| WriteHooks.RetrySubmitter.TryOnce | chainjump/smartcontracthooks/write-hooks.ts:216-217 | retryCount shows the attempt's number, then one setScoreAsync with that attempt's answer |
| WriteHooks.RetrySubmitter.RetryLoop | chainjump/smartcontracthooks/write-hooks.ts:211-229 | makes AttemptsMade attempts, counting 1 .. m in retryCount, with the back-off waits; success iff the last attempt succeeded; the last error is kept |
| WriteHooks.RetrySubmitter.SetScoreWithRetry | chainjump/smartcontracthooks/write-hooks.ts:210-233 | resolves iff an attempt succeeded; otherwise rethrows the last error, or "Max retries exceeded" when no attempt was made; retryCount ends at 0; one write per attempt that passed the guards |
| WriteHooks.ValidationGuard | chainjump/smartcontracthooks/write-hooks.ts:274-285 | an invalid score fails with INVALID_SCORE, a score above 1,000,000 with "Score seems too high, please verify"; no failure iff valid and at most 1,000,000 |
| WriteHooks.NegativeCheckUnreachable | chainjump/smartcontracthooks/write-hooks.ts:279-281 | the "Score cannot be negative" failure never happens |
| WriteHooks.ValidatedSubmitter.constructor | chainjump/smartcontracthooks/write-hooks.ts:253-254 | not validating and no validation error at first |
| WriteHooks.ValidatedSubmitter.IsValidatingView | chainjump/smartcontracthooks/write-hooks.ts:299 | the exposed isValidating: the hook's own flag or the score write still loading |
| WriteHooks.ValidatedSubmitter.SetValidatedScore | chainjump/smartcontracthooks/write-hooks.ts:268-299 | a rejected score is not written; otherwise setScoreAsync's answer; validationError is the thrown message; the own flag ends false, so the exposed isValidating is the write's isLoading, and it stays true after a successful write |
| WriteHooks.FirstFailure | chainjump/smartcontracthooks/write-hooks.ts:334-338 | every item before the first failing one succeeded with a valid score; the failing item failed |
| WriteHooks.BatchWrites | chainjump/smartcontracthooks/write-hooks.ts:334-338 | never more writes than scores, and every score written is valid |
| WriteHooks.BatchFailure | chainjump/smartcontracthooks/write-hooks.ts:331-345 | the batch fails iff some item fails |
| WriteHooks.ScoreArgs | chainjump/smartcontracthooks/write-hooks.ts:334-335 | the contract arguments are the scores' integer values, in list order |
| WriteHooks.NoWalletBatchStopsAtOnce | chainjump/smartcontracthooks/write-hooks.ts:334-335 | without a wallet a non-empty batch stops at its first item with "Wallet not connected" |
| WriteHooks.BatchSubmitter.constructor | chainjump/smartcontracthooks/write-hooks.ts:308-324 | all flags false and no error at first; records which of onSuccess and onError were given |
| WriteHooks.BatchSubmitter.SetBatchScores | chainjump/smartcontracthooks/write-hooks.ts:326-349 | scores are written in list order up to the first failure; one 1000 ms pause per success; the flags follow AfterBatch; onSuccess or onError is called once when it was given, and nothing is called otherwise |
| WriteHooks.BatchSubmitter.Reset | chainjump/smartcontracthooks/write-hooks.ts:351-356 | every flag false and no error |
| ContractContext.Round | celojump/smartcontracthooks/contract-context.tsx:325 | Math.round gives the integer at most half below and less than half above |
| ContractContext.RoundUnique | celojump/smartcontracthooks/contract-context.tsx:325 | that integer is unique, so Round is the only such rounding |
| ContractContext.Sum | celojump/smartcontracthooks/contract-context.tsx:317 | the reduce sum of the scores, from 0; SumBounds is its partner |
| ContractContext.SumBounds | celojump/smartcontracthooks/contract-context.tsx:317 | n scores in [lo, hi] sum to between n·lo and n·hi |
| ContractContext.Average | celojump/smartcontracthooks/contract-context.tsx:315-318 | 0 for an empty list, otherwise the mean rounded to the nearest integer |
| ContractContext.ContractStats | celojump/smartcontracthooks/contract-context.tsx:311-332 | totalScores is the list length; the average is the rounded mean or 0; highest is the first top score or 0; lowest is the last entry or 0 |
| ContractContext.AverageWithinBounds | celojump/smartcontracthooks/contract-context.tsx:316-325 | the rounded average lies within the range of the scores |
| ContractContext.StatsBracketScores | celojump/smartcontracthooks/contract-context.tsx:319-325 | on a descending list led by the top score, every score and the average lie between lowest and highest |
| ContractContext.LowerChar | celojump/smartcontracthooks/contract-context.tsx:344 | A-Z become a-z; every other character stays |
| ContractContext.ToLower | celojump/smartcontracthooks/contract-context.tsx:344 | lower-cases each character, keeping the length |
| ContractContext.SameUser | celojump/smartcontracthooks/contract-context.tsx:344 | the find predicate: both addresses lowered are equal; SameUserIffCaseVariant is its partner |
| ContractContext.LowerCharIdempotent | celojump/smartcontracthooks/contract-context.tsx:344 | lowering a character twice is lowering it once |
| ContractContext.LowerIsSameUser | celojump/smartcontracthooks/contract-context.tsx:343-345 | every address and its lower-case spelling name the same user |
| ContractContext.SameUserIffCaseVariant | celojump/smartcontracthooks/contract-context.tsx:343-345 | two addresses name the same user iff they have the same length and differ only where one has a letter A-Z and the other its lower-case form, both directions |
| ContractContext.FindFrom | celojump/smartcontracthooks/contract-context.tsx:343-345 | the first entry from i on whose user matches, or the end when none does |
| ContractContext.FindUser | celojump/smartcontracthooks/contract-context.tsx:343-345 | the first entry whose user matches case-insensitively, or the end when none does |
| ContractContext.ExactPercentile | celojump/smartcontracthooks/contract-context.tsx:351 | the percentile before rounding, (total - rank + 1) / total · 100; PercentileBounds and TopPercentByRank are its partners |
| ContractContext.UserRanking | celojump/smartcontracthooks/contract-context.tsx:337-364 | null iff no address, an empty list or no match; otherwise the first match's rank (0 if missing), score, the list length, the rounded percentile, rank <= 10, and unrounded percentile >= 90 |
| ContractContext.PercentileBounds | celojump/smartcontracthooks/contract-context.tsx:349-357 | for 1 <= rank <= total the percentile, exact and rounded, lies in [0, 100], and rank 1 gives 100 |
| ContractContext.TopPercentByRank | celojump/smartcontracthooks/contract-context.tsx:351-359 | the top ten percent are exactly the ranks with 10·rank <= total + 10 |
| ContractContext.RankingOnRankedList | celojump/smartcontracthooks/contract-context.tsx:349-359 | on a ranked list a found user's rank is one past their first position, in 1 .. total, with percentile in [0, 100] and top player iff among the first ten |
| ContractContext.ContextError | celojump/smartcontracthooks/contract-context.tsx:129-130 | the combined error is missing iff all seven errors are missing |
| ContractContext.ContextErrorPrecedence | celojump/smartcontracthooks/contract-context.tsx:129-130 | the combined error is the first present among myScore, myRank, hasScore, totalUsers, topScores, allScores and setScore errors |
| ContractContext.FirstErrorOfSeven | celojump/smartcontracthooks/contract-context.tsx:129-130 | the first of seven errors present is the nested OR chain |
| ContractContext.ContextValueOf | celojump/smartcontracthooks/contract-context.tsx:54-234 | present data passes through unchanged and missing data reads as 0, false or []; own-score loading is the OR of three reads and the other loading flags are their reads'; the error is ContextError of the seven cells, missing iff all are; isSettingScore and setScoreError come from the write |
| ContractContext.LeaderboardDataOf | celojump/smartcontracthooks/contract-context.tsx:297-305 | the leaderboard view is loading iff any of its three reads is |
| ContractContext.HookInterval | celojump/smartcontracthooks/contract-context.tsx:59-109 | each read polls at refreshInterval with auto-refresh on, and at 0 otherwise |
| ContractContext.AutoRefreshPeriod | celojump/smartcontracthooks/contract-context.tsx:180-185 | an interval is scheduled iff autoRefresh and refreshInterval > 0, with that positive period |
| ContractContext.DefaultPropsDoNotPoll | celojump/smartcontracthooks/contract-context.tsx:38-44 | with default props nothing polls; auto-refresh alone uses 30000 ms |
| ContractContext.QueriesOf | celojump/smartcontracthooks/contract-context.tsx:59-109 | the six queries the provider's read hooks issue, with own-account reads enabled by mounted and connected and all polling at HookInterval; ProviderReadGating is its partner |
| ContractContext.ProviderReadGating | celojump/smartcontracthooks/contract-context.tsx:59-109 | own-account reads go out iff mounted, connected and with an account; the totals and the full list always go out; top scores iff the limit is valid, which the default is |
| ContractContext.MyScoreRefetches | celojump/smartcontracthooks/contract-context.tsx:133-141 | no refetch unless mounted and connected, else the three own-account reads |
| ContractContext.AllRefetches | celojump/smartcontracthooks/contract-context.tsx:155-163 | six distinct refetches when mounted and connected, else three |
| ContractContext.RefreshAllCoverage | celojump/smartcontracthooks/contract-context.tsx:155-163 | every read is refetched when mounted and connected; otherwise exactly the three account-independent ones |
| ContractContext.Provider.constructor | celojump/smartcontracthooks/contract-context.tsx:45-47 | not mounted, timestamp taken now, the interval the props ask for |
| ContractContext.Provider.RefreshMyScore | celojump/smartcontracthooks/contract-context.tsx:133-141 | refetches the three own-account reads only while mounted and connected |
| ContractContext.Provider.Refresh | celojump/smartcontracthooks/contract-context.tsx:143-153 | one refetch of the top-scores, full-list or user-count read, nothing else changes |
| ContractContext.Provider.RefreshAll | celojump/smartcontracthooks/contract-context.tsx:155-163 | all refreshes, then the timestamp set to the current time, never below its old value |
| ContractContext.Provider.AccountEffect | celojump/smartcontracthooks/contract-context.tsx:188-192 | a full refresh iff mounted with an account; otherwise nothing |
| ContractContext.Provider.Mount | celojump/smartcontracthooks/contract-context.tsx:49-51 | mounted becomes true, and with an account a full refresh follows |
| ContractContext.Provider.AccountChanged | celojump/smartcontracthooks/contract-context.tsx:188-192 | the new account is taken, and a full refresh follows iff mounted with an address |
| ContractContext.Provider.IntervalFires | celojump/smartcontracthooks/contract-context.tsx:180-185 | a full refresh happens only when an interval is scheduled |

## Left out

- Non-integer parameters: `maxRetries` and `retryDelay` of the retry hook and `page` and `limit` of the pagination hook are integers. A fractional value cannot be expressed; for example `maxRetries = 2.5` makes three attempts in the source.
- Floating point: numbers are exact reals. Sums, averages and percentiles have no double rounding, and `Number(bigint)` is the identity.
- ContractContext.Average: the mean is exact, not the double `sum / n`.
- ContractContext.UserRanking: the percentile is exact, not the double product.
- ContractContext.ToLower: only A-Z are lowered, while `toLowerCase` also lowers non-ASCII letters. Valid addresses are ASCII.
- The wallet connector, the query client and the contract are oracles. Transaction hashes are numbers. The receipt lifecycle (pending, confirming, confirmed) is not modelled, because the one-time `useState` initialisers that read it never run again.
- The `onSuccess` callbacks of `useContractWrite` and `useSetScore` are never called, for the same reason. So the context's success handler, which would refresh everything after a score write, is never reached.
- `handleSetScore` in the provider only forwards to `setScore` and rethrows. That is `WriteHooks.ScoreSubmitter.SetScore`.
- The provider does not hold the six read states. A refetch is logged by the read it targets. What a refetch does to its read is `ReadHooks.ReadState.Refetch`.
- `Promise.all` is treated as a sequence in list order, with no concurrency.
- The real-time-updates effect (`console.log` only), `useContractEvents` and the no-op `useUserStats` refetch are placeholders.
- The gas-estimation hook's constant estimate, the debug logging and the console output are left out.
- `useContract`, `useMyContractData` and the context object only look up and rename fields.
- Timers: back-off and batch pauses are recorded in order, and the auto-refresh interval is recorded and fires as its own operation.
- Dependency-driven re-rendering in React is approximated: the account effect runs on mount and on every account change.
- Rendering, the games, the manifests and the wallet provider component are left out.
