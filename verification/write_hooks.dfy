/**
 * The write side of the leaderboard hooks: the generic write state, score submission
 * with its guards, submission with retry and linear back-off, submission with the
 * extra plausibility check, and sequential batch submission.
 *
 * The contract client is an oracle: call number k (counting from 0 over the client's
 * whole life) is answered by `respond(k)`. Timers are not run; the delays the hooks
 * ask for are recorded in order.
 */
module WriteHooks {
  import opened Types
  import opened Config
  import ReadHooks

  /** A transaction hash, as the write resolves with it. */
  type TxHash = nat

  const MAX_RETRIES_EXCEEDED: string := "Max retries exceeded"
  const SCORE_NEGATIVE: string := "Score cannot be negative"
  const SCORE_TOO_HIGH: string := "Score seems too high, please verify"
  const BATCH_COMPLETED: string := "Batch operation completed"
  /** The plausibility ceiling of validated submission. */
  const VALIDATED_SCORE_CEILING: int := 1000000
  /** Milliseconds waited after every submission of a batch. */
  const BATCH_PACING_DELAY: int := 1000
  const DEFAULT_MAX_RETRIES: int := 3
  const DEFAULT_RETRY_DELAY: int := 1000

  /** The wallet's contract client: every `setScore` call is logged and answered by the oracle. */
  class ContractClient {
    const respond: nat -> Result<TxHash>
    var submitted: seq<int>

    constructor (respond: nat -> Result<TxHash>)
      ensures this.respond == respond && submitted == []
    {
      this.respond := respond;
      submitted := [];
    }

    method WriteContract(score: int) returns (r: Result<TxHash>)
      modifies this
      ensures submitted == old(submitted) + [score]
      ensures r == respond(|old(submitted)|)
    {
      r := respond(|submitted|);
      submitted := submitted + [score];
    }
  }

  // ---------------------------------------------------------------------------
  // The flags state machine

  /** The four state cells every write hook exposes. */
  datatype Flags = Flags(isLoading: bool, isSuccess: bool, isError: bool, error: Option<Error>)

  const Idle: Flags := Flags(false, false, false, None)

  /** The start of `write`, `writeAsync` and `setBatchScores`: loading, error cleared, isSuccess untouched. */
  function Begin(f: Flags): (g: Flags)
    ensures g.isLoading && !g.isError && g.error.None? && g.isSuccess == f.isSuccess
  {
    f.(isLoading := true, isError := false, error := None)
  }

  /** The flags after one `write`/`writeAsync` whose contract call answered `r`. */
  function AfterWrite(f: Flags, r: Result<TxHash>): (g: Flags)
    ensures g.isSuccess == f.isSuccess
    ensures r.Err? ==> g.isError && g.error == Some(r.error) && !g.isLoading
    ensures r.Ok? ==> !g.isError && g.error.None? && g.isLoading
  {
    var g := Begin(f);
    if r.Ok? then g else g.(isError := true, error := Some(r.error), isLoading := false)
  }

  /** The flags after a batch run that failed with `failure`, or succeeded when it is None. */
  function AfterBatch(f: Flags, failure: Option<Error>): (g: Flags)
    ensures !g.isLoading
    ensures failure.None? ==> g.isSuccess && !g.isError && g.error.None?
    ensures failure.Some? ==> g.isError && g.error == failure && g.isSuccess == f.isSuccess
  {
    var g := Begin(f);
    if failure.None? then g.(isSuccess := true, isLoading := false)
    else g.(isError := true, error := failure, isLoading := false)
  }

  /** isError exactly when an error is recorded, and never loading and failed at once. */
  predicate Consistent(f: Flags) {
    (f.isError <==> f.error.Some?) && !(f.isLoading && f.isError)
  }

  /** What can happen to one `useContractWrite` instance. */
  datatype WriteEvent = WriteCall(answer: Result<TxHash>) | WriteReset

  function WriteStep(f: Flags, e: WriteEvent): Flags {
    match e
    case WriteCall(r) => AfterWrite(f, r)
    case WriteReset => Idle
  }

  function RunWrites(f: Flags, events: seq<WriteEvent>): Flags
    decreases |events|
  {
    if events == [] then f else RunWrites(WriteStep(f, events[0]), events[1..])
  }

  /**
   * Whatever writes and resets happen, the write state stays consistent, and isSuccess
   * is never set: nothing after the one-time initialisers sets it.
   */
  lemma {:induction false} WriteFlagsInvariant(f: Flags, events: seq<WriteEvent>)
    requires Consistent(f) && !f.isSuccess
    ensures Consistent(RunWrites(f, events)) && !RunWrites(f, events).isSuccess
    decreases |events|
  {
    if events != [] {
      WriteFlagsInvariant(WriteStep(f, events[0]), events[1..]);
    }
  }

  /** What can happen to one `useBatchSetScores` instance. */
  datatype BatchEvent = BatchRun(failure: Option<Error>) | BatchReset

  function BatchStep(f: Flags, e: BatchEvent): Flags {
    match e
    case BatchRun(failure) => AfterBatch(f, failure)
    case BatchReset => Idle
  }

  function RunBatches(f: Flags, events: seq<BatchEvent>): Flags
    decreases |events|
  {
    if events == [] then f else RunBatches(BatchStep(f, events[0]), events[1..])
  }

  /** Every sequence of batch runs and resets keeps the batch state consistent. */
  lemma {:induction false} BatchFlagsInvariant(f: Flags, events: seq<BatchEvent>)
    requires Consistent(f)
    ensures Consistent(RunBatches(f, events))
    decreases |events|
  {
    if events != [] {
      BatchFlagsInvariant(BatchStep(f, events[0]), events[1..]);
    }
  }

  /** isSuccess is not cleared when a batch starts: a success followed by a failure shows both. */
  lemma StaleBatchSuccess(e: Error)
    ensures var f := RunBatches(Idle, [BatchRun(None), BatchRun(Some(e))]);
      f.isSuccess && f.isError && f.error == Some(e) && !f.isLoading
  {
    var events := [BatchRun(None), BatchRun(Some(e))];
    var first := AfterBatch(Idle, None);
    assert events[1..] == [BatchRun(Some(e))];
    assert RunBatches(Idle, events) == RunBatches(first, [BatchRun(Some(e))]);
    assert [BatchRun(Some(e))][1..] == [];
    assert RunBatches(first, [BatchRun(Some(e))]) == AfterBatch(first, Some(e));
  }

  // ---------------------------------------------------------------------------
  // useContractWrite

  /** The state of one `useContractWrite` instance bound to `setScore`. */
  class ContractWrite {
    const client: ContractClient
    var isLoading: bool
    var isSuccess: bool
    var isError: bool
    var error: Option<Error>
    /** Errors handed to `onError`, in call order. */
    var errorCallbacks: seq<Error>

    function State(): Flags
      reads this
    {
      Flags(isLoading, isSuccess, isError, error)
    }

    constructor (client: ContractClient)
      ensures this.client == client && State() == Idle && errorCallbacks == []
    {
      this.client := client;
      isLoading, isSuccess, isError, error := false, false, false, None;
      errorCallbacks := [];
    }

    /** `write`: a rejected call is recorded and reported to `onError`, never rethrown. */
    method Write(score: int)
      modifies this, client
      ensures client.submitted == old(client.submitted) + [score]
      ensures var r := client.respond(|old(client.submitted)|);
        State() == AfterWrite(old(State()), r) &&
        errorCallbacks == old(errorCallbacks) + (if r.Err? then [r.error] else [])
    {
      isLoading := true;
      isError := false;
      error := None;
      var r := client.WriteContract(score);
      if r.Err? {
        isError := true;
        error := Some(r.error);
        isLoading := false;
        errorCallbacks := errorCallbacks + [r.error];
      }
    }

    /** `writeAsync`: like `write`, but a rejection is rethrown and `onError` is not called. */
    method WriteAsync(score: int) returns (r: Result<TxHash>)
      modifies this, client
      ensures client.submitted == old(client.submitted) + [score]
      ensures r == client.respond(|old(client.submitted)|)
      ensures State() == AfterWrite(old(State()), r) && errorCallbacks == old(errorCallbacks)
    {
      isLoading := true;
      isError := false;
      error := None;
      r := client.WriteContract(score);
      if r.Err? {
        isError := true;
        error := Some(r.error);
        isLoading := false;
      }
    }

    /** `reset`: every flag false and no error. */
    method Reset()
      modifies this
      ensures State() == Idle && errorCallbacks == old(errorCallbacks)
    {
      isLoading, isSuccess, isError, error := false, false, false, None;
    }
  }

  // ---------------------------------------------------------------------------
  // useSetScore

  /** The guards of `setScore`/`setScoreAsync`: the wallet first, then the score. */
  function SubmitGuard(address: Option<Address>, score: JsNumber): (r: Option<Error>)
    ensures !Truthy(address) ==> r == Some(Error(WALLET_NOT_CONNECTED))
    ensures Truthy(address) && !IsValidScore(score) ==> r == Some(Error(INVALID_SCORE))
    ensures r.None? <==> Truthy(address) && IsValidScore(score)
  {
    if !Truthy(address) then Some(Error(WALLET_NOT_CONNECTED))
    else if !IsValidScore(score) then Some(Error(INVALID_SCORE))
    else None
  }

  /** Whether a submission passes its guards and so reaches the contract. */
  predicate Writes(address: Option<Address>, score: JsNumber) {
    SubmitGuard(address, score).None?
  }

  /** What `setScoreAsync` resolves to when the client's next call is number k. */
  function SubmitResult(address: Option<Address>, score: JsNumber, respond: nat -> Result<TxHash>, k: nat): (r: Result<TxHash>)
    ensures !Writes(address, score) ==> r == Err(SubmitGuard(address, score).value)
    ensures Writes(address, score) ==> r == respond(k)
  {
    var guard := SubmitGuard(address, score);
    if guard.Some? then Err(guard.value) else respond(k)
  }

  /** The `useSetScore` hook: the connected account and its own write state. */
  class ScoreSubmitter {
    const address: Option<Address>
    const writer: ContractWrite

    constructor (address: Option<Address>, client: ContractClient)
      ensures this.address == address && fresh(writer) && writer.client == client
      ensures writer.State() == Idle && writer.errorCallbacks == []
    {
      this.address := address;
      writer := new ContractWrite(client);
    }

    /** `setScore`: a guard failure rejects without writing; otherwise `write`, whose failures are swallowed. */
    method SetScore(score: JsNumber) returns (r: Outcome)
      modifies writer, writer.client
      ensures var guard := SubmitGuard(address, score);
        guard.Some? ==> (r == Fail(guard.value) &&
          writer.client.submitted == old(writer.client.submitted) &&
          writer.State() == old(writer.State()) && writer.errorCallbacks == old(writer.errorCallbacks))
      ensures var answer := writer.client.respond(|old(writer.client.submitted)|);
        Writes(address, score) ==> (r == Pass &&
          writer.client.submitted == old(writer.client.submitted) + [ScoreValue(score)] &&
          writer.State() == AfterWrite(old(writer.State()), answer) &&
          writer.errorCallbacks == old(writer.errorCallbacks) + (if answer.Err? then [answer.error] else []))
    {
      var guard := SubmitGuard(address, score);
      if guard.Some? {
        return Fail(guard.value);
      }
      writer.Write(ScoreValue(score));
      r := Pass;
    }

    /** `setScoreAsync`: a guard failure rejects without writing; otherwise `writeAsync`'s answer. */
    method SetScoreAsync(score: JsNumber) returns (r: Result<TxHash>)
      modifies writer, writer.client
      ensures r == SubmitResult(address, score, writer.client.respond, |old(writer.client.submitted)|)
      ensures writer.client.submitted == old(writer.client.submitted) +
        (if Writes(address, score) then [ScoreValue(score)] else [])
      ensures writer.State() == (if Writes(address, score) then AfterWrite(old(writer.State()), r) else old(writer.State()))
      ensures writer.errorCallbacks == old(writer.errorCallbacks)
    {
      var guard := SubmitGuard(address, score);
      if guard.Some? {
        return Err(guard.value);
      }
      r := writer.WriteAsync(ScoreValue(score));
    }
  }

  // ---------------------------------------------------------------------------
  // useSetScoreWithRetry

  /**
   * One call of `setScoreWithRetry`: the verdict of the guards of `setScoreAsync` (the
   * same for every attempt), the client's oracle, and the number of the client's next call.
   */
  datatype RetryRun = RetryRun(guard: Option<Error>, respond: nat -> Result<TxHash>, base: nat)

  function RetryRunOf(address: Option<Address>, score: JsNumber, respond: nat -> Result<TxHash>, base: nat): RetryRun {
    RetryRun(SubmitGuard(address, score), respond, base)
  }

  /** The answer to attempt i (0-based) when all earlier attempts failed. */
  function Attempt(run: RetryRun, i: nat): Result<TxHash> {
    if run.guard.Some? then Err(run.guard.value) else run.respond(run.base + i)
  }

  /** Attempt i is `setScoreAsync` on a client that was written to once per earlier attempt that passed the guards. */
  lemma AttemptIsSubmission(address: Option<Address>, score: JsNumber, respond: nat -> Result<TxHash>, base: nat, i: nat)
    ensures Attempt(RetryRunOf(address, score, respond, base), i) ==
      SubmitResult(address, score, respond, if Writes(address, score) then base + i else base)
  {
  }

  /** How many attempts are made, starting at attempt i, with at most n in all. */
  function AttemptsFrom(run: RetryRun, i: nat, n: nat): (m: nat)
    requires i <= n
    ensures i <= m <= n
    decreases n - i
  {
    if i == n then i
    else if Attempt(run, i).Ok? then i + 1
    else AttemptsFrom(run, i + 1, n)
  }

  /**
   * How many attempts `setScoreWithRetry` makes with a budget of n: at least one when
   * the budget allows, every attempt before the last failed, and the last either
   * succeeded or used up the budget.
   */
  function AttemptsMade(run: RetryRun, n: nat): (m: nat)
    ensures m <= n
  {
    AttemptsFrom(run, 0, n)
  }

  /**
   * What the count means: every attempt before the last one made failed, and the
   * attempts stop short of the budget only because the last one succeeded.
   */
  lemma {:induction false} AttemptsFromCharacterized(run: RetryRun, i: nat, n: nat)
    requires i <= n
    ensures var m := AttemptsFrom(run, i, n);
      && (i < n ==> i < m)
      && (forall j :: i <= j < m - 1 ==> Attempt(run, j).Err?)
      && (m < n ==> Attempt(run, m - 1).Ok?)
    decreases n - i
  {
    if i < n && Attempt(run, i).Err? {
      AttemptsFromCharacterized(run, i + 1, n);
    }
  }

  /** With a budget of n: at least one attempt when n > 0, all but the last failed, and the last succeeded unless the budget ran out. */
  lemma AttemptsMadeCharacterized(run: RetryRun, n: nat)
    ensures var m := AttemptsMade(run, n);
      && (n > 0 ==> m >= 1)
      && (forall j :: 0 <= j < m - 1 ==> Attempt(run, j).Err?)
      && (m < n ==> Attempt(run, m - 1).Ok?)
  {
    AttemptsFromCharacterized(run, 0, n);
  }

  /** If every attempt fails, the whole budget is used. */
  lemma {:induction false} AlwaysFailingUsesBudget(run: RetryRun, i: nat, n: nat)
    requires i <= n
    requires forall j :: i <= j < n ==> Attempt(run, j).Err?
    ensures AttemptsFrom(run, i, n) == n
    decreases n - i
  {
    if i < n {
      AlwaysFailingUsesBudget(run, i + 1, n);
    }
  }

  /** If attempt j (1-based) is the first success within the budget, exactly j attempts are made. */
  lemma {:induction false} FirstSuccessStops(run: RetryRun, i: nat, j: nat, n: nat)
    requires i < j <= n
    requires forall k :: i <= k < j - 1 ==> Attempt(run, k).Err?
    requires Attempt(run, j - 1).Ok?
    ensures AttemptsFrom(run, i, n) == j
    decreases n - i
  {
    if i < j - 1 {
      FirstSuccessStops(run, i + 1, j, n);
    }
  }

  /** Without a connected wallet every attempt fails with WALLET_NOT_CONNECTED, so the whole budget is used. */
  lemma NoWalletEveryAttemptFails(address: Option<Address>, score: JsNumber, respond: nat -> Result<TxHash>, base: nat, n: nat)
    requires !Truthy(address)
    ensures forall j: nat :: Attempt(RetryRunOf(address, score, respond, base), j) == Err(Error(WALLET_NOT_CONNECTED))
    ensures AttemptsMade(RetryRunOf(address, score, respond, base), n) == n
  {
    AlwaysFailingUsesBudget(RetryRunOf(address, score, respond, base), 0, n);
  }

  /** `retryDelay * attempts` for the failed attempts 1 .. k that are followed by another attempt. */
  function Backoff(retryDelay: int, k: nat): (waits: seq<int>)
    ensures |waits| == k
  {
    if k == 0 then [] else Backoff(retryDelay, k - 1) + [retryDelay * k]
  }

  /** Wait i (0-based) is retryDelay times the number of the failed attempt before it. */
  lemma {:induction false} BackoffElements(retryDelay: int, k: nat)
    ensures forall i :: 0 <= i < k ==> Backoff(retryDelay, k)[i] == retryDelay * (i + 1)
  {
    if k > 0 {
      BackoffElements(retryDelay, k - 1);
    }
  }

  /** With a non-negative delay the waits never decrease, and they grow linearly. */
  lemma BackoffNonDecreasing(retryDelay: int, k: nat, i: nat, j: nat)
    requires retryDelay >= 0 && i <= j < k
    ensures Backoff(retryDelay, k)[i] <= Backoff(retryDelay, k)[j]
    ensures Backoff(retryDelay, k)[j] - Backoff(retryDelay, k)[i] == retryDelay * (j - i)
  {
    BackoffElements(retryDelay, k);
    assert retryDelay * (j + 1) - retryDelay * (i + 1) == retryDelay * (j - i);
    assert retryDelay * (j - i) >= 0 by { ReadHooks.MulNonNegative(retryDelay, j - i); }
  }

  /** The values `retryCount` is set to by attempts 1 .. m. */
  function Counting(m: nat): (trace: seq<int>)
    ensures |trace| == m
  {
    if m == 0 then [] else Counting(m - 1) + [m]
  }

  /** `retryCount` counts the attempts 1, 2, .., m. */
  lemma {:induction false} CountingElements(m: nat)
    ensures forall i :: 0 <= i < m ==> Counting(m)[i] == i + 1
  {
    if m > 0 {
      CountingElements(m - 1);
    }
  }

  /** m copies of v. */
  function Repeat(v: int, m: nat): (r: seq<int>)
    ensures |r| == m
  {
    if m == 0 then [] else Repeat(v, m - 1) + [v]
  }

  lemma {:induction false} RepeatElements(v: int, m: nat)
    ensures forall i :: 0 <= i < m ==> Repeat(v, m)[i] == v
  {
    if m > 0 {
      RepeatElements(v, m - 1);
    }
  }

  lemma AppendRepeat(prefix: seq<int>, v: int, m: nat)
    ensures prefix + Repeat(v, m) + [v] == prefix + Repeat(v, m + 1)
  {
    assert Repeat(v, m + 1) == Repeat(v, m) + [v];
  }

  /** The attempt budget: the loop runs while attempts < maxRetries. */
  function Budget(maxRetries: int): nat {
    if maxRetries > 0 then maxRetries else 0
  }

  /** The `useSetScoreWithRetry` hook. */
  class RetrySubmitter {
    const submitter: ScoreSubmitter
    const maxRetries: int
    const retryDelay: int
    var retryCount: int
    /** Every value written to `retryCount`, in order. */
    var retryTrace: seq<int>
    /** Every delay requested from the timer, in order. */
    var waits: seq<int>

    /** An omitted `maxRetries` or `retryDelay` takes its default, 3 attempts and 1000 ms. */
    constructor (address: Option<Address>, client: ContractClient, maxRetries: Option<int>, retryDelay: Option<int>)
      ensures fresh(submitter) && fresh(submitter.writer)
      ensures submitter.address == address && submitter.writer.client == client
      ensures submitter.writer.State() == Idle && submitter.writer.errorCallbacks == []
      ensures this.maxRetries == maxRetries.GetOr(DEFAULT_MAX_RETRIES)
      ensures this.retryDelay == retryDelay.GetOr(DEFAULT_RETRY_DELAY)
      ensures retryCount == 0 && retryTrace == [] && waits == []
    {
      submitter := new ScoreSubmitter(address, client);
      this.maxRetries := maxRetries.GetOr(DEFAULT_MAX_RETRIES);
      this.retryDelay := retryDelay.GetOr(DEFAULT_RETRY_DELAY);
      retryCount := 0;
      retryTrace := [];
      waits := [];
    }

    /**
     * `setScoreWithRetry`: attempt after attempt until one succeeds or the budget is
     * spent, waiting retryDelay * k after failed attempt k unless it was the last allowed.
     */
    /** One attempt: `retryCount` shows its 1-based number, then `setScoreAsync`. */
    method TryOnce(score: JsNumber, attempts: nat, ghost run: RetryRun, ghost v: int) returns (answer: Result<TxHash>)
      requires run.guard == SubmitGuard(submitter.address, score) && run.respond == submitter.writer.client.respond
      requires run.guard.None? ==> v == ScoreValue(score)
      requires |submitter.writer.client.submitted| == run.base + (if run.guard.None? then attempts else 0)
      modifies this, submitter.writer, submitter.writer.client
      ensures answer == Attempt(run, attempts)
      ensures submitter.writer.client.submitted == old(submitter.writer.client.submitted) + (if run.guard.None? then [v] else [])
      ensures submitter.writer.State() ==
        (if run.guard.None? then AfterWrite(old(submitter.writer.State()), answer) else old(submitter.writer.State()))
      ensures submitter.writer.errorCallbacks == old(submitter.writer.errorCallbacks)
      ensures retryCount == attempts + 1 && retryTrace == old(retryTrace) && waits == old(waits)
    {
      retryCount := attempts + 1;
      answer := submitter.SetScoreAsync(score);
    }

    /**
     * The loop of `setScoreWithRetry`: attempts until one succeeds or `maxRetries` have
     * failed, asking for a pause of retryDelay * k after failed attempt k unless it was
     * the last allowed. Returns how many attempts were made, the values shown in
     * `retryCount` and the pauses.
     */
    method RetryLoop(score: JsNumber, ghost run: RetryRun, ghost v: int)
      returns (made: nat, succeeded: bool, lastError: Option<Error>, trace: seq<int>, delays: seq<int>)
      requires run.guard == SubmitGuard(submitter.address, score) && run.respond == submitter.writer.client.respond
      requires run.base == |submitter.writer.client.submitted|
      requires run.guard.None? ==> v == ScoreValue(score)
      modifies this, submitter.writer, submitter.writer.client
      ensures made == AttemptsMade(run, Budget(maxRetries))
      ensures succeeded == (made > 0 && Attempt(run, made - 1).Ok?)
      ensures !succeeded ==> lastError == (if made == 0 then None else Some(Attempt(run, made - 1).error))
      ensures trace == Counting(made)
      ensures delays == Backoff(retryDelay, if made > 0 then made - 1 else 0)
      ensures submitter.writer.client.submitted == old(submitter.writer.client.submitted) +
        (if run.guard.None? then Repeat(v, made) else [])
      ensures submitter.writer.State() ==
        (if run.guard.None? && made > 0 then AfterWrite(old(submitter.writer.State()), Attempt(run, made - 1))
         else old(submitter.writer.State()))
      ensures submitter.writer.errorCallbacks == old(submitter.writer.errorCallbacks)
      ensures retryTrace == old(retryTrace) && waits == old(waits)
    {
      var writer := submitter.writer;
      var client := writer.client;
      ghost var n := Budget(maxRetries);
      ghost var writes := run.guard.None?;
      ghost var submitted0, flags0 := client.submitted, writer.State();
      var attempts := 0;
      lastError := None;
      trace := [];
      delays := [];
      succeeded := false;
      made := 0;
      while attempts < maxRetries && !succeeded
        invariant made <= n
        invariant succeeded ==> made > 0 && Attempt(run, made - 1).Ok?
        invariant attempts == (if succeeded then made - 1 else made)
        invariant AttemptsFrom(run, attempts, n) == AttemptsMade(run, n)
        invariant !succeeded && made > 0 ==> Attempt(run, made - 1).Err?
        invariant !succeeded ==> lastError == (if made == 0 then None else Some(Attempt(run, made - 1).error))
        invariant client.submitted == submitted0 + (if writes then Repeat(v, made) else [])
        invariant trace == Counting(made)
        invariant delays == Backoff(retryDelay, if attempts == n && n > 0 then n - 1 else attempts)
        invariant writer.State() ==
          (if writes && made > 0 then AfterWrite(flags0, Attempt(run, made - 1)) else flags0)
        invariant writer.errorCallbacks == old(writer.errorCallbacks)
        invariant retryTrace == old(retryTrace) && waits == old(waits)
        decreases n - made
      {
        trace := trace + [attempts + 1];
        var answer := TryOnce(score, attempts, run, v);
        if writes {
          AppendRepeat(submitted0, v, attempts);
        }
        made := made + 1;
        if answer.Ok? {
          succeeded := true;
        } else {
          lastError := Some(answer.error);
          attempts := attempts + 1;
          if attempts < maxRetries {
            delays := delays + [retryDelay * attempts];
          }
        }
      }
    }

    /** `setScoreWithRetry`: the loop, then `retryCount` back to 0 and the last error rethrown. */
    method SetScoreWithRetry(score: JsNumber) returns (r: Outcome)
      modifies this, submitter.writer, submitter.writer.client
      ensures var run := RetryRunOf(submitter.address, score, submitter.writer.client.respond, |old(submitter.writer.client.submitted)|);
        var m := AttemptsMade(run, Budget(maxRetries));
        && r == (if m > 0 && Attempt(run, m - 1).Ok? then Pass
                 else if m == 0 then Fail(Error(MAX_RETRIES_EXCEEDED))
                 else Fail(Attempt(run, m - 1).error))
        && submitter.writer.client.submitted == old(submitter.writer.client.submitted) +
             (if Writes(submitter.address, score) then Repeat(ScoreValue(score), m) else [])
        && retryCount == 0
        && retryTrace == old(retryTrace) + Counting(m) + [0]
        && waits == old(waits) + Backoff(retryDelay, if m > 0 then m - 1 else 0)
        && submitter.writer.State() ==
             (if Writes(submitter.address, score) && m > 0 then AfterWrite(old(submitter.writer.State()), Attempt(run, m - 1))
              else old(submitter.writer.State()))
        && submitter.writer.errorCallbacks == old(submitter.writer.errorCallbacks)
    {
      ghost var run := RetryRunOf(submitter.address, score, submitter.writer.client.respond, |submitter.writer.client.submitted|);
      ghost var v := if Writes(submitter.address, score) then ScoreValue(score) else 0;
      var made, succeeded, lastError, trace, delays := RetryLoop(score, run, v);
      retryCount := 0;
      retryTrace := retryTrace + trace + [0];
      waits := waits + delays;
      if succeeded {
        r := Pass;
      } else {
        r := if lastError.Some? then Fail(lastError.value) else Fail(Error(MAX_RETRIES_EXCEEDED));
      }
    }
  }

  // ---------------------------------------------------------------------------
  // useSetScoreWithValidation

  /** The checks of `setValidatedScore`, in the source's order. */
  function ValidationGuard(score: JsNumber): (r: Option<Error>)
    ensures !IsValidScore(score) ==> r == Some(Error(INVALID_SCORE))
    ensures IsValidScore(score) && ScoreValue(score) > VALIDATED_SCORE_CEILING ==> r == Some(Error(SCORE_TOO_HIGH))
    ensures r.None? <==> IsValidScore(score) && ScoreValue(score) <= VALIDATED_SCORE_CEILING
  {
    if !IsValidScore(score) then Some(Error(INVALID_SCORE))
    else if Below(score, 0.0) then Some(Error(SCORE_NEGATIVE))
    else if Above(score, VALIDATED_SCORE_CEILING as real) then Some(Error(SCORE_TOO_HIGH))
    else None
  }

  /** The `score < 0` check comes after `isValidScore` and can never fire. */
  lemma NegativeCheckUnreachable(score: JsNumber)
    ensures ValidationGuard(score) != Some(Error(SCORE_NEGATIVE))
  {
  }

  /** The `useSetScoreWithValidation` hook. */
  class ValidatedSubmitter {
    const submitter: ScoreSubmitter
    var isValidating: bool
    var validationError: Option<string>

    constructor (address: Option<Address>, client: ContractClient)
      ensures fresh(submitter) && fresh(submitter.writer)
      ensures submitter.address == address && submitter.writer.client == client
      ensures submitter.writer.State() == Idle && submitter.writer.errorCallbacks == []
      ensures !isValidating && validationError.None?
    {
      submitter := new ScoreSubmitter(address, client);
      isValidating := false;
      validationError := None;
    }

    /** The `isValidating` the hook exposes: its own flag or the write still loading. */
    function IsValidatingView(): bool
      reads this, submitter, submitter.writer
    {
      isValidating || submitter.writer.isLoading
    }

    /**
     * `setValidatedScore`: score checks first (before the wallet check inside
     * `setScoreAsync`); any rejection's message becomes `validationError` and is rethrown.
     */
    method SetValidatedScore(score: JsNumber) returns (r: Result<TxHash>)
      modifies this, submitter.writer, submitter.writer.client
      ensures var guard := ValidationGuard(score);
        var writes := guard.None? && Writes(submitter.address, score);
        && r == (if guard.Some? then Err(guard.value)
                 else SubmitResult(submitter.address, score, submitter.writer.client.respond,
                                   |old(submitter.writer.client.submitted)|))
        && submitter.writer.client.submitted == old(submitter.writer.client.submitted) +
             (if writes then [ScoreValue(score)] else [])
        && submitter.writer.State() == (if writes then AfterWrite(old(submitter.writer.State()), r) else old(submitter.writer.State()))
        && submitter.writer.errorCallbacks == old(submitter.writer.errorCallbacks)
      ensures validationError == (if r.Err? then Some(r.error.message) else None)
      ensures !isValidating
      ensures IsValidatingView() == submitter.writer.isLoading
      ensures r.Ok? ==> IsValidatingView()
    {
      isValidating := true;
      validationError := None;
      var guard := ValidationGuard(score);
      if guard.Some? {
        r := Err(guard.value);
      } else {
        r := submitter.SetScoreAsync(score);
      }
      if r.Err? {
        validationError := Some(r.error.message);
      }
      isValidating := false;
    }
  }

  // ---------------------------------------------------------------------------
  // useBatchSetScores

  /** One call of `setBatchScores`: who submits, the client's oracle, and the number of the client's next call. */
  datatype BatchCall = BatchCall(address: Option<Address>, respond: nat -> Result<TxHash>, base: nat)

  /** The answer to batch item i when items 0 .. i-1 all succeeded (each wrote once). */
  function Item(s: BatchCall, scores: seq<JsNumber>, i: nat): Result<TxHash>
    requires i < |scores|
  {
    SubmitResult(s.address, scores[i], s.respond, s.base + i)
  }

  /** The index of the first item from i on that fails, or |scores| when none does. */
  function FirstFailure(s: BatchCall, scores: seq<JsNumber>, i: nat): (k: nat)
    requires i <= |scores|
    ensures i <= k <= |scores|
    ensures forall j :: i <= j < k ==> Item(s, scores, j).Ok? && IsValidScore(scores[j])
    ensures k < |scores| ==> Item(s, scores, k).Err?
    decreases |scores| - i
  {
    if i == |scores| then i
    else if Item(s, scores, i).Err? then i
    else FirstFailure(s, scores, i + 1)
  }

  /** How many of the batch's scores reach the contract: those before the first failure, and the failing one when it passed its guards. */
  function BatchWrites(s: BatchCall, scores: seq<JsNumber>): (w: nat)
    ensures w <= |scores| && forall j :: 0 <= j < w ==> IsValidScore(scores[j])
  {
    var k := FirstFailure(s, scores, 0);
    if k < |scores| && Writes(s.address, scores[k]) then k + 1 else k
  }

  /** The error a batch stops with, if any. */
  function BatchFailure(s: BatchCall, scores: seq<JsNumber>): (failure: Option<Error>)
    ensures failure.None? <==> forall j :: 0 <= j < |scores| ==> Item(s, scores, j).Ok?
  {
    var k := FirstFailure(s, scores, 0);
    if k < |scores| then Some(Item(s, scores, k).error) else None
  }

  /** The contract arguments of the first k scores. */
  function ScoreArgs(scores: seq<JsNumber>, k: nat): (args: seq<int>)
    requires k <= |scores| && forall j :: 0 <= j < k ==> IsValidScore(scores[j])
    ensures |args| == k && forall j :: 0 <= j < k ==> args[j] == ScoreValue(scores[j])
  {
    if k == 0 then [] else ScoreArgs(scores, k - 1) + [ScoreValue(scores[k - 1])]
  }

  lemma AppendScoreArgs(prefix: seq<int>, scores: seq<JsNumber>, k: nat)
    requires k < |scores| && forall j :: 0 <= j <= k ==> IsValidScore(scores[j])
    ensures prefix + ScoreArgs(scores, k) + [ScoreValue(scores[k])] == prefix + ScoreArgs(scores, k + 1)
  {
  }

  /** Without a wallet a non-empty batch stops at its first item with WALLET_NOT_CONNECTED. */
  lemma NoWalletBatchStopsAtOnce(s: BatchCall, scores: seq<JsNumber>)
    requires !Truthy(s.address) && |scores| > 0
    ensures FirstFailure(s, scores, 0) == 0
    ensures Item(s, scores, 0) == Err(Error(WALLET_NOT_CONNECTED))
  {
  }

  /** What a batch hook reports through its callbacks. */
  datatype Notice = OnSuccess(message: string) | OnError(error: Error)

  /** The `useBatchSetScores` hook. */
  class BatchSubmitter {
    const submitter: ScoreSubmitter
    var isLoading: bool
    var isSuccess: bool
    var isError: bool
    var error: Option<Error>
    /** Every delay requested from the timer, in order. */
    var waits: seq<int>
    /** Whether the hook was given an `onSuccess` and an `onError` callback. */
    const hasOnSuccess: bool
    const hasOnError: bool
    /** Calls of `onSuccess` and `onError`, in order. */
    var notices: seq<Notice>

    function State(): Flags
      reads this
    {
      Flags(isLoading, isSuccess, isError, error)
    }

    constructor (address: Option<Address>, client: ContractClient, hasOnSuccess: bool, hasOnError: bool)
      ensures fresh(submitter) && fresh(submitter.writer)
      ensures submitter.address == address && submitter.writer.client == client
      ensures submitter.writer.State() == Idle && submitter.writer.errorCallbacks == []
      ensures this.hasOnSuccess == hasOnSuccess && this.hasOnError == hasOnError
      ensures State() == Idle && waits == [] && notices == []
    {
      submitter := new ScoreSubmitter(address, client);
      this.hasOnSuccess := hasOnSuccess;
      this.hasOnError := hasOnError;
      isLoading, isSuccess, isError, error := false, false, false, None;
      waits := [];
      notices := [];
    }

    /**
     * `setBatchScores`: the scores are submitted one by one in list order, with a pause
     * after each; the first rejection stops the batch and is reported.
     */
    method SetBatchScores(scores: seq<JsNumber>)
      modifies this, submitter.writer, submitter.writer.client
      ensures var s := BatchCall(submitter.address, submitter.writer.client.respond, |old(submitter.writer.client.submitted)|);
        var w := BatchWrites(s, scores);
        var failure := BatchFailure(s, scores);
        && submitter.writer.client.submitted == old(submitter.writer.client.submitted) + ScoreArgs(scores, w)
        && waits == old(waits) + Repeat(BATCH_PACING_DELAY, FirstFailure(s, scores, 0))
        && State() == AfterBatch(old(State()), failure)
        && notices == old(notices) +
             (if failure.Some? then (if hasOnError then [OnError(failure.value)] else [])
              else (if hasOnSuccess then [OnSuccess(BATCH_COMPLETED)] else []))
        && submitter.writer.State() ==
             (if w > 0 then AfterWrite(old(submitter.writer.State()), Item(s, scores, w - 1)) else old(submitter.writer.State()))
        && submitter.writer.errorCallbacks == old(submitter.writer.errorCallbacks)
    {
      var writer := submitter.writer;
      var client := writer.client;
      ghost var s := BatchCall(submitter.address, client.respond, |client.submitted|);
      ghost var k := FirstFailure(s, scores, 0);
      isLoading := true;
      isError := false;
      error := None;
      var i := 0;
      var failure: Option<Error> := None;
      while i < |scores|
        invariant 0 <= i <= k
        invariant client.submitted == old(client.submitted) + ScoreArgs(scores, i)
        invariant waits == old(waits) + Repeat(BATCH_PACING_DELAY, i)
        invariant State() == Begin(old(State())) && notices == old(notices)
        invariant writer.State() ==
          (if i > 0 then AfterWrite(old(writer.State()), Item(s, scores, i - 1)) else old(writer.State()))
        invariant writer.errorCallbacks == old(writer.errorCallbacks)
      {
        var answer := submitter.SetScoreAsync(scores[i]);
        assert answer == Item(s, scores, i);
        if Writes(s.address, scores[i]) {
          AppendScoreArgs(old(client.submitted), scores, i);
        }
        if answer.Err? {
          assert i == k;
          failure := Some(answer.error);
          break;
        }
        AppendRepeat(old(waits), BATCH_PACING_DELAY, i);
        waits := waits + [BATCH_PACING_DELAY];
        i := i + 1;
      }
      if failure.None? {
        isSuccess := true;
        if hasOnSuccess {
          notices := notices + [OnSuccess(BATCH_COMPLETED)];
        }
      } else {
        isError := true;
        error := failure;
        if hasOnError {
          notices := notices + [OnError(failure.value)];
        }
      }
      isLoading := false;
    }

    /** `reset`: every flag false and no error. */
    method Reset()
      modifies this
      ensures State() == Idle && waits == old(waits) && notices == old(notices)
    {
      isLoading, isSuccess, isError, error := false, false, false, None;
    }
  }
}
