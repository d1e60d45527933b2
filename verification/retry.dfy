/** The transient-failure retry policy that wraps every remote call.
    The wrapped operation is a script: `request(k)` is the outcome of its
    k-th invocation (counting from 0); the sleep between attempts is counted,
    not timed. */
module RetryPolicy {
  import opened Errors

  /** Default number of attempts. */
  const MAX_RETRIES: int := 25
  /** Default delay between attempts, in milliseconds; each counted delay stands for one such wait. */
  const RETRY_DELAY: nat := 1000

  /** A failure is transient exactly when it is an HTTP error whose response status is 500 or 503. */
  predicate IsTransient<T>(outcome: Result<T>) {
    outcome.Err? && outcome.error.HttpError? &&
    (outcome.error.status == Some(503) || outcome.error.status == Some(500))
  }

  /** The number of attempts a bound allows: none when it is not positive. */
  function Attempts(maxRetries: int): nat {
    if maxRetries <= 0 then 0 else maxRetries
  }

  /** What one retried operation did: what it returned or threw, how many times the
      operation was invoked, and how many delays were waited. */
  datatype RetryRun<T> = RetryRun(result: Result<T>, calls: nat, delays: nat)

  /** The first attempt in `[from, bound)` whose outcome is not transient, or `bound` when there is none. */
  function FirstSettled<T>(request: nat -> Result<T>, from: nat, bound: nat): (k: nat)
    requires from <= bound
    ensures from <= k <= bound
    ensures forall j :: from <= j < k ==> IsTransient(request(j))
    ensures k < bound ==> !IsTransient(request(k))
    decreases bound - from
  {
    if from == bound then bound
    else if !IsTransient(request(from)) then from
    else FirstSettled(request, from + 1, bound)
  }

  /** The behaviour of the retry policy on a script of outcomes. */
  function Retry<T>(request: nat -> Result<T>, maxRetries: int): (run: RetryRun<T>)
    // never more invocations than the bound allows
    ensures run.calls <= Attempts(maxRetries)
    // every invocation but the last one failed transiently
    ensures forall j :: 0 <= j < run.calls - 1 ==> IsTransient(request(j))
    // a success or a fatal failure ends the loop at once, and is returned or rethrown unchanged,
    // after one delay per earlier (transient) attempt
    ensures run.calls > 0 && !IsTransient(request(run.calls - 1)) ==>
              run.result == request(run.calls - 1) && run.delays == run.calls - 1
    // otherwise every allowed attempt failed transiently: one delay after each, then the distinct error
    ensures run.calls == 0 || IsTransient(request(run.calls - 1)) ==>
              run.calls == Attempts(maxRetries) && run.delays == run.calls && run.result == Err(MaxRetriesReached)
  {
    var n := Attempts(maxRetries);
    var k := FirstSettled(request, 0, n);
    if k < n then RetryRun(request(k), k + 1, k)
    else RetryRun(Err(MaxRetriesReached), n, n)
  }

  /** The retry loop: attempts 1..maxRetries, returning the first success, rethrowing a
      fatal failure, and sleeping after each transient one. */
  method RetryOn503<T>(request: nat -> Result<T>, maxRetries: int) returns (r: Result<T>, calls: nat, delays: nat)
    ensures RetryRun(r, calls, delays) == Retry(request, maxRetries)
  {
    calls, delays := 0, 0;
    var attempt := 1;
    while attempt <= maxRetries
      invariant 1 <= attempt && attempt - 1 <= Attempts(maxRetries)
      invariant calls == attempt - 1 && delays == calls
      invariant forall j :: 0 <= j < calls ==> IsTransient(request(j))
    {
      var outcome := request(attempt - 1);
      calls := calls + 1;
      if outcome.Ok? {
        r := outcome;
        return;
      }
      if !outcome.error.HttpError? {
        r := outcome;
        return;
      }
      if outcome.error.status != Some(503) && outcome.error.status != Some(500) {
        r := outcome;
        return;
      }
      delays := delays + 1;
      attempt := attempt + 1;
    }
    r := Err(MaxRetriesReached);
  }

  /** An attempt that settles (succeeds or fails fatally) after `k` transient failures ends the
      policy: its outcome is returned unchanged after `k + 1` invocations and `k` delays. */
  lemma RetrySettlesAt<T>(request: nat -> Result<T>, maxRetries: int, k: nat)
    requires k < maxRetries
    requires forall j :: 0 <= j < k ==> IsTransient(request(j))
    requires !IsTransient(request(k))
    ensures Retry(request, maxRetries) == RetryRun(request(k), k + 1, k)
  {
  }

  /** A first attempt that fails fatally is rethrown after exactly one invocation and no delay. */
  lemma RetryFatalFirstAttempt<T>(request: nat -> Result<T>, maxRetries: int)
    requires maxRetries >= 1
    requires request(0).Err? && !IsTransient(request(0))
    ensures Retry(request, maxRetries) == RetryRun(request(0), 1, 0)
  {
    RetrySettlesAt(request, maxRetries, 0);
  }

  /** When every allowed attempt fails transiently, there are exactly `maxRetries` invocations and
      as many delays, then the distinct max-retries error; with a non-positive bound, nothing is invoked. */
  lemma RetryExhausted<T>(request: nat -> Result<T>, maxRetries: int)
    requires forall j :: 0 <= j < maxRetries ==> IsTransient(request(j))
    ensures Retry(request, maxRetries) == RetryRun(Err(MaxRetriesReached), Attempts(maxRetries), Attempts(maxRetries))
  {
  }

  /** A transient failure never escapes the policy, and what it reports is either one of the
      operation's own outcomes or the max-retries error. */
  lemma RetryResultOrigin<T>(request: nat -> Result<T>, maxRetries: int)
    ensures !IsTransient(Retry(request, maxRetries).result)
    ensures var run := Retry(request, maxRetries);
            run.result == Err(MaxRetriesReached) || (run.calls > 0 && run.result == request(run.calls - 1))
  {
  }
}
