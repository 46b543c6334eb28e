/** The default retry policies of the query client
    (src/app/providers/QueryProvider.tsx): whether a failed query or
    mutation is tried again, and how long a query waits before the next
    attempt. */
module QueryPolicy {
  import opened Common

  /** What the policies look at in a thrown error: its message and the
      HTTP status of the response it carries, either of which may be
      missing. */
  datatype RequestError = RequestError(message: Option<string>, status: Option<int>)

  /** The message mentions "timeout" or "timed out". */
  predicate IsTimeout(e: RequestError)
  {
    e.message.Some? && (Contains(e.message.value, "timeout") || Contains(e.message.value, "timed out"))
  }

  /** The error carries a truthy status in 400..499. */
  predicate IsClientError(e: RequestError)
  {
    e.status.Some? && e.status.value != 0 && 400 <= e.status.value < 500
  }

  /** How many retries each kind of error gets from the query policy. */
  function QueryRetryBudget(e: RequestError): nat
  {
    if IsTimeout(e) then 1 else if IsClientError(e) then 0 else 2
  }

  /** How many retries each kind of error gets from the mutation policy. */
  function MutationRetryBudget(e: RequestError): nat
  {
    if IsTimeout(e) || IsClientError(e) then 0 else 1
  }

  /** `queries.retry`: the timeout test first, then the 4xx test, then the
      general case. A query is retried exactly while the number of
      failures so far is below its budget. */
  function QueryRetry(failureCount: nat, e: RequestError): (r: bool)
    ensures r <==> failureCount < QueryRetryBudget(e)
  {
    if IsTimeout(e) then failureCount < 1
    else if IsClientError(e) then false
    else failureCount < 2
  }

  /** `mutations.retry`: no retry for timeouts or 4xx, otherwise one. */
  function MutationRetry(failureCount: nat, e: RequestError): (r: bool)
    ensures r <==> failureCount < MutationRetryBudget(e)
  {
    if IsTimeout(e) then false
    else if IsClientError(e) then false
    else failureCount < 1
  }

  /** Once a policy stops retrying it never resumes, a query is retried
      at most twice and a mutation at most once, and a mutation is never
      retried where a query would not be. */
  lemma RetryBounds(m: nat, n: nat, e: RequestError)
    requires m <= n
    ensures QueryRetry(n, e) ==> QueryRetry(m, e)
    ensures MutationRetry(n, e) ==> MutationRetry(m, e)
    ensures !QueryRetry(2, e) && !MutationRetry(1, e)
    ensures MutationRetry(n, e) ==> QueryRetry(n, e)
  {
  }

  /** The timeout test takes precedence: a timeout message with a 4xx
      status still gets the query's one retry, while the same status
      without such a message gets none. */
  lemma TimeoutBeforeClientError(status: int)
    requires 400 <= status < 500
    ensures QueryRetry(0, RequestError(Some("timeout of 30000ms exceeded"), Some(status)))
    ensures !QueryRetry(0, RequestError(None, Some(status)))
  {
    var timeoutMessage := "timeout of 30000ms exceeded";
    assert OccursAt(timeoutMessage, "timeout", 0);
    ContainsIffOccurs(timeoutMessage, "timeout");
  }

  /** `queries.retryDelay`: `min(1000 * 2^attempt, 10000)` milliseconds. */
  function QueryRetryDelay(attemptIndex: nat): (d: nat)
    ensures 1000 <= d <= 10000
  {
    Min(1000 * Pow2(attemptIndex), 10000)
  }

  /** The delay doubles from one second and saturates at ten from the
      fourth retry on. */
  lemma QueryRetryDelayShape(i: nat, j: nat)
    ensures i <= j ==> QueryRetryDelay(i) <= QueryRetryDelay(j)
    ensures i <= 3 ==> QueryRetryDelay(i) == 1000 * Pow2(i)
    ensures i >= 4 ==> QueryRetryDelay(i) == 10000
  {
    if i <= j {
      Pow2Monotonic(i, j);
    }
    if i <= 3 {
      Pow2Monotonic(i, 3);
      assert Pow2(3) == 8;
    } else {
      Pow2Monotonic(4, i);
      assert Pow2(4) == 16;
    }
  }
}
