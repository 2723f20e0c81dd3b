/** `retry` of src/utils/Utils.ts: re-invoke a fallible call up to `maxTry`
    times, sleeping 1000·k ms after failed attempt k, and rethrow the last
    error unchanged.

    The fallible `fn` is an oracle: attempt k (counting from 1) gets
    `outcomes[k - 1]`. A run records the arguments handed to each attempt and
    the delay of each sleep, so the number of invocations and the backoff are
    part of the result. */
module Retry {
  import opened Common

  /** `sleep(1000 * retryCount)`: one second per attempt already made. */
  const BackoffUnitMs: int := 1000

  datatype RetryRun<A, T, E> = RetryRun(result: Result<T, E>, calls: seq<A>, sleeps: seq<int>)

  /** `retry(fn, args, maxTry, retryCount)`. The first call passes
      `retryCount = 1`; each failed attempt below the budget recurses with
      `retryCount + 1`. */
  function Retry<A, T, E>(outcomes: seq<Result<T, E>>, args: A, maxTry: int, retryCount: nat): (run: RetryRun<A, T, E>)
    requires 1 <= retryCount <= |outcomes|
    requires maxTry <= |outcomes|
    // at least one attempt, never more than the budget allows
    ensures 1 <= |run.calls| <= (if maxTry <= retryCount then 1 else maxTry - retryCount + 1)
    // every attempt receives the same arguments
    ensures forall i :: 0 <= i < |run.calls| ==> run.calls[i] == args
    // the result is exactly the outcome of the last attempt made
    ensures run.result == outcomes[retryCount + |run.calls| - 2]
    // every attempt before the last one failed
    ensures forall k :: retryCount - 1 <= k < retryCount + |run.calls| - 2 ==> outcomes[k].Err?
    // the run stops early only on a success
    ensures retryCount + |run.calls| - 1 < maxTry ==> run.result.Ok?
    // one linear sleep between consecutive attempts
    ensures |run.sleeps| == |run.calls| - 1
    ensures forall i :: 0 <= i < |run.sleeps| ==> run.sleeps[i] == BackoffUnitMs * (retryCount + i)
    decreases maxTry - retryCount
  {
    var outcome := outcomes[retryCount - 1];
    if outcome.Ok? || retryCount >= maxTry then
      RetryRun(outcome, [args], [])
    else
      var rest := Retry(outcomes, args, maxTry, retryCount + 1);
      RetryRun(rest.result, [args] + rest.calls, [BackoffUnitMs * retryCount] + rest.sleeps)
  }

  /** `retry(fn, args, maxTry)` as callers write it. */
  function RetryFromStart<A, T, E>(outcomes: seq<Result<T, E>>, args: A, maxTry: int): RetryRun<A, T, E>
    requires 1 <= |outcomes| && maxTry <= |outcomes|
  {
    Retry(outcomes, args, maxTry, 1)
  }

  /** Total of a list of delays, summed from the end. */
  function Sum(s: seq<int>): int {
    if s == [] then 0 else Sum(s[..|s| - 1]) + s[|s| - 1]
  }

  /** Sleeps of 1000·1, ..., 1000·n add up to 1000·n(n+1)/2. */
  lemma {:induction false} LinearBackoffTotal(s: seq<int>)
    requires forall i :: 0 <= i < |s| ==> s[i] == BackoffUnitMs * (1 + i)
    ensures Sum(s) == BackoffUnitMs * ((|s| + 1) * |s| / 2)
  {
    if s != [] {
      var n := |s|;
      var prefix := s[..n - 1];
      LinearBackoffTotal(prefix);
      assert Sum(s) == Sum(prefix) + BackoffUnitMs * n;
      assert n * (n - 1) / 2 + n == (n + 1) * n / 2 by {
        assert n * (n - 1) + 2 * n == (n + 1) * n;
      }
    }
  }

  /** The sleeps of a run started at attempt 1 total 1000·m(m-1)/2 for m
      attempts. */
  lemma RunBackoffTotal<A, T, E>(run: RetryRun<A, T, E>)
    requires |run.sleeps| == |run.calls| - 1
    requires forall i :: 0 <= i < |run.sleeps| ==> run.sleeps[i] == BackoffUnitMs * (1 + i)
    ensures Sum(run.sleeps) == BackoffUnitMs * (|run.calls| * (|run.calls| - 1) / 2)
  {
    LinearBackoffTotal(run.sleeps);
  }

  /** If the first attempt succeeds its value is returned, `fn` runs once and
      nothing sleeps. */
  lemma FirstAttemptSucceeds<A, T, E>(outcomes: seq<Result<T, E>>, args: A, maxTry: int)
    requires 1 <= |outcomes| && maxTry <= |outcomes|
    requires outcomes[0].Ok?
    ensures RetryFromStart(outcomes, args, maxTry) == RetryRun(outcomes[0], [args], [])
  {
  }

  /** A permanently failing `fn` with `maxTry = N >= 1` runs exactly N times,
      the error is that of the N-th attempt, and the sleeps total
      1000·N(N-1)/2 ms. */
  lemma AlwaysFailingExhaustsBudget<A, T, E>(outcomes: seq<Result<T, E>>, args: A, n: int)
    requires 1 <= n <= |outcomes|
    requires forall k :: 0 <= k < n ==> outcomes[k].Err?
    ensures var run := RetryFromStart(outcomes, args, n);
      && |run.calls| == n
      && run.result == outcomes[n - 1]
      && Sum(run.sleeps) == BackoffUnitMs * (n * (n - 1) / 2)
  {
    var run := RetryFromStart(outcomes, args, n);
    RunBackoffTotal(run);
  }

  /** With a budget of at most one, `fn` runs exactly once whatever it does. */
  lemma SmallBudgetRunsOnce<A, T, E>(outcomes: seq<Result<T, E>>, args: A, maxTry: int)
    requires 1 <= |outcomes| && maxTry <= 1
    ensures var run := RetryFromStart(outcomes, args, maxTry);
      |run.calls| == 1 && run.result == outcomes[0] && run.sleeps == []
  {
  }

  /** If `fn` fails on attempts 1..k-1 and succeeds on attempt k <= maxTry,
      attempt k's value is returned after k calls and 1000·k(k-1)/2 ms of
      sleep. */
  lemma FirstSuccessAt<A, T, E>(outcomes: seq<Result<T, E>>, args: A, maxTry: int, k: int)
    requires 1 <= k <= maxTry <= |outcomes|
    requires forall j :: 0 <= j < k - 1 ==> outcomes[j].Err?
    requires outcomes[k - 1].Ok?
    ensures var run := RetryFromStart(outcomes, args, maxTry);
      && run.result == outcomes[k - 1]
      && |run.calls| == k
      && Sum(run.sleeps) == BackoffUnitMs * (k * (k - 1) / 2)
  {
    var run := RetryFromStart(outcomes, args, maxTry);
    RunBackoffTotal(run);
  }

  /** The budget alone bounds the number of outbound attempts, whatever
      `fn` does, and so bounds the time spent sleeping. */
  lemma BudgetBoundsWork<A, T, E>(outcomes: seq<Result<T, E>>, args: A, maxTry: int)
    requires 1 <= maxTry <= |outcomes|
    ensures var run := RetryFromStart(outcomes, args, maxTry);
      |run.calls| <= maxTry && Sum(run.sleeps) <= BackoffUnitMs * (maxTry * (maxTry - 1) / 2)
  {
    var run := RetryFromStart(outcomes, args, maxTry);
    var m := |run.calls|;
    RunBackoffTotal(run);
    MonotoneTriangle(m, maxTry);
  }

  lemma MonotoneTriangle(m: int, n: int)
    requires 1 <= m <= n
    ensures m * (m - 1) / 2 <= n * (n - 1) / 2
  {
    assert m * (m - 1) <= n * (n - 1);
  }
}
