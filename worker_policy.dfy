/** The policy the three retryable workers share: a ceiling on attempts and the
    classification of one remote call's outcome. */
module WorkerPolicy {
  import opened Domain
  import opened DataErrorToWorkerResult

  /** A worker whose job has already been run this many times gives up at once. */
  const MaxAttempts: nat := 5

  /** The guard every worker checks before touching storage or the network. */
  predicate AttemptsExhausted(runAttemptCount: int) {
    runAttemptCount >= MaxAttempts
  }

  /** The `when (result)` each worker applies to its one remote call: success only
      for a successful call, otherwise the error's classification. */
  function Settle(result: EmptyResult): (r: WorkerResult)
    ensures r == Success <==> result.Ok?
    ensures result.Error? ==> r == ToWorkerResult(result.error)
    ensures r == Retry ==> result.Error? && result.error in RetryableErrors
  {
    match result
    case Ok => Success
    case Error(e) => ToWorkerResult(e)
  }

  /** The invocations, among those run with attempt counts 0 .. n-1, that get past
      the ceiling. */
  function PassingAttempts(n: nat): set<int> {
    set k | 0 <= k < n && !AttemptsExhausted(k)
  }

  /** The arithmetic of the ceiling alone: of the attempt counts 0, 1, 2, ..., n-1
      exactly min(n, 5) get past it. The bound on actual remote calls over
      repeated runs is `CreateRunsWorker.RetryUntilSettled`. */
  lemma {:induction false} AtMostFiveAttemptsPass(n: nat)
    ensures |PassingAttempts(n)| == if n < MaxAttempts then n else MaxAttempts
  {
    if n > 0 {
      AtMostFiveAttemptsPass(n - 1);
      if n - 1 < MaxAttempts {
        assert PassingAttempts(n) == PassingAttempts(n - 1) + {n - 1};
        assert n - 1 !in PassingAttempts(n - 1);
      } else {
        assert PassingAttempts(n) == PassingAttempts(n - 1);
      }
    } else {
      assert PassingAttempts(n) == {};
    }
  }
}
