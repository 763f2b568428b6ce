/** The background job that refreshes the local cache from the remote service.
    It keeps no state of its own: it only classifies the repository's answer. */
module FetchRunsWorker {
  import opened Domain
  import opened DataErrorToWorkerResult
  import opened WorkerPolicy

  /** `FetchRunsWorker.doWork()`. `fetchRuns` is the answer the repository's
      `fetchRuns()` gives when it is called; once the ceiling is hit it is not
      called, so the verdict cannot depend on it. */
  function DoWork(runAttemptCount: int, fetchRuns: EmptyResult): (r: WorkerResult)
    ensures AttemptsExhausted(runAttemptCount) ==> r == Failure
    ensures !AttemptsExhausted(runAttemptCount) ==> (r == Success <==> fetchRuns.Ok?)
    ensures !AttemptsExhausted(runAttemptCount) && fetchRuns.Error? ==> r == ToWorkerResult(fetchRuns.error)
  {
    if AttemptsExhausted(runAttemptCount) then Failure
    else Settle(fetchRuns)
  }

  /** Below the ceiling a transient error is retried; at the ceiling the job is
      abandoned whatever the repository would have answered. */
  lemma RetryThenAbandon(e: DataError, runAttemptCount: int, answer: EmptyResult)
    requires e in RetryableErrors
    ensures 0 <= runAttemptCount < MaxAttempts ==> DoWork(runAttemptCount, Error(e)) == Retry
    ensures runAttemptCount >= MaxAttempts ==> DoWork(runAttemptCount, answer) == Failure
  {
  }

  /** At the ceiling the repository is irrelevant: any two answers give the same verdict. */
  lemma CeilingIgnoresRepository(runAttemptCount: int, a: EmptyResult, b: EmptyResult)
    requires AttemptsExhausted(runAttemptCount)
    ensures DoWork(runAttemptCount, a) == DoWork(runAttemptCount, b)
  {
  }
}
