/** The background job that uploads one locally created run. */
module CreateRunsWorker {
  import opened Domain
  import opened DataErrorToWorkerResult
  import opened WorkerPolicy
  import opened SyncCollaborators

  /** `CreateRunWorker`: one scheduled execution. The scheduler supplies how often
      the job has already run and the job's input data (the `RUN_ID` entry, which
      may be missing). */
  class CreateRunWorker {
    const runAttemptCount: int
    const inputRunId: Option<RunId>
    const remoteRunDataSource: RemoteRunDataSource
    const pendingSyncDao: RunPendingSyncDao

    constructor (runAttemptCount: int, inputRunId: Option<RunId>,
                 remoteRunDataSource: RemoteRunDataSource, pendingSyncDao: RunPendingSyncDao)
      ensures this.runAttemptCount == runAttemptCount && this.inputRunId == inputRunId
      ensures this.remoteRunDataSource == remoteRunDataSource && this.pendingSyncDao == pendingSyncDao
    {
      this.runAttemptCount := runAttemptCount;
      this.inputRunId := inputRunId;
      this.remoteRunDataSource := remoteRunDataSource;
      this.pendingSyncDao := pendingSyncDao;
    }

    /** The job reaches the remote service only when the ceiling is not hit, the
        input names a run and that run has a pending-create record. */
    ghost predicate Proceeds()
      reads pendingSyncDao
    {
      !AttemptsExhausted(runAttemptCount) && inputRunId.Some? && inputRunId.value in pendingSyncDao.runPendingSync
    }

    /** The upload request the job sends when it proceeds: the stored run and its
        stored map picture. */
    ghost function Upload(): RemoteCall
      reads pendingSyncDao
      requires Proceeds()
    {
      var entity := pendingSyncDao.runPendingSync[inputRunId.value];
      PostRunCall(entity.run, entity.mapPictureBytes)
    }

    /** `doWork()`. */
    method DoWork() returns (r: WorkerResult)
      modifies remoteRunDataSource`calls, pendingSyncDao`runPendingSync
      // Guards: the ceiling, a missing input and a missing pending record all fail
      // without touching the store or the network.
      ensures !old(Proceeds()) ==> r == Failure
      ensures !old(Proceeds()) ==> remoteRunDataSource.calls == old(remoteRunDataSource.calls)
      ensures !old(Proceeds()) ==> pendingSyncDao.runPendingSync == old(pendingSyncDao.runPendingSync)
      // Otherwise exactly one upload of the stored record.
      ensures old(Proceeds()) ==>
        remoteRunDataSource.calls == old(remoteRunDataSource.calls) + [old(Upload())]
      ensures old(Proceeds()) ==>
        r == Settle(old(remoteRunDataSource.NextAnswer(Upload())))
      // On success only this run's pending record goes; on error it stays.
      ensures old(Proceeds()) && r == Success ==>
        pendingSyncDao.runPendingSync == old(pendingSyncDao.runPendingSync) - {inputRunId.value}
      ensures r != Success ==> pendingSyncDao.runPendingSync == old(pendingSyncDao.runPendingSync)
      // Success only with a remote success.
      ensures r == Success ==> old(Proceeds()) && old(remoteRunDataSource.NextAnswer(Upload())).Ok?
      ensures pendingSyncDao.deletedRunSync == old(pendingSyncDao.deletedRunSync)
    {
      if AttemptsExhausted(runAttemptCount) {
        return Failure;
      }
      if inputRunId.None? {
        return Failure;
      }
      var pendingRunId := inputRunId.value;
      var pendingRunEntity := pendingSyncDao.GetRunPendingSyncEntity(pendingRunId);
      if pendingRunEntity.None? {
        return Failure;
      }
      var run := pendingRunEntity.value.run;
      var result := remoteRunDataSource.PostRun(run, pendingRunEntity.value.mapPictureBytes);
      match result
      case Error(e) =>
        r := ToWorkerResult(e);
      case Ok =>
        pendingSyncDao.DeleteRunPendingSyncEntity(pendingRunId);
        r := Success;
    }
  }

  /** Every answer the remote can give is a transient error. */
  ghost predicate EveryAnswerRetryable(remote: RemoteRunDataSource) {
    forall n: nat, call: RemoteCall ::
      remote.respond(n, call).Error? && remote.respond(n, call).error in RetryableErrors
  }

  /** The scheduler's side of the retry contract: the job for `inputRunId` is run
      with attempt counts 0, 1, 2, ... for as long as it answers retry. It stops
      after at most six runs, the remote sees at most five uploads, and the
      pending record survives unless an upload succeeded. When every answer is a
      transient error the job ends in failure after exactly five uploads, with the
      record still pending. */
  method RetryUntilSettled(inputRunId: Option<RunId>, remote: RemoteRunDataSource, dao: RunPendingSyncDao)
    returns (attempts: nat, r: WorkerResult)
    modifies remote`calls, dao`runPendingSync
    ensures r != Retry
    ensures 1 <= attempts <= MaxAttempts + 1
    ensures old(remote.calls) <= remote.calls
    ensures |remote.calls| <= |old(remote.calls)| + MaxAttempts
    ensures r != Success ==> dao.runPendingSync == old(dao.runPendingSync)
    ensures dao.deletedRunSync == old(dao.deletedRunSync)
    ensures EveryAnswerRetryable(remote) && inputRunId.Some? && inputRunId.value in old(dao.runPendingSync) ==>
      && r == Failure
      && attempts == MaxAttempts + 1
      && |remote.calls| == |old(remote.calls)| + MaxAttempts
      && inputRunId.value in dao.runPendingSync
  {
    attempts := 0;
    r := Retry;
    while r == Retry
      invariant attempts <= MaxAttempts + 1
      invariant r == Retry ==> attempts <= MaxAttempts
      invariant attempts == 0 ==> r == Retry
      invariant old(remote.calls) <= remote.calls
      invariant |remote.calls| <= |old(remote.calls)| + (if attempts < MaxAttempts then attempts else MaxAttempts)
      invariant r != Success ==> dao.runPendingSync == old(dao.runPendingSync)
      invariant dao.deletedRunSync == old(dao.deletedRunSync)
      invariant EveryAnswerRetryable(remote) && inputRunId.Some? && inputRunId.value in old(dao.runPendingSync) ==>
        if r == Retry then |remote.calls| == |old(remote.calls)| + attempts
        else r == Failure && attempts == MaxAttempts + 1 && |remote.calls| == |old(remote.calls)| + MaxAttempts
      decreases MaxAttempts + 1 - attempts
    {
      var worker := new CreateRunWorker(attempts, inputRunId, remote, dao);
      r := worker.DoWork();
      attempts := attempts + 1;
    }
  }
}
