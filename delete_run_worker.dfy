/** The background job that deletes one run on the remote service after it was
    deleted locally. */
module DeleteRunWorker {
  import opened Domain
  import opened DataErrorToWorkerResult
  import opened WorkerPolicy
  import opened SyncCollaborators

  /** `DeleteRunWorker`: one scheduled execution, given the attempt count and the
      job's `RUN_ID` input (which may be missing). */
  class DeleteRunWorker {
    const runAttemptCount: int
    const inputRunId: Option<RunId>
    const remoteRunDataSource: RemoteRunDataSource
    const pendingSyncDao: RunPendingSyncDao

    constructor (runAttemptCount: int, inputRunId: Option<RunId>,
                 remoteRunDataSource: RemoteRunDataSource, pendingSyncDao: RunPendingSyncDao)
      ensures this.runAttemptCount == runAttemptCount && this.inputRunId == inputRunId
      ensures this.remoteRunDataSource == remoteRunDataSource && this.pendingSyncDao == pendingSyncDao
    {
      this.runAttemptCount := runAttemptCount;
      this.inputRunId := inputRunId;
      this.remoteRunDataSource := remoteRunDataSource;
      this.pendingSyncDao := pendingSyncDao;
    }

    /** Unlike the create job, the delete job does not consult the store before
        calling the remote service: the ceiling and the input are its only guards. */
    predicate Proceeds() {
      !AttemptsExhausted(runAttemptCount) && inputRunId.Some?
    }

    /** `doWork()`. */
    method DoWork() returns (r: WorkerResult)
      modifies remoteRunDataSource`calls, pendingSyncDao`deletedRunSync
      ensures !Proceeds() ==> r == Failure
      ensures !Proceeds() ==> remoteRunDataSource.calls == old(remoteRunDataSource.calls)
      ensures !Proceeds() ==> pendingSyncDao.deletedRunSync == old(pendingSyncDao.deletedRunSync)
      // The remote delete is sent with the input id whether or not a
      // pending-delete record exists for it.
      ensures Proceeds() ==>
        remoteRunDataSource.calls == old(remoteRunDataSource.calls) + [DeleteRunCall(inputRunId.value)]
      ensures Proceeds() ==>
        r == Settle(old(remoteRunDataSource.NextAnswer(DeleteRunCall(inputRunId.value))))
      ensures Proceeds() && r == Success ==>
        pendingSyncDao.deletedRunSync == old(pendingSyncDao.deletedRunSync) - {inputRunId.value}
      ensures r != Success ==> pendingSyncDao.deletedRunSync == old(pendingSyncDao.deletedRunSync)
      ensures r == Success ==>
        Proceeds() && old(remoteRunDataSource.NextAnswer(DeleteRunCall(inputRunId.value))).Ok?
      ensures pendingSyncDao.runPendingSync == old(pendingSyncDao.runPendingSync)
    {
      if AttemptsExhausted(runAttemptCount) {
        return Failure;
      }
      if inputRunId.None? {
        return Failure;
      }
      var runId := inputRunId.value;
      var result := remoteRunDataSource.DeleteRun(runId);
      match result
      case Error(e) =>
        r := ToWorkerResult(e);
      case Ok =>
        pendingSyncDao.DeleteDeletedRunSyncEntity(runId);
        r := Success;
    }
  }
}
