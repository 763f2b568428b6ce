/** The two collaborators the create and delete workers are handed: the local
    store of not-yet-synced records and the remote run data source. Both are
    outside the modelled core; they are given just the behaviour the workers rely
    on. */
module SyncCollaborators {
  import opened Domain

  /** A run created locally whose upload has not been confirmed. */
  datatype RunPendingSyncEntity = RunPendingSyncEntity(run: Run, mapPictureBytes: Bytes)

  /** A run deleted locally whose remote deletion has not been confirmed. */
  datatype DeletedRunSyncEntity = DeletedRunSyncEntity(runId: RunId)

  /** `RunPendingSyncDao`: two tables of pending records, each keyed by run id. */
  class RunPendingSyncDao {
    var runPendingSync: map<RunId, RunPendingSyncEntity>
    var deletedRunSync: map<RunId, DeletedRunSyncEntity>

    constructor (runPendingSync: map<RunId, RunPendingSyncEntity>, deletedRunSync: map<RunId, DeletedRunSyncEntity>)
      ensures this.runPendingSync == runPendingSync && this.deletedRunSync == deletedRunSync
    {
      this.runPendingSync := runPendingSync;
      this.deletedRunSync := deletedRunSync;
    }

    /** The pending-create record for `runId`, if there is one. */
    method GetRunPendingSyncEntity(runId: RunId) returns (e: Option<RunPendingSyncEntity>)
      ensures e.Some? <==> runId in runPendingSync
      ensures e.Some? ==> e.value == runPendingSync[runId]
    {
      if runId in runPendingSync {
        e := Some(runPendingSync[runId]);
      } else {
        e := None;
      }
    }

    /** Removes the pending-create record for `runId` and nothing else. */
    method DeleteRunPendingSyncEntity(runId: RunId)
      modifies this`runPendingSync
      ensures runPendingSync == old(runPendingSync) - {runId}
    {
      runPendingSync := runPendingSync - {runId};
    }

    /** Removes the pending-delete record for `runId` and nothing else. */
    method DeleteDeletedRunSyncEntity(runId: RunId)
      modifies this`deletedRunSync
      ensures deletedRunSync == old(deletedRunSync) - {runId}
    {
      deletedRunSync := deletedRunSync - {runId};
    }
  }

  /** A request a worker sends to the remote service. */
  datatype RemoteCall = PostRunCall(run: Run, mapPicture: Bytes) | DeleteRunCall(id: RunId)

  /** `RemoteRunDataSource`: the network boundary. Every request is logged in
      `calls`; the answer to the n-th request is `respond(n, request)`, an
      arbitrary oracle that stands for the network and the server. */
  class RemoteRunDataSource {
    var calls: seq<RemoteCall>
    const respond: (nat, RemoteCall) -> EmptyResult

    constructor (respond: (nat, RemoteCall) -> EmptyResult)
      ensures calls == [] && this.respond == respond
    {
      calls := [];
      this.respond := respond;
    }

    /** The answer the oracle gives to `call` if it is the next request. */
    function NextAnswer(call: RemoteCall): EmptyResult
      reads this
    {
      respond(|calls|, call)
    }

    method PostRun(run: Run, mapPicture: Bytes) returns (r: EmptyResult)
      modifies this`calls
      ensures calls == old(calls) + [PostRunCall(run, mapPicture)]
      ensures r == old(NextAnswer(PostRunCall(run, mapPicture)))
    {
      r := respond(|calls|, PostRunCall(run, mapPicture));
      calls := calls + [PostRunCall(run, mapPicture)];
    }

    method DeleteRun(id: RunId) returns (r: EmptyResult)
      modifies this`calls
      ensures calls == old(calls) + [DeleteRunCall(id)]
      ensures r == old(NextAnswer(DeleteRunCall(id)))
    {
      r := respond(|calls|, DeleteRunCall(id));
      calls := calls + [DeleteRunCall(id)];
    }
  }
}
