/** How a background worker turns a failed remote or local operation into a
    verdict for the job scheduler: try again later, or give up. */
module DataErrorToWorkerResult {
  import opened Domain

  /** `ListenableWorker.Result`: what a worker reports back to the scheduler. */
  datatype WorkerResult = Success | Retry | Failure

  /** Every kind of `DataError`. */
  const AllDataErrors: set<DataError> := {
    Local(DiskFull),
    Network(RequestTimeOut), Network(Unauthorized), Network(Conflict),
    Network(TooManyRequest), Network(NoInternet), Network(PayloadTooLarge),
    Network(ServerError), Network(Serialization), Network(Unknown)
  }

  /** The transient kinds: those worth another attempt. */
  const RetryableErrors: set<DataError> := {
    Network(RequestTimeOut), Network(Unauthorized), Network(Conflict),
    Network(TooManyRequest), Network(NoInternet), Network(ServerError)
  }

  /** `DataError.toWorkerResult()`: never success; retry exactly for the transient
      kinds, failure for all others. */
  function ToWorkerResult(e: DataError): (r: WorkerResult)
    ensures r != Success
    ensures r == Retry <==> e in RetryableErrors
    ensures r == Failure <==> e !in RetryableErrors
  {
    match e
    case Local(DiskFull) => Failure
    case Network(RequestTimeOut) => Retry
    case Network(Unauthorized) => Retry
    case Network(Conflict) => Retry
    case Network(TooManyRequest) => Retry
    case Network(NoInternet) => Retry
    case Network(PayloadTooLarge) => Failure
    case Network(ServerError) => Retry
    case Network(Serialization) => Failure
    case Network(Unknown) => Failure
  }

  /** The list of kinds is complete, so the classification is total over it. */
  lemma EveryDataErrorIsListed(e: DataError)
    ensures e in AllDataErrors
    ensures ToWorkerResult(e) in {Retry, Failure}
  {
    match e
    case Local(DiskFull) =>
    case Network(n) =>
      match n
      case RequestTimeOut =>
      case Unauthorized =>
      case Conflict =>
      case TooManyRequest =>
      case NoInternet =>
      case PayloadTooLarge =>
      case ServerError =>
      case Serialization =>
      case Unknown =>
  }

  /** The one local error and the three non-transient network errors are terminal. */
  lemma TerminalKinds()
    ensures ToWorkerResult(Local(DiskFull)) == Failure
    ensures ToWorkerResult(Network(PayloadTooLarge)) == Failure
    ensures ToWorkerResult(Network(Serialization)) == Failure
    ensures ToWorkerResult(Network(Unknown)) == Failure
  {
  }

  /** Six of the ten kinds are retryable and the other four are terminal. */
  lemma SixRetryableFourTerminal()
    ensures |AllDataErrors| == 10
    ensures |set e | e in AllDataErrors && ToWorkerResult(e) == Retry| == 6
    ensures |set e | e in AllDataErrors && ToWorkerResult(e) == Failure| == 4
  {
    var retrying := set e | e in AllDataErrors && ToWorkerResult(e) == Retry;
    var failing := set e | e in AllDataErrors && ToWorkerResult(e) == Failure;
    var terminal := {Local(DiskFull), Network(PayloadTooLarge), Network(Serialization), Network(Unknown)};
    assert retrying == RetryableErrors;
    assert failing == terminal;
    assert AllDataErrors == RetryableErrors + terminal;
    assert |RetryableErrors| == 6;
    assert |terminal| == 4;
  }
}
