/** Values shared by the run, sync and auth features: the domain's run record,
    its error taxonomy and the result type the repositories and remote data
    sources return. */
module Domain {

  datatype Option<+T> = None | Some(value: T) {
    function GetOr(default: T): T {
      match this
      case Some(v) => v
      case None => default
    }
  }

  type RunId = string

  /** A ByteArray such as a map picture. */
  type Bytes = seq<bv8>

  /** A `kotlin.time.Duration`, as a whole number of nanoseconds (may be negative). */
  type Duration = int

  /** A UTC instant, as read from the wall clock. */
  type Instant = int

  datatype Location = Location(lat: real, long: real)

  /** The domain run. The Double-valued `maxSpeedKmh` and `totalElevationMeters`
      are not part of this model. */
  datatype Run = Run(
    id: Option<RunId>,
    duration: Duration,
    dateTimeUtc: Instant,
    distanceMeters: int,
    location: Location,
    mapPictureUrl: Option<string>)

  /** `DataError.Local`: errors of the device's own storage. */
  datatype LocalError = DiskFull

  /** `DataError.Network`: errors reported by the remote service or the transport. */
  datatype NetworkError =
    | RequestTimeOut
    | Unauthorized
    | Conflict
    | TooManyRequest
    | NoInternet
    | PayloadTooLarge
    | ServerError
    | Serialization
    | Unknown

  /** The sealed `DataError` hierarchy: exactly one local and nine network kinds. */
  datatype DataError = Local(local: LocalError) | Network(network: NetworkError)

  /** `EmptyResult<DataError>`: `Result.Success(Unit)` or `Result.Error(error)`. */
  datatype EmptyResult = Ok | Error(error: DataError)
}
