# Runique background sync and active-run logic, in Dafny

This project models the decision logic of Runique, a run-tracking Android app.
It covers four pieces:

- **Background sync workers.** Three jobs keep the local run store and the
  remote service in step: `CreateRunWorker` uploads a run created offline,
  `DeleteRunWorker` deletes a run remotely after a local delete, and
  `FetchRunsWorker` refreshes the local cache. All three share an attempt
  ceiling (a job that has already run 5 times fails at once). All three turn a
  failed call into *retry* or *failure* through one classification of the ten
  `DataError` kinds.
- **The active-run screen.** `ActiveRunViewModel` reduces user actions over
  the screen's flags. It derives "is tracking" from the user's wish to track
  and the location permission. When a run is finished it hands the run to the
  repository, unless the trace is too short to save.
- **Duration and pace text.** Durations are printed as `HH:MM:SS` and paces as
  `M:SS / km`, using Kotlin's truncating `Long` and `Int` division and Java's `%02d`.
- **Auth-info mapping.** Session credentials are copied to and from their
  stored form.

Files, one module each:

- `domain.dfy`: shared values (`Run`, `DataError`, `EmptyResult`).
- `data_error_to_worker_result.dfy`: the error classification.
- `worker_policy.dfy`: the attempt ceiling and the outcome rule the workers share.
- `sync_collaborators.dfy`: the pending-sync store and the remote data source.
- `create_runs_worker.dfy`, `delete_run_worker.dfy`, `fetch_runs_worker.dfy`: the three workers.
- `active_run_view_model.dfy`: the active-run screen logic.
- `kotlin_format.dfy`, `run_data_formatters.dfy`: the number formatting and the duration and pace text.
- `auth_info_mapper.dfy`: the credential conversions.

The pending-sync store is a class. Its two tables are `map` fields keyed by run
id, and the workers remove entries in place. The remote service is a class that
logs every request. It answers the n-th request with `respond(n, request)`,
where `respond` can be any function. This lets the contracts state three
things: when the remote is called at all, that exactly the stored run is
uploaded, and that success is reported only after a remote success. The
active-run view model is also a class. It records the events it sends, the runs
it asks the repository to save and the calls it makes on the tracker.

A create job whose pending record is already gone returns `Result.failure()`
(CreateRunsWorker.kt lines 23-24); it is not treated as an idempotent success.
The model follows the code.

## Model

| member | source | states |
|---|---|---|
| `DataErrorToWorkerResult.ToWorkerResult` | run/data/src/main/java/com/pratik/run/data/DataErrorToWorkerResult.kt:6-19 | The result is never success. It is retry exactly for the six transient kinds (timeout, unauthorized, conflict, too many requests, no internet, server error) and failure for every other kind. |
| `DataErrorToWorkerResult.EveryDataErrorIsListed` | run/data/src/main/java/com/pratik/run/data/DataErrorToWorkerResult.kt:7-18 | The ten listed kinds cover every `DataError`, so the classification is total and gives retry or failure. |
| `DataErrorToWorkerResult.TerminalKinds` | run/data/src/main/java/com/pratik/run/data/DataErrorToWorkerResult.kt:8-17 | Disk full, payload too large, serialization and unknown each map to failure. |
| `DataErrorToWorkerResult.SixRetryableFourTerminal` | run/data/src/main/java/com/pratik/run/data/DataErrorToWorkerResult.kt:8-17 | There are exactly ten kinds. Six of them classify as retry and four as failure. |
| `WorkerPolicy.Settle` | run/data/src/main/java/com/pratik/run/data/CreateRunsWorker.kt:27-35 | A remote answer becomes success exactly when the call succeeded. An error becomes its classification, so retry implies a transient error. |
| `WorkerPolicy.AtMostFiveAttemptsPass` | run/data/src/main/java/com/pratik/run/data/CreateRunsWorker.kt:18-20 | Of the attempt counts 0, 1, 2, …, n-1, exactly min(n, 5) pass the `runAttemptCount >= 5` ceiling. |
| `SyncCollaborators.RunPendingSyncDao.GetRunPendingSyncEntity` | run/data/src/main/java/com/pratik/run/data/CreateRunsWorker.kt:23-24 | Returns the pending-create record for the id if one exists, and nothing otherwise. |
| `SyncCollaborators.RunPendingSyncDao.DeleteRunPendingSyncEntity` | run/data/src/main/java/com/pratik/run/data/CreateRunsWorker.kt:32 | Removes only the pending-create record for that id. The frame leaves the pending-delete table untouched. |
| `SyncCollaborators.RunPendingSyncDao.DeleteDeletedRunSyncEntity` | run/data/src/main/java/com/pratik/run/data/DeleteRunWorker.kt:28 | Removes only the pending-delete record for that id. The frame leaves the pending-create table untouched. |
| `SyncCollaborators.RemoteRunDataSource.PostRun` | run/data/src/main/java/com/pratik/run/data/CreateRunsWorker.kt:27 | Logs one upload of exactly this run and picture, and returns the oracle's answer to it. |
| `SyncCollaborators.RemoteRunDataSource.DeleteRun` | run/data/src/main/java/com/pratik/run/data/DeleteRunWorker.kt:23 | Logs one remote delete of exactly this id, and returns the oracle's answer to it. |
| `CreateRunsWorker.CreateRunWorker.DoWork` | run/data/src/main/java/com/pratik/run/data/CreateRunsWorker.kt:17-36 | If the ceiling is hit, the input id is missing or there is no pending record, the result is failure and neither the store nor the remote changes. Otherwise exactly one upload of the stored run and bytes is sent, and the result is the classification of its answer. On success only that id's pending record is removed. On any other result the record stays. Success implies the upload succeeded. The pending-delete table never changes. |
| `CreateRunsWorker.RetryUntilSettled` | run/data/src/main/java/com/pratik/run/data/CreateRunsWorker.kt:17-36 | The create job, re-run with attempt counts 0, 1, 2, … while it answers retry, settles on success or failure after at most six runs. Across all runs the remote receives at most five uploads, and the log only grows. The pending record is kept unless an upload succeeded. If every remote answer is a transient error, the job ends in failure after exactly five uploads and the record is still pending. |
| `DeleteRunWorker.DeleteRunWorker.DoWork` | run/data/src/main/java/com/pratik/run/data/DeleteRunWorker.kt:17-32 | If the ceiling is hit or the input id is missing, the result is failure and nothing changes. Otherwise the remote delete is sent with the input id, without any pending-record lookup, and the result is the classification of its answer. On success only that id's pending-delete record is removed. Otherwise the record stays. Success implies the remote delete succeeded. The pending-create table never changes. |
| `FetchRunsWorker.DoWork` | run/data/src/main/java/com/pratik/run/data/FetchRunsWorker.kt:14-24 | At the ceiling the result is failure. Below it, the result is success exactly when the repository's fetch succeeded, and an error gives that error's classification. |
| `FetchRunsWorker.RetryThenAbandon` | run/data/src/main/java/com/pratik/run/data/FetchRunsWorker.kt:15-21 | A transient error is retried at attempt counts 0-4. From count 5 on, the job fails whatever the fetch would return. |
| `FetchRunsWorker.CeilingIgnoresRepository` | run/data/src/main/java/com/pratik/run/data/FetchRunsWorker.kt:15-17 | At the ceiling, the result does not depend on the repository's answer. |
| `ActiveRunViewModel.Reduce` | run/presentation/src/main/java/com/pratik/run/presentation/active_run/ActiveRunViewModel.kt:60-94 | Only the finish click sets `isSavingRun` and `isRunFinished`. Only the toggle sets `hasStartedRunning`. No action clears any of the three. Only toggle, back and resume change `shouldTrack`. |
| `ActiveRunViewModel.ActionEffects` | run/presentation/src/main/java/com/pratik/run/presentation/active_run/ActiveRunViewModel.kt:60-94 | Back clears `shouldTrack` and resume sets it. Toggle starts the run and negates `shouldTrack`. Finish sets both `isRunFinished` and `isSavingRun`. The permission submissions copy the rationale flag. Dismiss clears both rationale flags. Each action leaves every other field unchanged. |
| `ActiveRunViewModel.ToggleTwice` | run/presentation/src/main/java/com/pratik/run/presentation/active_run/ActiveRunViewModel.kt:74-79 | Two toggles restore `shouldTrack`, and the only other change is `hasStartedRunning = true`. |
| `ActiveRunViewModel.ActionsKeepTelemetry` | run/presentation/src/main/java/com/pratik/run/presentation/active_run/ActiveRunViewModel.kt:60-94 | No action clears `hasStartedRunning` once it is set. No action changes the elapsed time, the trace or the current location. |
| `ActiveRunViewModel.ActiveRunViewModel.IsTracking` | run/presentation/src/main/java/com/pratik/run/presentation/active_run/ActiveRunViewModel.kt:37-44 | The screen tracks exactly when the user wants to track and location permission is granted; losing either stops tracking. |
| `ActiveRunViewModel.ActiveRunViewModel.RunToSave` | run/presentation/src/main/java/com/pratik/run/presentation/active_run/ActiveRunViewModel.kt:111-121 | The run handed to the repository has no id and no picture URL yet. It carries the elapsed time, the tracked distance and the clock reading. Its location is the current location, or (0,0) when none is known. |
| `ActiveRunViewModel.ActiveRunViewModel.constructor` | run/presentation/src/main/java/com/pratik/run/presentation/active_run/ActiveRunViewModel.kt:37-58 | The initial state is the default state with `shouldTrack = serviceActive && tracker.isTracking` and `hasStartedRunning = serviceActive`. Permission is not yet granted, so the screen is not tracking. The observers have told the tracker to stop observing location and not to track, so it is in step with the screen. |
| `ActiveRunViewModel.ActiveRunViewModel.OnAction` | run/presentation/src/main/java/com/pratik/run/presentation/active_run/ActiveRunViewModel.kt:60-99 | Every action except `OnRunProcessed` applies its state change and makes no direct call. The observers then tell the tracker to start or stop observing location if the permission changed, and pass on `isTracking` if it changed. If the tracker was in step with the screen before, it still is afterwards. Only a location-permission submission changes the permission, which it copies from the action. After back, or after a refused permission, the screen is not tracking. After resume it tracks exactly when permission is granted. `OnRunProcessed` has exactly `finishRun`'s effect. |
| `ActiveRunViewModel.ObserverCallsSync` | run/presentation/src/main/java/com/pratik/run/presentation/active_run/ActiveRunViewModel.kt:140-158 | Whatever the permission and `isTracking` change to, the calls the observers send leave the tracker last told the new permission and the new `isTracking`, provided it was last told the old ones. |
| `ActiveRunViewModel.AppendTrackerCall` | run/presentation/src/main/java/com/pratik/run/presentation/active_run/ActiveRunViewModel.kt:123-158 | A tracker call other than `setIsTracking` or a start/stop of observation changes neither of the last requests of those kinds. |
| `ActiveRunViewModel.ActiveRunViewModel.FinishRun` | run/presentation/src/main/java/com/pratik/run/presentation/active_run/ActiveRunViewModel.kt:101-138 | With no segment, or a first segment of at most one sample (`TooShortToSave`, line 103), only `isSavingRun` is cleared and nothing is saved, sent or called. Otherwise it makes one tracker `finishRun` call and one `upsertRun` of the run built from the elapsed time, the distance, the clock reading and the location (0,0 when unknown). It then sends one event, `RunSaved` or the error, and clears `isSavingRun`. A tracker that was in step with the screen stays in step. |
| `ActiveRunViewModel.ActiveRunViewModel.OnCleared` | run/presentation/src/main/java/com/pratik/run/presentation/active_run/ActiveRunViewModel.kt:183-188 | Location observation is stopped exactly when the foreground service is not active. |
| `ActiveRunViewModel.ActiveRunViewModel.OnTrackerLocation` | run/presentation/src/main/java/com/pratik/run/presentation/active_run/ActiveRunViewModel.kt:161-166 | A tracker location update replaces only the current location. |
| `ActiveRunViewModel.ActiveRunViewModel.OnTrackerRunData` | run/presentation/src/main/java/com/pratik/run/presentation/active_run/ActiveRunViewModel.kt:168-173 | A tracker trace update replaces only the run data. |
| `ActiveRunViewModel.ActiveRunViewModel.OnTrackerElapsedTime` | run/presentation/src/main/java/com/pratik/run/presentation/active_run/ActiveRunViewModel.kt:175-180 | A tracker elapsed-time update replaces only the elapsed time. |
| `KotlinFormat.Quot` | core/presentation/ui/src/main/java/com/pratik/core/presentation/ui/RunDataFormatters.kt:11 | Long and Int division truncates toward zero. The remainder it leaves has the sign of the dividend and is smaller than the divisor. It agrees with floor division for non-negative operands. |
| `KotlinFormat.Rem` | core/presentation/ui/src/main/java/com/pratik/core/presentation/ui/RunDataFormatters.kt:12-13 | Long and Int remainder: quotient times divisor plus remainder gives back the dividend, and the remainder carries the dividend's sign. |
| `KotlinFormat.Pad2` | core/presentation/ui/src/main/java/com/pratik/core/presentation/ui/RunDataFormatters.kt:11-13 | `%02d` gives at least two characters. For a non-negative number the text is all digits and reads back as that number, with exactly two characters below 100 and no leading zero above. A negative number starts with '-'. |
| `KotlinFormat.DecimalString` | core/presentation/ui/src/main/java/com/pratik/core/presentation/ui/RunDataFormatters.kt:28 | The unpadded decimal text of a non-negative number is all digits, has no leading zero and reads back as the number. |
| `RunDataFormatters.InWholeSeconds` | core/presentation/ui/src/main/java/com/pratik/core/presentation/ui/RunDataFormatters.kt:10 | For a non-negative duration, this is the whole number of seconds it contains. |
| `RunDataFormatters.SplitSeconds` | core/presentation/ui/src/main/java/com/pratik/core/presentation/ui/RunDataFormatters.kt:10-13 | hours·3600 + minutes·60 + seconds equals the total for every total, so the split is lossless. For a non-negative total, minutes and seconds lie in 0..59. For a negative total they lie in -59..0. |
| `RunDataFormatters.Formatted` | core/presentation/ui/src/main/java/com/pratik/core/presentation/ui/RunDataFormatters.kt:9-16 | A non-negative duration prints as digits, ':', two digits, ':', two digits. The text is 8 characters long below 100 hours, and a longer text has no leading zero. |
| `RunDataFormatters.FormattedRoundTrip` | core/presentation/ui/src/main/java/com/pratik/core/presentation/ui/RunDataFormatters.kt:9-16 | Reading the printed text back gives the hours, minutes and seconds fields, and these add up to the duration's whole seconds. |
| `RunDataFormatters.ToFormattedPaceAsWritten` | core/presentation/ui/src/main/java/com/pratik/core/presentation/ui/RunDataFormatters.kt:20-29 | The result is "-" exactly when the duration is zero or the distance is not positive (`NoPace`, line 21). Otherwise, for a non-negative `secondsPerKm`, the text reads back as two fields: minutes = `secondsPerKm / 60`, and after ':' those minutes modulo 60. The minutes are not zero-padded. |
| `RunDataFormatters.AsWrittenMisprintsPace` | core/presentation/ui/src/main/java/com/pratik/core/presentation/ui/RunDataFormatters.kt:24-28 | 330 s over 1 km (330 s/km) prints as "5:05 / km": the fields read back are 5 and 5, not 5 and 30. |
| `RunDataFormatters.AsWrittenSecondsField` | core/presentation/ui/src/main/java/com/pratik/core/presentation/ui/RunDataFormatters.kt:25-26 | Whenever the minutes modulo 60 differ from `secondsPerKm % 60`, the field after ':' is not the pace's leftover seconds. |
| `RunDataFormatters.ToFormattedPace` | core/presentation/ui/src/main/java/com/pratik/core/presentation/ui/RunDataFormatters.kt:20-29 | With the seconds field taken from `secondsPerKm % 60`, the result is "-" exactly under the guard. Otherwise the text reads back as minutes = `secondsPerKm / 60` and a seconds field in 0..59, and minutes·60 + seconds is exactly `secondsPerKm`. The minutes are not zero-padded. |
| `RunDataFormatters.CorrectedPrintsPace` | core/presentation/ui/src/main/java/com/pratik/core/presentation/ui/RunDataFormatters.kt:24-28 | With the correction, 330 s over 1 km prints as "5:30 / km". |
| `AuthInfoMapper.ToAuthInfoSerializable` | core/data/src/main/java/com/pratik/core/data/auth/AuthInfoMapper.kt:5-11 | Access token, refresh token and user id are each copied to the field of the same name. |
| `AuthInfoMapper.ToAuthInfo` | core/data/src/main/java/com/pratik/core/data/auth/AuthInfoMapper.kt:13-19 | Access token, refresh token and user id are each copied to the field of the same name. |
| `AuthInfoMapper.StoreThenLoad` | core/data/src/main/java/com/pratik/core/data/auth/AuthInfoMapper.kt:5-19 | Converting credentials to the stored form and back gives the same credentials. |
| `AuthInfoMapper.LoadThenStore` | core/data/src/main/java/com/pratik/core/data/auth/AuthInfoMapper.kt:5-19 | Converting a stored record to credentials and back gives the same record. |
| `AuthInfoMapper.ConversionsAreInjective` | core/data/src/main/java/com/pratik/core/data/auth/AuthInfoMapper.kt:5-19 | Neither conversion maps two different inputs to the same output. |

## Left out

- The job scheduler (WorkManager) is not modelled beyond `CreateRunsWorker.RetryUntilSettled`, which re-runs the create job with attempt counts 0, 1, 2, … while it answers retry. Back-off delays, constraints and how workers are built from their parameters are left out. The attempt count and the `RUN_ID` input are given to each worker.
- The pending-sync DAO, the remote data source and the run repository are collaborators. They get only the behaviour the workers and the view model rely on. The answers of the remote and the repository are an arbitrary oracle.
- The entity-to-domain mapper `toRun()` is not part of this model. The pending-create record holds the domain run directly, so "the run posted" means the run stored.
- `FetchRunsWorker.DoWork`: "`fetchRuns()` is not called at the ceiling" is stated as "the result does not depend on its answer". A pure function cannot show that the call was skipped.
- `ActiveRunViewModel.ActiveRunViewModel.constructor`: `ActiveRunState.kt` is not part of this model, so the default state `ActiveRunState()` is a parameter rather than concrete values.
- Coroutines and flows (`Channel`, `StateFlow`, `combine`, `launchIn`, `viewModelScope.launch`) are flattened into sequential calls. The event channel is a list of sent events. `finishRun`'s launched block runs to completion at once.
- ActiveRunViewModel.ActiveRunViewModel.OnAction: the two observers' calls are appended right after the action, the permission observer's first. In the app they run as separate coroutines, so the order between the two calls is not fixed there.
- The saved run omits `maxSpeedKmh` and `totalElevationMeters`: they come from floating-point calculations that are not part of this model. The error text `asUiText()` is not modelled either: events carry the `DataError`.
- `ZonedDateTime.now()` and `ActiveRunService.isServiceActive` are parameters of the methods that read them.
- Floating point: `toFormattedKm` and `roundToDecimals` are not modelled, nor the division and `roundToInt` inside `toFormattedPace`. The rounded seconds per kilometre is an input of the pace functions.
- `Duration` is modelled as a whole number of nanoseconds. Infinite durations are not modelled.
- The `Flow` of runs, `syncPendingRuns`, `deleteAllRuns` and `logout` of the repository are not modelled: only its interface is available.

## Findings

| source | as written | input that shows it | evidently intended | confidence | as-written member | corrected member |
|---|---|---|---|---|---|---|
| core/presentation/ui/src/main/java/com/pratik/core/presentation/ui/RunDataFormatters.kt:26 | the seconds field of the pace is `avgPaceMinutes % 60`, the minutes again | `secondsPerKm = 330` (a 5:30 / km pace) prints "5:05 / km" | the seconds field is `secondsPerKm % 60`, printing "5:30 / km" | high (not executed) | `RunDataFormatters.ToFormattedPaceAsWritten`, shown by `RunDataFormatters.AsWrittenMisprintsPace` and `RunDataFormatters.AsWrittenSecondsField` | `RunDataFormatters.ToFormattedPace`, whose text reads back as `secondsPerKm / 60` and `secondsPerKm % 60`, a seconds field in 0..59 |
