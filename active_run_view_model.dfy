/** The screen logic of an active run: a reducer over the screen's flags, the
    derived "is tracking" signal, and the hand-over of a finished run to the
    repository. Flows and coroutines are flattened into sequential method calls. */
module ActiveRunViewModel {
  import opened Domain

  datatype LocationTimestamp = LocationTimestamp(location: Location, altitudeMeters: real, durationTimestamp: Duration)

  /** The tracker's live trace: one list of samples per segment between pauses. */
  datatype RunData = RunData(distanceMeters: int, locations: seq<seq<LocationTimestamp>>)

  datatype ActiveRunState = ActiveRunState(
    elapsedTime: Duration,
    runData: RunData,
    shouldTrack: bool,
    hasStartedRunning: bool,
    currentLocation: Option<Location>,
    isRunFinished: bool,
    isSavingRun: bool,
    showLocationRationale: bool,
    showNotificationRationale: bool)

  datatype ActiveRunAction =
    | OnToggleRunClick
    | OnFinishRunClick
    | OnResumeRunClick
    | OnBackClick
    | SubmitLocationPermissionInfo(acceptedLocationPermission: bool, showLocationRationale: bool)
    | SubmitNotificationPermissionInfo(acceptedNotificationPermission: bool, showNotificationRationale: bool)
    | DismissRationaleDialog
    | OnRunProcessed(mapPictureBytes: Bytes)

  /** What the screen is told through the event channel. The error is kept as the
      `DataError`; its conversion to display text is not part of this model. */
  datatype ActiveRunEvent = RunSaved | SaveError(error: DataError)

  /** Requests the view model makes of the running tracker. */
  datatype TrackerCall =
    | FinishTracking
    | StartObservingLocation
    | StopObservingLocation
    | SetIsTracking(isTracking: bool)

  /** The value the tracker was last told by `setIsTracking`, if any. */
  function LastTrackingCall(calls: seq<TrackerCall>): Option<bool> {
    if calls == [] then None
    else if calls[|calls| - 1].SetIsTracking? then Some(calls[|calls| - 1].isTracking)
    else LastTrackingCall(calls[..|calls| - 1])
  }

  /** Whether the tracker was last told to start (true) or stop (false) observing
      location, if it was told at all. */
  function LastObservingCall(calls: seq<TrackerCall>): Option<bool> {
    if calls == [] then None
    else if calls[|calls| - 1].StartObservingLocation? then Some(true)
    else if calls[|calls| - 1].StopObservingLocation? then Some(false)
    else LastObservingCall(calls[..|calls| - 1])
  }

  /** Appending one call changes the last tracking and observing requests only
      when the call is one of them. */
  lemma AppendTrackerCall(calls: seq<TrackerCall>, c: TrackerCall)
    ensures LastTrackingCall(calls + [c]) == if c.SetIsTracking? then Some(c.isTracking) else LastTrackingCall(calls)
    ensures LastObservingCall(calls + [c]) ==
      if c.StartObservingLocation? then Some(true)
      else if c.StopObservingLocation? then Some(false)
      else LastObservingCall(calls)
  {
    assert (calls + [c])[..|calls|] == calls;
  }

  /** What the two observers send the tracker when the permission and the derived
      `isTracking` go from the first pair of values to the second: a state flow
      only emits a changed value. */
  function ObserverCalls(permissionBefore: bool, permissionAfter: bool,
                         trackingBefore: bool, trackingAfter: bool): seq<TrackerCall>
  {
    (if permissionBefore == permissionAfter then []
     else if permissionAfter then [StartObservingLocation] else [StopObservingLocation])
    + (if trackingBefore == trackingAfter then [] else [SetIsTracking(trackingAfter)])
  }

  /** After the observers have reacted, the tracker was last told the current
      permission and the current `isTracking`. */
  lemma {:induction false} ObserverCallsSync(calls: seq<TrackerCall>, permissionBefore: bool, permissionAfter: bool,
                                             trackingBefore: bool, trackingAfter: bool)
    requires LastObservingCall(calls) == Some(permissionBefore)
    requires LastTrackingCall(calls) == Some(trackingBefore)
    ensures var after := calls + ObserverCalls(permissionBefore, permissionAfter, trackingBefore, trackingAfter);
      && LastObservingCall(after) == Some(permissionAfter)
      && LastTrackingCall(after) == Some(trackingAfter)
  {
    var first := if permissionBefore == permissionAfter then []
                 else if permissionAfter then [StartObservingLocation] else [StopObservingLocation];
    var second := if trackingBefore == trackingAfter then [] else [SetIsTracking(trackingAfter)];
    assert ObserverCalls(permissionBefore, permissionAfter, trackingBefore, trackingAfter) == first + second;
    assert calls + (first + second) == (calls + first) + second;
    if first != [] {
      AppendTrackerCall(calls, first[0]);
    } else {
      assert calls + first == calls;
    }
    assert LastObservingCall(calls + first) == Some(permissionAfter);
    assert LastTrackingCall(calls + first) == Some(trackingBefore);
    if second != [] {
      AppendTrackerCall(calls + first, second[0]);
    } else {
      assert (calls + first) + second == calls + first;
    }
  }

  /** A call of the repository's `upsertRun`. */
  datatype UpsertCall = UpsertCall(run: Run, mapPicture: Bytes)

  /** The `state.copy(...)` that `onAction` applies for every action except
      `OnRunProcessed`, which hands over to `finishRun`. Only the finish click
      asks for the run to be saved, only the toggle starts a run, and only back,
      resume and toggle change whether the user wants to track. */
  function Reduce(s: ActiveRunState, action: ActiveRunAction): (r: ActiveRunState)
    requires !action.OnRunProcessed?
    ensures r.isSavingRun == (s.isSavingRun || action.OnFinishRunClick?)
    ensures r.isRunFinished == (s.isRunFinished || action.OnFinishRunClick?)
    ensures r.hasStartedRunning == (s.hasStartedRunning || action.OnToggleRunClick?)
    ensures r.shouldTrack != s.shouldTrack ==>
      action.OnToggleRunClick? || action.OnBackClick? || action.OnResumeRunClick?
  {
    match action
    case OnBackClick => s.(shouldTrack := false)
    case OnFinishRunClick => s.(isRunFinished := true, isSavingRun := true)
    case OnResumeRunClick => s.(shouldTrack := true)
    case OnToggleRunClick => s.(hasStartedRunning := true, shouldTrack := !s.shouldTrack)
    case SubmitLocationPermissionInfo(_, show) => s.(showLocationRationale := show)
    case SubmitNotificationPermissionInfo(_, show) => s.(showNotificationRationale := show)
    case DismissRationaleDialog => s.(showLocationRationale := false, showNotificationRationale := false)
  }

  /** The per-action effects: each action changes the named flags and no other field. */
  lemma ActionEffects(s: ActiveRunState, accepted: bool, show: bool)
    ensures Reduce(s, OnBackClick) == s.(shouldTrack := false)
    ensures Reduce(s, OnResumeRunClick) == s.(shouldTrack := true)
    ensures Reduce(s, OnToggleRunClick) == s.(hasStartedRunning := true, shouldTrack := !s.shouldTrack)
    ensures Reduce(s, OnFinishRunClick) == s.(isRunFinished := true, isSavingRun := true)
    ensures Reduce(s, SubmitLocationPermissionInfo(accepted, show)) == s.(showLocationRationale := show)
    ensures Reduce(s, SubmitNotificationPermissionInfo(accepted, show)) == s.(showNotificationRationale := show)
    ensures var t := Reduce(s, DismissRationaleDialog);
      !t.showLocationRationale && !t.showNotificationRationale
      && t == s.(showLocationRationale := false, showNotificationRationale := false)
  {
  }

  /** Toggling twice restores `shouldTrack`; the run then counts as started. */
  lemma ToggleTwice(s: ActiveRunState)
    ensures Reduce(Reduce(s, OnToggleRunClick), OnToggleRunClick) == s.(hasStartedRunning := true)
  {
  }

  /** No action un-starts a run or touches the tracker's data (elapsed time, trace,
      current location); those change only through the tracker's own updates. */
  lemma ActionsKeepTelemetry(s: ActiveRunState, action: ActiveRunAction)
    requires !action.OnRunProcessed?
    ensures s.hasStartedRunning ==> Reduce(s, action).hasStartedRunning
    ensures Reduce(s, action).elapsedTime == s.elapsedTime
    ensures Reduce(s, action).runData == s.runData
    ensures Reduce(s, action).currentLocation == s.currentLocation
  {
  }

  /** `finishRun`'s guard: a trace with no segment, or whose first segment has at
      most one sample, is not worth saving. */
  predicate TooShortToSave(locations: seq<seq<LocationTimestamp>>) {
    |locations| == 0 || |locations[0]| <= 1
  }

  /** `ActiveRunViewModel`. Besides the screen state it records what it asks of
      its collaborators: the events sent to the screen, the runs handed to the
      repository and the calls made on the tracker, both the direct ones
      (`finishRun`, `onCleared`) and those of the observers of the permission and
      of `isTracking`. `upsertRun(n, run, bytes)` is the repository's answer to its
      n-th save request. */
  class ActiveRunViewModel {
    var state: ActiveRunState
    var hasLocationPermission: bool
    var events: seq<ActiveRunEvent>
    var upsertCalls: seq<UpsertCall>
    var trackerCalls: seq<TrackerCall>
    const upsertRun: (nat, Run, Bytes) -> EmptyResult

    /** `isTracking`: the tracker records samples only when the user wants to
        track and location permission is granted. */
    function IsTracking(): (r: bool)
      reads this
      ensures r <==> state.shouldTrack && hasLocationPermission
    {
      state.shouldTrack && hasLocationPermission
    }

    /** The tracker was last told the current permission and the current
        `isTracking`, as the two observers keep it. */
    predicate TrackerInSync()
      reads this
    {
      LastObservingCall(trackerCalls) == Some(hasLocationPermission)
      && LastTrackingCall(trackerCalls) == Some(IsTracking())
    }

    /** Construction: `initial` is `ActiveRunState()`. The observers start first
        and pass on the initial values: no permission, so location observation is
        stopped, and `isTracking` false. The `init` block then restores tracking
        from the foreground service, which keeps running while a run is active,
        and from the tracker; without permission `isTracking` stays false. */
    constructor (initial: ActiveRunState, isServiceActive: bool, trackerIsTracking: bool,
                 upsertRun: (nat, Run, Bytes) -> EmptyResult)
      ensures state == initial.(shouldTrack := isServiceActive && trackerIsTracking,
                                hasStartedRunning := isServiceActive)
      ensures !hasLocationPermission && !IsTracking()
      ensures events == [] && upsertCalls == []
      ensures trackerCalls == [StopObservingLocation, SetIsTracking(false)]
      ensures TrackerInSync()
      ensures this.upsertRun == upsertRun
    {
      state := initial.(shouldTrack := isServiceActive && trackerIsTracking,
                        hasStartedRunning := isServiceActive);
      hasLocationPermission := false;
      events := [];
      upsertCalls := [];
      trackerCalls := [StopObservingLocation, SetIsTracking(false)];
      this.upsertRun := upsertRun;
    }

    /** `onAction`. `nowUtc` is the wall-clock reading `finishRun` stamps on a
        saved run; no other action uses it. */
    method OnAction(action: ActiveRunAction, nowUtc: Instant)
      modifies this
      ensures !action.OnRunProcessed? ==> state == Reduce(old(state), action)
      ensures !action.OnRunProcessed? ==> events == old(events) && upsertCalls == old(upsertCalls)
      // The observers react to a changed permission and a changed `isTracking`.
      ensures !action.OnRunProcessed? ==>
        trackerCalls == old(trackerCalls)
          + ObserverCalls(old(hasLocationPermission), hasLocationPermission, old(IsTracking()), IsTracking())
      ensures old(TrackerInSync()) ==> TrackerInSync()
      ensures action.SubmitLocationPermissionInfo? ==>
        hasLocationPermission == action.acceptedLocationPermission
      ensures !action.SubmitLocationPermissionInfo? ==> hasLocationPermission == old(hasLocationPermission)
      ensures action.OnBackClick? ==> !IsTracking()
      ensures action.OnResumeRunClick? ==> IsTracking() == hasLocationPermission
      ensures action.SubmitLocationPermissionInfo? && !action.acceptedLocationPermission ==> !IsTracking()
      ensures action.OnRunProcessed? ==> FinishRunEffect(action.mapPictureBytes, nowUtc)
    {
      if action.OnRunProcessed? {
        FinishRun(action.mapPictureBytes, nowUtc);
        return;
      }
      var permissionBefore, trackingBefore := hasLocationPermission, IsTracking();
      if action.SubmitLocationPermissionInfo? {
        hasLocationPermission := action.acceptedLocationPermission;
      }
      state := Reduce(state, action);
      if LastObservingCall(trackerCalls) == Some(permissionBefore) && LastTrackingCall(trackerCalls) == Some(trackingBefore) {
        ObserverCallsSync(trackerCalls, permissionBefore, hasLocationPermission, trackingBefore, IsTracking());
      }
      trackerCalls := trackerCalls + ObserverCalls(permissionBefore, hasLocationPermission, trackingBefore, IsTracking());
    }

    /** The run `finishRun` saves: no id yet, the tracker's elapsed time and
        distance, the current location (or 0,0 when unknown) and no picture URL. */
    function RunToSave(nowUtc: Instant): (r: Run)
      reads this
      ensures r.id.None? && r.mapPictureUrl.None?
      ensures r.duration == state.elapsedTime && r.distanceMeters == state.runData.distanceMeters
      ensures r.dateTimeUtc == nowUtc
      ensures state.currentLocation.Some? ==> r.location == state.currentLocation.value
      ensures state.currentLocation.None? ==> r.location == Location(0.0, 0.0)
    {
      Run(
        id := None,
        duration := state.elapsedTime,
        dateTimeUtc := nowUtc,
        distanceMeters := state.runData.distanceMeters,
        location := state.currentLocation.GetOr(Location(0.0, 0.0)),
        mapPictureUrl := None)
    }

    /** What `finishRun` does, relating the state before it to the state after. */
    twostate predicate FinishRunEffect(mapPictureBytes: Bytes, nowUtc: Instant)
      reads this
    {
      && state == old(state).(isSavingRun := false)
      && hasLocationPermission == old(hasLocationPermission)
      && if TooShortToSave(old(state).runData.locations) then
           // Nothing saved: no tracker call, no repository call, no event.
           && events == old(events) && upsertCalls == old(upsertCalls) && trackerCalls == old(trackerCalls)
         else
           var run := old(RunToSave(nowUtc));
           var answer := upsertRun(|old(upsertCalls)|, run, mapPictureBytes);
           && trackerCalls == old(trackerCalls) + [FinishTracking]
           && upsertCalls == old(upsertCalls) + [UpsertCall(run, mapPictureBytes)]
           && events == old(events) + [if answer.Ok? then RunSaved else SaveError(answer.error)]
    }

    /** `finishRun`. */
    method FinishRun(mapPictureBytes: Bytes, nowUtc: Instant)
      modifies this
      ensures FinishRunEffect(mapPictureBytes, nowUtc)
      ensures old(TrackerInSync()) ==> TrackerInSync()
    {
      var locations := state.runData.locations;
      if |locations| == 0 || |locations[0]| <= 1 {
        state := state.(isSavingRun := false);
        return;
      }
      var run := RunToSave(nowUtc);
      AppendTrackerCall(trackerCalls, FinishTracking);
      trackerCalls := trackerCalls + [FinishTracking];
      var result := upsertRun(|upsertCalls|, run, mapPictureBytes);
      upsertCalls := upsertCalls + [UpsertCall(run, mapPictureBytes)];
      match result {
        case Error(e) =>
          events := events + [SaveError(e)];
        case Ok =>
          events := events + [RunSaved];
      }
      state := state.(isSavingRun := false);
    }

    /** `onCleared`: location updates stop with the screen unless the foreground
        service still needs them. */
    method OnCleared(isServiceActive: bool)
      modifies this`trackerCalls
      ensures trackerCalls == old(trackerCalls) + (if isServiceActive then [] else [StopObservingLocation])
    {
      if !isServiceActive {
        trackerCalls := trackerCalls + [StopObservingLocation];
      }
    }

    /** The tracker's current-location updates. */
    method OnTrackerLocation(location: Option<Location>)
      modifies this`state
      ensures state == old(state).(currentLocation := location)
    {
      state := state.(currentLocation := location);
    }

    /** The tracker's trace updates. */
    method OnTrackerRunData(runData: RunData)
      modifies this`state
      ensures state == old(state).(runData := runData)
    {
      state := state.(runData := runData);
    }

    /** The tracker's elapsed-time updates. */
    method OnTrackerElapsedTime(elapsedTime: Duration)
      modifies this`state
      ensures state == old(state).(elapsedTime := elapsedTime)
    {
      state := state.(elapsedTime := elapsedTime);
    }
  }
}
