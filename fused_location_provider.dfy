/** The location source backed by the platform's fused location client: a quick cached
    fix first, then a live high-accuracy fix bounded by the caller's budget. The platform
    is a fake whose answers are fixed in advance; every call made to it is recorded. */
module FusedLocationProvider {
  import opened Wrappers
  import opened Text
  import opened LocationSample
  import opened LocationProvider

  const ErrLocationSettingsDisabled: string := "LOCATION_SETTINGS_DISABLED"
  /** How long the settings check is awaited. */
  const SettingsWaitMs: int := 500
  /** How long the last-known location is awaited. */
  const LastLocationWaitMs: int := 500
  /** The oldest cached fix that is still accepted. */
  const LastLocationMaxAgeMs: int := 5000

  /** A platform location: the `hasSpeed()` / `hasBearing()` flags say whether the
      speed and bearing fields carry a reading. */
  datatype Location = Location(
    latitude: real,
    longitude: real,
    accuracy: real,
    time: int,
    hasSpeed: bool,
    speed: real,
    hasBearing: bool,
    bearing: real)

  /** An asynchronous platform answer: delivered `delayMs` after the request, or never. */
  datatype Timed<T> = Answered(delayMs: nat, value: T) | NoAnswer {
    /** The answer, when it arrives before a wait of `budgetMs` ends. */
    function Within(budgetMs: int): (r: Option<T>)
      ensures r.Some? <==> Answered? && delayMs <= budgetMs
      ensures r.Some? ==> r.value == value
    {
      if Answered? && delayMs <= budgetMs then Some(value) else None
    }
  }

  /** The settings client's verdict on a high-accuracy request. */
  datatype SettingsResult = SettingsSatisfied | SettingsFailed(error: string)

  /** How a location task completes: success with a possibly null location, or failure. */
  datatype TaskResult = TaskSucceeded(location: Option<Location>) | TaskFailed(message: string)

  /** `lastLocation`: obtaining the task may itself throw; otherwise the task answers. */
  datatype LastLocationTask = LastLocationUnavailable | LastLocationTask(answer: Timed<TaskResult>)

  /** `getCurrentLocation`: the call throws SecurityException without permission;
      otherwise the task answers. */
  datatype CurrentLocationTask =
    | CurrentLocationDenied(message: Option<string>)
    | CurrentLocationTask(answer: Timed<TaskResult>)

  /** Everything the platform will answer during one acquisition, and the wall clock
      reading taken when the cached fix arrives. */
  datatype Platform = Platform(
    settings: Timed<SettingsResult>,
    lastLocation: LastLocationTask,
    now: int,
    currentLocation: CurrentLocationTask)

  /** The calls made to the platform, in order. */
  datatype PlatformCall = CheckLocationSettings | ReadLastLocation | RequestCurrentLocation | CancelToken

  /** `Location.toSample()`. */
  function ToSample(loc: Location): (s: LocationSample)
    ensures s.lat == loc.latitude && s.lng == loc.longitude
    ensures s.accuracy == loc.accuracy && s.timestampMillis == loc.time
    ensures s.speedMps.Some? <==> loc.hasSpeed
    ensures s.bearing.Some? <==> loc.hasBearing
    ensures loc.hasSpeed ==> s.speedMps.value == loc.speed
    ensures loc.hasBearing ==> s.bearing.value == loc.bearing
  {
    LocationSample(
      loc.latitude, loc.longitude, loc.accuracy, loc.time,
      if loc.hasSpeed then Some(loc.speed) else None,
      if loc.hasBearing then Some(loc.bearing) else None)
  }

  /** Two locations give the same sample exactly when they agree on every reported field. */
  lemma ToSampleForgetsOnlyUnreportedFields(a: Location, b: Location)
    ensures ToSample(a) == ToSample(b) <==>
      a.latitude == b.latitude && a.longitude == b.longitude && a.accuracy == b.accuracy &&
      a.time == b.time && a.hasSpeed == b.hasSpeed && a.hasBearing == b.hasBearing &&
      (a.hasSpeed ==> a.speed == b.speed) && (a.hasBearing ==> a.bearing == b.bearing)
  {
    if ToSample(a) == ToSample(b) {
      assert ToSample(a).speedMps == ToSample(b).speedMps;
      assert ToSample(a).bearing == ToSample(b).bearing;
    }
  }

  /** `checkLocationSettingsOrNull`: the settings error, when the failure arrives within
      the wait; a success, or no answer in time, leaves it null. */
  function SettingsErrorOrNull(settings: Timed<SettingsResult>): (error: Option<string>)
    ensures error.Some? <==>
      settings.Answered? && settings.delayMs <= SettingsWaitMs && settings.value.SettingsFailed?
    ensures error.Some? ==> error.value == settings.value.error
  {
    match settings.Within(SettingsWaitMs)
    case Some(SettingsFailed(e)) => Some(e)
    case _ => None
  }

  /** The non-null location the last-location task delivers within `waitMs`, if any. */
  function DeliveredFix(task: LastLocationTask, waitMs: int): Option<Location> {
    if task.LastLocationUnavailable? then None
    else match task.answer.Within(waitMs)
      case Some(TaskSucceeded(Some(loc))) => Some(loc)
      case _ => None
  }

  /** `getLastLocationQuick`: the delivered fix, accepted only when its age
      `now - time` is at most `maxAgeMs`. */
  function LastLocationQuick(task: LastLocationTask, now: int, waitMs: int, maxAgeMs: int): (r: Option<Location>)
    ensures r.Some? <==> DeliveredFix(task, waitMs).Some? && now - DeliveredFix(task, waitMs).value.time <= maxAgeMs
    ensures r.Some? ==> r == DeliveredFix(task, waitMs)
  {
    match DeliveredFix(task, waitMs)
    case Some(loc) => if now - loc.time <= maxAgeMs then Some(loc) else None
    case None => None
  }

  /** The cached fix that `getLastKnownOrCurrent` accepts. */
  function CachedFix(p: Platform): Option<Location> {
    LastLocationQuick(p.lastLocation, p.now, LastLocationWaitMs, LastLocationMaxAgeMs)
  }

  /** Whether the live request is still unanswered when the wait of `timeoutMs` ends. */
  predicate LiveTimedOut(task: CurrentLocationTask, timeoutMs: int) {
    task.CurrentLocationTask? && task.answer.Within(timeoutMs).None?
  }

  /** `getCurrentLocationHighAccuracy`: the location delivered within `timeoutMs` (null
      when the task failed, answered null, or did not answer in time), or the
      SecurityException the request threw. */
  function CurrentLocationHighAccuracy(task: CurrentLocationTask, timeoutMs: int): (r: Result<Option<Location>, Thrown>)
    ensures r.Failure? <==> task.CurrentLocationDenied?
    ensures r.Failure? ==> r.error == SecurityException(task.message)
    ensures r.Success? && r.value.Some? ==>
      task.answer.Answered? && task.answer.delayMs <= timeoutMs && task.answer.value == TaskSucceeded(r.value)
    ensures (task.CurrentLocationTask? && task.answer.Within(timeoutMs).Some? &&
             task.answer.value.TaskSucceeded?) ==> r == Success(task.answer.value.location)
    ensures (task.CurrentLocationTask? && (task.answer.Within(timeoutMs).None? || task.answer.value.TaskFailed?)) ==>
      r == Success(None)
  {
    match task
    case CurrentLocationDenied(m) => Failure(SecurityException(m))
    case CurrentLocationTask(answer) =>
      match answer.Within(timeoutMs)
      case Some(TaskSucceeded(loc)) => Success(loc)
      case _ => Success(None)
  }

  /** The message thrown when no live fix was obtained. */
  function TimeoutMessage(timeoutMs: int): (m: string)
    ensures |m| > 3 && m[0] == 'N' && m[|m| - 3..] == "ms."
  {
    "Não foi possível obter localização em " + IntToString(timeoutMs) + "ms."
  }

  /** What `getLastKnownOrCurrent(timeoutMs)` returns or throws on platform `p`. */
  function Acquire(p: Platform, timeoutMs: int): (r: Acquisition)
    ensures CachedFix(p).Some? ==> r == Success(ToSample(CachedFix(p).value))
    ensures r.Success? <==>
      (CachedFix(p).Some? ||
       (SettingsErrorOrNull(p.settings).None? && CurrentLocationHighAccuracy(p.currentLocation, timeoutMs).Success? &&
        CurrentLocationHighAccuracy(p.currentLocation, timeoutMs).value.Some?))
    ensures r.Success? && CachedFix(p).None? ==>
      r.value == ToSample(CurrentLocationHighAccuracy(p.currentLocation, timeoutMs).value.value)
  {
    if CachedFix(p).Some? then Success(ToSample(CachedFix(p).value))
    else if SettingsErrorOrNull(p.settings).Some? then
      Failure(IllegalStateException(Some(ErrLocationSettingsDisabled)))
    else match CurrentLocationHighAccuracy(p.currentLocation, timeoutMs)
      case Failure(e) => Failure(e)
      case Success(Some(loc)) => Success(ToSample(loc))
      case Success(None) => Failure(IllegalStateException(Some(TimeoutMessage(timeoutMs))))
  }

  /** The calls `getLastKnownOrCurrent(timeoutMs)` makes to platform `p`, in order. */
  function AcquireCalls(p: Platform, timeoutMs: int): (c: seq<PlatformCall>)
    ensures 2 <= |c| <= 4
    ensures |c| == 2 <==> CachedFix(p).Some? || SettingsErrorOrNull(p.settings).Some?
    ensures |c| == 4 <==>
      CachedFix(p).None? && SettingsErrorOrNull(p.settings).None? && LiveTimedOut(p.currentLocation, timeoutMs)
  {
    [CheckLocationSettings, ReadLastLocation] +
    if CachedFix(p).Some? || SettingsErrorOrNull(p.settings).Some? then []
    else [RequestCurrentLocation] + if LiveTimedOut(p.currentLocation, timeoutMs) then [CancelToken] else []
  }

  /** How often `call` occurs in `calls`. */
  function Count(calls: seq<PlatformCall>, call: PlatformCall): nat {
    if calls == [] then 0 else (if calls[0] == call then 1 else 0) + Count(calls[1..], call)
  }

  lemma {:induction false} CountAppend(a: seq<PlatformCall>, b: seq<PlatformCall>, call: PlatformCall)
    ensures Count(a + b, call) == Count(a, call) + Count(b, call)
  {
    if a == [] {
      assert a + b == b;
    } else {
      CountAppend(a[1..], b, call);
      assert (a + b)[1..] == a[1..] + b;
    }
  }

  class FusedLocationProvider {
    /** The fake platform this provider talks to. */
    var platform: Platform
    /** Every platform call made so far. */
    ghost var calls: seq<PlatformCall>

    constructor (platform: Platform)
      ensures this.platform == platform && calls == []
    {
      this.platform := platform;
      calls := [];
    }

    /** A cached fix if a fresh one is available; otherwise, unless the settings check
        failed, a live fix within `timeoutMs`. */
    method GetLastKnownOrCurrent(timeoutMs: int) returns (r: Acquisition)
      modifies this`calls
      ensures r == Acquire(platform, timeoutMs)
      ensures calls == old(calls) + AcquireCalls(platform, timeoutMs)
    {
      var settingsError := CheckLocationSettingsOrNull();
      var cached := GetLastLocationQuick(LastLocationWaitMs, LastLocationMaxAgeMs);
      if cached.Some? {
        return Success(ToSample(cached.value));
      }
      if settingsError.Some? {
        return Failure(IllegalStateException(Some(ErrLocationSettingsDisabled)));
      }
      var live := GetCurrentLocationHighAccuracy(timeoutMs);
      if live.Failure? {
        return Failure(live.error);
      }
      if live.value.Some? {
        return Success(ToSample(live.value.value));
      }
      return Failure(IllegalStateException(Some(TimeoutMessage(timeoutMs))));
    }

    /** Waits up to 500 ms for the settings verdict; only a failure delivered in time
        sets the error. */
    method CheckLocationSettingsOrNull() returns (error: Option<string>)
      modifies this`calls
      ensures error == SettingsErrorOrNull(platform.settings)
      ensures calls == old(calls) + [CheckLocationSettings]
    {
      calls := calls + [CheckLocationSettings];
      error := None;
      var delivered := platform.settings.Within(SettingsWaitMs);
      if delivered.Some? && delivered.value.SettingsFailed? {
        error := Some(delivered.value.error);
      }
    }

    /** Waits up to `waitMs` for the last known location and keeps it only when its age
        is at most `maxAgeMs`; a throwing, failed, null or late answer gives null. */
    method GetLastLocationQuick(waitMs: int, maxAgeMs: int) returns (loc: Option<Location>)
      modifies this`calls
      ensures loc == LastLocationQuick(platform.lastLocation, platform.now, waitMs, maxAgeMs)
      ensures calls == old(calls) + [ReadLastLocation]
    {
      calls := calls + [ReadLastLocation];
      if platform.lastLocation.LastLocationUnavailable? {
        return None;
      }
      var ref: Option<Location> := None;
      var delivered := platform.lastLocation.answer.Within(waitMs);
      if delivered.Some? && delivered.value.TaskSucceeded? && delivered.value.location.Some? {
        var fix := delivered.value.location.value;
        var ageMs := platform.now - fix.time;
        ref := if ageMs <= maxAgeMs then Some(fix) else None;
      }
      loc := ref;
    }

    /** Requests one high-accuracy fix and waits up to `timeoutMs`; on timeout the
        request's cancellation token is cancelled. */
    method GetCurrentLocationHighAccuracy(timeoutMs: int) returns (r: Result<Option<Location>, Thrown>)
      modifies this`calls
      ensures r == CurrentLocationHighAccuracy(platform.currentLocation, timeoutMs)
      ensures calls == old(calls) + [RequestCurrentLocation] +
        if LiveTimedOut(platform.currentLocation, timeoutMs) then [CancelToken] else []
    {
      calls := calls + [RequestCurrentLocation];
      if platform.currentLocation.CurrentLocationDenied? {
        return Failure(SecurityException(platform.currentLocation.message));
      }
      var ref: Option<Location> := None;
      var delivered := platform.currentLocation.answer.Within(timeoutMs);
      var ok := delivered.Some?;
      if ok && delivered.value.TaskSucceeded? {
        ref := delivered.value.location;
      }
      if !ok {
        calls := calls + [CancelToken];
      }
      r := Success(ref);
    }
  }

  // Properties of the acquisition protocol.

  /** The settings check and the cache read always come first, in that order. */
  lemma SettingsCheckThenCacheRead(p: Platform, timeoutMs: int)
    ensures AcquireCalls(p, timeoutMs)[..2] == [CheckLocationSettings, ReadLastLocation]
  {
  }

  /** A fresh cached fix is returned whatever the settings check said, and no live fix is
      requested. */
  lemma CachedFixShortCircuits(p: Platform, timeoutMs: int)
    requires CachedFix(p).Some?
    ensures Acquire(p, timeoutMs) == Success(ToSample(CachedFix(p).value))
    ensures AcquireCalls(p, timeoutMs) == [CheckLocationSettings, ReadLastLocation]
    ensures RequestCurrentLocation !in AcquireCalls(p, timeoutMs)
  {
  }

  /** A cached fix is accepted exactly when a non-null fix arrives within 500 ms and is at
      most 5000 ms old. */
  lemma CachedFixAgeRule(p: Platform, loc: Location)
    ensures CachedFix(p) == Some(loc) <==>
      p.lastLocation.LastLocationTask? &&
      p.lastLocation.answer.Answered? && p.lastLocation.answer.delayMs <= LastLocationWaitMs &&
      p.lastLocation.answer.value == TaskSucceeded(Some(loc)) &&
      p.now - loc.time <= LastLocationMaxAgeMs
  {
  }

  /** Without a usable cache, a recorded settings error fails the call before any live fix
      is requested. */
  lemma SettingsGate(p: Platform, timeoutMs: int)
    requires CachedFix(p).None? && SettingsErrorOrNull(p.settings).Some?
    ensures Acquire(p, timeoutMs) == Failure(IllegalStateException(Some("LOCATION_SETTINGS_DISABLED")))
    ensures RequestCurrentLocation !in AcquireCalls(p, timeoutMs)
  {
  }

  /** A settings check that does not answer within 500 ms counts as settings OK. */
  lemma SilentSettingsCountAsOk(settings: Timed<SettingsResult>)
    requires settings.NoAnswer? || settings.delayMs > SettingsWaitMs
    ensures SettingsErrorOrNull(settings).None?
  {
  }

  /** With no cache and settings OK, a fix delivered within `timeoutMs` is the result, and
      exactly one live request is made and nothing is cancelled. */
  lemma LiveFixReturned(p: Platform, timeoutMs: int, loc: Location)
    requires CachedFix(p).None? && SettingsErrorOrNull(p.settings).None?
    requires p.currentLocation.CurrentLocationTask?
    requires p.currentLocation.answer.Within(timeoutMs) == Some(TaskSucceeded(Some(loc)))
    ensures Acquire(p, timeoutMs) == Success(ToSample(loc))
    ensures AcquireCalls(p, timeoutMs) == [CheckLocationSettings, ReadLastLocation, RequestCurrentLocation]
  {
  }

  /** The token is cancelled exactly when a live fix was requested and its wait ran out,
      and at most once. */
  lemma {:induction false} CancelOnlyOnTimeout(p: Platform, timeoutMs: int)
    ensures Count(AcquireCalls(p, timeoutMs), CancelToken) ==
      if CachedFix(p).None? && SettingsErrorOrNull(p.settings).None? && LiveTimedOut(p.currentLocation, timeoutMs)
      then 1 else 0
    ensures Count(AcquireCalls(p, timeoutMs), RequestCurrentLocation) ==
      if CachedFix(p).None? && SettingsErrorOrNull(p.settings).None? then 1 else 0
  {
    var tail := if CachedFix(p).Some? || SettingsErrorOrNull(p.settings).Some? then []
      else [RequestCurrentLocation] + if LiveTimedOut(p.currentLocation, timeoutMs) then [CancelToken] else [];
    CountAppend([CheckLocationSettings, ReadLastLocation], tail, CancelToken);
    CountAppend([CheckLocationSettings, ReadLastLocation], tail, RequestCurrentLocation);
    if tail != [] {
      var rest := if LiveTimedOut(p.currentLocation, timeoutMs) then [CancelToken] else [];
      CountAppend([RequestCurrentLocation], rest, CancelToken);
      CountAppend([RequestCurrentLocation], rest, RequestCurrentLocation);
    }
  }

  /** With no cache and settings OK, a timed-out, failed or null live fix ends in the
      "no location within timeoutMs" IllegalStateException. */
  lemma NoLiveFixMessage(p: Platform, timeoutMs: int)
    requires CachedFix(p).None? && SettingsErrorOrNull(p.settings).None?
    requires p.currentLocation.CurrentLocationTask?
    requires LiveTimedOut(p.currentLocation, timeoutMs) ||
      p.currentLocation.answer.value.TaskFailed? || p.currentLocation.answer.value.location.None?
    ensures Acquire(p, timeoutMs) == Failure(IllegalStateException(Some(TimeoutMessage(timeoutMs))))
  {
  }

  /** With no cache and settings OK, a live request refused for lack of permission lets its
      SecurityException escape to the caller. */
  lemma DeniedLiveRequest(p: Platform, timeoutMs: int)
    requires CachedFix(p).None? && SettingsErrorOrNull(p.settings).None?
    requires p.currentLocation.CurrentLocationDenied?
    ensures Acquire(p, timeoutMs) == Failure(SecurityException(p.currentLocation.message))
    ensures AcquireCalls(p, timeoutMs) == [CheckLocationSettings, ReadLastLocation, RequestCurrentLocation]
  {
  }

  /** Every failure is one of three exceptions: the settings gate, a denied live request,
      or the no-fix message. */
  lemma AcquireFailures(p: Platform, timeoutMs: int)
    requires Acquire(p, timeoutMs).Failure?
    ensures Acquire(p, timeoutMs).error == IllegalStateException(Some(ErrLocationSettingsDisabled)) ||
      Acquire(p, timeoutMs).error == IllegalStateException(Some(TimeoutMessage(timeoutMs))) ||
      (p.currentLocation.CurrentLocationDenied? &&
       Acquire(p, timeoutMs).error == SecurityException(p.currentLocation.message))
  {
  }
}
