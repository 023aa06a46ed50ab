/** The channel handlers' decision logic: speed-profile resolution, argument defaults and
    validation, the batch row builder, and the mapping from provider failures to response
    codes. Channel wiring, marshalling and lifecycle are not modelled. */
module GeoTrackerPlugin {
  import opened Wrappers
  import opened Text
  import opened LocationSample
  import opened LocationProvider
  import opened GeoUtils
  import Fused = FusedLocationProvider

  const DefaultTimeoutMs: int := 3000
  const WalkMps: real := 1.39
  const BikeMps: real := 4.17
  const DriveCityMps: real := 11.11
  const DriveFastMps: real := 22.22
  /** A device speed must exceed this to be used. */
  const MinDeviceSpeedMps: real := 0.5
  const LongMin: int := -0x8000_0000_0000_0000
  const LongMax: int := 0x7FFF_FFFF_FFFF_FFFF

  // ---------------------------------------------------------------- speed resolution

  /** A resolved speed and the tag naming the rule that produced it. */
  datatype Resolution = Resolution(speedMps: real, source: string)

  /** The rows of the profile table. */
  datatype Profile = Walk | Bike | DriveCity | DriveFast | Custom | Device | Unrecognised

  /** The profile a name selects, matched case-insensitively against the alias table. */
  function ProfileOf(name: string): Profile {
    var p := Lowercase(name);
    if p in {"walk", "walking", "pedestrian"} then Walk
    else if p in {"bike", "bicycle", "cycling"} then Bike
    else if p in {"drive_city", "car_city", "urban"} then DriveCity
    else if p in {"drive_fast", "highway"} then DriveFast
    else if p == "custom" then Custom
    else if p in {"current", "device"} then Device
    else Unrecognised
  }

  /** What reading the device location gave: `None` when there is no provider, otherwise
      the sample or the exception of `getLastKnownOrCurrent`. */
  type DeviceReading = Option<Acquisition>

  /** The device speed, with a missing provider, a missing speed or any exception read as 0. */
  function DeviceSpeed(reading: DeviceReading): (s: real)
    ensures reading.None? || reading.value.Failure? || reading.value.value.speedMps.None? ==> s == 0.0
    ensures reading.Some? && reading.value.Success? && reading.value.value.speedMps.Some? ==>
      s == reading.value.value.speedMps.value
  {
    match reading
    case Some(Success(sample)) => sample.speedMps.GetOr(0.0)
    case _ => 0.0
  }

  /** `resolveSpeedMps`: the speed for a profile, from the fixed table, the caller's custom
      speed, or the device's speed, falling back to the city driving speed. It never fails,
      every speed is positive, and each fixed tag always comes with its own speed. */
  function Resolve(profile: string, customSpeed: Option<real>, device: DeviceReading): (r: Resolution)
    ensures r.speedMps > 0.0
    ensures r.source in {"profile:walk", "profile:bike", "profile:drive_city", "profile:drive_fast",
                         "custom", "location:speed", "fallback:drive_city"}
    ensures r.source == "fallback:drive_city" || r.source == "profile:drive_city" ==> r.speedMps == DriveCityMps
    ensures r.source == "location:speed" ==> r.speedMps > MinDeviceSpeedMps && r.speedMps != DriveCityMps
  {
    match ProfileOf(profile)
    case Walk => Resolution(WalkMps, "profile:walk")
    case Bike => Resolution(BikeMps, "profile:bike")
    case DriveCity => Resolution(DriveCityMps, "profile:drive_city")
    case DriveFast => Resolution(DriveFastMps, "profile:drive_fast")
    case Custom =>
      var v := customSpeed.GetOr(0.0);
      var s := if v > 0.0 then v else DriveCityMps;
      Resolution(s, if v > 0.0 then "custom" else "fallback:drive_city")
    case Device =>
      var s := DeviceSpeed(device);
      var use := if s > MinDeviceSpeedMps then s else DriveCityMps;
      Resolution(use, if use == DriveCityMps then "fallback:drive_city" else "location:speed")
    case Unrecognised => Resolution(DriveCityMps, "fallback:drive_city")
  }

  /** Resolution depends on the profile name only through its lowercase form. */
  lemma ResolveIgnoresCase(p: string, q: string, customSpeed: Option<real>, device: DeviceReading)
    requires Lowercase(p) == Lowercase(q)
    ensures Resolve(p, customSpeed, device) == Resolve(q, customSpeed, device)
  {
  }

  /** Lowercasing the name first changes nothing. */
  lemma ResolveLowercased(p: string, customSpeed: Option<real>, device: DeviceReading)
    ensures Resolve(Lowercase(p), customSpeed, device) == Resolve(p, customSpeed, device)
  {
    LowercaseIdempotent(p);
    assert ProfileOf(Lowercase(p)) == ProfileOf(p);
  }

  /** The fixed rows of the table. */
  lemma FixedProfiles(p: string, customSpeed: Option<real>, device: DeviceReading)
    ensures Lowercase(p) in {"walk", "walking", "pedestrian"} ==>
      Resolve(p, customSpeed, device) == Resolution(1.39, "profile:walk")
    ensures Lowercase(p) in {"bike", "bicycle", "cycling"} ==>
      Resolve(p, customSpeed, device) == Resolution(4.17, "profile:bike")
    ensures Lowercase(p) in {"drive_city", "car_city", "urban"} ==>
      Resolve(p, customSpeed, device) == Resolution(11.11, "profile:drive_city")
    ensures Lowercase(p) in {"drive_fast", "highway"} ==>
      Resolve(p, customSpeed, device) == Resolution(22.22, "profile:drive_fast")
  {
  }

  /** `custom`: a positive custom speed is used as given; a missing or non-positive one
      falls back to city driving. */
  lemma CustomProfile(p: string, customSpeed: Option<real>, device: DeviceReading)
    requires Lowercase(p) == "custom"
    ensures customSpeed.Some? && customSpeed.value > 0.0 ==>
      Resolve(p, customSpeed, device) == Resolution(customSpeed.value, "custom")
    ensures customSpeed.None? || customSpeed.value <= 0.0 ==>
      Resolve(p, customSpeed, device) == Resolution(11.11, "fallback:drive_city")
  {
  }

  /** `current`/`device`: a device speed above 0.5 m/s is used; anything else, including
      no provider and any exception, falls back to city driving. The tag is decided by
      comparing the chosen speed with 11.11, so a device speed of exactly 11.11 is tagged
      as a fallback. */
  lemma DeviceProfile(p: string, customSpeed: Option<real>, device: DeviceReading)
    requires Lowercase(p) in {"current", "device"}
    ensures var r := Resolve(p, customSpeed, device);
      (DeviceSpeed(device) > 0.5 ==> r.speedMps == DeviceSpeed(device)) &&
      (DeviceSpeed(device) <= 0.5 ==> r == Resolution(11.11, "fallback:drive_city")) &&
      (r.source == "location:speed" <==> r.speedMps != 11.11) &&
      (DeviceSpeed(device) == 11.11 ==> r == Resolution(11.11, "fallback:drive_city"))
    ensures device.None? || device.value.Failure? ==>
      Resolve(p, customSpeed, device) == Resolution(11.11, "fallback:drive_city")
  {
  }

  /** Any name outside the table falls back to city driving. */
  lemma UnrecognisedProfile(p: string, customSpeed: Option<real>, device: DeviceReading)
    requires Lowercase(p) !in {"walk", "walking", "pedestrian", "bike", "bicycle", "cycling",
                               "drive_city", "car_city", "urban", "drive_fast", "highway",
                               "custom", "current", "device"}
    ensures Resolve(p, customSpeed, device) == Resolution(11.11, "fallback:drive_city")
  {
  }

  /** A name without uppercase ASCII letters or Kelvin signs is its own lowercase form. */
  lemma {:induction false} LowercaseKeepsLowerNames(s: string)
    requires forall i :: 0 <= i < |s| ==> !('A' <= s[i] <= 'Z') && s[i] != '\U{212A}'
    ensures Lowercase(s) == s
  {
    if s != [] {
      LowercaseKeepsLowerNames(s[1..]);
    }
  }

  /** `"WALK"` and `"walk"` resolve alike, to the walking speed. */
  lemma ResolveWalkExample(device: DeviceReading)
    ensures Resolve("WALK", None, device) == Resolve("walk", None, device) == Resolution(1.39, "profile:walk")
  {
    var upper := Lowercase("WALK");
    assert upper[0] == 'w' && upper[1] == 'a' && upper[2] == 'l' && upper[3] == 'k';
    assert upper == "walk";
    LowercaseKeepsLowerNames("walk");
  }

  /** The custom speed examples: 5.0 is used, 0.0 and a missing speed fall back. */
  lemma ResolveCustomExamples(device: DeviceReading)
    ensures Resolve("custom", Some(5.0), device) == Resolution(5.0, "custom")
    ensures Resolve("custom", Some(0.0), device) == Resolution(11.11, "fallback:drive_city")
    ensures Resolve("custom", None, device) == Resolution(11.11, "fallback:drive_city")
  {
    LowercaseKeepsLowerNames("custom");
  }

  /** An unknown tag falls back to city driving. */
  lemma ResolveUnknownExample(device: DeviceReading)
    ensures Resolve("unknown_tag", None, device) == Resolution(11.11, "fallback:drive_city")
  {
    var name := "unknown_tag";
    var aliases := {"walk", "walking", "pedestrian", "bike", "bicycle", "cycling",
                    "drive_city", "car_city", "urban", "drive_fast", "highway",
                    "custom", "current", "device"};
    assert Lowercase(name) !in aliases by {
      assert forall x | x in aliases :: |x| <= 10;
      assert |Lowercase(name)| == 11;
    }
    UnrecognisedProfile(name, None, device);
  }

  /** Every resolved speed gives a defined, non-negative ETA for every non-negative distance. */
  lemma ResolvedSpeedDefinesEta(p: string, customSpeed: Option<real>, device: DeviceReading, meters: real)
    requires meters >= 0.0
    ensures EtaSeconds(Some(meters), Resolve(p, customSpeed, device).speedMps).Some?
    ensures EtaSeconds(Some(meters), Resolve(p, customSpeed, device).speedMps).value >= 0.0
  {
  }

  /** The reading `resolveSpeedMps(_, _, timeoutMs)` takes from a provider on platform `p`:
      none without a provider, otherwise what `getLastKnownOrCurrent(timeoutMs)` returns or
      throws there. */
  function ReadingOf(provider: Option<Fused.Platform>, timeoutMs: int): DeviceReading {
    match provider
    case None => None
    case Some(p) => Some(Fused.Acquire(p, timeoutMs))
  }

  /** `resolveSpeedMps` against a provider that may be absent: the provider is consulted
      only for the device profile, and whatever it returns or throws, a resolution comes back. */
  method ResolveSpeedMps(profile: string, customSpeed: Option<real>, timeoutMs: int,
                         provider: Fused.FusedLocationProvider?) returns (r: Resolution)
    modifies if provider != null then {provider} else {}
    ensures ProfileOf(profile) != Device ==> r == Resolve(profile, customSpeed, None)
    ensures ProfileOf(profile) != Device && provider != null ==> provider.calls == old(provider.calls)
    ensures ProfileOf(profile) == Device ==>
      r == Resolve(profile, customSpeed,
                   if provider == null then None else Some(Fused.Acquire(provider.platform, timeoutMs)))
    ensures ProfileOf(profile) == Device && provider != null ==>
      provider.calls == old(provider.calls) + Fused.AcquireCalls(provider.platform, timeoutMs)
    ensures provider != null ==> provider.platform == old(provider.platform)
    ensures r == Resolve(profile, customSpeed, ReadingOf(if provider == null then None else Some(provider.platform), timeoutMs))
  {
    var reading: DeviceReading := None;
    if ProfileOf(profile) == Device && provider != null {
      var sample := provider.GetLastKnownOrCurrent(timeoutMs);
      reading := Some(sample);
    }
    r := Resolve(profile, customSpeed, reading);
  }

  // ---------------------------------------------------------------- error replies

  /** A channel error: code, message, and whether a stack trace is attached. */
  datatype ErrorReply = ErrorReply(code: string, message: string, withStackTrace: bool)

  function BadArgs(message: string): ErrorReply {
    ErrorReply("BAD_ARGS", message, false)
  }

  /** The reply to an exception thrown by `getLastKnownOrCurrent`. */
  function ReplyForFailure(t: Thrown): (r: ErrorReply)
    ensures r.code == "NO_PERMISSION" <==> t.SecurityException?
    ensures r.code == "LOCATION_SETTINGS_DISABLED" <==>
      t.IllegalStateException? && t.message == Some("LOCATION_SETTINGS_DISABLED")
    ensures r.code == "TIMEOUT" <==>
      t.IllegalStateException? && StartsWith(t.message.GetOr(""), "TIMEOUT_")
    ensures r.code == "INTERNAL_ERROR" <==>
      t.OtherThrowable? ||
      (t.IllegalStateException? && t.message != Some("LOCATION_SETTINGS_DISABLED") &&
       !StartsWith(t.message.GetOr(""), "TIMEOUT_"))
    ensures r.withStackTrace <==> r.code == "INTERNAL_ERROR"
    ensures t.SecurityException? ==> r.message == t.message.GetOr("Sem permissão de localização.")
    ensures r.code == "LOCATION_SETTINGS_DISABLED" ==>
      r.message == "A localização do dispositivo está desativada ou insuficiente."
    ensures r.code == "TIMEOUT" ==> r.message == "Tempo excedido ao tentar obter a localização."
    ensures t.IllegalStateException? && r.code == "INTERNAL_ERROR" ==>
      r.message == IfBlank(t.message.GetOr(""), "Erro interno.")
    ensures t.OtherThrowable? ==> r.message == t.message.GetOr("Erro interno.")
  {
    match t
    case SecurityException(m) =>
      ErrorReply("NO_PERMISSION", m.GetOr("Sem permissão de localização."), false)
    case IllegalStateException(m) =>
      var msg := m.GetOr("");
      if msg == "LOCATION_SETTINGS_DISABLED" then
        assert msg[0] != "TIMEOUT_"[0];
        ErrorReply("LOCATION_SETTINGS_DISABLED", "A localização do dispositivo está desativada ou insuficiente.", false)
      else if StartsWith(msg, "TIMEOUT_") then
        ErrorReply("TIMEOUT", "Tempo excedido ao tentar obter a localização.", false)
      else ErrorReply("INTERNAL_ERROR", IfBlank(msg, "Erro interno."), true)
    case OtherThrowable(m) =>
      ErrorReply("INTERNAL_ERROR", m.GetOr("Erro interno."), true)
  }

  /** The reply for a `getLastKnownOrCurrent` request: the sample, or the mapped error. */
  function LocationReply(a: Acquisition): (r: Result<LocationSample, ErrorReply>)
    ensures a.Success? <==> r.Success?
    ensures r.Success? ==> r.value == a.value
    ensures r.Failure? ==> r.error == ReplyForFailure(a.error)
  {
    match a
    case Success(sample) => Success(sample)
    case Failure(t) => Failure(ReplyForFailure(t))
  }

  /** The provider's "no location within timeoutMs" message starts with `N`, so it is
      neither the settings marker nor a `TIMEOUT_` message: it is answered as an internal
      error carrying that message. */
  lemma ProviderTimeoutIsInternalError(timeoutMs: int)
    ensures ReplyForFailure(IllegalStateException(Some(Fused.TimeoutMessage(timeoutMs)))) ==
      ErrorReply("INTERNAL_ERROR", Fused.TimeoutMessage(timeoutMs), true)
  {
    var msg := Fused.TimeoutMessage(timeoutMs);
    assert msg[0] == 'N';
    assert !StartsWith(msg, "TIMEOUT_") by {
      assert msg[0] != "TIMEOUT_"[0];
    }
    assert !IsBlank(msg) by {
      assert !IsWhitespace(msg[0]);
    }
  }

  /** No failure of the fused provider is ever answered with the TIMEOUT code: a live fix
      that runs out of time reaches the caller as INTERNAL_ERROR. */
  lemma ProviderNeverRepliesTimeout(p: Fused.Platform, timeoutMs: int)
    requires Fused.Acquire(p, timeoutMs).Failure?
    ensures ReplyForFailure(Fused.Acquire(p, timeoutMs).error).code in
      {"NO_PERMISSION", "LOCATION_SETTINGS_DISABLED", "INTERNAL_ERROR"}
    ensures (Fused.CachedFix(p).None? && Fused.SettingsErrorOrNull(p.settings).None? &&
             Fused.LiveTimedOut(p.currentLocation, timeoutMs)) ==>
      LocationReply(Fused.Acquire(p, timeoutMs)).error.code == "INTERNAL_ERROR"
  {
    Fused.AcquireFailures(p, timeoutMs);
    ProviderTimeoutIsInternalError(timeoutMs);
  }

  /** A live request denied for lack of permission, with no cache and settings OK, is
      answered NO_PERMISSION carrying the exception's message, or the default one. */
  lemma DeniedLiveRequestIsNoPermission(p: Fused.Platform, timeoutMs: int)
    requires Fused.CachedFix(p).None? && Fused.SettingsErrorOrNull(p.settings).None?
    requires p.currentLocation.CurrentLocationDenied?
    ensures LocationReply(Fused.Acquire(p, timeoutMs)) ==
      Failure(ErrorReply("NO_PERMISSION", p.currentLocation.message.GetOr("Sem permissão de localização."), false))
  {
    Fused.DeniedLiveRequest(p, timeoutMs);
  }

  // ---------------------------------------------------------------- arguments

  /** A value received over the channel. */
  datatype Value =
    | Null
    | Num(n: real)
    | Str(s: string)
    | Bool(b: bool)
    | MapValue(entries: map<string, Value>)
    | ListValue(items: seq<Value>)

  /** The optional speed arguments shared by the ETA calls; `None` is a missing or null
      argument. */
  datatype SpeedArgs = SpeedArgs(profile: Option<string>, customSpeedMps: Option<real>, timeoutMs: Option<real>)

  /** The speed arguments after defaults are applied. */
  datatype SpeedRequest = SpeedRequest(profile: string, customSpeed: Option<real>, timeoutMs: int)

  /** `Number.toLong()`: truncation toward zero, saturating at the `Long` range. */
  function ToLong(x: real): (r: int)
    ensures LongMin <= r <= LongMax
    ensures LongMin as real <= x <= LongMax as real ==>
      (x >= 0.0 ==> r as real <= x < r as real + 1.0) && (x < 0.0 ==> r as real - 1.0 < x <= r as real)
    ensures x > LongMax as real ==> r == LongMax
    ensures x < LongMin as real ==> r == LongMin
  {
    var t := if x >= 0.0 then x.Floor else -((-x).Floor);
    if t < LongMin then LongMin else if t > LongMax then LongMax else t
  }

  /** A whole number inside the `Long` range converts to itself. */
  lemma ToLongKeepsLongs(n: int)
    requires LongMin <= n <= LongMax
    ensures ToLong(n as real) == n
  {
  }

  /** The budget for a live fix: the `timeoutMs` argument, 3000 when missing. */
  function TimeoutOrDefault(arg: Option<real>): (t: int)
    ensures LongMin <= t <= LongMax
    ensures arg.None? ==> t == DefaultTimeoutMs
    ensures arg.Some? ==> t == ToLong(arg.value)
  {
    ToLongKeepsLongs(DefaultTimeoutMs);
    ToLong(arg.GetOr(DefaultTimeoutMs as real))
  }

  /** The speed arguments with their defaults: profile `drive_city`, timeout 3000 ms,
      and no custom speed. */
  function WithDefaults(a: SpeedArgs): (r: SpeedRequest)
    ensures a.profile.None? ==> r.profile == "drive_city"
    ensures a.profile.Some? ==> r.profile == a.profile.value
    ensures r.customSpeed == a.customSpeedMps
    ensures r.timeoutMs == TimeoutOrDefault(a.timeoutMs)
  {
    SpeedRequest(a.profile.GetOr("drive_city"), a.customSpeedMps, TimeoutOrDefault(a.timeoutMs))
  }

  /** The budget handed to the provider: 3000 ms when the argument is missing, a given
      whole number of milliseconds inside the `Long` range as it is, and any other number
      truncated toward zero and saturated. */
  lemma DefaultsApply(a: SpeedArgs)
    ensures a.timeoutMs.None? ==> WithDefaults(a).timeoutMs == 3000
    ensures a.timeoutMs.Some? ==> WithDefaults(a).timeoutMs == ToLong(a.timeoutMs.value)
    ensures (a.timeoutMs.Some? && a.timeoutMs.value == a.timeoutMs.value.Floor as real &&
             LongMin <= a.timeoutMs.value.Floor <= LongMax) ==>
      WithDefaults(a).timeoutMs == a.timeoutMs.value.Floor
  {
    if a.timeoutMs.Some? && a.timeoutMs.value == a.timeoutMs.value.Floor as real &&
       LongMin <= a.timeoutMs.value.Floor <= LongMax {
      ToLongKeepsLongs(a.timeoutMs.value.Floor);
    }
  }

  /** `(m[key] as? Number)?.toDouble()`: the number under `key`, or null. */
  function NumberField(m: map<string, Value>, key: string): (r: Option<real>)
    ensures r.Some? <==> key in m && m[key].Num?
    ensures r.Some? ==> r.value == m[key].n
  {
    if key in m && m[key].Num? then Some(m[key].n) else None
  }

  /** The validated coordinates of a pair request. */
  datatype Endpoints = Endpoints(fromLat: real, fromLng: real, toLat: real, toLng: real)

  /** Reads `from.lat`, `from.lng`, `to.lat`, `to.lng` in that order and reports the first
      one that is missing or not a number. */
  function ParseEndpoints(from: map<string, Value>, to: map<string, Value>): (r: Result<Endpoints, string>)
    ensures r.Success? <==>
      NumberField(from, "lat").Some? && NumberField(from, "lng").Some? &&
      NumberField(to, "lat").Some? && NumberField(to, "lng").Some?
    ensures r.Success? ==> r.value == Endpoints(NumberField(from, "lat").value, NumberField(from, "lng").value,
                                                NumberField(to, "lat").value, NumberField(to, "lng").value)
    ensures NumberField(from, "lat").None? ==> r == Failure("'from.lat' inválido.")
    ensures NumberField(from, "lat").Some? && NumberField(from, "lng").None? ==>
      r == Failure("'from.lng' inválido.")
    ensures NumberField(from, "lat").Some? && NumberField(from, "lng").Some? && NumberField(to, "lat").None? ==>
      r == Failure("'to.lat' inválido.")
    ensures (NumberField(from, "lat").Some? && NumberField(from, "lng").Some? && NumberField(to, "lat").Some? &&
             NumberField(to, "lng").None?) ==> r == Failure("'to.lng' inválido.")
  {
    match (NumberField(from, "lat"), NumberField(from, "lng"), NumberField(to, "lat"), NumberField(to, "lng"))
    case (None, _, _, _) => Failure("'from.lat' inválido.")
    case (_, None, _, _) => Failure("'from.lng' inválido.")
    case (_, _, None, _) => Failure("'to.lat' inválido.")
    case (_, _, _, None) => Failure("'to.lng' inválido.")
    case (Some(a), Some(b), Some(c), Some(d)) => Success(Endpoints(a, b, c, d))
  }

  /** The default profile name selects the city driving row. */
  lemma DriveCityIsDefaultProfile()
    ensures ProfileOf("drive_city") == DriveCity
  {
    LowercaseKeepsLowerNames("drive_city");
    assert "drive_city" in {"drive_city", "car_city", "urban"};
    assert "drive_city" !in {"walk", "walking", "pedestrian"};
    assert "drive_city" !in {"bike", "bicycle", "cycling"};
  }

  // ---------------------------------------------------------------- single-pair handlers

  /** The arguments of `computeDistanceMeters` and `computeDistanceEta`. */
  datatype PairArgs = PairArgs(from: Option<map<string, Value>>, to: Option<map<string, Value>>, speed: SpeedArgs)

  /** `computeDistanceMeters`: the distance between two validated points. */
  function ComputeDistanceMeters(a: PairArgs, distance: DistanceFn): (r: Result<Option<real>, ErrorReply>)
    ensures a.from.None? ==> r == Failure(BadArgs("Parâmetro 'from' é obrigatório."))
    ensures a.from.Some? && a.to.None? ==> r == Failure(BadArgs("Parâmetro 'to' é obrigatório."))
    ensures r.Failure? ==> r.error.code == "BAD_ARGS"
    ensures r.Success? ==> a.from.Some? && a.to.Some? && ParseEndpoints(a.from.value, a.to.value).Success?
    ensures a.from.Some? && a.to.Some? && ParseEndpoints(a.from.value, a.to.value).Failure? ==>
      r == Failure(BadArgs(ParseEndpoints(a.from.value, a.to.value).error))
    ensures a.from.Some? && a.to.Some? && ParseEndpoints(a.from.value, a.to.value).Success? ==>
      var e := ParseEndpoints(a.from.value, a.to.value).value;
      r == Success(distance(e.fromLat, e.fromLng, e.toLat, e.toLng))
  {
    if a.from.None? then Failure(BadArgs("Parâmetro 'from' é obrigatório."))
    else if a.to.None? then Failure(BadArgs("Parâmetro 'to' é obrigatório."))
    else match ParseEndpoints(a.from.value, a.to.value)
      case Failure(msg) => Failure(BadArgs(msg))
      case Success(e) => Success(distance(e.fromLat, e.fromLng, e.toLat, e.toLng))
  }

  /** The reply of `computeDistanceEta`. */
  datatype EtaPayload = EtaPayload(meters: Option<real>, etaSeconds: Option<real>, speedMps: real, speedSource: string)

  /** `computeDistanceEta`: the distance, the speed the profile resolves to (with the
      argument defaults, the defaulted `timeoutMs` being the provider's budget), and the
      ETA from both. */
  function ComputeDistanceEta(a: PairArgs, provider: Option<Fused.Platform>, distance: DistanceFn): (r: Result<EtaPayload, ErrorReply>)
    ensures a.from.None? ==> r == Failure(BadArgs("Parâmetro 'from' é obrigatório."))
    ensures a.from.Some? && a.to.None? ==> r == Failure(BadArgs("Parâmetro 'to' é obrigatório."))
    ensures r.Failure? ==> r.error.code == "BAD_ARGS"
    ensures r.Success? ==> r.value.speedMps > 0.0
    ensures r.Success? ==> r.value.etaSeconds == EtaSeconds(r.value.meters, r.value.speedMps)
    ensures r.Success? && r.value.meters.Some? && r.value.meters.value >= 0.0 ==> r.value.etaSeconds.Some?
    ensures a.from.Some? && a.to.Some? ==>
      (r.Success? <==> ParseEndpoints(a.from.value, a.to.value).Success?)
    ensures a.from.Some? && a.to.Some? && ParseEndpoints(a.from.value, a.to.value).Failure? ==>
      r == Failure(BadArgs(ParseEndpoints(a.from.value, a.to.value).error))
    ensures r.Success? ==>
      var req := WithDefaults(a.speed);
      var res := Resolve(req.profile, req.customSpeed, ReadingOf(provider, req.timeoutMs));
      r.value.speedMps == res.speedMps && r.value.speedSource == res.source
    ensures r.Success? ==>
      var e := ParseEndpoints(a.from.value, a.to.value).value;
      r.value.meters == distance(e.fromLat, e.fromLng, e.toLat, e.toLng)
  {
    if a.from.None? then Failure(BadArgs("Parâmetro 'from' é obrigatório."))
    else if a.to.None? then Failure(BadArgs("Parâmetro 'to' é obrigatório."))
    else
      var req := WithDefaults(a.speed);
      match ParseEndpoints(a.from.value, a.to.value)
      case Failure(msg) => Failure(BadArgs(msg))
      case Success(e) =>
        var res := Resolve(req.profile, req.customSpeed, ReadingOf(provider, req.timeoutMs));
        var meters := distance(e.fromLat, e.fromLng, e.toLat, e.toLng);
        Success(EtaPayload(meters, EtaSeconds(meters, res.speedMps), res.speedMps, res.source))
  }

  /** With no profile argument, `computeDistanceEta` uses the city driving profile. */
  lemma DistanceEtaDefaultProfile(a: PairArgs, provider: Option<Fused.Platform>, distance: DistanceFn)
    requires a.speed.profile.None?
    ensures ComputeDistanceEta(a, provider, distance).Success? ==>
      ComputeDistanceEta(a, provider, distance).value.speedMps == 11.11 &&
      ComputeDistanceEta(a, provider, distance).value.speedSource == "profile:drive_city"
  {
    DriveCityIsDefaultProfile();
  }

  /** With the device profile, no cached fix and settings OK, a live fix that reports a
      usable speed sets the ETA speed only when it arrives within the defaulted `timeoutMs`;
      a later one leaves the city driving fallback. */
  lemma DeviceSpeedWithinBudget(a: PairArgs, p: Fused.Platform, distance: DistanceFn, loc: Fused.Location)
    requires a.from.Some? && a.to.Some? && ParseEndpoints(a.from.value, a.to.value).Success?
    requires ProfileOf(WithDefaults(a.speed).profile) == Device
    requires Fused.CachedFix(p).None? && Fused.SettingsErrorOrNull(p.settings).None?
    requires p.currentLocation.CurrentLocationTask? && p.currentLocation.answer.Answered?
    requires p.currentLocation.answer.value == Fused.TaskSucceeded(Some(loc))
    requires loc.hasSpeed && loc.speed > MinDeviceSpeedMps && loc.speed != DriveCityMps
    ensures ComputeDistanceEta(a, Some(p), distance).Success?
    ensures p.currentLocation.answer.delayMs <= WithDefaults(a.speed).timeoutMs ==>
      ComputeDistanceEta(a, Some(p), distance).value.speedMps == loc.speed &&
      ComputeDistanceEta(a, Some(p), distance).value.speedSource == "location:speed"
    ensures p.currentLocation.answer.delayMs > WithDefaults(a.speed).timeoutMs ==>
      ComputeDistanceEta(a, Some(p), distance).value.speedMps == DriveCityMps &&
      ComputeDistanceEta(a, Some(p), distance).value.speedSource == "fallback:drive_city"
  {
    var t := WithDefaults(a.speed).timeoutMs;
    if p.currentLocation.answer.delayMs <= t {
      Fused.LiveFixReturned(p, t, loc);
    } else {
      Fused.NoLiveFixMessage(p, t);
    }
  }

  // ---------------------------------------------------------------- batch handler

  /** A validated destination of the batch. */
  datatype Target = Target(lat: real, lng: real, id: Option<Value>)

  /** One row of the batch reply. */
  datatype Row = Row(index: nat, id: Option<Value>, lat: real, lng: real, meters: Option<real>, etaSeconds: Option<real>)

  function ItemPrefix(idx: nat): string {
    "'to[" + NatToString(idx) + "]"
  }

  /** Validates item `idx` of `to`: a map with numeric `lat` and `lng`; the first missing
      part is named in the message. */
  function ParseItem(idx: nat, item: Value): (r: Result<Target, string>)
    ensures !item.MapValue? ==> r == Failure(ItemPrefix(idx) + "' inválido.")
    ensures item.MapValue? && NumberField(item.entries, "lat").None? ==>
      r == Failure(ItemPrefix(idx) + ".lat' inválido.")
    ensures item.MapValue? && NumberField(item.entries, "lat").Some? && NumberField(item.entries, "lng").None? ==>
      r == Failure(ItemPrefix(idx) + ".lng' inválido.")
    ensures r.Success? <==>
      item.MapValue? && NumberField(item.entries, "lat").Some? && NumberField(item.entries, "lng").Some?
    ensures r.Success? ==> r.value.lat == item.entries["lat"].n && r.value.lng == item.entries["lng"].n
    ensures r.Success? ==>
      r.value.id == (if "id" in item.entries && item.entries["id"] != Null then Some(item.entries["id"]) else None)
  {
    match item
    case MapValue(m) =>
      (match (NumberField(m, "lat"), NumberField(m, "lng"))
       case (None, _) => Failure(ItemPrefix(idx) + ".lat' inválido.")
       case (_, None) => Failure(ItemPrefix(idx) + ".lng' inválido.")
       case (Some(lat), Some(lng)) =>
         Success(Target(lat, lng, if "id" in m && m["id"] != Null then Some(m["id"]) else None)))
    case _ => Failure(ItemPrefix(idx) + "' inválido.")
  }

  /** A failure message for item `idx` starts with `'to[`, the decimal index and `]`. */
  lemma ItemMessageShape(idx: nat, item: Value)
    requires ParseItem(idx, item).Failure?
    ensures var m, d := ParseItem(idx, item).error, NatToString(idx);
      |m| > 4 + |d| && m[4..4 + |d|] == d && m[4 + |d|] == ']'
  {
    var m, d := ParseItem(idx, item).error, NatToString(idx);
    var suffix := m[|ItemPrefix(idx)|..];
    assert m == "'to[" + d + "]" + suffix;
  }

  /** The messages for two different items differ: a message names its item. */
  lemma ItemMessagesNameTheIndex(j: nat, x: Value, k: nat, y: Value)
    requires ParseItem(j, x).Failure? && ParseItem(k, y).Failure?
    requires ParseItem(j, x).error == ParseItem(k, y).error
    ensures j == k
  {
    var a, b := NatToString(j), NatToString(k);
    var m := ParseItem(j, x).error;
    ItemMessageShape(j, x);
    ItemMessageShape(k, y);
    assert |a| == |b|;
    assert a == m[4..4 + |a|] == b;
    NatToStringInjective(j, k);
  }

  /** The row for a validated destination. */
  function MakeRow(idx: nat, t: Target, fromLat: real, fromLng: real, speedMps: real, distance: DistanceFn): (r: Row)
    ensures r.index == idx && r.id == t.id && r.lat == t.lat && r.lng == t.lng
    ensures r.meters == distance(fromLat, fromLng, t.lat, t.lng)
    ensures speedMps > 0.0 && r.meters.Some? && r.meters.value >= 0.0 ==>
      r.etaSeconds.Some? && r.etaSeconds.value >= 0.0 && r.etaSeconds.value * speedMps == r.meters.value
  {
    var m := distance(fromLat, fromLng, t.lat, t.lng);
    Row(idx, t.id, t.lat, t.lng, m, EtaSeconds(m, speedMps))
  }

  /** The rows for `items[k..]`, or the message for the first malformed one among them. */
  function RowsFrom(fromLat: real, fromLng: real, items: seq<Value>, k: nat, speedMps: real, distance: DistanceFn): (r: Result<seq<Row>, string>)
    requires k <= |items|
    ensures r.Success? ==> |r.value| == |items| - k
    ensures r.Success? ==> forall j :: 0 <= j < |r.value| ==> r.value[j].index == k + j
    decreases |items| - k
  {
    if k == |items| then Success([])
    else match ParseItem(k, items[k])
      case Failure(msg) => Failure(msg)
      case Success(t) => Prepend([MakeRow(k, t, fromLat, fromLng, speedMps, distance)],
                                 RowsFrom(fromLat, fromLng, items, k + 1, speedMps, distance))
  }

  /** Puts `rows` in front of a successful result; a failure stays as it is. */
  function Prepend(rows: seq<Row>, r: Result<seq<Row>, string>): Result<seq<Row>, string> {
    match r
    case Success(rest) => Success(rows + rest)
    case Failure(msg) => Failure(msg)
  }

  lemma PrependNothing(r: Result<seq<Row>, string>)
    ensures Prepend([], r) == r
  {
    if r.Success? {
      assert [] + r.value == r.value;
    }
  }

  lemma PrependTwice(rows: seq<Row>, row: Row, r: Result<seq<Row>, string>)
    ensures Prepend(rows, Prepend([row], r)) == Prepend(rows + [row], r)
  {
    if r.Success? {
      assert rows + ([row] + r.value) == (rows + [row]) + r.value;
    }
  }

  /** The rows succeed exactly when every remaining item is well formed; then there is one
      row per item, in order, indexed by its position. */
  lemma {:induction false} RowsFromShape(fromLat: real, fromLng: real, items: seq<Value>, k: nat, speedMps: real, distance: DistanceFn)
    requires k <= |items|
    ensures RowsFrom(fromLat, fromLng, items, k, speedMps, distance).Success? <==>
      forall j :: k <= j < |items| ==> ParseItem(j, items[j]).Success?
    ensures RowsFrom(fromLat, fromLng, items, k, speedMps, distance).Success? ==>
      var rows := RowsFrom(fromLat, fromLng, items, k, speedMps, distance).value;
      |rows| == |items| - k &&
      forall j :: k <= j < |items| ==>
        rows[j - k] == MakeRow(j, ParseItem(j, items[j]).value, fromLat, fromLng, speedMps, distance)
    decreases |items| - k
  {
    if k < |items| {
      RowsFromShape(fromLat, fromLng, items, k + 1, speedMps, distance);
    }
  }

  /** A malformed item fails the rows with its own message when every item before it is
      well formed. */
  lemma {:induction false} RowsFromFirstMalformed(fromLat: real, fromLng: real, items: seq<Value>, k: nat, bad: nat, speedMps: real, distance: DistanceFn)
    requires k <= bad < |items|
    requires ParseItem(bad, items[bad]).Failure?
    requires forall j :: k <= j < bad ==> ParseItem(j, items[j]).Success?
    ensures RowsFrom(fromLat, fromLng, items, k, speedMps, distance) == Failure(ParseItem(bad, items[bad]).error)
    decreases bad - k
  {
    if k < bad {
      RowsFromFirstMalformed(fromLat, fromLng, items, k + 1, bad, speedMps, distance);
    }
  }

  /** The `for` loop of `computeDistancesEta`: one row per item, returning at the first
      malformed item with its message and no rows. */
  method BuildRows(fromLat: real, fromLng: real, items: seq<Value>, speedMps: real, distance: DistanceFn)
    returns (r: Result<seq<Row>, string>)
    ensures r == RowsFrom(fromLat, fromLng, items, 0, speedMps, distance)
  {
    var rows: seq<Row> := [];
    var idx := 0;
    PrependNothing(RowsFrom(fromLat, fromLng, items, 0, speedMps, distance));
    while idx < |items|
      invariant 0 <= idx <= |items|
      invariant RowsFrom(fromLat, fromLng, items, 0, speedMps, distance) ==
        Prepend(rows, RowsFrom(fromLat, fromLng, items, idx, speedMps, distance))
      decreases |items| - idx
    {
      var parsed := ParseItem(idx, items[idx]);
      if parsed.Failure? {
        return Failure(parsed.error);
      }
      var row := MakeRow(idx, parsed.value, fromLat, fromLng, speedMps, distance);
      PrependTwice(rows, row, RowsFrom(fromLat, fromLng, items, idx + 1, speedMps, distance));
      rows := rows + [row];
      idx := idx + 1;
    }
    assert rows + [] == rows;
    r := Success(rows);
  }

  /** The arguments of `computeDistancesEta`. */
  datatype BatchArgs = BatchArgs(from: Option<map<string, Value>>, to: Option<seq<Value>>, speed: SpeedArgs)

  /** The reply of `computeDistancesEta`. */
  datatype BatchPayload = BatchPayload(
    fromLat: real, fromLng: real, profile: string, speedMps: real, speedSource: string, rows: seq<Row>)

  /** `computeDistancesEta`: one speed for all destinations, then the rows. */
  function ComputeDistancesEta(a: BatchArgs, provider: Option<Fused.Platform>, distance: DistanceFn): (r: Result<BatchPayload, ErrorReply>)
    ensures a.from.None? ==> r == Failure(BadArgs("Parâmetro 'from' é obrigatório."))
    ensures a.from.Some? && a.to.None? ==> r == Failure(BadArgs("Parâmetro 'to' (lista) é obrigatório."))
    ensures r.Failure? ==> r.error.code == "BAD_ARGS"
    ensures r.Success? ==> r.value.speedMps > 0.0 && r.value.profile == WithDefaults(a.speed).profile
    ensures r.Success? ==>
      var req := WithDefaults(a.speed);
      var res := Resolve(req.profile, req.customSpeed, ReadingOf(provider, req.timeoutMs));
      r.value.speedMps == res.speedMps && r.value.speedSource == res.source
    ensures r.Success? ==>
      a.from.Some? && a.to.Some? &&
      NumberField(a.from.value, "lat") == Some(r.value.fromLat) && NumberField(a.from.value, "lng") == Some(r.value.fromLng) &&
      RowsFrom(r.value.fromLat, r.value.fromLng, a.to.value, 0, r.value.speedMps, distance) == Success(r.value.rows)
    ensures a.from.Some? && a.to.Some? && NumberField(a.from.value, "lat").None? ==>
      r == Failure(BadArgs("'from.lat' inválido."))
    ensures a.from.Some? && a.to.Some? && NumberField(a.from.value, "lat").Some? && NumberField(a.from.value, "lng").None? ==>
      r == Failure(BadArgs("'from.lng' inválido."))
    ensures (a.from.Some? && a.to.Some? && NumberField(a.from.value, "lat").Some? && NumberField(a.from.value, "lng").Some?) ==>
      var req := WithDefaults(a.speed);
      var res := Resolve(req.profile, req.customSpeed, ReadingOf(provider, req.timeoutMs));
      var rows := RowsFrom(NumberField(a.from.value, "lat").value, NumberField(a.from.value, "lng").value,
                           a.to.value, 0, res.speedMps, distance);
      (r.Success? <==> rows.Success?) && (rows.Failure? ==> r == Failure(BadArgs(rows.error)))
  {
    if a.from.None? then Failure(BadArgs("Parâmetro 'from' é obrigatório."))
    else if a.to.None? then Failure(BadArgs("Parâmetro 'to' (lista) é obrigatório."))
    else
      var req := WithDefaults(a.speed);
      var from := a.from.value;
      if NumberField(from, "lat").None? then Failure(BadArgs("'from.lat' inválido."))
      else if NumberField(from, "lng").None? then Failure(BadArgs("'from.lng' inválido."))
      else
        var fromLat, fromLng := NumberField(from, "lat").value, NumberField(from, "lng").value;
        var res := Resolve(req.profile, req.customSpeed, ReadingOf(provider, req.timeoutMs));
        match RowsFrom(fromLat, fromLng, a.to.value, 0, res.speedMps, distance)
        case Failure(msg) => Failure(BadArgs(msg))
        case Success(rows) => Success(BatchPayload(fromLat, fromLng, req.profile, res.speedMps, res.source, rows))
  }

  /** A successful batch has exactly one row per destination, in input order, with `index`
      its position, the destination's coordinates, and the ETA at the resolved speed. */
  lemma BatchRowsMatchDestinations(a: BatchArgs, provider: Option<Fused.Platform>, distance: DistanceFn)
    requires ComputeDistancesEta(a, provider, distance).Success?
    ensures a.to.Some?
    ensures var p := ComputeDistancesEta(a, provider, distance).value;
      |p.rows| == |a.to.value| &&
      forall j :: 0 <= j < |p.rows| ==>
        p.rows[j].index == j &&
        ParseItem(j, a.to.value[j]).Success? &&
        p.rows[j].id == ParseItem(j, a.to.value[j]).value.id &&
        p.rows[j].lat == ParseItem(j, a.to.value[j]).value.lat &&
        p.rows[j].lng == ParseItem(j, a.to.value[j]).value.lng &&
        p.rows[j].meters == distance(p.fromLat, p.fromLng, p.rows[j].lat, p.rows[j].lng) &&
        p.rows[j].etaSeconds == EtaSeconds(p.rows[j].meters, p.speedMps)
  {
    var p := ComputeDistancesEta(a, provider, distance).value;
    RowsMatchItems(p.fromLat, p.fromLng, a.to.value, p.speedMps, distance, p.rows);
  }

  /** Rows built from every item: one per item, in order, each from its own item. */
  lemma RowsMatchItems(fromLat: real, fromLng: real, items: seq<Value>, speedMps: real, distance: DistanceFn, rows: seq<Row>)
    requires RowsFrom(fromLat, fromLng, items, 0, speedMps, distance) == Success(rows)
    ensures |rows| == |items| &&
      forall j :: 0 <= j < |rows| ==>
        rows[j].index == j &&
        ParseItem(j, items[j]).Success? &&
        rows[j].id == ParseItem(j, items[j]).value.id &&
        rows[j].lat == ParseItem(j, items[j]).value.lat &&
        rows[j].lng == ParseItem(j, items[j]).value.lng &&
        rows[j].meters == distance(fromLat, fromLng, rows[j].lat, rows[j].lng) &&
        rows[j].etaSeconds == EtaSeconds(rows[j].meters, speedMps)
  {
    RowsFromShape(fromLat, fromLng, items, 0, speedMps, distance);
    forall j | 0 <= j < |rows|
      ensures rows[j] == MakeRow(j, ParseItem(j, items[j]).value, fromLat, fromLng, speedMps, distance)
    {
      assert rows[j - 0] == rows[j];
    }
  }

  /** With both arguments given, the batch succeeds exactly when `from` has numeric `lat`
      and `lng` and every destination is well formed. */
  lemma BatchSucceedsOnWellFormedInput(a: BatchArgs, provider: Option<Fused.Platform>, distance: DistanceFn)
    requires a.from.Some? && a.to.Some?
    ensures ComputeDistancesEta(a, provider, distance).Success? <==>
      NumberField(a.from.value, "lat").Some? && NumberField(a.from.value, "lng").Some? &&
      forall j :: 0 <= j < |a.to.value| ==> ParseItem(j, a.to.value[j]).Success?
  {
    if NumberField(a.from.value, "lat").Some? && NumberField(a.from.value, "lng").Some? {
      var req := WithDefaults(a.speed);
      var res := Resolve(req.profile, req.customSpeed, ReadingOf(provider, req.timeoutMs));
      RowsFromShape(NumberField(a.from.value, "lat").value, NumberField(a.from.value, "lng").value,
                    a.to.value, 0, res.speedMps, distance);
    }
  }

  /** A batch whose `from` is valid fails as a whole, with BAD_ARGS naming the first
      malformed destination, and returns no rows. */
  lemma BatchFailsOnFirstMalformed(a: BatchArgs, provider: Option<Fused.Platform>, distance: DistanceFn, bad: nat)
    requires a.from.Some? && a.to.Some?
    requires NumberField(a.from.value, "lat").Some? && NumberField(a.from.value, "lng").Some?
    requires bad < |a.to.value| && ParseItem(bad, a.to.value[bad]).Failure?
    requires forall j :: 0 <= j < bad ==> ParseItem(j, a.to.value[j]).Success?
    ensures ComputeDistancesEta(a, provider, distance) == Failure(BadArgs(ParseItem(bad, a.to.value[bad]).error))
  {
    var req := WithDefaults(a.speed);
    var res := Resolve(req.profile, req.customSpeed, ReadingOf(provider, req.timeoutMs));
    RowsFromFirstMalformed(NumberField(a.from.value, "lat").value, NumberField(a.from.value, "lng").value,
                           a.to.value, 0, bad, res.speedMps, distance);
  }

  /** With no profile and no timeout argument, the batch resolves the city driving profile. */
  lemma BatchDefaults(a: BatchArgs, provider: Option<Fused.Platform>, distance: DistanceFn)
    requires a.speed.profile.None? && a.speed.timeoutMs.None?
    ensures WithDefaults(a.speed).timeoutMs == 3000
    ensures ComputeDistancesEta(a, provider, distance).Success? ==>
      ComputeDistancesEta(a, provider, distance).value.profile == "drive_city" &&
      ComputeDistancesEta(a, provider, distance).value.speedMps == 11.11 &&
      ComputeDistancesEta(a, provider, distance).value.speedSource == "profile:drive_city"
  {
    DriveCityIsDefaultProfile();
    var req := WithDefaults(a.speed);
    assert Resolve(req.profile, req.customSpeed, ReadingOf(provider, req.timeoutMs)) == Resolution(11.11, "profile:drive_city");
  }
}
