# geo_tracker — a Dafny model of the location and ETA core

This project models the decision logic of the Android side of the `geo_tracker` Flutter
plugin:

- **Speed resolution** (`resolveSpeedMps`): a case-insensitive alias table mapping a travel
  profile to a speed in m/s and a provenance tag, with fallback rules for `custom` and for
  `current`/`device` (the device's own speed, read through the location provider).
- **Request rules of the channel handlers**: argument defaults (profile `drive_city`,
  timeout 3000 ms), coordinate validation that reports the first bad field, the
  all-or-nothing row builder of `computeDistancesEta`, and the mapping from provider
  exceptions to response codes.
- **The cache-then-live acquisition protocol** of `FusedLocationProvider.getLastKnownOrCurrent`:
  settings check (recorded, not acted on), quick cached fix accepted when at most 5000 ms
  old, settings gate, then a live fix bounded by `timeoutMs` whose token is cancelled on
  timeout. The platform is a fake (`Platform`) that fixes in advance what the settings
  client, the last-location task and the current-location task will answer, with how much
  delay, and the wall clock reading. The provider records every platform call in a ghost
  trace `calls`.
- **ETA** (`GeoUtils.etaSeconds`) over reals, with NaN represented as `None`.

Files, one module each: `wrappers.dfy` (Option, Result), `text.dfy` (lowercasing, decimal
rendering, prefix and blank tests), `location_sample.dfy`, `location_provider.dfy` (the
exceptions a provider throws), `geo_utils.dfy`, `fused_location_provider.dfy`,
`geo_tracker_plugin.dfy`.

Representation choices:

- Doubles and floats are reals; `Long` is an unbounded integer. A NaN distance is `None`.
  A missing or null channel argument is `None`.
- An asynchronous platform answer is `Answered(delayMs, value)` or `NoAnswer`; a wait of
  `budget` ms sees it exactly when `delayMs <= budget`.
- The haversine distance is the parameter `distance: DistanceFn` of every handler that
  computes one; its trigonometry is not modelled.
- The handlers are functions of the provider's platform (`None` when the plugin has no
  provider). For the `current`/`device` profile the device reading is what
  `getLastKnownOrCurrent` returns or throws on that platform with the defaulted `timeoutMs`
  as its budget (`ReadingOf`). `ResolveSpeedMps` is the method that consults an actual
  provider object, only for the `current`/`device` profile, and its result is the same
  resolution of `ReadingOf` the handlers use.
- The `LocationProvider` interface has one implementation; the model uses the class
  `FusedLocationProvider` directly, and `LocationProvider.Acquisition` is the interface's
  result type (a sample or a thrown exception).

Two behaviours are proved as the code has them:

- The provider's timeout message (`"Não foi possível obter localização em …ms."`,
  FusedLocationProvider.kt line 63) does not start with `TIMEOUT_`, so the plugin's TIMEOUT
  branch (GeoTrackerPlugin.kt line 107) is never taken for it: a live fix that times out is
  answered with `INTERNAL_ERROR` (`ProviderTimeoutIsInternalError`,
  `ProviderNeverRepliesTimeout`).
- The device branch picks its tag by comparing the chosen speed with 11.11 rather than by
  which branch was taken, so a device speed of exactly 11.11 is tagged
  `fallback:drive_city` (`DeviceProfile`). On the device the speed is a `Float`, and no
  `Float` converts to the `Double` 11.11, so this cannot happen there; over reals it can.

## Model

| member | source | states |
|---|---|---|
| `Text.Lowercase` | android/src/main/kotlin/com/example/geo_tracker/GeoTrackerPlugin.kt:221 | the lowercase form has the same length and lowercases each character (ASCII letters and the Kelvin sign) |
| `Text.LowercaseIdempotent` | android/src/main/kotlin/com/example/geo_tracker/GeoTrackerPlugin.kt:221 | lowercasing twice is lowercasing once |
| `Text.IfBlank` | android/src/main/kotlin/com/example/geo_tracker/GeoTrackerPlugin.kt:108 | a blank message (whitespace only) is replaced by the fallback; any other message is kept |
| `GeoUtils.EtaSeconds` | android/src/main/kotlin/com/example/geo_tracker/core/GeoUtils.kt:50-53 | the ETA is defined exactly when speed > 0 and the distance is a number ≥ 0; then it is non-negative and ETA × speed = distance |
| `GeoUtils.EtaMonotoneInDistance` | android/src/main/kotlin/com/example/geo_tracker/core/GeoUtils.kt:50-53 | at a fixed positive speed, a longer distance never gives a smaller ETA |
| `GeoUtils.EtaAntitoneInSpeed` | android/src/main/kotlin/com/example/geo_tracker/core/GeoUtils.kt:50-53 | over a fixed distance, a faster speed never gives a larger ETA |
| `FusedLocationProvider.ToSample` | android/src/main/kotlin/com/example/geo_tracker/providers/FusedLocationProvider.kt:137-144 | lat, lng, accuracy and time are copied; speed and bearing are present exactly when `hasSpeed()`/`hasBearing()` hold, and then carry the reading |
| `FusedLocationProvider.ToSampleForgetsOnlyUnreportedFields` | android/src/main/kotlin/com/example/geo_tracker/providers/FusedLocationProvider.kt:137-144 | two locations give the same sample exactly when they agree on every field that is reported |
| `FusedLocationProvider.SettingsErrorOrNull` | android/src/main/kotlin/com/example/geo_tracker/providers/FusedLocationProvider.kt:67-87 | an error is recorded exactly when the settings client fails within 500 ms, and it is that failure |
| `FusedLocationProvider.LastLocationQuick` | android/src/main/kotlin/com/example/geo_tracker/providers/FusedLocationProvider.kt:90-111 | a cached fix is returned exactly when a non-null fix arrives within the wait and `now - time <= maxAgeMs` |
| `FusedLocationProvider.CurrentLocationHighAccuracy` | android/src/main/kotlin/com/example/geo_tracker/providers/FusedLocationProvider.kt:114-135 | the request throws SecurityException exactly when it is denied; a fix the task delivers within `timeoutMs` is returned; a late answer, a failure or a null fix gives null |
| `FusedLocationProvider.TimeoutMessage` | android/src/main/kotlin/com/example/geo_tracker/providers/FusedLocationProvider.kt:63 | the no-fix message starts with `N` and ends with `ms.` |
| `FusedLocationProvider.Acquire` | android/src/main/kotlin/com/example/geo_tracker/providers/FusedLocationProvider.kt:51-64 | an accepted cached fix is the result; otherwise the call succeeds exactly when the settings check recorded no error and the live request delivered a fix in time, and then returns that fix |
| `FusedLocationProvider.AcquireCalls` | android/src/main/kotlin/com/example/geo_tracker/providers/FusedLocationProvider.kt:51-64 | two to four platform calls; only the two preliminary ones when the cache is accepted or the settings gate throws; four exactly when a live request is made and its wait runs out |
| `FusedLocationProvider.FusedLocationProvider.GetLastKnownOrCurrent` | android/src/main/kotlin/com/example/geo_tracker/providers/FusedLocationProvider.kt:51-64 | returns `Acquire(platform, timeoutMs)` and appends exactly `AcquireCalls(platform, timeoutMs)` to the call trace |
| `FusedLocationProvider.FusedLocationProvider.CheckLocationSettingsOrNull` | android/src/main/kotlin/com/example/geo_tracker/providers/FusedLocationProvider.kt:67-87 | one settings check is made; the result is the error only when a failure arrives within 500 ms |
| `FusedLocationProvider.FusedLocationProvider.GetLastLocationQuick` | android/src/main/kotlin/com/example/geo_tracker/providers/FusedLocationProvider.kt:90-111 | one last-location read is made; a throwing, failed, null, late or stale answer gives null |
| `FusedLocationProvider.FusedLocationProvider.GetCurrentLocationHighAccuracy` | android/src/main/kotlin/com/example/geo_tracker/providers/FusedLocationProvider.kt:114-135 | one live request is made, followed by a cancel exactly when the wait of `timeoutMs` ran out |
| `FusedLocationProvider.SettingsCheckThenCacheRead` | android/src/main/kotlin/com/example/geo_tracker/providers/FusedLocationProvider.kt:52-54 | every acquisition begins with the settings check and then the cache read |
| `FusedLocationProvider.CachedFixShortCircuits` | android/src/main/kotlin/com/example/geo_tracker/providers/FusedLocationProvider.kt:52-55 | an accepted cached fix is returned whatever the settings check said, and no live fix is requested |
| `FusedLocationProvider.CachedFixAgeRule` | android/src/main/kotlin/com/example/geo_tracker/providers/FusedLocationProvider.kt:96-107 | the cache is accepted exactly when a non-null fix arrives within 500 ms with `now - time <= 5000` |
| `FusedLocationProvider.SettingsGate` | android/src/main/kotlin/com/example/geo_tracker/providers/FusedLocationProvider.kt:57-59 | no cache and a recorded settings error throw IllegalStateException("LOCATION_SETTINGS_DISABLED") with no live request |
| `FusedLocationProvider.SilentSettingsCountAsOk` | android/src/main/kotlin/com/example/geo_tracker/providers/FusedLocationProvider.kt:75-86 | a settings check with no answer within 500 ms records no error |
| `FusedLocationProvider.LiveFixReturned` | android/src/main/kotlin/com/example/geo_tracker/providers/FusedLocationProvider.kt:61 | with no cache and settings OK, a fix delivered in time is the sample, after one live request and no cancel |
| `FusedLocationProvider.CancelOnlyOnTimeout` | android/src/main/kotlin/com/example/geo_tracker/providers/FusedLocationProvider.kt:129-133 | the token is cancelled once exactly when a live fix was requested and its wait ran out, never otherwise; at most one live request is made |
| `FusedLocationProvider.NoLiveFixMessage` | android/src/main/kotlin/com/example/geo_tracker/providers/FusedLocationProvider.kt:63 | a timed-out, failed or null live fix ends in IllegalStateException("Não foi possível obter localização em {timeoutMs}ms.") |
| `FusedLocationProvider.DeniedLiveRequest` | android/src/main/kotlin/com/example/geo_tracker/providers/FusedLocationProvider.kt:115-117 | with no cache and settings OK, a live request refused for lack of permission throws its SecurityException out of the acquisition, after exactly one live request |
| `FusedLocationProvider.AcquireFailures` | android/src/main/kotlin/com/example/geo_tracker/providers/FusedLocationProvider.kt:51-64 | every failure is the settings gate, the no-fix message, or the SecurityException of a denied live request |
| `GeoTrackerPlugin.DeviceSpeed` | android/src/main/kotlin/com/example/geo_tracker/GeoTrackerPlugin.kt:232 | no provider, an exception or a sample without speed reads as 0; otherwise the sample's speed |
| `GeoTrackerPlugin.Resolve` | android/src/main/kotlin/com/example/geo_tracker/GeoTrackerPlugin.kt:220-237 | every resolution has a positive speed and one of the seven tags; the drive_city and fallback tags carry 11.11; `location:speed` carries a speed above 0.5 other than 11.11 |
| `GeoTrackerPlugin.ResolveIgnoresCase` | android/src/main/kotlin/com/example/geo_tracker/GeoTrackerPlugin.kt:221 | names with the same lowercase form resolve identically |
| `GeoTrackerPlugin.ResolveLowercased` | android/src/main/kotlin/com/example/geo_tracker/GeoTrackerPlugin.kt:221 | resolving the lowercased name gives the same result |
| `GeoTrackerPlugin.FixedProfiles` | android/src/main/kotlin/com/example/geo_tracker/GeoTrackerPlugin.kt:222-225 | walk/walking/pedestrian → (1.39, profile:walk); bike/bicycle/cycling → (4.17, profile:bike); drive_city/car_city/urban → (11.11, profile:drive_city); drive_fast/highway → (22.22, profile:drive_fast) |
| `GeoTrackerPlugin.CustomProfile` | android/src/main/kotlin/com/example/geo_tracker/GeoTrackerPlugin.kt:226-230 | a positive custom speed is returned with tag `custom`; a missing or non-positive one gives (11.11, fallback:drive_city) |
| `GeoTrackerPlugin.DeviceProfile` | android/src/main/kotlin/com/example/geo_tracker/GeoTrackerPlugin.kt:231-235 | a device speed above 0.5 is used; otherwise, and for no provider or any exception, (11.11, fallback:drive_city); the tag is `location:speed` exactly when the speed differs from 11.11 |
| `GeoTrackerPlugin.UnrecognisedProfile` | android/src/main/kotlin/com/example/geo_tracker/GeoTrackerPlugin.kt:236 | a name outside the alias table gives (11.11, fallback:drive_city) |
| `GeoTrackerPlugin.ResolveWalkExample` | android/src/main/kotlin/com/example/geo_tracker/GeoTrackerPlugin.kt:221-222 | "WALK" and "walk" both resolve to (1.39, profile:walk) |
| `GeoTrackerPlugin.ResolveCustomExamples` | android/src/main/kotlin/com/example/geo_tracker/GeoTrackerPlugin.kt:226-230 | custom 5.0 → (5.0, custom); custom 0.0 and custom missing → (11.11, fallback:drive_city) |
| `GeoTrackerPlugin.ResolveUnknownExample` | android/src/main/kotlin/com/example/geo_tracker/GeoTrackerPlugin.kt:236 | "unknown_tag" → (11.11, fallback:drive_city) |
| `GeoTrackerPlugin.DriveCityIsDefaultProfile` | android/src/main/kotlin/com/example/geo_tracker/GeoTrackerPlugin.kt:224 | the default profile name selects the drive_city row |
| `GeoTrackerPlugin.ResolvedSpeedDefinesEta` | android/src/main/kotlin/com/example/geo_tracker/GeoTrackerPlugin.kt:146-148 | with any resolved speed the ETA of a non-negative distance is defined and non-negative |
| `GeoTrackerPlugin.ResolveSpeedMps` | android/src/main/kotlin/com/example/geo_tracker/GeoTrackerPlugin.kt:231-235 | the provider is called only for current/device, then exactly once with `timeoutMs`; the result is the resolution of what it returned or threw (`ReadingOf` its platform), and it never fails |
| `GeoTrackerPlugin.ReplyForFailure` | android/src/main/kotlin/com/example/geo_tracker/GeoTrackerPlugin.kt:100-113 | NO_PERMISSION exactly for SecurityException, with its message or the default; LOCATION_SETTINGS_DISABLED exactly for that IllegalStateException message, and TIMEOUT exactly for a `TIMEOUT_` prefix, each with its fixed text; INTERNAL_ERROR, with a stack trace, for everything else, carrying the exception's message (`IfBlank` for IllegalStateException, the default when an other throwable has none) |
| `GeoTrackerPlugin.LocationReply` | android/src/main/kotlin/com/example/geo_tracker/GeoTrackerPlugin.kt:96-113 | a sample is answered as such; an exception is answered with its mapped error |
| `GeoTrackerPlugin.DeniedLiveRequestIsNoPermission` | android/src/main/kotlin/com/example/geo_tracker/GeoTrackerPlugin.kt:100-101 | a denied live request (no cache, settings OK) is answered NO_PERMISSION with the exception's message or the default one |
| `GeoTrackerPlugin.ProviderTimeoutIsInternalError` | android/src/main/kotlin/com/example/geo_tracker/GeoTrackerPlugin.kt:105-108 | the provider's timeout message is answered as INTERNAL_ERROR carrying that message, not as TIMEOUT |
| `GeoTrackerPlugin.ProviderNeverRepliesTimeout` | android/src/main/kotlin/com/example/geo_tracker/GeoTrackerPlugin.kt:100-113 | no failure of the fused provider is answered with TIMEOUT; a live fix that timed out is answered with INTERNAL_ERROR |
| `GeoTrackerPlugin.ToLong` | android/src/main/kotlin/com/example/geo_tracker/GeoTrackerPlugin.kt:93 | `Number.toLong()` truncates toward zero inside the Long range and saturates to Long.MAX_VALUE / Long.MIN_VALUE outside it |
| `GeoTrackerPlugin.ToLongKeepsLongs` | android/src/main/kotlin/com/example/geo_tracker/GeoTrackerPlugin.kt:93 | a whole number in the Long range converts to itself |
| `GeoTrackerPlugin.TimeoutOrDefault` | android/src/main/kotlin/com/example/geo_tracker/GeoTrackerPlugin.kt:139 | a missing timeout is 3000 ms; a given one is converted by `ToLong`; the budget is always in the Long range |
| `GeoTrackerPlugin.WithDefaults` | android/src/main/kotlin/com/example/geo_tracker/GeoTrackerPlugin.kt:137-139 | a missing profile is drive_city and a given one is kept; the custom speed is kept; the timeout is `TimeoutOrDefault` of the argument |
| `GeoTrackerPlugin.DefaultsApply` | android/src/main/kotlin/com/example/geo_tracker/GeoTrackerPlugin.kt:139 | the provider's budget is 3000 ms when the argument is missing, `ToLong` of a given one, and exactly a given whole number in the Long range |
| `GeoTrackerPlugin.NumberField` | android/src/main/kotlin/com/example/geo_tracker/GeoTrackerPlugin.kt:121 | a field is read exactly when it is present and a number |
| `GeoTrackerPlugin.ParseEndpoints` | android/src/main/kotlin/com/example/geo_tracker/GeoTrackerPlugin.kt:141-144 | succeeds exactly when all four coordinates are numbers; otherwise names the first bad one in the order from.lat, from.lng, to.lat, to.lng |
| `GeoTrackerPlugin.ComputeDistanceMeters` | android/src/main/kotlin/com/example/geo_tracker/GeoTrackerPlugin.kt:117-128 | a missing `from` or `to` is BAD_ARGS with its message; with both, invalid coordinates give BAD_ARGS with `ParseEndpoints`' message for the first bad one, and valid ones give the distance between the parsed points |
| `GeoTrackerPlugin.ComputeDistanceEta` | android/src/main/kotlin/com/example/geo_tracker/GeoTrackerPlugin.kt:131-155 | missing arguments are BAD_ARGS; with both points, the call succeeds exactly when the endpoints parse, else BAD_ARGS names the first bad coordinate; a reply's speed and tag are the resolution of the defaulted profile and custom speed with the provider read under the defaulted `timeoutMs`, its meters the distance of the parsed points, and its ETA that of the meters at that speed |
| `GeoTrackerPlugin.DistanceEtaDefaultProfile` | android/src/main/kotlin/com/example/geo_tracker/GeoTrackerPlugin.kt:137 | without a profile argument a reply uses (11.11, profile:drive_city) |
| `GeoTrackerPlugin.DeviceSpeedWithinBudget` | android/src/main/kotlin/com/example/geo_tracker/GeoTrackerPlugin.kt:139 | with the device profile, no cache and settings OK, a live fix with a usable speed sets the reply's speed (tag `location:speed`) exactly when it arrives within the defaulted `timeoutMs`; a later one gives (11.11, fallback:drive_city) |
| `GeoTrackerPlugin.ParseItem` | android/src/main/kotlin/com/example/geo_tracker/GeoTrackerPlugin.kt:176-179 | an item is accepted exactly when it is a map with numeric lat and lng, and then carries them and its non-null `id`; otherwise the message names `to[idx]`, `to[idx].lat` or `to[idx].lng`, the first that fails |
| `GeoTrackerPlugin.ItemMessagesNameTheIndex` | android/src/main/kotlin/com/example/geo_tracker/GeoTrackerPlugin.kt:176-178 | two items with the same error message have the same index |
| `GeoTrackerPlugin.MakeRow` | android/src/main/kotlin/com/example/geo_tracker/GeoTrackerPlugin.kt:179-184 | a row carries its index, id and coordinates, the distance from `from` to them, and an ETA that is non-negative and times the speed gives that distance |
| `GeoTrackerPlugin.RowsFrom` | android/src/main/kotlin/com/example/geo_tracker/GeoTrackerPlugin.kt:174-185 | a successful result has one row per remaining item, numbered from the first item's position upward |
| `GeoTrackerPlugin.RowsFromShape` | android/src/main/kotlin/com/example/geo_tracker/GeoTrackerPlugin.kt:174-185 | the rows succeed exactly when every item is well formed; then one row per item, in order, with `index` its position |
| `GeoTrackerPlugin.RowsFromFirstMalformed` | android/src/main/kotlin/com/example/geo_tracker/GeoTrackerPlugin.kt:175-178 | the rows fail with the message of the first malformed item |
| `GeoTrackerPlugin.RowsMatchItems` | android/src/main/kotlin/com/example/geo_tracker/GeoTrackerPlugin.kt:174-185 | rows built from all items have one row per item, each with that item's index, id, coordinates, distance and ETA |
| `GeoTrackerPlugin.BuildRows` | android/src/main/kotlin/com/example/geo_tracker/GeoTrackerPlugin.kt:174-185 | the loop returns the rows `RowsFrom` specifies, stopping at the first malformed item without rows |
| `GeoTrackerPlugin.ComputeDistancesEta` | android/src/main/kotlin/com/example/geo_tracker/GeoTrackerPlugin.kt:158-198 | missing arguments are BAD_ARGS; a non-numeric `from.lat`/`from.lng` is BAD_ARGS naming it; with a valid `from`, the batch succeeds exactly when `RowsFrom` does and otherwise fails with its message; a payload carries the defaulted profile, its resolution with the provider read under the defaulted `timeoutMs`, the parsed `from`, and those rows |
| `GeoTrackerPlugin.BatchSucceedsOnWellFormedInput` | android/src/main/kotlin/com/example/geo_tracker/GeoTrackerPlugin.kt:169-194 | with both arguments, the batch succeeds exactly when `from` has numeric lat and lng and every destination is well formed |
| `GeoTrackerPlugin.BatchRowsMatchDestinations` | android/src/main/kotlin/com/example/geo_tracker/GeoTrackerPlugin.kt:174-185 | a successful batch has one row per destination, in input order, with `index`, `id`, coordinates, distance and ETA of that destination |
| `GeoTrackerPlugin.BatchFailsOnFirstMalformed` | android/src/main/kotlin/com/example/geo_tracker/GeoTrackerPlugin.kt:175-178 | with a valid `from`, the batch fails as a whole with BAD_ARGS naming the first malformed destination |
| `GeoTrackerPlugin.BatchDefaults` | android/src/main/kotlin/com/example/geo_tracker/GeoTrackerPlugin.kt:165-167 | without profile and timeout arguments the budget is 3000 ms and a payload uses drive_city (11.11, profile:drive_city) |

## Left out

- The haversine formula (GeoUtils.kt lines 25-41): floating-point trigonometry. Distances come from the `distance` parameter, so `distance(a, a) == 0` and symmetry are not proved.
- IEEE arithmetic: reals replace doubles and floats, so rounding, infinities and NaN inputs other than a NaN distance are not modelled. A NaN custom speed behaves like a missing one in the source; the model has only the missing one.
- `Text.Lowercase`: lowercases only ASCII letters and the Kelvin sign; other characters are kept. Unicode lowercasing of other letters never yields an alias, so the profile a name selects is the same.
- Wrong-typed top-level arguments (a `from` that is not a map, a `profile` that is not a string, …): the source's casts throw ClassCastException, answered as INTERNAL_ERROR. The argument records are typed, so this path is not modelled. The `id` of a row is kept as the received value; its `toString()` rendering is not modelled.
- Concurrency: the latches, atomic references, the single-thread executor, coroutines and the main-thread hop. Each timed wait is reduced to "answered within the budget or not"; a callback that lands between the end of a wait and the read of its result is not modelled.
- `System.currentTimeMillis` is the platform's `now`; `Long` overflow in `now - time` is not modelled.
- Lifecycle and channel glue: `onAttachedToEngine`/`onDetached…`, the nullable `appContext`/`activity`/`locationProvider` fields and the NO_CONTEXT/NO_PROVIDER replies, `getPlatformVersion`, `checkPermissions`/`requestPermissions` and the permission pre-check of `getLastKnownOrCurrent` (GeoTrackerPlugin.kt lines 89-94), `toMap` marshalling, logging.
- `PermissionHelper.kt` is not part of this model: it only wraps the platform's permission calls.
- The interface's default budget of 1500 ms (LocationProvider.kt line 26) is not modelled: the plugin always passes a budget.
