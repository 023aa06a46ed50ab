/** The value a location request produces. */
module LocationSample {
  import opened Wrappers

  /** A location fix: degrees, metres, epoch milliseconds; speed (m/s) and bearing
      (degrees, 0 = north) only when the platform reported them. Kotlin's `Double` and
      `Float` fields are reals here and `Long` is an integer. */
  datatype LocationSample = LocationSample(
    lat: real,
    lng: real,
    accuracy: real,
    timestampMillis: int,
    speedMps: Option<real>,
    bearing: Option<real>)
}
