/** Great-circle distance and travel-time estimate. */
module GeoUtils {
  import opened Wrappers

  /** The haversine distance in metres between (lat1, lon1) and (lat2, lon2); `None` stands
      for a NaN result. Its trigonometry on doubles is not modelled: the model takes the
      distance function as a parameter wherever a distance is computed. */
  type DistanceFn = (real, real, real, real) -> Option<real>

  /** ETA in seconds for a distance in metres (`None` = NaN) at a speed in m/s. The result
      is NaN (`None`) when the speed is not positive or the distance is NaN or negative. */
  function EtaSeconds(distanceMeters: Option<real>, speedMps: real): (eta: Option<real>)
    ensures eta.Some? <==> speedMps > 0.0 && distanceMeters.Some? && distanceMeters.value >= 0.0
    ensures eta.Some? ==> eta.value >= 0.0 && eta.value * speedMps == distanceMeters.value
  {
    if speedMps <= 0.0 || distanceMeters.None? || distanceMeters.value < 0.0 then None
    else Some(distanceMeters.value / speedMps)
  }

  /** A factor that keeps a non-negative product with a positive speed is non-negative. */
  lemma NonNegativeFactor(x: real, s: real)
    requires s > 0.0 && x * s >= 0.0
    ensures x >= 0.0
  {
    assert x == (x * s) / s;
  }

  /** A longer distance at the same speed never takes less time. */
  lemma EtaMonotoneInDistance(d1: real, d2: real, speedMps: real)
    requires 0.0 <= d1 <= d2 && speedMps > 0.0
    ensures EtaSeconds(Some(d1), speedMps).value <= EtaSeconds(Some(d2), speedMps).value
  {
    var e1, e2 := EtaSeconds(Some(d1), speedMps).value, EtaSeconds(Some(d2), speedMps).value;
    assert (e2 - e1) * speedMps == d2 - d1;
    NonNegativeFactor(e2 - e1, speedMps);
  }

  /** A faster speed over the same distance never takes longer. */
  lemma EtaAntitoneInSpeed(d: real, s1: real, s2: real)
    requires d >= 0.0 && 0.0 < s1 <= s2
    ensures EtaSeconds(Some(d), s2).value <= EtaSeconds(Some(d), s1).value
  {
    var e1, e2 := EtaSeconds(Some(d), s1).value, EtaSeconds(Some(d), s2).value;
    assert e1 * s2 >= e1 * s1;
    assert (e1 - e2) * s2 == e1 * s2 - d;
    NonNegativeFactor(e1 - e2, s2);
  }
}
