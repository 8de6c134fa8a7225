/** Observer positions on Earth: longitude in `[-180°, 180°)`, latitude in
    `[-90°, 90°]`, stored in radians. */
module GeographicCoordinates {
  import opened Wrappers
  import opened Interval
  import opened Preconditions
  import opened Angle
  import opened SphericalCoordinates

  const LATDEG_INTERVAL: ClosedInterval := ClosedSymmetric(180.0).value
  const LONDEG_INTERVAL: RightOpenInterval := RightOpenSymmetric(360.0).value

  datatype GeographicCoordinates = GeographicCoordinates(pos: SphericalCoordinates) {
    function Lon(): real { pos.lon }
    function Lat(): real { pos.lat }
    function LonDeg(): real { pos.LonDeg() }
    function LatDeg(): real { pos.LatDeg() }

    /** The invariant `OfDeg` establishes. */
    predicate Valid() {
      IsValidLonDeg(LonDeg()) && IsValidLatDeg(LatDeg())
    }
  }

  /** `isValidLonDeg`: membership in `[-180, 180)`. */
  predicate IsValidLonDeg(lonDeg: real)
    ensures IsValidLonDeg(lonDeg) <==> -180.0 <= lonDeg < 180.0
  {
    LONDEG_INTERVAL.Contains(lonDeg)
  }

  /** `isValidLatDeg`: membership in `[-90, 90]`. */
  predicate IsValidLatDeg(latDeg: real)
    ensures IsValidLatDeg(latDeg) <==> -90.0 <= latDeg <= 90.0
  {
    LATDEG_INTERVAL.Contains(latDeg)
  }

  /** `GeographicCoordinates.ofDeg`: fails exactly when one of the degree
      values is invalid; the degree accessors give the arguments back. */
  function OfDeg(lonDeg: real, latDeg: real): (r: Result<GeographicCoordinates>)
    ensures r.Success? <==> IsValidLonDeg(lonDeg) && IsValidLatDeg(latDeg)
    ensures r.Failure? ==> r.error == IllegalArgument
    ensures r.Success? ==> r.value.LonDeg() == lonDeg && r.value.LatDeg() == latDeg && r.value.Valid()
  {
    var lonValid := CheckArgument(IsValidLonDeg(lonDeg));
    :- lonValid;
    :- CheckArgument(IsValidLatDeg(latDeg));
    DegRoundTrip(lonDeg, 0.0);
    DegRoundTrip(latDeg, 0.0);
    Success(GeographicCoordinates(SphericalCoordinates(Angle.OfDeg(lonDeg), Angle.OfDeg(latDeg))))
  }

  /** A valid longitude lies in `[-TAU/2, TAU/2)` radians. */
  lemma LonRange(g: GeographicCoordinates)
    requires g.Valid()
    ensures -TAU / 2.0 <= g.Lon() < TAU / 2.0
  {
    DegRoundTrip(0.0, g.Lon());
    ConversionsMonotone(-180.0, g.LonDeg());
    ConversionsMonotone(g.LonDeg(), 180.0);
    ToDegOfFractions();
  }
}
