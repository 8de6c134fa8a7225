/** Ecliptic coordinates: longitude in `[0, TAU)` and latitude in
    `[-TAU/4, TAU/4]`, in radians. */
module EclipticCoordinates {
  import opened Wrappers
  import opened Interval
  import opened Preconditions
  import opened Angle
  import opened SphericalCoordinates

  const LON_INTERVAL: RightOpenInterval := RightOpenOf(0.0, TAU).value
  const LAT_INTERVAL: ClosedInterval := ClosedSymmetric(TAU / 2.0).value

  datatype EclipticCoordinates = EclipticCoordinates(pos: SphericalCoordinates) {
    function Lon(): real { pos.lon }
    function Lat(): real { pos.lat }

    /** The invariant `Of` establishes. */
    predicate Valid() {
      LON_INTERVAL.Contains(Lon()) && LAT_INTERVAL.Contains(Lat())
    }

    /** `lonDeg`: longitude in degrees, in `[0, 360)`. */
    function LonDeg(): (d: real)
      ensures Valid() ==> 0.0 <= d < 360.0
    {
      RangeInDegrees(this);
      pos.LonDeg()
    }

    /** `latDeg`: latitude in degrees, in `[-90, 90]`. */
    function LatDeg(): (d: real)
      ensures Valid() ==> -90.0 <= d <= 90.0
    {
      RangeInDegrees(this);
      pos.LatDeg()
    }
  }

  /** `EclipticCoordinates.of`: fails unless `lon` is in `[0, TAU)` and `lat`
      in `[-TAU/4, TAU/4]`; the accessors give the arguments back. */
  function Of(lon: real, lat: real): (r: Result<EclipticCoordinates>)
    ensures r.Success? <==> 0.0 <= lon < TAU && -TAU / 4.0 <= lat <= TAU / 4.0
    ensures r.Failure? ==> r.error == IllegalArgument
    ensures r.Success? ==> r.value.Lon() == lon && r.value.Lat() == lat && r.value.Valid()
  {
    var _ :- CheckInInterval(LON_INTERVAL, lon);
    var _ :- CheckInInterval(LAT_INTERVAL, lat);
    Success(EclipticCoordinates(SphericalCoordinates(lon, lat)))
  }

  lemma RangeInDegrees(e: EclipticCoordinates)
    ensures e.Valid() ==> 0.0 <= ToDeg(e.Lon()) < 360.0
    ensures e.Valid() ==> -90.0 <= ToDeg(e.Lat()) <= 90.0
  {
    if e.Valid() {
      FullTurnInUnits(e.Lon());
      QuarterTurnInDegrees(e.Lat());
    }
  }
}
