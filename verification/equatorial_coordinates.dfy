/** Equatorial coordinates: right ascension in `[0, TAU)` and declination in
    `[-TAU/4, TAU/4]`, in radians. */
module EquatorialCoordinates {
  import opened Wrappers
  import opened Interval
  import opened Preconditions
  import opened Angle
  import opened SphericalCoordinates

  const RA_INTERVAL: RightOpenInterval := RightOpenOf(0.0, TAU).value
  const DEC_INTERVAL: ClosedInterval := ClosedSymmetric(TAU / 2.0).value

  datatype EquatorialCoordinates = EquatorialCoordinates(pos: SphericalCoordinates) {
    function Ra(): real { pos.lon }
    function Dec(): real { pos.lat }

    /** The invariant `Of` establishes. */
    predicate Valid() {
      RA_INTERVAL.Contains(Ra()) && DEC_INTERVAL.Contains(Dec())
    }

    /** `raDeg`: right ascension in degrees, in `[0, 360)`. */
    function RaDeg(): (d: real)
      ensures Valid() ==> 0.0 <= d < 360.0
    {
      RangeInDegrees(this);
      pos.LonDeg()
    }

    /** `raHr`: right ascension in hours, `ra * 24 / TAU`, in `[0, 24)`. */
    function RaHr(): (h: real)
      ensures h * TAU == Ra() * 24.0
      ensures Valid() ==> 0.0 <= h < 24.0
    {
      RangeInDegrees(this);
      ToHr(pos.lon)
    }

    /** `decDeg`: declination in degrees, in `[-90, 90]`. */
    function DecDeg(): (d: real)
      ensures Valid() ==> -90.0 <= d <= 90.0
    {
      RangeInDegrees(this);
      ToDeg(pos.lat)
    }
  }

  /** `EquatorialCoordinates.of`: fails unless `ra` is in `[0, TAU)` and `dec`
      in `[-TAU/4, TAU/4]`; the accessors give the arguments back. */
  function Of(ra: real, dec: real): (r: Result<EquatorialCoordinates>)
    ensures r.Success? <==> 0.0 <= ra < TAU && -TAU / 4.0 <= dec <= TAU / 4.0
    ensures r.Failure? ==> r.error == IllegalArgument
    ensures r.Success? ==> r.value.Ra() == ra && r.value.Dec() == dec && r.value.Valid()
  {
    var _ :- CheckInInterval(RA_INTERVAL, ra);
    var _ :- CheckInInterval(DEC_INTERVAL, dec);
    Success(EquatorialCoordinates(SphericalCoordinates(ra, dec)))
  }

  lemma RangeInDegrees(e: EquatorialCoordinates)
    ensures e.Valid() ==> 0.0 <= ToDeg(e.Ra()) < 360.0 && 0.0 <= ToHr(e.Ra()) < 24.0
    ensures e.Valid() ==> -90.0 <= ToDeg(e.Dec()) <= 90.0
  {
    if e.Valid() {
      FullTurnInUnits(e.Ra());
      QuarterTurnInDegrees(e.Dec());
    }
  }
}
