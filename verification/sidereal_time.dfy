/** Greenwich and local sidereal time, as angles in `[0, TAU)`. */
module SiderealTime {
  import opened Angle
  import opened Polynomial
  import opened Epoch
  import opened GeographicCoordinates
  import opened Interval

  const MILLIS_PER_HOUR: real := 3600000.0
  const COEFF: real := 1.002737909

  /** `S0(T) = 0.000025862 T² + 2400.051336 T + 6.697374558`, in hours. */
  const POLYNOMIAL: Polynomial := Of(0.000025862, [2400.051336, 6.697374558]).value

  /** The instant in UTC, truncated to the start of its day. */
  function DayStart(when: ZonedDateTime): (d: ZonedDateTime)
    ensures d.epochMillis <= when.epochMillis < d.epochMillis + MILLIS_PER_DAY
    ensures d.epochMillis % MILLIS_PER_DAY == 0 && d.offsetSeconds == 0
  {
    ZonedDateTime((when.epochMillis / MILLIS_PER_DAY) * MILLIS_PER_DAY, 0)
  }

  /** Hours elapsed since UTC midnight, in `[0, 24)`. */
  function HoursIntoDay(when: ZonedDateTime): (t: real)
    ensures 0.0 <= t < 24.0
    ensures t * MILLIS_PER_HOUR == (when.epochMillis - DayStart(when).epochMillis) as real
  {
    (when.epochMillis - DayStart(when).epochMillis) as real / MILLIS_PER_HOUR
  }

  /** `SiderealTime.greenwich`: the polynomial in Julian centuries from J2000
      to the start of the UTC day, plus the scaled time of day, in hours,
      converted to radians and normalised. */
  function Greenwich(when: ZonedDateTime): (r: real)
    ensures 0.0 <= r < TAU
    ensures
      var T := JulianCenturiesUntil(J2000, DayStart(when));
      var t := HoursIntoDay(when);
      r == NormalizePositive(OfHr(SiderealHours(T, t)))
  {
    var days := DayStart(when);
    var T := JulianCenturiesUntil(J2000, days);
    var t := HoursIntoDay(when);
    var s0 := At(POLYNOMIAL, T);
    var s1 := COEFF * t;
    SiderealPolynomial(T, t);
    NormalizePositive(OfHr(s0 + s1))
  }

  /** Greenwich sidereal time in hours, before normalisation, written out. */
  function SiderealHours(T: real, t: real): real {
    0.000025862 * T * T + 2400.051336 * T + 6.697374558 + 1.002737909 * t
  }

  lemma SiderealPolynomial(T: real, t: real)
    ensures At(POLYNOMIAL, T) + COEFF * t == SiderealHours(T, t)
  {
    var cs := POLYNOMIAL.coeffs;
    assert cs == [0.000025862, 2400.051336, 6.697374558];
    assert PowerSum(cs[2..], T) == 6.697374558 * Pow(T, 0) + PowerSum([], T);
    assert PowerSum(cs[1..], T) == 2400.051336 * Pow(T, 1) + PowerSum(cs[2..], T);
    assert PowerSum(cs, T) == 0.000025862 * Pow(T, 2) + PowerSum(cs[1..], T);
  }

  /** Greenwich sidereal time depends on the instant only, not on the zone. */
  lemma GreenwichIgnoresZone(epochMillis: int, offset1: int, offset2: int)
    ensures Greenwich(ZonedDateTime(epochMillis, offset1)) == Greenwich(ZonedDateTime(epochMillis, offset2))
  {
  }

  /** `SiderealTime.local`: Greenwich sidereal time shifted by the observer's
      longitude and normalised again. */
  function Local(when: ZonedDateTime, where: GeographicCoordinates): (r: real)
    ensures 0.0 <= r < TAU
    ensures exists k: int :: r == Greenwich(when) + where.Lon() + Turns(k)
  {
    var v := Greenwich(when) + where.Lon();
    var k := -((v - NORMALIZATION_INTERVAL.low) / NORMALIZATION_INTERVAL.Size()).Floor;
    ReduceIsShift(NORMALIZATION_INTERVAL, v);
    assert NormalizePositive(v) == v + Turns(k);
    NormalizePositive(v)
  }

  /** Local sidereal time is the only angle of `[0, TAU)` a whole number of
      turns away from Greenwich sidereal time plus the longitude; when that
      sum is already in `[0, TAU)`, it is the local sidereal time. */
  lemma LocalWithoutWrap(when: ZonedDateTime, where: GeographicCoordinates)
    requires 0.0 <= Greenwich(when) + where.Lon() < TAU
    ensures Local(when, where) == Greenwich(when) + where.Lon()
  {
    NormalizeIdentity(Greenwich(when) + where.Lon());
  }

  /** At longitude 0 local sidereal time is Greenwich sidereal time. */
  lemma LocalAtPrimeMeridian(when: ZonedDateTime, where: GeographicCoordinates)
    requires where.Lon() == 0.0
    ensures Local(when, where) == Greenwich(when)
  {
    NormalizeIdentity(Greenwich(when));
  }

  /** A full turn of longitude east or west changes nothing. */
  lemma LocalPeriodicInLongitude(when: ZonedDateTime, lon: real, k: int)
    ensures Local(when, GeographicCoordinates(SphericalCoordinates.SphericalCoordinates(lon + (k as real) * TAU, 0.0)))
         == Local(when, GeographicCoordinates(SphericalCoordinates.SphericalCoordinates(lon, 0.0)))
  {
    assert Greenwich(when) + (lon + (k as real) * TAU) == (Greenwich(when) + lon) + (k as real) * TAU;
    NormalizePeriodic(Greenwich(when) + lon, k);
  }
}
