/** Angles in radians, their unit conversions and their normalisation into
    `[0, TAU)`. `TAU` (2π) is an abstract positive constant: no proof here
    depends on its numeric value. */
module Angle {
  import opened Wrappers
  import opened Interval
  import opened Preconditions

  type PositiveReal = r: real | r > 0.0 witness 1.0

  /** The full turn, 2π, left abstract: only its positivity is known. */
  const FULL_TURN: PositiveReal

  /** `TAU`, typed as a plain real so that it can be negated and divided. */
  const TAU: real := FULL_TURN

  /** Upper bound (exclusive) of minutes and seconds in `OfDMS`. */
  const MAX: int := 60

  const DEG_PER_RAD: real := 360.0 / TAU
  const HR_PER_RAD: real := 24.0 / TAU
  const SEC_PER_RAD: real := 3600.0 * 360.0 / TAU
  const MIN_PER_RAD: real := 60.0 * 360.0 / TAU

  /** The interval `[0, TAU)` that `NormalizePositive` reduces into. */
  const NORMALIZATION_INTERVAL: RightOpenInterval := RightOpen(0.0, TAU)

  /** `k` whole turns, in radians. */
  function Turns(k: int): real {
    (k as real) * TAU
  }

  /** `normalizePositive`: the angle reduced into `[0, TAU)`. */
  function NormalizePositive(rad: real): (r: real)
    ensures 0.0 <= r < TAU
  {
    Reduce(NORMALIZATION_INTERVAL, rad)
  }

  /** Normalisation ignores whole turns. */
  lemma NormalizePeriodic(rad: real, k: int)
    ensures NormalizePositive(rad + (k as real) * TAU) == NormalizePositive(rad)
  {
    assert rad + (k as real) * TAU == Shift(NORMALIZATION_INTERVAL, rad, k);
    ReducePeriodic(NORMALIZATION_INTERVAL, rad, k);
  }

  /** Normalisation is the identity on `[0, TAU)`. */
  lemma NormalizeIdentity(rad: real)
    requires 0.0 <= rad < TAU
    ensures NormalizePositive(rad) == rad
  {
    ReduceIdentity(NORMALIZATION_INTERVAL, rad);
  }

  /** `ofArcsec`: seconds of arc to radians. */
  function OfArcsec(sec: real): real {
    sec / SEC_PER_RAD
  }

  /** `ofDeg` (`Math.toRadians`): degrees to radians. */
  function OfDeg(deg: real): real {
    deg * ((TAU / 2.0) / 180.0)
  }

  /** `toDeg` (`Math.toDegrees`): radians to degrees. */
  function ToDeg(rad: real): real {
    rad * (180.0 / (TAU / 2.0))
  }

  /** `ofHr`: hours to radians. */
  function OfHr(hr: real): real {
    hr / HR_PER_RAD
  }

  /** `toHr`: radians to hours. */
  function ToHr(rad: real): real {
    rad * HR_PER_RAD
  }

  /** `ofDMS`: degrees, minutes and seconds of arc to radians; the degrees must
      be non-negative and the minutes and seconds in `[0, 60)`. */
  function OfDMS(deg: int, min: int, sec: real): (r: Result<real>)
    ensures r.Success? <==> deg >= 0 && 0 <= min < MAX && 0.0 <= sec < MAX as real
    ensures r.Failure? ==> r.error == IllegalArgument
    ensures r.Success? ==> r.value == OfDeg(deg as real + min as real / 60.0 + sec / 3600.0)
  {
    DMSSum(deg, min, sec);
    :- CheckArgument(deg >= 0);
    :- CheckArgument(min >= 0 && min < MAX);
    :- CheckArgument(sec >= 0.0 && sec < MAX as real);
    Success(deg as real / DEG_PER_RAD + min as real / MIN_PER_RAD + OfArcsec(sec))
  }

  lemma DMSSum(deg: int, min: int, sec: real)
    ensures deg as real / DEG_PER_RAD + min as real / MIN_PER_RAD + OfArcsec(sec)
         == OfDeg(deg as real + min as real / 60.0 + sec / 3600.0)
  {
    var d := deg as real;
    var m := min as real;
    assert d / DEG_PER_RAD == d * TAU / 360.0;
    assert m / MIN_PER_RAD == m * TAU / 21600.0;
    assert OfArcsec(sec) == sec * TAU / 1296000.0;
    assert OfDeg(d + m / 60.0 + sec / 3600.0) == (d + m / 60.0 + sec / 3600.0) * TAU / 360.0;
  }

  lemma DegRoundTrip(deg: real, rad: real)
    ensures ToDeg(OfDeg(deg)) == deg
    ensures OfDeg(ToDeg(rad)) == rad
  {
    assert (TAU / 2.0) / 180.0 * (180.0 / (TAU / 2.0)) == 1.0;
  }

  lemma HrRoundTrip(hr: real, rad: real)
    ensures ToHr(OfHr(hr)) == hr
    ensures OfHr(ToHr(rad)) == rad
  {
  }

  /** 3600 seconds of arc make one degree. */
  lemma ArcsecOfDegree()
    ensures OfArcsec(3600.0) == OfDeg(1.0)
  {
  }

  /** Every unit conversion scales by a positive constant, so it preserves
      order, strict and non-strict; this moves interval bounds between units. */
  lemma ConversionsMonotone(a: real, b: real)
    requires a <= b
    ensures ToDeg(a) <= ToDeg(b) && OfDeg(a) <= OfDeg(b) && ToHr(a) <= ToHr(b)
    ensures a < b ==> ToDeg(a) < ToDeg(b) && OfDeg(a) < OfDeg(b) && ToHr(a) < ToHr(b)
  {
    assert 180.0 / (TAU / 2.0) > 0.0;
    assert (TAU / 2.0) / 180.0 > 0.0;
    assert HR_PER_RAD > 0.0;
  }

  /** An angle of `[0, TAU)` is in `[0, 360)` degrees and `[0, 24)` hours. */
  lemma FullTurnInUnits(a: real)
    requires 0.0 <= a < TAU
    ensures 0.0 <= ToDeg(a) < 360.0 && 0.0 <= ToHr(a) < 24.0
  {
    ConversionsMonotone(0.0, a);
    ConversionsMonotone(a, TAU);
    ToDegOfFractions();
  }

  /** An angle of `[-TAU/4, TAU/4]` is in `[-90, 90]` degrees. */
  lemma QuarterTurnInDegrees(a: real)
    requires -TAU / 4.0 <= a <= TAU / 4.0
    ensures -90.0 <= ToDeg(a) <= 90.0
  {
    ConversionsMonotone(-TAU / 4.0, a);
    ConversionsMonotone(a, TAU / 4.0);
    ToDegOfFractions();
  }

  /** Degrees of `[0, 360)` are radians of `[0, TAU)`. */
  lemma DegreesOfFullTurn(d: real)
    requires 0.0 <= d < 360.0
    ensures 0.0 <= OfDeg(d) < TAU
  {
    ConversionsMonotone(0.0, d);
    ConversionsMonotone(d, 360.0);
    ToDegOfFractions();
  }

  /** Degrees of `[-90, 90]` are radians of `[-TAU/4, TAU/4]`. */
  lemma DegreesOfQuarterTurn(d: real)
    requires -90.0 <= d <= 90.0
    ensures -TAU / 4.0 <= OfDeg(d) <= TAU / 4.0
  {
    ConversionsMonotone(-90.0, d);
    ConversionsMonotone(d, 90.0);
    ToDegOfFractions();
  }

  lemma ToDegOfFractions()
    ensures ToDeg(TAU) == 360.0 && ToDeg(TAU / 4.0) == 90.0 && ToDeg(-TAU / 4.0) == -90.0
    ensures ToHr(TAU) == 24.0
    ensures OfDeg(360.0) == TAU && OfDeg(90.0) == TAU / 4.0 && OfDeg(-90.0) == -TAU / 4.0 && OfDeg(180.0) == TAU / 2.0
  {
  }
}
