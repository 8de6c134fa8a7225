/** The Moon's phase name: the elongation from the Sun, cut into eight
    eighths of a turn rounded to the nearest. The orbital model computing the
    elongation is trigonometric and not part of this model. */
module MoonModel {
  import opened Angle
  import opened JavaMath
  import opened Interval

  /** The phase names by index; index 8 wraps round to the new moon. */
  const PHASE_NAMES: seq<string> := ["new moon", "waxing crescent", "first quarter", "waxing gibbous",
                                     "full moon", "waning gibbous", "last quarter", "waning crescent"]

  /** `round(normalizePositive(lonDiff) / 2π * 8)`, always in `0..8`. */
  function PhaseIndex(lonDiff: real): (k: int)
    ensures 0 <= k <= 8
  {
    var a := NormalizePositive(lonDiff);
    DivideBelowOne(a, TAU);
    Round(a / TAU * 8.0)
  }

  /** `moonPhaseCalc`: the name of the phase index; the default branch of the
      Java switch cannot be reached. */
  function MoonPhaseCalc(lonDiff: real): (name: string)
    ensures name in PHASE_NAMES
  {
    var k := PhaseIndex(lonDiff);
    if k == 0 || k == 8 then "new moon"
    else if k == 1 then "waxing crescent"
    else if k == 2 then "first quarter"
    else if k == 3 then "waxing gibbous"
    else if k == 4 then "full moon"
    else if k == 5 then "waning gibbous"
    else if k == 6 then "last quarter"
    else if k == 7 then "waning crescent"
    else assert false; ""
  }

  /** The name is that of the index modulo 8: indices 0 and 8 are both the
      new moon. */
  lemma PhaseNameOfIndex(lonDiff: real)
    ensures MoonPhaseCalc(lonDiff) == PHASE_NAMES[PhaseIndex(lonDiff) % 8]
  {
  }

  /** At `k` eighths of a turn the phase is the `k`-th name: conjunction is
      the new moon, opposition the full moon. */
  lemma PhaseAtEighths(k: int)
    requires 0 <= k < 8
    ensures MoonPhaseCalc(k as real * TAU / 8.0) == PHASE_NAMES[k]
  {
    var a := k as real * TAU / 8.0;
    EighthOfTurn(k as real);
    NormalizeIdentity(a);
    RoundOfInteger(k);
  }

  lemma EighthOfTurn(x: real)
    requires 0.0 <= x < 8.0
    ensures 0.0 <= x * TAU / 8.0 < TAU
    ensures (x * TAU / 8.0) / TAU * 8.0 == x
  {
    var a := x * TAU / 8.0;
    assert a == TAU * (x / 8.0);
    MultiplyLeftStrict(TAU, x / 8.0, 1.0);
    assert a / TAU == x / 8.0;
  }

  /** Elongations less than a sixteenth of a turn from conjunction, on
      either side, give the new moon. */
  lemma NewMoonAroundConjunction(lonDiff: real)
    requires NormalizePositive(lonDiff) < TAU / 16.0 || NormalizePositive(lonDiff) >= 15.0 * TAU / 16.0
    ensures MoonPhaseCalc(lonDiff) == "new moon"
  {
    var q := NormalizePositive(lonDiff) / TAU * 8.0;
    if NormalizePositive(lonDiff) < TAU / 16.0 {
      assert q < 0.5;
    } else {
      assert q >= 7.5;
    }
  }

  /** The phase name repeats with each full turn of elongation. */
  lemma MoonPhasePeriodic(lonDiff: real, k: int)
    ensures MoonPhaseCalc(lonDiff + (k as real) * TAU) == MoonPhaseCalc(lonDiff)
  {
    NormalizePeriodic(lonDiff, k);
  }
}
