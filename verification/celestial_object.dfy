/** The celestial objects of the sky: the Sun, the Moon, the planets and the
    stars, sharing a name, an equatorial position, an angular size and a
    magnitude. Null references are `None` arguments of the factories. */
module CelestialObject {
  import opened Wrappers
  import opened Interval
  import opened Preconditions
  import opened JavaMath
  import opened EquatorialCoordinates
  import opened EclipticCoordinates

  const SUN_NAME: string := "Soleil"
  const SUN_MAGNITUDE: real := -26.7
  const MOON_NAME: string := "Lune"
  const PHASE_INTERVAL: ClosedInterval := ClosedOf(0.0, 1.0).value
  const V: real := 0.92
  const COLOR_INDEX_INTERVAL: ClosedInterval := ClosedOf(-0.5, 5.5).value

  /** The fields of the abstract base class come first in every variant. */
  datatype CelestialObject =
    | Sun(name: string, equatorialPos: EquatorialCoordinates, angularSize: real, magnitude: real,
          eclipticPos: EclipticCoordinates, meanAnomaly: real)
    | Moon(name: string, equatorialPos: EquatorialCoordinates, angularSize: real, magnitude: real,
           percentagePhase: real, moonPhase: string)
    | Planet(name: string, equatorialPos: EquatorialCoordinates, angularSize: real, magnitude: real)
    | Star(name: string, equatorialPos: EquatorialCoordinates, angularSize: real, magnitude: real,
           hipparcosId: int, colorTemperature: real)
  {
    /** `info`: the name, followed for the Moon by its lit percentage, which
        `fmt` writes with one decimal. */
    function Info(fmt: real -> string): (s: string)
      ensures !Moon? ==> s == name
      ensures Moon? ==> s == name + "(" + fmt(percentagePhase) + "%)"
    {
      match this
      case Moon(_, _, _, _, _, _) => name + "(" + fmt(percentagePhase) + "%)"
      case _ => name
    }

    /** `toString` is `info`. */
    function ToString(fmt: real -> string): (s: string)
      ensures s == Info(fmt)
    {
      Info(fmt)
    }
  }

  type Sun = o: CelestialObject | o.Sun?
    witness Sun("", EquatorialCoordinates(SphericalCoordinates.SphericalCoordinates(0.0, 0.0)), 0.0, 0.0,
                EclipticCoordinates(SphericalCoordinates.SphericalCoordinates(0.0, 0.0)), 0.0)
  type Moon = o: CelestialObject | o.Moon?
    witness Moon("", EquatorialCoordinates(SphericalCoordinates.SphericalCoordinates(0.0, 0.0)), 0.0, 0.0, 0.0, "")
  type Planet = o: CelestialObject | o.Planet?
    witness Planet("", EquatorialCoordinates(SphericalCoordinates.SphericalCoordinates(0.0, 0.0)), 0.0, 0.0)
  type Star = o: CelestialObject | o.Star?
    witness Star("", EquatorialCoordinates(SphericalCoordinates.SphericalCoordinates(0.0, 0.0)), 0.0, 0.0, 0, 0.0)

  /** The base constructor's checks, in order: a negative angular size, then
      a null name, then a null position. */
  function CheckBase(name: Option<string>, equatorialPos: Option<EquatorialCoordinates>, angularSize: real): (r: Outcome)
    ensures r.Pass? <==> angularSize >= 0.0 && name.Some? && equatorialPos.Some?
    ensures angularSize < 0.0 ==> r == Fail(IllegalArgument)
    ensures angularSize >= 0.0 && !(name.Some? && equatorialPos.Some?) ==> r == Fail(NullPointer)
  {
    if angularSize < 0.0 then Fail(IllegalArgument)
    else if name.None? then Fail(NullPointer)
    else if equatorialPos.None? then Fail(NullPointer)
    else Pass
  }

  /** `new Planet(...)`: the base checks, and the arguments kept as given. */
  function NewPlanet(name: Option<string>, equatorialPos: Option<EquatorialCoordinates>, angularSize: real, magnitude: real)
    : (r: Result<Planet>)
    ensures r.Success? <==> CheckBase(name, equatorialPos, angularSize).Pass?
    ensures r.Failure? ==> r.error == CheckBase(name, equatorialPos, angularSize).error
    ensures r.Success? ==>
      && r.value.name == name.value
      && r.value.equatorialPos == equatorialPos.value
      && r.value.angularSize == angularSize
      && r.value.magnitude == magnitude
  {
    var base := CheckBase(name, equatorialPos, angularSize);
    :- base;
    Success(Planet(name.value, equatorialPos.value, angularSize, magnitude))
  }

  /** `new Sun(...)`: named "Soleil" with magnitude -26.7; after the base
      checks a null ecliptic position fails. */
  function NewSun(eclipticPos: Option<EclipticCoordinates>, equatorialPos: Option<EquatorialCoordinates>,
                  angularSize: real, meanAnomaly: real): (r: Result<Sun>)
    ensures r.Success? <==> angularSize >= 0.0 && equatorialPos.Some? && eclipticPos.Some?
    ensures angularSize < 0.0 ==> r == Failure(IllegalArgument)
    ensures angularSize >= 0.0 && !r.Success? ==> r == Failure(NullPointer)
    ensures r.Success? ==>
      && r.value.name == SUN_NAME
      && r.value.magnitude == SUN_MAGNITUDE
      && r.value.equatorialPos == equatorialPos.value
      && r.value.angularSize == angularSize
      && r.value.eclipticPos == eclipticPos.value
      && r.value.meanAnomaly == meanAnomaly
  {
    var base := CheckBase(Some(SUN_NAME), equatorialPos, angularSize);
    :- base;
    if eclipticPos.None? then Failure(NullPointer)
    else Success(Sun(SUN_NAME, equatorialPos.value, angularSize, SUN_MAGNITUDE, eclipticPos.value, meanAnomaly))
  }

  /** `new Moon(...)`: named "Lune"; after the base checks the phase must be
      in `[0, 1]`; the percentage is `100 * phase`. */
  function NewMoon(equatorialPos: Option<EquatorialCoordinates>, angularSize: real, magnitude: real,
                   phase: real, moonPhase: string): (r: Result<Moon>)
    ensures r.Success? <==> angularSize >= 0.0 && equatorialPos.Some? && 0.0 <= phase <= 1.0
    ensures angularSize < 0.0 ==> r == Failure(IllegalArgument)
    ensures angularSize >= 0.0 && equatorialPos.None? ==> r == Failure(NullPointer)
    ensures angularSize >= 0.0 && equatorialPos.Some? && !r.Success? ==> r == Failure(IllegalArgument)
    ensures r.Success? ==>
      && r.value.name == MOON_NAME
      && r.value.equatorialPos == equatorialPos.value
      && r.value.angularSize == angularSize
      && r.value.magnitude == magnitude
      && r.value.percentagePhase == 100.0 * phase
      && r.value.moonPhase == moonPhase
    ensures r.Success? ==> 0.0 <= r.value.percentagePhase <= 100.0
  {
    var base := CheckBase(Some(MOON_NAME), equatorialPos, angularSize);
    :- base;
    var _ :- CheckInInterval(PHASE_INTERVAL, phase);
    Success(Moon(MOON_NAME, equatorialPos.value, angularSize, magnitude, 100.0 * phase, moonPhase))
  }

  /** The colour temperature in kelvins of a star of colour index `c`, by
      Ballesteros' formula. Both denominators are positive on the valid
      colour-index range. */
  function Temperature(c: real): (t: real)
    requires COLOR_INDEX_INTERVAL.Contains(c)
    ensures t > 0.0
  {
    assert V * c + 0.62 > 0.0;
    ReciprocalPositive(V * c + 1.7);
    ReciprocalPositive(V * c + 0.62);
    4600.0 * (1.0 / (V * c + 1.7) + 1.0 / (V * c + 0.62))
  }

  /** `new Star(...)`: the base checks with angular size 0, then a negative
      Hipparcos number, then a colour index outside `[-0.5, 5.5]`. */
  function NewStar(hipparcosId: int, name: Option<string>, equatorialPos: Option<EquatorialCoordinates>,
                   magnitude: real, colorIndex: real): (r: Result<Star>)
    ensures r.Success? <==> name.Some? && equatorialPos.Some? && hipparcosId >= 0 && -0.5 <= colorIndex <= 5.5
    ensures !(name.Some? && equatorialPos.Some?) ==> r == Failure(NullPointer)
    ensures name.Some? && equatorialPos.Some? && !r.Success? ==> r == Failure(IllegalArgument)
    ensures r.Success? ==>
      && r.value.name == name.value
      && r.value.equatorialPos == equatorialPos.value
      && r.value.angularSize == 0.0
      && r.value.magnitude == magnitude
      && r.value.hipparcosId == hipparcosId
      && r.value.colorTemperature == Temperature(colorIndex)
  {
    var base := CheckBase(name, equatorialPos, 0.0);
    :- base;
    :- CheckArgument(hipparcosId >= 0);
    var _ :- CheckInInterval(COLOR_INDEX_INTERVAL, colorIndex);
    Success(Star(name.value, equatorialPos.value, 0.0, magnitude, hipparcosId, Temperature(colorIndex)))
  }

  /** `colorTemperature()`: the stored temperature cast to `int`. */
  function ColorTemperature(s: Star): (k: int)
    ensures s.colorTemperature >= 0.0 ==> k as real <= s.colorTemperature < k as real + 1.0
  {
    Truncate(s.colorTemperature)
  }

  lemma ReciprocalPositive(a: real)
    requires a > 0.0
    ensures 1.0 / a > 0.0
  {
  }

  /** `1/x` decreases on the positive reals. */
  lemma ReciprocalAntitone(a: real, b: real)
    requires 0.0 < a <= b
    ensures 1.0 / b <= 1.0 / a
  {
  }

  /** A redder star (larger colour index) is no hotter. */
  lemma TemperatureAntitone(c: real, d: real)
    requires COLOR_INDEX_INTERVAL.Contains(c) && COLOR_INDEX_INTERVAL.Contains(d) && c <= d
    ensures Temperature(d) <= Temperature(c)
  {
    assert V * c <= V * d;
    ReciprocalAntitone(V * c + 1.7, V * d + 1.7);
    ReciprocalAntitone(V * c + 0.62, V * d + 0.62);
  }

  /** The integer colour temperature of a star built by `NewStar` is
      non-increasing in the colour index. */
  lemma ColorTemperatureAntitone(s: Star, t: Star, c: real, d: real)
    requires COLOR_INDEX_INTERVAL.Contains(c) && COLOR_INDEX_INTERVAL.Contains(d) && c <= d
    requires s.colorTemperature == Temperature(c) && t.colorTemperature == Temperature(d)
    ensures ColorTemperature(t) <= ColorTemperature(s)
  {
    TemperatureAntitone(c, d);
    TruncateMonotone(t.colorTemperature, s.colorTemperature);
  }

  /** Over the whole colour-index range the integer temperature lies between
      that of index 5.5 (1490 K) and that of index -0.5 (32459 K). */
  lemma ColorTemperatureRange(s: Star, c: real)
    requires COLOR_INDEX_INTERVAL.Contains(c) && s.colorTemperature == Temperature(c)
    ensures 1490 <= ColorTemperature(s) <= 32459
  {
    TemperatureAntitone(c, 5.5);
    TemperatureAntitone(-0.5, c);
    assert 1490.0 <= Temperature(5.5);
    assert Temperature(-0.5) < 32460.0;
  }
}
