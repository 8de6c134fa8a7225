/** Horizontal (observer-centred) coordinates: azimuth in `[0, TAU)` and
    altitude in `[-TAU/4, TAU/4]`, in radians, with the compass-octant name
    of the azimuth. */
module HorizontalCoordinates {
  import opened Wrappers
  import opened Interval
  import opened Preconditions
  import opened Angle
  import opened SphericalCoordinates
  import opened JavaMath

  const ALT_SIZE: real := 180.0
  const AZ_INTERVAL: RightOpenInterval := RightOpenOf(0.0, TAU).value
  const ALT_INTERVAL: ClosedInterval := (ToDegOfFractions(); ClosedSymmetric(Angle.OfDeg(ALT_SIZE)).value)
  const AZ_DEG_INTERVAL: RightOpenInterval := (ToDegOfFractions(); RightOpenOf(0.0, ToDeg(TAU)).value)
  const ALT_DEG_INTERVAL: ClosedInterval := ClosedSymmetric(ALT_SIZE).value

  datatype HorizontalCoordinates = HorizontalCoordinates(pos: SphericalCoordinates) {
    function Az(): real { pos.lon }
    function Alt(): real { pos.lat }
    function AzDeg(): real { pos.LonDeg() }
    function AltDeg(): real { pos.LatDeg() }

    /** The invariant `Of` and `OfDeg` establish. */
    predicate Valid() {
      AZ_INTERVAL.Contains(Az()) && ALT_INTERVAL.Contains(Alt())
    }
  }

  lemma IntervalBounds()
    ensures AZ_INTERVAL.low == 0.0 && AZ_INTERVAL.high == TAU
    ensures ALT_INTERVAL.low == -TAU / 4.0 && ALT_INTERVAL.high == TAU / 4.0
    ensures AZ_DEG_INTERVAL.low == 0.0 && AZ_DEG_INTERVAL.high == 360.0
    ensures ALT_DEG_INTERVAL.low == -90.0 && ALT_DEG_INTERVAL.high == 90.0
  {
    ToDegOfFractions();
  }

  /** `HorizontalCoordinates.of`: fails unless `az` is in `[0, TAU)` and `alt`
      in `[-TAU/4, TAU/4]`; the accessors give the arguments back. */
  function Of(az: real, alt: real): (r: Result<HorizontalCoordinates>)
    ensures r.Success? <==> 0.0 <= az < TAU && -TAU / 4.0 <= alt <= TAU / 4.0
    ensures r.Failure? ==> r.error == IllegalArgument
    ensures r.Success? ==> r.value.Az() == az && r.value.Alt() == alt && r.value.Valid()
  {
    IntervalBounds();
    var _ :- CheckInInterval(AZ_INTERVAL, az);
    var _ :- CheckInInterval(ALT_INTERVAL, alt);
    Success(HorizontalCoordinates(SphericalCoordinates(az, alt)))
  }

  /** `HorizontalCoordinates.ofDeg`: fails unless `azDeg` is in `[0, 360)` and
      `altDeg` in `[-90, 90]`; the degree accessors give the arguments back. */
  function OfDeg(azDeg: real, altDeg: real): (r: Result<HorizontalCoordinates>)
    ensures r.Success? <==> 0.0 <= azDeg < 360.0 && -90.0 <= altDeg <= 90.0
    ensures r.Failure? ==> r.error == IllegalArgument
    ensures r.Success? ==> r.value.AzDeg() == azDeg && r.value.AltDeg() == altDeg && r.value.Valid()
  {
    IntervalBounds();
    var _ :- CheckInInterval(AZ_DEG_INTERVAL, azDeg);
    var _ :- CheckInInterval(ALT_DEG_INTERVAL, altDeg);
    DegRoundTrip(azDeg, 0.0);
    DegRoundTrip(altDeg, 0.0);
    DegreesOfFullTurn(azDeg);
    DegreesOfQuarterTurn(altDeg);
    Success(HorizontalCoordinates(SphericalCoordinates(Angle.OfDeg(azDeg), Angle.OfDeg(altDeg))))
  }

  /** A valid position's degree accessors lie in the ranges `OfDeg` accepts,
      so `OfDeg(h.AzDeg(), h.AltDeg())` gives `h` back. */
  lemma ValidInDegrees(h: HorizontalCoordinates)
    requires h.Valid()
    ensures 0.0 <= h.AzDeg() < 360.0 && -90.0 <= h.AltDeg() <= 90.0
    ensures OfDeg(h.AzDeg(), h.AltDeg()) == Success(h)
  {
    IntervalBounds();
    FullTurnInUnits(h.Az());
    QuarterTurnInDegrees(h.Alt());
    DegRoundTrip(0.0, h.Az());
    DegRoundTrip(0.0, h.Alt());
  }

  /** The octant index `round(az / TAU * 8)` of a valid azimuth is in `0..8`. */
  function OctantIndex(h: HorizontalCoordinates): (k: int)
    requires h.Valid()
    ensures 0 <= k <= 8
  {
    IntervalBounds();
    var q := h.Az() / AZ_INTERVAL.Size();
    assert 0.0 <= q < 1.0;
    Round(q * 8.0)
  }

  /** `azOctantName`: the compass name of the azimuth's octant, built from the
      four cardinal names; index 8 is north again. */
  function AzOctantName(h: HorizontalCoordinates, n: string, e: string, s: string, w: string): (name: string)
    requires h.Valid()
    ensures name == [n, n + e, e, s + e, s, s + w, w, n + w][OctantIndex(h) % 8]
  {
    var k := OctantIndex(h);
    if k == 0 || k == 8 then n
    else if k == 1 then n + e
    else if k == 2 then e
    else if k == 3 then s + e
    else if k == 4 then s
    else if k == 5 then s + w
    else if k == 6 then w
    else if k == 7 then n + w
    else assert false; ""
  }

  /** The point of azimuth `k` eighths of a turn on the horizon. */
  function Direction(k: int): HorizontalCoordinates {
    HorizontalCoordinates(SphericalCoordinates(k as real * TAU / 8.0, 0.0))
  }

  /** The eight principal directions are named N, NE, E, SE, S, SW, W, NW. */
  lemma PrincipalDirectionNames(k: int, n: string, e: string, s: string, w: string)
    requires 0 <= k < 8
    ensures Direction(k).Valid()
    ensures AzOctantName(Direction(k), n, e, s, w) == [n, n + e, e, s + e, s, s + w, w, n + w][k]
  {
    DirectionValid(k);
    assert OctantIndex(Direction(k)) == k;
  }

  lemma FractionOfTurn(t: real, f: real)
    requires t > 0.0 && 0.0 <= f < 1.0
    ensures 0.0 <= t * f < t
  {
    MultiplyLeftStrict(t, f, 1.0);
    MultiplyLeft(t, 0.0, f);
  }

  lemma CancelFactor(t: real, f: real)
    requires t > 0.0
    ensures (t * f) / t == f
  {
  }

  lemma DirectionValid(k: int)
    requires 0 <= k < 8
    ensures Direction(k).Valid() && Direction(k).Az() / TAU * 8.0 == k as real
  {
    IntervalBounds();
    var f := k as real / 8.0;
    var az := Direction(k).Az();
    assert az == TAU * f;
    FractionOfTurn(TAU, f);
    CancelFactor(TAU, f);
    assert f * 8.0 == k as real;
  }

  /** Dividing both sides by a positive turn keeps an order. */
  lemma DivideByTurn(a: real, b: real, t: real)
    requires t > 0.0 && a <= b
    ensures a / t <= b / t
  {
  }

  lemma DivideByTurnStrict(a: real, b: real, t: real)
    requires t > 0.0 && a < b
    ensures a / t < b / t
  {
  }

  /** Azimuths from `(2k-1)/16` up to `(2k+1)/16` of a turn, the sector
      centred on direction `k`, are given the `k`-th name of N, NE, E, SE,
      S, SW, W, NW. */
  lemma OctantSector(h: HorizontalCoordinates, k: int, n: string, e: string, s: string, w: string)
    requires h.Valid() && 0 <= k < 8
    requires (2 * k - 1) as real * TAU / 16.0 <= h.Az() < (2 * k + 1) as real * TAU / 16.0
    ensures AzOctantName(h, n, e, s, w) == [n, n + e, e, s + e, s, s + w, w, n + w][k]
  {
    IntervalBounds();
    var lo := (2 * k - 1) as real / 16.0;
    var hi := (2 * k + 1) as real / 16.0;
    assert lo * TAU <= h.Az() < hi * TAU;
    DivideByTurn(lo * TAU, h.Az(), TAU);
    DivideByTurnStrict(h.Az(), hi * TAU, TAU);
    CancelFactor(TAU, lo);
    CancelFactor(TAU, hi);
    var q := h.Az() / TAU * 8.0;
    assert k as real - 0.5 <= q < k as real + 0.5;
    assert OctantIndex(h) == k;
  }

  /** Azimuths within a sixteenth of a turn of north, on either side of
      zero, are named north: both index 0 and index 8 give `n`. */
  lemma NorthOctant(h: HorizontalCoordinates, n: string, e: string, s: string, w: string)
    requires h.Valid()
    requires h.Az() < TAU / 16.0 || h.Az() >= 15.0 * TAU / 16.0
    ensures AzOctantName(h, n, e, s, w) == n
  {
    IntervalBounds();
    var q := h.Az() / TAU * 8.0;
    if h.Az() < TAU / 16.0 {
      assert q < 0.5;
      assert OctantIndex(h) == 0;
    } else {
      assert q >= 7.5;
      assert OctantIndex(h) == 8;
    }
  }
}
