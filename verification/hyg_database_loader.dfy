/** The loader of the HYG star database: a header line, then one star per
    comma-separated line, read from fixed columns. Numeric parsing is a
    parameter; Java's two parsers reject a blank field. */
module HygDatabaseLoader {
  import opened Wrappers
  import opened Interval
  import opened Angle
  import opened Text
  import opened EquatorialCoordinates
  import opened CelestialObject
  import opened StarCatalogue

  const HIP: nat := 1
  const PROPER: nat := 6
  const MAGNITUDE: nat := 13
  const COLOR_INDEX: nat := 16
  const RA_RAD: nat := 23
  const DEC_RAD: nat := 24
  const BAYER: nat := 27
  const CON: nat := 29

  const RIGHT_OPEN_INTERVAL: RightOpenInterval := RightOpenOf(0.0, TAU).value
  const CLOSED_INTERVAL: ClosedInterval := ClosedSymmetric(TAU / 2.0).value

  /** `Integer.parseInt` and `Double.parseDouble`; a failure is a
      `NumberFormatException`. */
  datatype Parsers = Parsers(parseInt: string -> Result<int>, parseDouble: string -> Result<real>)

  /** Parsers that, like Java's, refuse a blank text. */
  ghost predicate RejectsBlank(p: Parsers) {
    forall s :: IsBlank(s) ==> p.parseDouble(s).Failure? && p.parseInt(s).Failure?
  }

  /** `fields[i]`, or the array-bounds exception. */
  function Field(fields: seq<string>, i: nat): (r: Result<string>)
    ensures r.Success? <==> i < |fields|
    ensures r.Failure? ==> r.error == IndexOutOfBounds
    ensures r.Success? ==> r.value == fields[i]
  {
    if i < |fields| then Success(fields[i]) else Failure(IndexOutOfBounds)
  }

  /** A numeric field with a default of 0 when it is blank. */
  function IntOrZero(text: string, p: Parsers): (r: Result<int>)
    ensures IsBlank(text) ==> r == Success(0)
    ensures !IsBlank(text) ==> r == p.parseInt(text)
  {
    if !IsBlank(text) then p.parseInt(text) else Success(0)
  }

  function RealOrZero(text: string, p: Parsers): (r: Result<real>)
    ensures IsBlank(text) ==> r == Success(0.0)
    ensures !IsBlank(text) ==> r == p.parseDouble(text)
  {
    if !IsBlank(text) then p.parseDouble(text) else Success(0.0)
  }

  /** Reduction of the right ascension and clipping of the declination
      always give a position `EquatorialCoordinates.of` accepts. */
  lemma ReducedPositionValid(ra: real, dec: real)
    ensures Of(Reduce(RIGHT_OPEN_INTERVAL, ra), Clip(CLOSED_INTERVAL, dec)).Success?
  {
  }

  /** When a record decodes: the columns up to the Bayer designation are
      present, the constellation too when there is no proper name, the
      numeric fields parse (blank ones default to 0, except the position),
      and the `Star` constructor accepts the number and the colour index. */
  predicate Decodable(fields: seq<string>, p: Parsers) {
    && |fields| > BAYER
    && IntOrZero(fields[HIP], p).Success?
    && (!IsBlank(fields[PROPER]) || |fields| > CON)
    && RealOrZero(fields[MAGNITUDE], p).Success?
    && RealOrZero(fields[COLOR_INDEX], p).Success?
    && p.parseDouble(fields[RA_RAD]).Success?
    && p.parseDouble(fields[DEC_RAD]).Success?
    && IntOrZero(fields[HIP], p).value >= 0
    && COLOR_INDEX_INTERVAL.Contains(RealOrZero(fields[COLOR_INDEX], p).value)
  }

  /** The star of one record, with the fields read in Rigel's order:
      Hipparcos number, Bayer designation, proper name, constellation (only
      for a star without a proper name), magnitude, colour index, right
      ascension, declination. */
  function DecodeStar(fields: seq<string>, p: Parsers): (r: Result<Star>)
    ensures r.Success? <==> Decodable(fields, p)
    ensures |fields| <= HIP ==> r == Failure(IndexOutOfBounds)
    ensures r.Success? ==> |fields| > DEC_RAD && |fields| > BAYER
    ensures r.Success? ==> IntOrZero(fields[HIP], p) == Success(r.value.hipparcosId)
    ensures r.Success? ==>
      var bayer := if !IsBlank(fields[BAYER]) then fields[BAYER] else "?";
      if !IsBlank(fields[PROPER]) then r.value.name == fields[PROPER]
      else |fields| > CON && r.value.name == bayer + " " + fields[CON]
    ensures r.Success? ==> RealOrZero(fields[MAGNITUDE], p) == Success(r.value.magnitude)
    ensures r.Success? ==>
      && p.parseDouble(fields[RA_RAD]).Success?
      && r.value.equatorialPos.Ra() == Reduce(RIGHT_OPEN_INTERVAL, p.parseDouble(fields[RA_RAD]).value)
    ensures r.Success? ==>
      && p.parseDouble(fields[DEC_RAD]).Success?
      && r.value.equatorialPos.Dec() == Clip(CLOSED_INTERVAL, p.parseDouble(fields[DEC_RAD]).value)
    ensures r.Success? ==> r.value.equatorialPos.Valid()
    ensures r.Success? ==>
      && COLOR_INDEX_INTERVAL.Contains(RealOrZero(fields[COLOR_INDEX], p).value)
      && r.value.colorTemperature == Temperature(RealOrZero(fields[COLOR_INDEX], p).value)
  {
    var hipText :- Field(fields, HIP);
    var hip :- IntOrZero(hipText, p);
    var bayerText :- Field(fields, BAYER);
    var bayer := if !IsBlank(bayerText) then bayerText else "?";
    // Every later column except the constellation's comes before BAYER, so
    // reading it cannot go out of bounds.
    var properText := fields[PROPER];
    var name :- if !IsBlank(properText) then Success(properText)
                else var con :- Field(fields, CON); Success(bayer + " " + con);
    var magnitude :- RealOrZero(fields[MAGNITUDE], p);
    var colorIndex :- RealOrZero(fields[COLOR_INDEX], p);
    var rarad :- p.parseDouble(fields[RA_RAD]);
    var decrad :- p.parseDouble(fields[DEC_RAD]);
    ReducedPositionValid(rarad, decrad);
    var equ := Of(Reduce(RIGHT_OPEN_INTERVAL, rarad), Clip(CLOSED_INTERVAL, decrad)).value;
    NewStar(hip, Some(name), Some(equ), magnitude, colorIndex)
  }

  /** A blank right ascension has no default: with Java's parsers the
      record fails. */
  lemma BlankRightAscensionFails(fields: seq<string>, p: Parsers)
    requires RejectsBlank(p) && |fields| > RA_RAD && IsBlank(fields[RA_RAD])
    ensures DecodeStar(fields, p).Failure?
  {
  }

  /** A blank declination has no default either. */
  lemma BlankDeclinationFails(fields: seq<string>, p: Parsers)
    requires RejectsBlank(p) && |fields| > DEC_RAD && IsBlank(fields[DEC_RAD])
    ensures DecodeStar(fields, p).Failure?
  {
  }

  /** The record line decodes to the star. */
  predicate Decodes(record: string, p: Parsers, star: Star) {
    DecodeStar(Split(record, ','), p) == Success(star)
  }

  /** The stars of the records, in order; the first record that does not
      decode makes the whole list fail. */
  function DecodeAll(records: seq<string>, p: Parsers): (r: Result<seq<Star>>)
    ensures r.Success? <==> forall i :: 0 <= i < |records| ==> DecodeStar(Split(records[i], ','), p).Success?
    ensures r.Success? ==> |r.value| == |records|
    ensures r.Success? ==> forall i :: 0 <= i < |records| ==> Decodes(records[i], p, r.value[i])
    decreases |records|
  {
    if |records| == 0 then Success([])
    else
      var star :- DecodeStar(Split(records[0], ','), p);
      var stars :- DecodeAll(records[1..], p);
      assert forall i :: 1 <= i < |records| ==> records[i] == records[1..][i - 1];
      Success([star] + stars)
  }

  /** One undecodable record makes the whole load fail. */
  lemma DecodeAllFailsOnBadRecord(records: seq<string>, p: Parsers, k: int)
    requires 0 <= k < |records| && DecodeStar(Split(records[k], ','), p).Failure?
    ensures DecodeAll(records, p).Failure?
  {
  }

  /** `load`: skips the header line, then adds one star per line, in file
      order, after the builder's stars. */
  function Load(lines: seq<string>, b: Builder, p: Parsers): (r: Result<Builder>)
    ensures r.Success? <==> forall i :: 1 <= i < |lines| ==> Decodable(Split(lines[i], ','), p)
    ensures |lines| <= 1 ==> r == Success(b)
    ensures r.Success? ==> r.value.asterisms == b.asterisms
    ensures r.Success? && |lines| >= 1 ==> |r.value.stars| == |b.stars| + |lines| - 1
    ensures r.Success? ==> r.value.stars[..|b.stars|] == b.stars
    ensures r.Success? ==> forall i :: 1 <= i < |lines| ==> Decodes(lines[i], p, r.value.stars[|b.stars| + i - 1])
  {
    if |lines| == 0 then Success(b)
    else
      var stars :- DecodeAll(lines[1..], p);
      AddStarsAppends(b, stars);
      assert forall i :: 1 <= i < |lines| ==> lines[i] == lines[1..][i - 1];
      Success(AddStars(b, stars))
  }
}
