/** The sky seen from one place at one instant: the Sun, the Moon, the seven
    planets other than the Earth and the catalogue's stars, each projected
    onto the plane; and the search for the object closest to a point.

    The orbital models and the projection are trigonometric: the Sun, the
    Moon, the planet of each model and the projection of an equatorial
    position are parameters. Distances are compared squared, which orders
    them as the square roots `ObservedSky` computes do. */
module ObservedSky {
  import opened Wrappers
  import opened CelestialObject
  import opened CartesianCoordinates
  import opened EquatorialCoordinates
  import opened PlanetModel
  import Catalogue = StarCatalogue
  import opened Asterism

  /** The models in order, the Earth left out. */
  function WithoutEarth(models: seq<PlanetModel>): (r: seq<PlanetModel>)
    ensures forall m :: m in r <==> m in models && m != Earth
    ensures |r| <= |models|
  {
    if |models| == 0 then []
    else if models[0] == Earth then WithoutEarth(models[1..])
    else [models[0]] + WithoutEarth(models[1..])
  }

  /** The seven planets shown, in the order of the enumeration. */
  lemma ShownPlanetModels()
    ensures WithoutEarth(ALL) == [Mercury, Venus, Mars, Jupiter, Saturn, Uranus, Neptune]
  {
    assert ALL[1..][1..] == [Earth, Mars, Jupiter, Saturn, Uranus, Neptune];
  }

  datatype ObservedSky = ObservedSky(sun: Sun, moon: Moon, planets: seq<Planet>, catalogue: Catalogue.StarCatalogue,
                                     project: EquatorialCoordinates -> CartesianCoordinates)
  {
    /** The projection of an object's equatorial position. */
    function Position(o: CelestialObject): CartesianCoordinates {
      project(o.equatorialPos)
    }

    /** `planetPositions()`: the planets' projections, flattened. */
    function PlanetPositions(): (ps: seq<real>)
      ensures |ps| == 2 * |planets|
      ensures forall i :: 0 <= i < |planets| ==> ps[2 * i] == Position(planets[i]).x && ps[2 * i + 1] == Position(planets[i]).y
    {
      Positions(planets, project)
    }

    /** `stars()`: the catalogue's stars. */
    function Stars(): (ss: seq<Star>)
      ensures ss == catalogue.stars
    {
      catalogue.stars
    }

    /** `starPositions()`: the stars' projections, flattened. */
    function StarPositions(): (ps: seq<real>)
      ensures |ps| == 2 * |Stars()|
      ensures forall i :: 0 <= i < |Stars()| ==> ps[2 * i] == Position(Stars()[i]).x && ps[2 * i + 1] == Position(Stars()[i]).y
    {
      Positions(Stars(), project)
    }

    /** `asterisms()`: the catalogue's asterisms. */
    function Asterisms(): (s: set<Asterism>)
      ensures s == catalogue.Asterisms()
    {
      catalogue.Asterisms()
    }

    /** `asterismIndices(asterism)`: the catalogue's answer, failure included. */
    function AsterismIndices(a: Asterism): (r: Result<seq<int>>)
      ensures r == Catalogue.AsterismIndices(catalogue, a)
    {
      Catalogue.AsterismIndices(catalogue, a)
    }
  }

  /** The position arrays: for object `i`, its projection's x at `2i` and y
      at `2i + 1`. */
  function Positions(objects: seq<CelestialObject>, project: EquatorialCoordinates -> CartesianCoordinates): (ps: seq<real>)
    ensures |ps| == 2 * |objects|
    ensures forall i :: 0 <= i < |objects| ==>
              ps[2 * i] == project(objects[i].equatorialPos).x && ps[2 * i + 1] == project(objects[i].equatorialPos).y
  {
    if |objects| == 0 then []
    else
      var init := objects[..|objects| - 1];
      var p := project(objects[|objects| - 1].equatorialPos);
      var ps := Positions(init, project);
      assert forall i :: 0 <= i < |init| ==> init[i] == objects[i];
      ps + [p.x, p.y]
  }

  /** `new ObservedSky(...)`: the planet of every model but the Earth, in
      order, with the given Sun, Moon, catalogue and projection. */
  function New(sun: Sun, moon: Moon, planetAt: PlanetModel -> Planet, catalogue: Catalogue.StarCatalogue,
               project: EquatorialCoordinates -> CartesianCoordinates): (s: ObservedSky)
    ensures |s.planets| == 7
    ensures forall i :: 0 <= i < 7 ==> s.planets[i] == planetAt([Mercury, Venus, Mars, Jupiter, Saturn, Uranus, Neptune][i])
    ensures s.sun == sun && s.moon == moon && s.catalogue == catalogue
    ensures s.project == project
  {
    ShownPlanetModels();
    var models := WithoutEarth(ALL);
    ObservedSky(sun, moon, seq(|models|, i requires 0 <= i < |models| => planetAt(models[i])), catalogue, project)
  }

  /** The squared distance between two points of the plane. */
  function SquaredDistance(a: CartesianCoordinates, b: CartesianCoordinates): (d: real)
    ensures d >= 0.0
  {
    (a.x - b.x) * (a.x - b.x) + (a.y - b.y) * (a.y - b.y)
  }

  /** Comparing distances is comparing their squares. */
  lemma SquareMonotone(d: real, e: real)
    requires 0.0 <= d && 0.0 <= e
    ensures d < e <==> d * d < e * e
  {
    if d < e {
      SquareStrict(d, e);
    } else if e < d {
      SquareStrict(e, d);
    }
  }

  /** `e² - d² = (e - d)(e + d)`, a product of two positive factors. */
  lemma SquareStrict(d: real, e: real)
    requires 0.0 <= d < e
    ensures d * d < e * e
  {
    PositiveProduct(e - d, e + d);
    assert (e - d) * (e + d) == e * e - d * d;
  }

  lemma PositiveProduct(a: real, b: real)
    requires 0.0 < a && 0.0 < b
    ensures 0.0 < a * b
  {
  }

  /** A distance `d` is within `distanceMax` exactly when its square is
      `Within` it: a negative maximum admits nothing. */
  predicate Within(squared: real, distanceMax: real) {
    distanceMax >= 0.0 && squared <= distanceMax * distanceMax
  }

  lemma WithinIsThreshold(d: real, distanceMax: real)
    requires d >= 0.0
    ensures d <= distanceMax <==> Within(d * d, distanceMax)
  {
    if distanceMax >= 0.0 {
      SquareMonotone(distanceMax, d);
    }
  }

  /** The candidates of the search, in the order the search visits them. */
  function Candidates(sky: ObservedSky): seq<CelestialObject> {
    [sky.sun, sky.moon] + sky.planets + sky.catalogue.stars
  }

  /** The squared distance from the point to each candidate. */
  function Distances(sky: ObservedSky, point: CartesianCoordinates): (ds: seq<real>)
    ensures |ds| == |Candidates(sky)|
    ensures forall j :: 0 <= j < |ds| ==> ds[j] == SquaredDistance(sky.Position(Candidates(sky)[j]), point)
  {
    var cs := Candidates(sky);
    seq(|cs|, j requires 0 <= j < |cs| => SquaredDistance(sky.Position(cs[j]), point))
  }

  /** `k` holds the least value, and no earlier index holds it. */
  predicate IsFirstMinimum(ds: seq<real>, k: int) {
    && 0 <= k < |ds|
    && (forall j :: 0 <= j < |ds| ==> ds[k] <= ds[j])
    && (forall j :: 0 <= j < k ==> ds[k] < ds[j])
  }

  /** The first index of the least value. */
  function FirstMinimum(ds: seq<real>): (k: int)
    requires |ds| >= 1
    ensures IsFirstMinimum(ds, k)
  {
    if |ds| == 1 then 0
    else
      var init := ds[..|ds| - 1];
      var k := FirstMinimum(init);
      assert forall j :: 0 <= j < |init| ==> init[j] == ds[j];
      if ds[|ds| - 1] < ds[k] then |ds| - 1 else k
  }

  /** There is only one first minimum. */
  lemma FirstMinimumUnique(ds: seq<real>, k: int, k': int)
    requires IsFirstMinimum(ds, k) && IsFirstMinimum(ds, k')
    ensures k == k'
  {
    assert ds[k] == ds[k'];
  }

  /** Extending the scanned prefix by one value moves the minimum only to a
      strictly smaller value. */
  lemma FirstMinimumStep(ds: seq<real>, n: int)
    requires 1 <= n < |ds|
    ensures FirstMinimum(ds[..n + 1]) ==
              if ds[n] < ds[FirstMinimum(ds[..n])] then n else FirstMinimum(ds[..n])
  {
    var prefix := ds[..n + 1];
    assert prefix[..|prefix| - 1] == ds[..n];
    assert prefix[|prefix| - 1] == ds[n];
  }

  /** `objectClosestTo`: the Sun, then the Moon, then the planets, then the
      stars are compared, a later candidate replacing the best so far only
      when strictly closer; the result is the first closest candidate, and
      only if it is within `distanceMax`. */
  method ObjectClosestTo(sky: ObservedSky, point: CartesianCoordinates, distanceMax: real) returns (r: Option<CelestialObject>)
    ensures var ds := Distances(sky, point);
      var k := FirstMinimum(ds);
      && (r.Some? <==> Within(ds[k], distanceMax))
      && (r.Some? ==> r.value == Candidates(sky)[k])
  {
    var distanceMin, closest, k := NearestCandidate(sky, point);
    if Within(distanceMin, distanceMax) {
      r := Some(closest);
    } else {
      r := None;
    }
  }

  /** The comparisons of `objectClosestTo`, before the threshold: the first
      closest candidate and its squared distance. */
  method NearestCandidate(sky: ObservedSky, point: CartesianCoordinates)
    returns (distanceMin: real, closest: CelestialObject, ghost k: int)
    ensures var ds := Distances(sky, point); distanceMin == ds[FirstMinimum(ds)]
    ensures var ds := Distances(sky, point); closest == Candidates(sky)[FirstMinimum(ds)]
    ensures k == FirstMinimum(Distances(sky, point))
  {
    ghost var ds := Distances(sky, point);
    ghost var cands := Candidates(sky);
    distanceMin, closest, k := SunOrMoon(sky, point);
    PlanetsAligned(sky, point);
    distanceMin, closest, k := Scan(ds, cands, 2, sky.PlanetPositions(), sky.planets, point, k, distanceMin, closest);
    StarsAligned(sky, point);
    var offset := 2 + |sky.planets|;
    distanceMin, closest, k := Scan(ds, cands, offset, sky.StarPositions(), sky.Stars(), point, k, distanceMin, closest);
  }

  /** The first comparison: the Moon replaces the Sun only when strictly
      closer. */
  method SunOrMoon(sky: ObservedSky, point: CartesianCoordinates)
    returns (distanceMin: real, closest: CelestialObject, ghost k: int)
    ensures |Distances(sky, point)| >= 2
    ensures var ds := Distances(sky, point); distanceMin == ds[FirstMinimum(ds[..2])]
    ensures var ds := Distances(sky, point); closest == Candidates(sky)[FirstMinimum(ds[..2])]
    ensures k == FirstMinimum(Distances(sky, point)[..2])
  {
    var distanceSun := SquaredDistance(sky.Position(sky.sun), point);
    var distanceMoon := SquaredDistance(sky.Position(sky.moon), point);
    SunAndMoonFirst(sky, point);
    if distanceMoon < distanceSun {
      distanceMin, closest, k := distanceMoon, sky.moon, 1;
    } else {
      distanceMin, closest, k := distanceSun, sky.sun, 0;
    }
  }

  /** The Sun and the Moon are the first two candidates; the Moon is the
      first minimum of the two only when strictly closer. */
  lemma SunAndMoonFirst(sky: ObservedSky, point: CartesianCoordinates)
    ensures var ds := Distances(sky, point);
      var cands := Candidates(sky);
      && |ds| >= 2
      && ds[0] == SquaredDistance(sky.Position(sky.sun), point) && cands[0] == sky.sun
      && ds[1] == SquaredDistance(sky.Position(sky.moon), point) && cands[1] == sky.moon
      && FirstMinimum(ds[..2]) == if ds[1] < ds[0] then 1 else 0
  {
    var ds := Distances(sky, point);
    FirstMinimumStep(ds, 1);
  }

  /** The planets are candidates `2` to `1 + |planets|`, their distances
      computed from the flattened planet positions. */
  lemma PlanetsAligned(sky: ObservedSky, point: CartesianCoordinates)
    ensures var ds := Distances(sky, point);
      var cands := Candidates(sky);
      && 2 + |sky.planets| <= |ds| == |cands|
      && Aligned(ds, cands, 2, sky.PlanetPositions(), sky.planets, point)
  {
    var cands := Candidates(sky);
    assert cands[2..2 + |sky.planets|] == sky.planets;
    SliceAligned(sky, point, Distances(sky, point), cands, 2, sky.planets);
  }

  /** The stars are the candidates after the planets, their distances
      computed from the flattened star positions. */
  lemma StarsAligned(sky: ObservedSky, point: CartesianCoordinates)
    ensures var ds := Distances(sky, point);
      var cands := Candidates(sky);
      var offset := 2 + |sky.planets|;
      && offset + |sky.Stars()| == |ds| == |cands|
      && Aligned(ds, cands, offset, sky.StarPositions(), sky.Stars(), point)
  {
    var cands := Candidates(sky);
    var offset := 2 + |sky.planets|;
    assert cands[offset..offset + |sky.Stars()|] == sky.Stars();
    SliceAligned(sky, point, Distances(sky, point), cands, offset, sky.Stars());
  }

  /** Any run of consecutive candidates is aligned with its own flattened
      positions. */
  lemma SliceAligned(sky: ObservedSky, point: CartesianCoordinates, ds: seq<real>, cands: seq<CelestialObject>,
                     offset: int, objects: seq<CelestialObject>)
    requires |ds| == |cands|
    requires forall j :: 0 <= j < |ds| ==> ds[j] == SquaredDistance(sky.Position(cands[j]), point)
    requires 0 <= offset && offset + |objects| <= |cands|
    requires cands[offset..offset + |objects|] == objects
    ensures Aligned(ds, cands, offset, Positions(objects, sky.project), objects, point)
  {
    var ps := Positions(objects, sky.project);
    forall i | 0 <= i < |objects|
      ensures ds[offset + i] == SquaredDistance(CartesianCoordinates(ps[2 * i], ps[2 * i + 1]), point)
      ensures cands[offset + i] == objects[i]
    {
      assert cands[offset + i] == cands[offset..offset + |objects|][i];
      assert sky.Position(objects[i]) == CartesianCoordinates(ps[2 * i], ps[2 * i + 1]);
    }
  }

  /** Candidates `offset` to `offset + |objects| - 1` are `objects`, and
      their distances are computed from the flattened `positions`. */
  predicate Aligned(ds: seq<real>, cands: seq<CelestialObject>, offset: int, positions: seq<real>,
                    objects: seq<CelestialObject>, point: CartesianCoordinates)
  {
    && 0 <= offset && offset + |objects| <= |ds| && offset + |objects| <= |cands|
    && |positions| == 2 * |objects|
    && forall i :: 0 <= i < |objects| ==>
         && ds[offset + i] == SquaredDistance(CartesianCoordinates(positions[2 * i], positions[2 * i + 1]), point)
         && cands[offset + i] == objects[i]
  }

  /** One loop of the search: the objects, whose flattened positions are
      given, are candidates `offset` to `offset + |objects| - 1`. */
  method Scan(ghost ds: seq<real>, ghost cands: seq<CelestialObject>, offset: int, positions: seq<real>,
              objects: seq<CelestialObject>, point: CartesianCoordinates,
              ghost k0: int, distanceMin0: real, closest0: CelestialObject)
    returns (distanceMin: real, closest: CelestialObject, ghost k: int)
    requires 1 <= offset && offset + |objects| <= |ds| == |cands|
    requires Aligned(ds, cands, offset, positions, objects, point)
    requires k0 == FirstMinimum(ds[..offset]) && distanceMin0 == ds[k0] && closest0 == cands[k0]
    ensures distanceMin == ds[FirstMinimum(ds[..offset + |objects|])]
    ensures closest == cands[FirstMinimum(ds[..offset + |objects|])]
    ensures k == FirstMinimum(ds[..offset + |objects|])
    ensures offset + |objects| == |ds| ==> k == FirstMinimum(ds)
  {
    distanceMin, closest, k := distanceMin0, closest0, k0;
    var i := 0;
    ghost var n := 0;
    while i < |positions|
      invariant 0 <= n <= |objects| && i == 2 * n
      invariant k == FirstMinimum(ds[..offset + n]) && distanceMin == ds[k] && closest == cands[k]
    {
      var distance := SquaredDistance(CartesianCoordinates(positions[i], positions[i + 1]), point);
      assert i / 2 == n;
      ScanStep(ds, cands, offset, positions, objects, point, n, k);
      if distance < distanceMin {
        distanceMin, closest, k := distance, objects[i / 2], offset + n;
      }
      i, n := i + 2, n + 1;
    }
    if offset + |objects| == |ds| {
      PrefixWhole(ds);
    }
  }

  /** One comparison of the search: object `n` becomes the closest so far
      exactly when it is strictly closer than the first minimum of the
      candidates before it. */
  lemma ScanStep(ds: seq<real>, cands: seq<CelestialObject>, offset: int, positions: seq<real>,
                 objects: seq<CelestialObject>, point: CartesianCoordinates, n: int, k: int)
    requires 1 <= offset && offset + |objects| <= |ds| == |cands|
    requires Aligned(ds, cands, offset, positions, objects, point) && 0 <= n < |objects|
    requires k == FirstMinimum(ds[..offset + n])
    ensures var distance := SquaredDistance(CartesianCoordinates(positions[2 * n], positions[2 * n + 1]), point);
      && 0 <= k < offset + n
      && FirstMinimum(ds[..offset + n + 1]) == (if distance < ds[k] then offset + n else k)
      && ds[offset + n] == distance && cands[offset + n] == objects[n]
  {
    AlignedAt(ds, cands, offset, positions, objects, point, n);
    FirstMinimumStep(ds, offset + n);
  }

  /** The candidate `offset + n` is object `n`, at the positions' entries
      `2n` and `2n + 1`. */
  lemma AlignedAt(ds: seq<real>, cands: seq<CelestialObject>, offset: int, positions: seq<real>,
                  objects: seq<CelestialObject>, point: CartesianCoordinates, n: int)
    requires Aligned(ds, cands, offset, positions, objects, point) && 0 <= n < |objects|
    ensures ds[offset + n] == SquaredDistance(CartesianCoordinates(positions[2 * n], positions[2 * n + 1]), point)
    ensures cands[offset + n] == objects[n]
  {
  }

  lemma PrefixWhole(ds: seq<real>)
    requires |ds| >= 1
    ensures FirstMinimum(ds[..|ds|]) == FirstMinimum(ds)
  {
    assert ds[..|ds|] == ds;
  }

  /** The object found is no farther than any candidate, and any candidate
      visited before it is strictly farther: on a tie the Sun beats the
      Moon, and both beat every planet and star. */
  lemma ClosestIsNearest(sky: ObservedSky, point: CartesianCoordinates, j: int)
    requires 0 <= j < |Candidates(sky)|
    ensures var ds := Distances(sky, point);
      var k := FirstMinimum(ds);
      && ds[k] <= ds[j]
      && (j < k ==> ds[k] < ds[j])
  {
  }

  /** When the Sun is at least as close as every other candidate, it is the
      candidate found. */
  lemma SunWinsTies(sky: ObservedSky, point: CartesianCoordinates)
    requires var ds := Distances(sky, point); forall j :: 0 <= j < |ds| ==> ds[0] <= ds[j]
    ensures FirstMinimum(Distances(sky, point)) == 0
  {
    var ds := Distances(sky, point);
    assert IsFirstMinimum(ds, 0);
    FirstMinimumUnique(ds, 0, FirstMinimum(ds));
  }
}
