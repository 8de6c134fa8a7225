/** The star catalogue: an ordered list of stars, and for every asterism the
    positions in that list of its stars; with the builder that accumulates
    both lists. */
module StarCatalogue {
  import opened Wrappers
  import opened Preconditions
  import opened CelestialObject
  import opened Asterism

  /** `i` is the position of the last occurrence of `s` in `stars`. */
  predicate IsLastIndex(stars: seq<Star>, s: Star, i: int) {
    0 <= i < |stars| && stars[i] == s && forall j :: i < j < |stars| ==> stars[j] != s
  }

  /** The map the constructor fills by putting `stars[i] -> i` for every `i`
      in increasing order: a later occurrence overwrites an earlier one. */
  function IndexOf(stars: seq<Star>): (m: map<Star, int>)
    ensures forall s :: s in m <==> s in stars
    ensures forall s :: s in m ==> IsLastIndex(stars, s, m[s])
  {
    if |stars| == 0 then map[]
    else
      var init := stars[..|stars| - 1];
      var m := IndexOf(init);
      assert forall s :: s in init ==> s in stars;
      m[stars[|stars| - 1] := |stars| - 1]
  }

  /** Whether every star of the asterism is in the list. */
  predicate ContainsAll(stars: seq<Star>, a: Asterism) {
    forall k :: 0 <= k < |a.stars| ==> a.stars[k] in stars
  }

  /** `indices` lists, for each star of the asterism in turn, the position of
      its last occurrence in `stars`. */
  predicate Resolves(stars: seq<Star>, a: Asterism, indices: seq<int>) {
    |indices| == |a.stars| && forall k :: 0 <= k < |indices| ==> IsLastIndex(stars, a.stars[k], indices[k])
  }

  datatype StarCatalogue = StarCatalogue(stars: seq<Star>, indices: map<Asterism, seq<int>>) {
    /** `asterisms()`: the key set of the index map. */
    function Asterisms(): set<Asterism> {
      indices.Keys
    }
  }

  /** The index list of one asterism, looked up star by star. */
  function IndicesOf(index: map<Star, int>, a: Asterism): seq<int>
    requires forall k :: 0 <= k < |a.stars| ==> a.stars[k] in index
  {
    seq(|a.stars|, k requires 0 <= k < |a.stars| => index[a.stars[k]])
  }

  /** `new StarCatalogue(stars, asterisms)`: fails unless every asterism's
      stars are all in the list; otherwise keeps the stars in order and
      resolves every asterism to the last positions of its stars. */
  function New(stars: seq<Star>, asterisms: seq<Asterism>): (r: Result<StarCatalogue>)
    ensures r.Success? <==> forall a :: a in asterisms ==> ContainsAll(stars, a)
    ensures r.Failure? ==> r.error == IllegalArgument
    ensures r.Success? ==> r.value.stars == stars
    ensures r.Success? ==> forall a :: a in r.value.Asterisms() <==> a in asterisms
    ensures r.Success? ==> forall a :: a in asterisms ==> Resolves(stars, a, r.value.indices[a])
  {
    var allKnown := CheckArgument(forall a :: a in asterisms ==> ContainsAll(stars, a));
    :- allKnown;
    var index := IndexOf(stars);
    Success(StarCatalogue(stars, map a | a in asterisms :: IndicesOf(index, a)))
  }

  /** `asterismIndices(asterism)`: fails for an asterism the catalogue does
      not hold. */
  function AsterismIndices(c: StarCatalogue, a: Asterism): (r: Result<seq<int>>)
    ensures r.Success? <==> a in c.Asterisms()
    ensures r.Failure? ==> r.error == IllegalArgument
    ensures r.Success? ==> r.value == c.indices[a]
  {
    var registered := CheckArgument(a in c.indices);
    :- registered;
    Success(c.indices[a])
  }

  /** Of a catalogue built from `stars` and `asterisms`, the indices of each
      registered asterism point at its stars, one per star and in order, and
      any other asterism is refused. */
  lemma AsterismIndicesOfNew(stars: seq<Star>, asterisms: seq<Asterism>, a: Asterism)
    requires New(stars, asterisms).Success?
    ensures var r := AsterismIndices(New(stars, asterisms).value, a);
      && (r.Success? <==> a in asterisms)
      && (r.Success? ==> |r.value| == |a.stars| && forall k :: 0 <= k < |r.value| ==> stars[r.value[k]] == a.stars[k])
  {
    var c := New(stars, asterisms).value;
    if a in asterisms {
      assert Resolves(stars, a, c.indices[a]);
    }
  }

  /** The resolution of an asterism is unique: any list meeting `Resolves`
      is the catalogue's. */
  lemma ResolutionUnique(stars: seq<Star>, a: Asterism, xs: seq<int>, ys: seq<int>)
    requires Resolves(stars, a, xs) && Resolves(stars, a, ys)
    ensures xs == ys
  {
    forall k | 0 <= k < |xs|
      ensures xs[k] == ys[k]
    {
      var s := a.stars[k];
      assert IsLastIndex(stars, s, xs[k]) && IsLastIndex(stars, s, ys[k]);
    }
  }

  /** `StarCatalogue.Builder`: the stars and asterisms added so far, in order. */
  datatype Builder = Builder(stars: seq<Star>, asterisms: seq<Asterism>) {
    /** `addStar`: appends a star. */
    function AddStar(s: Star): (b: Builder)
      ensures b.stars == stars + [s] && b.asterisms == asterisms
    {
      Builder(stars + [s], asterisms)
    }

    /** `addAsterism`: appends an asterism. */
    function AddAsterism(a: Asterism): (b: Builder)
      ensures b.asterisms == asterisms + [a] && b.stars == stars
    {
      Builder(stars, asterisms + [a])
    }

    /** `build()`: the catalogue of the accumulated lists. */
    function Build(): (r: Result<StarCatalogue>)
      ensures r.Success? <==> forall a :: a in asterisms ==> ContainsAll(stars, a)
      ensures r.Success? ==> r.value.stars == stars
      ensures r.Success? ==> forall a :: a in r.value.Asterisms() <==> a in asterisms
    {
      New(stars, asterisms)
    }
  }

  /** A new builder holds nothing. */
  const EMPTY: Builder := Builder([], [])

  /** Building from a fresh builder to which the stars and then the
      asterisms were added one by one is the constructor on those lists. */
  lemma BuildOfAdded(stars: seq<Star>, asterisms: seq<Asterism>)
    ensures AddAsterisms(AddStars(EMPTY, stars), asterisms).Build() == New(stars, asterisms)
  {
    AddStarsAppends(EMPTY, stars);
    assert [] + stars == stars;
    AddAsterismsAppends(AddStars(EMPTY, stars), asterisms);
    assert [] + asterisms == asterisms;
  }

  function AddStars(b: Builder, ss: seq<Star>): Builder
    decreases |ss|
  {
    if |ss| == 0 then b else AddStars(b.AddStar(ss[0]), ss[1..])
  }

  function AddAsterisms(b: Builder, as_: seq<Asterism>): Builder
    decreases |as_|
  {
    if |as_| == 0 then b else AddAsterisms(b.AddAsterism(as_[0]), as_[1..])
  }

  lemma {:induction false} AddStarsAppends(b: Builder, ss: seq<Star>)
    ensures AddStars(b, ss) == Builder(b.stars + ss, b.asterisms)
    decreases |ss|
  {
    if |ss| > 0 {
      AddStarsAppends(b.AddStar(ss[0]), ss[1..]);
      assert b.stars + [ss[0]] + ss[1..] == b.stars + ss;
    }
  }

  lemma {:induction false} AddAsterismsAppends(b: Builder, as_: seq<Asterism>)
    ensures AddAsterisms(b, as_) == Builder(b.stars, b.asterisms + as_)
    decreases |as_|
  {
    if |as_| > 0 {
      AddAsterismsAppends(b.AddAsterism(as_[0]), as_[1..]);
      assert b.asterisms + [as_[0]] + as_[1..] == b.asterisms + as_;
    }
  }

  /** Adding a star never makes a buildable builder unbuildable. */
  lemma AddStarKeepsBuildable(b: Builder, s: Star)
    requires b.Build().Success?
    ensures b.AddStar(s).Build().Success?
  {
    forall a | a in b.asterisms
      ensures ContainsAll(b.stars + [s], a)
    {
      assert ContainsAll(b.stars, a);
    }
  }
}
