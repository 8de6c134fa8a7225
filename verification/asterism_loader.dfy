/** The loader of asterisms: one asterism per line, a comma-separated list
    of Hipparcos numbers, each resolved against the stars already in the
    builder. Numeric parsing is a parameter. */
module AsterismLoader {
  import opened Wrappers
  import opened Text
  import opened CelestialObject
  import opened Asterism
  import opened StarCatalogue

  /** The map the loader fills by putting `id -> star` for every star of
      the builder in order: of stars sharing a number, the last one wins. */
  function HipparcosIndex(stars: seq<Star>): (m: map<int, Star>)
    ensures forall i :: 0 <= i < |stars| ==> stars[i].hipparcosId in m
    ensures forall id :: id in m ==> m[id] in stars && m[id].hipparcosId == id
    ensures forall i :: 0 <= i < |stars| && (forall j :: i < j < |stars| ==> stars[j].hipparcosId != stars[i].hipparcosId)
                        ==> m[stars[i].hipparcosId] == stars[i]
  {
    if |stars| == 0 then map[]
    else
      var init := stars[..|stars| - 1];
      var last := stars[|stars| - 1];
      var m := HipparcosIndex(init);
      assert forall i :: 0 <= i < |init| ==> init[i] == stars[i];
      m[last.hipparcosId := last]
  }

  /** Every token parsed as an integer, in order. */
  function ParseIds(tokens: seq<string>, parseInt: string -> Result<int>): (r: Result<seq<int>>)
    ensures r.Success? <==> forall k :: 0 <= k < |tokens| ==> parseInt(tokens[k]).Success?
    ensures r.Success? ==> |r.value| == |tokens| && forall k :: 0 <= k < |tokens| ==> parseInt(tokens[k]) == Success(r.value[k])
  {
    if |tokens| == 0 then Success([])
    else
      var id :- parseInt(tokens[0]);
      var ids :- ParseIds(tokens[1..], parseInt);
      assert forall k :: 1 <= k < |tokens| ==> tokens[k] == tokens[1..][k - 1];
      Success([id] + ids)
  }

  /** `HashMap.get`: the star of each number, or null. */
  function LookupAll(ids: seq<int>, m: map<int, Star>): (stars: seq<Option<Star>>)
    ensures |stars| == |ids|
    ensures forall k :: 0 <= k < |ids| ==> (stars[k].Some? <==> ids[k] in m)
    ensures forall k :: 0 <= k < |ids| && ids[k] in m ==> stars[k] == Some(m[ids[k]])
  {
    seq(|ids|, k requires 0 <= k < |ids| => if ids[k] in m then Some(m[ids[k]]) else None)
  }

  /** The asterism of one line: its tokens parsed in order, looked up, and
      given to the `Asterism` constructor. */
  function DecodeAsterism(line: string, m: map<int, Star>, parseInt: string -> Result<int>): (r: Result<Asterism>)
    ensures var tokens := Split(line, ',');
      r.Success? <==> |tokens| > 0 && forall k :: 0 <= k < |tokens| ==> parseInt(tokens[k]).Success? && parseInt(tokens[k]).value in m
    ensures r.Success? ==>
      var tokens := Split(line, ',');
      && |r.value.stars| == |tokens|
      && forall k :: 0 <= k < |tokens| ==>
           parseInt(tokens[k]).Success? && parseInt(tokens[k]).value in m && m[parseInt(tokens[k]).value] == r.value.stars[k]
  {
    var ids :- ParseIds(Split(line, ','), parseInt);
    Of(LookupAll(ids, m))
  }

  /** A number no builder star carries gives a null star, and the
      `Asterism` constructor then fails. */
  lemma UnknownIdFails(line: string, m: map<int, Star>, parseInt: string -> Result<int>, k: int)
    requires var tokens := Split(line, ',');
      && (forall j :: 0 <= j < |tokens| ==> parseInt(tokens[j]).Success?)
      && 0 <= k < |tokens| && parseInt(tokens[k]).value !in m
    ensures DecodeAsterism(line, m, parseInt) == Failure(NullPointer)
  {
    var ids := ParseIds(Split(line, ','), parseInt).value;
    assert LookupAll(ids, m)[k].None?;
  }

  /** A line that is a lone comma splits into no token: the asterism is
      empty and refused. */
  lemma LoneCommaFails(m: map<int, Star>, parseInt: string -> Result<int>)
    ensures DecodeAsterism(",", m, parseInt) == Failure(IllegalArgument)
  {
    SplitOfSeparator();
  }

  /** The asterisms of all lines, in order. */
  function DecodeAll(lines: seq<string>, m: map<int, Star>, parseInt: string -> Result<int>): (r: Result<seq<Asterism>>)
    ensures r.Success? <==> forall i :: 0 <= i < |lines| ==> DecodeAsterism(lines[i], m, parseInt).Success?
    ensures r.Success? ==> |r.value| == |lines|
    ensures r.Success? ==> forall i :: 0 <= i < |lines| ==> DecodeAsterism(lines[i], m, parseInt) == Success(r.value[i])
    decreases |lines|
  {
    if |lines| == 0 then Success([])
    else
      var a :- DecodeAsterism(lines[0], m, parseInt);
      var rest :- DecodeAll(lines[1..], m, parseInt);
      assert forall i :: 1 <= i < |lines| ==> lines[i] == lines[1..][i - 1];
      Success([a] + rest)
  }

  /** `load`: appends one asterism per line, in file order, resolving
      numbers against the builder's stars only; the stars are unchanged. */
  function Load(lines: seq<string>, b: Builder, parseInt: string -> Result<int>): (r: Result<Builder>)
    ensures r.Success? <==> forall i :: 0 <= i < |lines| ==> DecodeAsterism(lines[i], HipparcosIndex(b.stars), parseInt).Success?
    ensures r.Success? ==> r.value.stars == b.stars
    ensures r.Success? ==> |r.value.asterisms| == |b.asterisms| + |lines| && r.value.asterisms[..|b.asterisms|] == b.asterisms
    ensures r.Success? ==> forall i :: 0 <= i < |lines| ==>
      DecodeAsterism(lines[i], HipparcosIndex(b.stars), parseInt) == Success(r.value.asterisms[|b.asterisms| + i])
  {
    var m := HipparcosIndex(b.stars);
    var asterisms :- DecodeAll(lines, m, parseInt);
    AddAsterismsAppends(b, asterisms);
    Success(AddAsterisms(b, asterisms))
  }

  /** Every star of a decoded asterism is one of the stars it was
      resolved against. */
  lemma DecodedStarsKnown(line: string, stars: seq<Star>, parseInt: string -> Result<int>, a: Asterism)
    requires DecodeAsterism(line, HipparcosIndex(stars), parseInt) == Success(a)
    ensures ContainsAll(stars, a)
  {
    var m := HipparcosIndex(stars);
    forall k | 0 <= k < |a.stars|
      ensures a.stars[k] in stars
    {
      var id := parseInt(Split(line, ',')[k]).value;
      assert m[id] == a.stars[k];
    }
  }

  /** Every star of a loaded asterism is a builder star, so a builder that
      could build still can after the load. */
  lemma LoadKeepsBuildable(lines: seq<string>, b: Builder, parseInt: string -> Result<int>)
    requires b.Build().Success? && Load(lines, b, parseInt).Success?
    ensures Load(lines, b, parseInt).value.Build().Success?
  {
    var m := HipparcosIndex(b.stars);
    var decoded := DecodeAll(lines, m, parseInt).value;
    var r := Load(lines, b, parseInt).value;
    AddAsterismsAppends(b, decoded);
    assert r == Builder(b.stars, b.asterisms + decoded);
    forall a | a in r.asterisms
      ensures ContainsAll(r.stars, a)
    {
      if a !in b.asterisms {
        var j :| 0 <= j < |decoded| && decoded[j] == a;
        DecodedStarsKnown(lines[j], b.stars, parseInt, a);
      }
    }
  }
}
