/** `StarCatalogue.Builder.loadFrom`: hands the builder to one of the two
    loaders. It lives apart from the catalogue because the loaders build on
    the catalogue's builder. */
module CatalogueLoading {
  import opened Wrappers
  import opened StarCatalogue
  import HygDatabaseLoader
  import AsterismLoader
  import Text

  /** The two catalogue loaders of Rigel, as an enumeration. */
  datatype Loader = HygDatabase | Asterisms

  /** `loadFrom`: the builder after the loader has read the lines. It
      succeeds exactly when the chosen loader decodes every line, appends
      what that loader decodes after the builder's own items, and leaves
      the other list alone. */
  function LoadFrom(b: Builder, lines: seq<string>, loader: Loader, parsers: HygDatabaseLoader.Parsers)
    : (r: Result<Builder>)
    ensures r.Success? && loader.HygDatabase? ==> r.value.asterisms == b.asterisms
    ensures r.Success? && loader.HygDatabase? && |lines| >= 1 ==> |r.value.stars| == |b.stars| + |lines| - 1
    ensures r.Success? && loader.Asterisms? ==> r.value.stars == b.stars
    ensures loader.HygDatabase? ==>
      (r.Success? <==> forall i :: 1 <= i < |lines| ==> HygDatabaseLoader.Decodable(Text.Split(lines[i], ','), parsers))
    ensures r.Success? && loader.HygDatabase? ==>
      |r.value.stars| >= |b.stars| && r.value.stars[..|b.stars|] == b.stars
    ensures r.Success? && loader.HygDatabase? ==>
      forall i :: 1 <= i < |lines| ==> HygDatabaseLoader.Decodes(lines[i], parsers, r.value.stars[|b.stars| + i - 1])
    ensures r.Success? && loader.Asterisms? ==> |r.value.asterisms| == |b.asterisms| + |lines|
    ensures loader.Asterisms? ==>
      (r.Success? <==> forall i :: 0 <= i < |lines| ==>
         AsterismLoader.DecodeAsterism(lines[i], AsterismLoader.HipparcosIndex(b.stars), parsers.parseInt).Success?)
    ensures r.Success? && loader.Asterisms? ==> r.value.asterisms[..|b.asterisms|] == b.asterisms
    ensures r.Success? && loader.Asterisms? ==> forall i :: 0 <= i < |lines| ==>
      AsterismLoader.DecodeAsterism(lines[i], AsterismLoader.HipparcosIndex(b.stars), parsers.parseInt)
        == Success(r.value.asterisms[|b.asterisms| + i])
  {
    match loader
    case HygDatabase => HygDatabaseLoader.Load(lines, b, parsers)
    case Asterisms => AsterismLoader.Load(lines, b, parsers.parseInt)
  }

  /** Loading the star database and then the asterisms into a new builder,
      as the application does, always gives a builder that builds: the
      asterism loader only finds stars that are already there. */
  lemma LoadedCatalogueBuilds(starLines: seq<string>, asterismLines: seq<string>, parsers: HygDatabaseLoader.Parsers)
    requires LoadFrom(EMPTY, starLines, HygDatabase, parsers).Success?
    requires LoadFrom(LoadFrom(EMPTY, starLines, HygDatabase, parsers).value, asterismLines, Asterisms, parsers).Success?
    ensures LoadFrom(LoadFrom(EMPTY, starLines, HygDatabase, parsers).value, asterismLines, Asterisms, parsers).value.Build().Success?
  {
    var b := LoadFrom(EMPTY, starLines, HygDatabase, parsers).value;
    assert b.asterisms == [];
    AsterismLoader.LoadKeepsBuildable(asterismLines, b, parsers.parseInt);
  }
}
