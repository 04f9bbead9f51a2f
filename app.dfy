/**
  The part of `main` that feeds the map: load, stop when a point table is
  empty, filter the matches by confidence and distance, and build the map.
 */
module App {
  import opened Wrappers
  import opened Frames
  import opened Loader
  import opened MapBuilder

  /**
    The boolean mask of the match filter: confidence at least `minConfidence`
    and distance at most `maxDistance`; a NaN compares false, so it fails.
   */
  predicate Passes(minConfidence: real, maxDistance: real, r: Row) {
    var confidence, distance := Get(r, "match_confidence"), Get(r, "distance_m");
    confidence.Num? && confidence.x >= minConfidence && distance.Num? && distance.x <= maxDistance
  }

  /** Both filter columns are present and the frame is not empty. */
  predicate Filterable(matches: Table) {
    !IsEmpty(matches) && "match_confidence" in matches.columns && "distance_m" in matches.columns
  }

  /**
    The match filter of `main`: the matches passing the mask, in their order,
    or an empty frame when the match frame is empty or lacks a filter column.
   */
  function FilterMatches(matches: Table, minConfidence: real, maxDistance: real): (f: Table)
    ensures !Filterable(matches) ==> f == EmptyFrame
    ensures Filterable(matches) ==>
      && f.columns == matches.columns
      && (forall r :: r in f.rows <==> r in matches.rows && Passes(minConfidence, maxDistance, r))
      && (forall r :: multiset(f.rows)[r] == if Passes(minConfidence, maxDistance, r) then multiset(matches.rows)[r] else 0)
      && IsSubsequence(f.rows, matches.rows)
  {
    if Filterable(matches) then
      Table(matches.columns, FilterRows(matches.rows, r => Passes(minConfidence, maxDistance, r)))
    else EmptyFrame
  }

  /** What one run of the page shows: nothing past the error message, or the tables and the map. */
  datatype Outcome = Halted | Shown(esb: Table, scraper: Table, matches: Table, doc: MapDoc)

  /** `main` from the loaded bundle on: the halt check, the filter and `create_map`. */
  function Render(b: Bundle, minConfidence: real, maxDistance: real): (o: Outcome)
    ensures o.Halted? <==> IsEmpty(b.esb) || IsEmpty(b.scraper)
    ensures o.Shown? ==> o.esb == b.esb && o.scraper == b.scraper
    ensures o.Shown? ==> o.matches == FilterMatches(b.matches, minConfidence, maxDistance)
    ensures o.Shown? ==> o.doc == BuildMap(o.esb, o.scraper, o.matches)
  {
    if IsEmpty(b.esb) || IsEmpty(b.scraper) then Halted
    else
      var filtered := FilterMatches(b.matches, minConfidence, maxDistance);
      Shown(b.esb, b.scraper, filtered, BuildMap(b.esb, b.scraper, filtered))
  }

  /** Loaded match tables hold no text in a column the match layer places or formats. */
  lemma NumericMatchesPlottable(t: Table)
    requires Numeric(t, MatchFloatColumns)
    ensures forall r :: r in t.rows ==> Plottable(t, r)
  {
  }

  /**
    For any bundle with the guarantees of a load, a run that is not halted
    shows a real map: one marker per point row and three elements per
    filtered match with all four coordinates.
   */
  lemma RenderLoadedShape(b: Bundle, minConfidence: real, maxDistance: real)
    requires AllLocated(b.esb) && AllLocated(b.scraper) && Numeric(b.matches, MatchFloatColumns)
    requires b == Failed || (HasCoordinates(b.esb.columns) && HasCoordinates(b.scraper.columns))
    ensures var o := Render(b, minConfidence, maxDistance);
      o.Shown? ==>
      && o.doc.layerControl
      && |o.doc.layers| == 3
      && |o.doc.layers[0].children| == |o.esb.rows|
      && |o.doc.layers[1].children| == |o.scraper.rows|
      && |o.doc.layers[2].children| ==
           (if LayerApplies(o.matches, Matches) then 3 * |FilterRows(o.matches.rows, CoordsPresent)| else 0)
  {
    if !IsEmpty(b.esb) && !IsEmpty(b.scraper) {
      var filtered := FilterMatches(b.matches, minConfidence, maxDistance);
      assert Numeric(filtered, MatchFloatColumns);
      NumericMatchesPlottable(filtered);
      DrawablePointsCenterable(b.esb, b.scraper);
      BuildMapShape(b.esb, b.scraper, filtered);
    }
  }

  /**
    The loader's schema-mismatch defect is invisible in `main`: on the
    corrected loader every page ends the same way as on the code's loader.
   */
  lemma RunIgnoresLoaderChoice(files: Sources, maxPoints: nat, minConfidence: real, maxDistance: real)
    ensures Render(LoadIntended(files, maxPoints), minConfidence, maxDistance) ==
            Render(Load(files, maxPoints), minConfidence, maxDistance)
  {
    if Loadable(files) {
      IntendedAgreesWhenLoadable(files, maxPoints);
    } else {
      LoadSucceedsExactly(files, maxPoints);
      IntendedEmptyWhenNotLoadable(files, maxPoints);
    }
  }

  /**
    The whole pipeline of `main`: it halts exactly when a loaded point table
    is empty, which includes every failed load; otherwise the map is never the
    fallback, each point layer has one marker per loaded row and the match
    layer three elements per filtered match with all four coordinates.
   */
  function Run(files: Sources, maxPoints: nat, minConfidence: real, maxDistance: real): (o: Outcome)
    ensures o.Halted? <==> IsEmpty(Load(files, maxPoints).esb) || IsEmpty(Load(files, maxPoints).scraper)
    ensures !Loadable(files) ==> o.Halted?
    ensures o.Shown? ==>
      && o.doc.layerControl
      && |o.doc.layers| == 3
      && |o.doc.layers[0].children| == |o.esb.rows|
      && |o.doc.layers[1].children| == |o.scraper.rows|
      && |o.doc.layers[2].children| ==
           (if LayerApplies(o.matches, Matches) then 3 * |FilterRows(o.matches.rows, CoordsPresent)| else 0)
  {
    var b := Load(files, maxPoints);
    LoadSucceedsExactly(files, maxPoints);
    RenderLoadedShape(b, minConfidence, maxDistance);
    Render(b, minConfidence, maxDistance)
  }
}
