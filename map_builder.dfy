/**
  The map builder (`create_map`): the map center is the mean of the point
  coordinates, and three clustered layers are filled row by row with the ESB
  markers, the Scraper markers and, per complete match, one connecting line
  and two endpoint markers.  Any exception while building discards the
  document and yields a bare default map.
 */
module MapBuilder {
  import opened Wrappers
  import opened Frames

  /** The default map center, used when there is no coordinate to average. */
  const FallbackLat: real := -6.2
  const FallbackLon: real := 106.8

  datatype Side = EsbSide | ScraperSide

  /** The three marker clusters of the map. */
  datatype LayerKind = Points(side: Side) | Matches

  /** An optional field as shown in a popup: the row's cell, or the "N/A" placeholder when the column is absent. */
  datatype Label = Value(cell: Cell) | NotAvailable

  /** What a layer holds: circle markers for points, and per match a line and two endpoint markers. */
  datatype Element =
    | PointMarker(side: Side, lat: real, lon: real, brand: Label, address: Label)
    | MatchLine(latEsb: real, lonEsb: real, latPulau: real, lonPulau: real,
                confidence: Cell, distance: Cell, brandEsb: Label, brandPulau: Label)
    | MatchEnd(side: Side, lat: real, lon: real, brand: Label)

  datatype LayerGroup = LayerGroup(kind: LayerKind, children: seq<Element>)

  /** A map document: its center, its layers, and whether it has a layer control. */
  datatype MapDoc = MapDoc(centerLat: real, centerLon: real, layers: seq<LayerGroup>, layerControl: bool)

  /** The document returned when building fails: the default center and nothing else. */
  const FallbackMap: MapDoc := MapDoc(FallbackLat, FallbackLon, [], false)

  /** `row.get(c, 'N/A')`: the placeholder appears exactly when the frame has no such column. */
  function LabelOf(t: Table, r: Row, c: string): (l: Label)
    ensures l.NotAvailable? <==> c !in t.columns
    ensures l.Value? ==> l.cell == Get(r, c)
  {
    if c in t.columns then Value(Get(r, c)) else NotAvailable
  }

  /** `row.get(c, 0)`, used for the metrics shown on a match line. */
  function Metric(t: Table, r: Row, c: string): Cell {
    if c in t.columns then Get(r, c) else Num(0.0)
  }

  // ---------------------------------------------------------------------------
  // Map center
  // ---------------------------------------------------------------------------

  /** `df.get(c, pd.Series([]))`: the column's cells, or nothing when it is absent. */
  function ColumnCells(t: Table, c: string): (cells: seq<Cell>)
    ensures c in t.columns ==> |cells| == |t.rows| && forall i :: 0 <= i < |t.rows| ==> cells[i] == Get(t.rows[i], c)
    ensures c !in t.columns ==> cells == []
  {
    if c in t.columns then seq(|t.rows|, i requires 0 <= i < |t.rows| => Get(t.rows[i], c)) else []
  }

  /**
    `.dropna()` followed by the values `mean()` adds up: the numbers among the
    cells in order, or None when a text value would make the mean raise.
   */
  function Numbers(cells: seq<Cell>): (r: Option<seq<real>>)
    ensures r.None? <==> exists v :: v in cells && v.Text?
    ensures r.Some? ==> forall x :: x in r.value <==> Num(x) in cells
    ensures r.Some? ==> forall x :: multiset(r.value)[x] == multiset(cells)[Num(x)]
  {
    if cells == [] then Some([])
    else match Numbers(cells[1..])
      case None => None
      case Some(rest) =>
        assert cells == [cells[0]] + cells[1..];
        match cells[0]
        case Null => Some(rest)
        case Num(x) => Some([x] + rest)
        case Text(_) =>
          assert cells[0] in cells;
          None
  }

  function Sum(xs: seq<real>): real {
    if xs == [] then 0.0 else xs[0] + Sum(xs[1..])
  }

  function Mean(xs: seq<real>): real
    requires |xs| > 0
  {
    Sum(xs) / (|xs| as real)
  }

  lemma {:induction false} SumBounds(xs: seq<real>, lo: real, hi: real)
    requires forall x :: x in xs ==> lo <= x <= hi
    ensures (|xs| as real) * lo <= Sum(xs) <= (|xs| as real) * hi
  {
    if xs != [] {
      assert xs[0] in xs;
      assert forall x :: x in xs[1..] ==> x in xs;
      SumBounds(xs[1..], lo, hi);
      assert (|xs| as real) * lo == lo + (|xs[1..]| as real) * lo;
      assert (|xs| as real) * hi == hi + (|xs[1..]| as real) * hi;
    }
  }

  /** The mean of values that all lie in [lo, hi] lies in [lo, hi]. */
  lemma MeanWithin(xs: seq<real>, lo: real, hi: real)
    requires |xs| > 0
    requires forall x :: x in xs ==> lo <= x <= hi
    ensures lo <= Mean(xs) <= hi
  {
    SumBounds(xs, lo, hi);
    var n := |xs| as real;
    assert Mean(xs) * n == Sum(xs);
  }

  /** The cells of a coordinate column across ESB followed by Scraper; matches take no part. */
  function CenterCells(esb: Table, scraper: Table, c: string): seq<Cell> {
    ColumnCells(esb, c) + ColumnCells(scraper, c)
  }

  /**
    One coordinate of the map center: the mean of the non-null values of
    column `c` across ESB and Scraper, or `fallback` when there is none;
    None when the mean would raise.
   */
  function CenterCoord(esb: Table, scraper: Table, c: string, fallback: real): (r: Option<real>)
    ensures r.None? <==> exists v :: v in CenterCells(esb, scraper, c) && v.Text?
    ensures r.Some? && (forall v :: v in CenterCells(esb, scraper, c) ==> !v.Num?) ==> r.value == fallback
    ensures r.Some? && (exists v :: v in CenterCells(esb, scraper, c) && v.Num?) ==>
      var xs := Numbers(CenterCells(esb, scraper, c)).value;
      |xs| > 0 && r.value == Mean(xs)
  {
    match Numbers(CenterCells(esb, scraper, c))
    case None => None
    case Some(xs) =>
      if |xs| > 0 then
        assert Num(xs[0]) in CenterCells(esb, scraper, c) by { assert xs[0] in xs; }
        Some(Mean(xs))
      else Some(fallback)
  }

  /**
    When the column holds no text and every non-null value of it and the
    fallback lie in [lo, hi], that coordinate of the center is defined and
    lies in [lo, hi]: the center lies in every box containing the points and
    the default center.
   */
  lemma CenterWithinBox(esb: Table, scraper: Table, c: string, fallback: real, lo: real, hi: real)
    requires lo <= fallback <= hi
    requires forall v :: v in CenterCells(esb, scraper, c) ==> !v.Text? && (v.Num? ==> lo <= v.x <= hi)
    ensures CenterCoord(esb, scraper, c, fallback).Some?
    ensures lo <= CenterCoord(esb, scraper, c, fallback).value <= hi
  {
    var xs := Numbers(CenterCells(esb, scraper, c)).value;
    if |xs| > 0 {
      MeanWithin(xs, lo, hi);
    }
  }
  // ---------------------------------------------------------------------------
  // Layer elements
  // ---------------------------------------------------------------------------

  /** What handling one row does to its layer: add elements, or raise. */
  datatype Step = Emit(elements: seq<Element>) | Raise

  /** Both coordinates of a point row are numbers, as the marker's location check demands. */
  predicate Drawable(r: Row) {
    Get(r, "latitude").Num? && Get(r, "longitude").Num?
  }

  /** The circle marker of one ESB or Scraper row, with its brand and address labels. */
  function PointStep(t: Table, r: Row, side: Side): Step {
    var lat := Get(r, "latitude");
    var lon := Get(r, "longitude");
    if lat.Num? && lon.Num? then
      Emit([PointMarker(side, lat.x, lon.x, LabelOf(t, r, "brandName"), LabelOf(t, r, "address"))])
    else Raise
  }

  /** All four coordinates of a match row are non-null (`pd.notna`). */
  predicate CoordsPresent(r: Row) {
    && !Get(r, "latitude_esb").Null? && !Get(r, "longitude_esb").Null?
    && !Get(r, "latitude_pulau").Null? && !Get(r, "longitude_pulau").Null?
  }

  /** No value that a match row's line or markers place or format is text. */
  predicate Plottable(t: Table, r: Row) {
    && !Get(r, "latitude_esb").Text? && !Get(r, "longitude_esb").Text?
    && !Get(r, "latitude_pulau").Text? && !Get(r, "longitude_pulau").Text?
    && !Metric(t, r, "match_confidence").Text? && !Metric(t, r, "distance_m").Text?
  }

  /**
    One match row: nothing when a coordinate is null; otherwise the line
    between the two endpoints followed by the ESB and the Scraper endpoint
    markers, or a raise when a coordinate or a shown metric is text.
   */
  function MatchStep(t: Table, r: Row): (s: Step)
    ensures !CoordsPresent(r) ==> s == Emit([])
    ensures s.Raise? <==> CoordsPresent(r) && !Plottable(t, r)
    ensures CoordsPresent(r) && Plottable(t, r) ==>
      && s.Emit? && |s.elements| == 3
      && s.elements[0] == MatchLine(Get(r, "latitude_esb").x, Get(r, "longitude_esb").x,
                                    Get(r, "latitude_pulau").x, Get(r, "longitude_pulau").x,
                                    Metric(t, r, "match_confidence"), Metric(t, r, "distance_m"),
                                    LabelOf(t, r, "brandName_esb"), LabelOf(t, r, "brandName_pulau"))
      && s.elements[1] == MatchEnd(EsbSide, Get(r, "latitude_esb").x, Get(r, "longitude_esb").x, LabelOf(t, r, "brandName_esb"))
      && s.elements[2] == MatchEnd(ScraperSide, Get(r, "latitude_pulau").x, Get(r, "longitude_pulau").x, LabelOf(t, r, "brandName_pulau"))
  {
    if !CoordsPresent(r) then Emit([])
    else
      var latEsb, lonEsb := Get(r, "latitude_esb"), Get(r, "longitude_esb");
      var latPulau, lonPulau := Get(r, "latitude_pulau"), Get(r, "longitude_pulau");
      var confidence, distance := Metric(t, r, "match_confidence"), Metric(t, r, "distance_m");
      if !(latEsb.Num? && lonEsb.Num? && latPulau.Num? && lonPulau.Num?) || confidence.Text? || distance.Text? then Raise
      else
        var brandEsb, brandPulau := LabelOf(t, r, "brandName_esb"), LabelOf(t, r, "brandName_pulau");
        Emit([MatchLine(latEsb.x, lonEsb.x, latPulau.x, lonPulau.x, confidence, distance, brandEsb, brandPulau),
              MatchEnd(EsbSide, latEsb.x, lonEsb.x, brandEsb),
              MatchEnd(ScraperSide, latPulau.x, lonPulau.x, brandPulau)])
  }

  function RowStep(t: Table, r: Row, kind: LayerKind): Step {
    match kind
    case Points(side) => PointStep(t, r, side)
    case Matches => MatchStep(t, r)
  }

  /** The guard in front of each layer's loop. */
  predicate LayerApplies(t: Table, kind: LayerKind) {
    match kind
    case Points(_) => "latitude" in t.columns && "longitude" in t.columns
    case Matches =>
      && !IsEmpty(t)
      && "latitude_esb" in t.columns && "longitude_esb" in t.columns
      && "latitude_pulau" in t.columns && "longitude_pulau" in t.columns
  }

  /** The elements added to a cluster so far, and whether a row raised. */
  datatype Emission = Emission(elements: seq<Element>, raised: bool)

  /** The loop over `rows` in order; after a raise no further row is handled. */
  function EmitRows(t: Table, rows: seq<Row>, kind: LayerKind): Emission
    decreases |rows|
  {
    if rows == [] then Emission([], false)
    else
      var before := EmitRows(t, rows[..|rows| - 1], kind);
      if before.raised then before
      else match RowStep(t, rows[|rows| - 1], kind)
        case Raise => Emission(before.elements, true)
        case Emit(es) => Emission(before.elements + es, false)
  }

  /** What one layer's cluster receives from its frame. */
  function Layer(t: Table, kind: LayerKind): Emission {
    if LayerApplies(t, kind) then EmitRows(t, t.rows, kind) else Emission([], false)
  }

  /** Once a row has raised, the rows after it change nothing. */
  lemma {:induction false} RaisedSticks(t: Table, rows: seq<Row>, k: nat, kind: LayerKind)
    requires k <= |rows|
    requires EmitRows(t, rows[..k], kind).raised
    ensures EmitRows(t, rows, kind) == EmitRows(t, rows[..k], kind)
    decreases |rows| - k
  {
    if k < |rows| {
      assert rows[..k + 1][..k] == rows[..k];
      RaisedSticks(t, rows, k + 1, kind);
    } else {
      assert rows[..k] == rows;
    }
  }

  /**
    A point layer gets one marker per row, in row order, at the row's
    coordinates and with its brand and address labels; it raises exactly when
    some row lacks a numeric coordinate.
   */
  lemma {:induction false} PointLayerShape(t: Table, rows: seq<Row>, side: Side)
    ensures var e := EmitRows(t, rows, Points(side));
      && (e.raised <==> exists i :: 0 <= i < |rows| && !Drawable(rows[i]))
      && (!e.raised ==>
            && |e.elements| == |rows|
            && forall i :: 0 <= i < |rows| ==>
                 e.elements[i] == PointMarker(side, Get(rows[i], "latitude").x, Get(rows[i], "longitude").x,
                                              LabelOf(t, rows[i], "brandName"), LabelOf(t, rows[i], "address")))
    decreases |rows|
  {
    if rows != [] {
      var init := rows[..|rows| - 1];
      PointLayerShape(t, init, side);
      assert forall i :: 0 <= i < |init| ==> init[i] == rows[i];
    }
  }

  /** A match layer raises exactly when a row with all four coordinates holds text where a number is shown. */
  lemma {:induction false} MatchLayerRaises(t: Table, rows: seq<Row>)
    ensures EmitRows(t, rows, Matches).raised <==>
      exists i :: 0 <= i < |rows| && CoordsPresent(rows[i]) && !Plottable(t, rows[i])
    decreases |rows|
  {
    if rows != [] {
      var init := rows[..|rows| - 1];
      MatchLayerRaises(t, init);
      assert forall i :: 0 <= i < |init| ==> init[i] == rows[i];
    }
  }

  /** The elements a row adds when it does not raise. */
  function StepElements(s: Step): seq<Element> {
    match s
    case Emit(es) => es
    case Raise => []
  }

  /** The elements of `rows` one after another: the mapping half of filter-then-map. */
  function MatchElements(t: Table, rows: seq<Row>): seq<Element>
    decreases |rows|
  {
    if rows == [] then []
    else MatchElements(t, rows[..|rows| - 1]) + StepElements(MatchStep(t, rows[|rows| - 1]))
  }

  /** Three elements for every complete, plottable match row. */
  lemma {:induction false} MatchElementsCount(t: Table, rows: seq<Row>)
    requires forall r :: r in rows ==> CoordsPresent(r) && Plottable(t, r)
    ensures |MatchElements(t, rows)| == 3 * |rows|
    decreases |rows|
  {
    if rows != [] {
      assert rows[|rows| - 1] in rows;
      assert forall r :: r in rows[..|rows| - 1] ==> r in rows;
      MatchElementsCount(t, rows[..|rows| - 1]);
    }
  }

  lemma MatchElementsAppend(t: Table, rows: seq<Row>, x: Row)
    ensures MatchElements(t, rows + [x]) == MatchElements(t, rows) + StepElements(MatchStep(t, x))
  {
    assert (rows + [x])[..|rows|] == rows;
  }

  /** Unfolding the last row of a layer loop that did not raise. */
  lemma EmitRowsLast(t: Table, rows: seq<Row>, kind: LayerKind)
    requires rows != [] && !EmitRows(t, rows, kind).raised
    ensures !EmitRows(t, rows[..|rows| - 1], kind).raised
    ensures EmitRows(t, rows, kind).elements ==
      EmitRows(t, rows[..|rows| - 1], kind).elements + StepElements(RowStep(t, rows[|rows| - 1], kind))
  {
  }

  /**
    A match layer that does not raise is the filter-then-map of its rows: the
    rows with all four coordinates are kept, in order, and each contributes
    its line and two endpoint markers; every other row contributes nothing.
   */
  lemma {:induction false} MatchLayerIsFilterThenMap(t: Table, rows: seq<Row>)
    requires !EmitRows(t, rows, Matches).raised
    ensures EmitRows(t, rows, Matches).elements == MatchElements(t, FilterRows(rows, CoordsPresent))
    decreases |rows|
  {
    if rows != [] {
      var init := rows[..|rows| - 1];
      var last := rows[|rows| - 1];
      EmitRowsLast(t, rows, Matches);
      MatchLayerIsFilterThenMap(t, init);
      assert rows == init + [last];
      FilterRowsAppend(init, last, CoordsPresent);
      var done := FilterRows(init, CoordsPresent);
      var added := StepElements(MatchStep(t, last));
      assert EmitRows(t, rows, Matches).elements == MatchElements(t, done) + added;
      if CoordsPresent(last) {
        assert FilterRows(rows, CoordsPresent) == done + [last];
        MatchElementsAppend(t, done, last);
      } else {
        assert FilterRows(rows, CoordsPresent) == done;
        assert added == [];
      }
    }
  }
  /** A match layer that does not raise holds exactly three elements per row with all four coordinates. */
  lemma MatchLayerCount(t: Table, rows: seq<Row>)
    requires !EmitRows(t, rows, Matches).raised
    ensures |EmitRows(t, rows, Matches).elements| == 3 * |FilterRows(rows, CoordsPresent)|
  {
    MatchLayerRaises(t, rows);
    MatchLayerIsFilterThenMap(t, rows);
    var complete := FilterRows(rows, CoordsPresent);
    forall r | r in complete ensures CoordsPresent(r) && Plottable(t, r) {
      var i :| 0 <= i < |rows| && rows[i] == r;
    }
    MatchElementsCount(t, complete);
  }

  /**
    A marker cluster: the container `add_to` appends to, one element at a time.
   */
  class Cluster {
    const kind: LayerKind
    var children: seq<Element>

    constructor (kind: LayerKind)
      ensures this.kind == kind && children == []
    {
      this.kind := kind;
      children := [];
    }

    method Add(e: Element)
      modifies this
      ensures children == old(children) + [e]
    {
      children := children + [e];
    }
  }

  /**
    One layer's loop: when the guard holds, each row's elements are added to
    `group` in order; `ok` is false when a row raised, in which case the
    remaining rows are not visited.
   */
  method Plot(t: Table, kind: LayerKind, group: Cluster) returns (ok: bool)
    modifies group
    ensures ok == !Layer(t, kind).raised
    ensures group.children == old(group.children) + Layer(t, kind).elements
  {
    ok := true;
    if !LayerApplies(t, kind) {
      return;
    }
    var i := 0;
    while i < |t.rows|
      invariant 0 <= i <= |t.rows|
      invariant !EmitRows(t, t.rows[..i], kind).raised
      invariant group.children == old(group.children) + EmitRows(t, t.rows[..i], kind).elements
    {
      assert t.rows[..i + 1][..i] == t.rows[..i];
      var step := RowStep(t, t.rows[i], kind);
      if step.Raise? {
        RaisedSticks(t, t.rows, i + 1, kind);
        ok := false;
        return;
      }
      var j := 0;
      while j < |step.elements|
        invariant 0 <= j <= |step.elements|
        invariant group.children == old(group.children) + EmitRows(t, t.rows[..i], kind).elements + step.elements[..j]
      {
        group.Add(step.elements[j]);
        assert step.elements[..j + 1] == step.elements[..j] + [step.elements[j]];
        j := j + 1;
      }
      assert step.elements[..j] == step.elements;
      i := i + 1;
    }
    assert t.rows[..i] == t.rows;
  }

  /**
    `create_map` as a value: the fallback document when computing the center
    or plotting any layer raises, otherwise the center and the three layers.
   */
  function BuildMap(esb: Table, scraper: Table, matches: Table): (m: MapDoc)
    ensures !m.layerControl ==> m == FallbackMap
    ensures m.layerControl ==>
      && |m.layers| == 3
      && m.layers[0].kind == Points(EsbSide) && m.layers[1].kind == Points(ScraperSide) && m.layers[2].kind == Matches
      && Some(m.centerLat) == CenterCoord(esb, scraper, "latitude", FallbackLat)
      && Some(m.centerLon) == CenterCoord(esb, scraper, "longitude", FallbackLon)
      && m.layers[0].children == Layer(esb, Points(EsbSide)).elements
      && m.layers[1].children == Layer(scraper, Points(ScraperSide)).elements
      && m.layers[2].children == Layer(matches, Matches).elements
  {
    var lat := CenterCoord(esb, scraper, "latitude", FallbackLat);
    var lon := CenterCoord(esb, scraper, "longitude", FallbackLon);
    var esbLayer := Layer(esb, Points(EsbSide));
    var scraperLayer := Layer(scraper, Points(ScraperSide));
    var matchLayer := Layer(matches, Matches);
    if lat.None? || lon.None? || esbLayer.raised || scraperLayer.raised || matchLayer.raised then FallbackMap
    else MapDoc(lat.value, lon.value,
                [LayerGroup(Points(EsbSide), esbLayer.elements),
                 LayerGroup(Points(ScraperSide), scraperLayer.elements),
                 LayerGroup(Matches, matchLayer.elements)],
                true)
  }

  /** `create_map`: the center, three fresh clusters filled by their loops, and the fallback on any raise. */
  method CreateMap(esb: Table, scraper: Table, matches: Table) returns (m: MapDoc)
    ensures m == BuildMap(esb, scraper, matches)
  {
    var lat := CenterCoord(esb, scraper, "latitude", FallbackLat);
    var lon := CenterCoord(esb, scraper, "longitude", FallbackLon);
    if lat.None? || lon.None? {
      return FallbackMap;
    }
    var esbGroup := new Cluster(Points(EsbSide));
    var scraperGroup := new Cluster(Points(ScraperSide));
    var matchGroup := new Cluster(Matches);
    assert esbGroup.kind == Points(EsbSide) && scraperGroup.kind == Points(ScraperSide) && matchGroup.kind == Matches;
    var ok := Plot(esb, Points(EsbSide), esbGroup);
    if !ok {
      return FallbackMap;
    }
    ok := Plot(scraper, Points(ScraperSide), scraperGroup);
    if !ok {
      return FallbackMap;
    }
    ok := Plot(matches, Matches, matchGroup);
    if !ok {
      return FallbackMap;
    }
    assert esbGroup.children == Layer(esb, Points(EsbSide)).elements;
    assert scraperGroup.children == Layer(scraper, Points(ScraperSide)).elements;
    assert matchGroup.children == Layer(matches, Matches).elements;
    m := MapDoc(lat.value, lon.value,
                [LayerGroup(esbGroup.kind, esbGroup.children),
                 LayerGroup(scraperGroup.kind, scraperGroup.children),
                 LayerGroup(matchGroup.kind, matchGroup.children)],
                true);
  }

  /** Rows with numeric coordinates leave no text in the column that the center averages. */
  lemma DrawableColumnsHaveNoText(t: Table, c: string)
    requires c == "latitude" || c == "longitude"
    requires forall r :: r in t.rows ==> Drawable(r)
    ensures forall v :: v in ColumnCells(t, c) ==> v.Num?
  {
    var cells := ColumnCells(t, c);
    forall v | v in cells ensures v.Num? {
      var i :| 0 <= i < |cells| && cells[i] == v;
      assert t.rows[i] in t.rows;
    }
  }

  /** Point frames whose rows all have numeric coordinates give the center only numbers. */
  lemma DrawablePointsCenterable(esb: Table, scraper: Table)
    requires forall r :: r in esb.rows ==> Drawable(r)
    requires forall r :: r in scraper.rows ==> Drawable(r)
    ensures forall v :: v in CenterCells(esb, scraper, "latitude") ==> !v.Text?
    ensures forall v :: v in CenterCells(esb, scraper, "longitude") ==> !v.Text?
  {
    DrawableColumnsHaveNoText(esb, "latitude");
    DrawableColumnsHaveNoText(esb, "longitude");
    DrawableColumnsHaveNoText(scraper, "latitude");
    DrawableColumnsHaveNoText(scraper, "longitude");
  }

  /** Handling this row raises: a point without numeric coordinates, or a complete match with text where a number goes. */
  predicate RowRaises(t: Table, r: Row, kind: LayerKind) {
    match kind
    case Points(_) => !Drawable(r)
    case Matches => CoordsPresent(r) && !Plottable(t, r)
  }

  /** The layer's guard holds and one of its rows raises. */
  predicate LayerRaises(t: Table, kind: LayerKind) {
    LayerApplies(t, kind) && exists i :: 0 <= i < |t.rows| && RowRaises(t, t.rows[i], kind)
  }

  /** A layer raises exactly when its guard holds and one of its rows raises. */
  lemma LayerRaisesExactly(t: Table, kind: LayerKind)
    ensures Layer(t, kind).raised <==> LayerRaises(t, kind)
  {
    match kind
    case Points(side) => PointLayerShape(t, t.rows, side);
    case Matches => MatchLayerRaises(t, t.rows);
  }

  /** A point layer that does not raise holds one marker per row, or none when its guard fails. */
  lemma PointLayerSize(t: Table, side: Side)
    requires LayerApplies(t, Points(side)) ==> forall r :: r in t.rows ==> Drawable(r)
    ensures !Layer(t, Points(side)).raised
    ensures |Layer(t, Points(side)).elements| == if LayerApplies(t, Points(side)) then |t.rows| else 0
  {
    if LayerApplies(t, Points(side)) {
      PointLayerShape(t, t.rows, side);
    }
  }

  /** A match layer with no text in its complete rows holds three elements per complete row, or none when its guard fails. */
  lemma MatchLayerSize(t: Table)
    requires LayerApplies(t, Matches) ==> forall r :: r in t.rows && CoordsPresent(r) ==> Plottable(t, r)
    ensures !Layer(t, Matches).raised
    ensures |Layer(t, Matches).elements| == if LayerApplies(t, Matches) then 3 * |FilterRows(t.rows, CoordsPresent)| else 0
  {
    if LayerApplies(t, Matches) {
      MatchLayerRaises(t, t.rows);
      MatchLayerCount(t, t.rows);
    }
  }

  /**
    The ways `create_map` can raise: text in a center column, or a layer whose
    guard holds and one of whose rows raises.
   */
  predicate MapRaises(esb: Table, scraper: Table, matches: Table) {
    || (exists v :: v in CenterCells(esb, scraper, "latitude") && v.Text?)
    || (exists v :: v in CenterCells(esb, scraper, "longitude") && v.Text?)
    || LayerRaises(esb, Points(EsbSide))
    || LayerRaises(scraper, Points(ScraperSide))
    || LayerRaises(matches, Matches)
  }

  /** `create_map` returns the default map exactly when one of the ways it can raise occurs. */
  lemma BuildMapFallsBackExactly(esb: Table, scraper: Table, matches: Table)
    ensures BuildMap(esb, scraper, matches) == FallbackMap <==> MapRaises(esb, scraper, matches)
  {
    LayerRaisesExactly(esb, Points(EsbSide));
    LayerRaisesExactly(scraper, Points(ScraperSide));
    LayerRaisesExactly(matches, Matches);
  }

  /**
    When no center column holds text, every point row of a layer whose guard
    holds has numeric coordinates, and no complete match row holds text where
    a number is shown, `create_map` does not fall back: the center is the
    computed one, each point layer holds one marker per row (none when a
    coordinate column is absent), and the match layer three elements per
    match with all four coordinates (none when the match frame is empty or
    lacks a coordinate column).
   */
  lemma BuildMapShape(esb: Table, scraper: Table, matches: Table)
    requires forall v :: v in CenterCells(esb, scraper, "latitude") ==> !v.Text?
    requires forall v :: v in CenterCells(esb, scraper, "longitude") ==> !v.Text?
    requires LayerApplies(esb, Points(EsbSide)) ==> forall r :: r in esb.rows ==> Drawable(r)
    requires LayerApplies(scraper, Points(ScraperSide)) ==> forall r :: r in scraper.rows ==> Drawable(r)
    requires LayerApplies(matches, Matches) ==> forall r :: r in matches.rows && CoordsPresent(r) ==> Plottable(matches, r)
    ensures var m := BuildMap(esb, scraper, matches);
      && m.layerControl
      && |m.layers| == 3
      && Some(m.centerLat) == CenterCoord(esb, scraper, "latitude", FallbackLat)
      && Some(m.centerLon) == CenterCoord(esb, scraper, "longitude", FallbackLon)
      && |m.layers[0].children| == (if LayerApplies(esb, Points(EsbSide)) then |esb.rows| else 0)
      && |m.layers[1].children| == (if LayerApplies(scraper, Points(ScraperSide)) then |scraper.rows| else 0)
      && |m.layers[2].children| ==
           (if LayerApplies(matches, Matches) then 3 * |FilterRows(matches.rows, CoordsPresent)| else 0)
  {
    PointLayerSize(esb, EsbSide);
    PointLayerSize(scraper, ScraperSide);
    MatchLayerSize(matches);
  }

  /** Two numbers are averaged as the pair's midpoint. */
  lemma PairMean(a: real, b: real)
    ensures Numbers([Num(a), Num(b)]) == Some([a, b])
    ensures Mean([a, b]) == (a + b) / 2.0
  {
    assert [Num(a), Num(b)][1..] == [Num(b)] && [Num(b)][1..] == [];
    assert Numbers([Num(b)]) == Some([b]) by { assert [b] + [] == [b]; }
    assert [a] + [b] == [a, b];
    assert [a, b][1..] == [b] && [b][1..] == [];
    assert Sum([b]) == b;
    assert Sum([a, b]) == a + b;
  }

  /**
    A concrete center: an ESB point at (-6.2, 106.8) and a
    Scraper point at (-6.21, 106.81) put the center at (-6.205, 106.805).
   */
  lemma WorkedExampleCenter(esb: Table, scraper: Table)
    requires esb.columns == ["latitude", "longitude"] && |esb.rows| == 1
    requires Get(esb.rows[0], "latitude") == Num(-6.2) && Get(esb.rows[0], "longitude") == Num(106.8)
    requires scraper.columns == ["latitude", "longitude"] && |scraper.rows| == 1
    requires Get(scraper.rows[0], "latitude") == Num(-6.21) && Get(scraper.rows[0], "longitude") == Num(106.81)
    ensures CenterCoord(esb, scraper, "latitude", FallbackLat) == Some(-6.205)
    ensures CenterCoord(esb, scraper, "longitude", FallbackLon) == Some(106.805)
  {
    assert CenterCells(esb, scraper, "latitude") == [Num(-6.2), Num(-6.21)];
    assert CenterCells(esb, scraper, "longitude") == [Num(106.8), Num(106.81)];
    PairMean(-6.2, -6.21);
    PairMean(106.8, 106.81);
  }

  /**
    A concrete layer count: one point in each point frame and one
    match with all four coordinates give one marker in each point layer and a
    line plus two markers in the match layer.
   */
  lemma WorkedExampleLayers(esb: Table, scraper: Table, matches: Table)
    requires |esb.rows| == 1 && Drawable(esb.rows[0]) && LayerApplies(esb, Points(EsbSide))
    requires |scraper.rows| == 1 && Drawable(scraper.rows[0]) && LayerApplies(scraper, Points(ScraperSide))
    requires |matches.rows| == 1 && CoordsPresent(matches.rows[0]) && Plottable(matches, matches.rows[0])
    requires LayerApplies(matches, Matches)
    ensures var m := BuildMap(esb, scraper, matches);
      && m.layerControl
      && |m.layers[0].children| == 1 && |m.layers[1].children| == 1 && |m.layers[2].children| == 3
  {
    assert FilterRows(matches.rows, CoordsPresent) == matches.rows by {
      assert matches.rows[1..] == [];
    }
    assert forall r :: r in esb.rows ==> Drawable(r) by { assert esb.rows == [esb.rows[0]]; }
    assert forall r :: r in scraper.rows ==> Drawable(r) by { assert scraper.rows == [scraper.rows[0]]; }
    assert forall r :: r in matches.rows ==> Plottable(matches, r) by { assert matches.rows == [matches.rows[0]]; }
    DrawablePointsCenterable(esb, scraper);
    BuildMapShape(esb, scraper, matches);
  }

  /**
    Match rows that each miss a
    coordinate draw nothing, and raise nothing, so the map is still built.
   */
  lemma IncompleteMatchesDrawNothing(esb: Table, scraper: Table, matches: Table)
    requires forall r :: r in esb.rows ==> Drawable(r)
    requires forall r :: r in scraper.rows ==> Drawable(r)
    requires forall r :: r in matches.rows ==> !CoordsPresent(r)
    ensures var m := BuildMap(esb, scraper, matches);
      m.layerControl && m.layers[2].children == []
  {
    FilterRowsNone(matches.rows, CoordsPresent);
    DrawablePointsCenterable(esb, scraper);
    BuildMapShape(esb, scraper, matches);
  }
}
