/**
  The dataset loader (`load_data` and its helper `safe_read_csv`): three CSV
  sources are projected onto their expected columns, coordinate and metric
  columns are read as numbers, the point tables are cut to `max_points` rows
  and cleared of rows without coordinates, and the match table is cut to
  `max_points // 2` rows.  Any exception raised on the way yields three empty
  frames.
 */
module Loader {
  import opened Wrappers
  import opened Frames

  /** Expected columns of the ESB and Scraper files, in the order they are listed. */
  const BaseColumns: seq<string> := ["latitude", "longitude", "brandName", "address"]

  /** Expected columns of the match file. */
  const MatchColumns: seq<string> :=
    ["latitude_esb", "longitude_esb", "latitude_pulau", "longitude_pulau",
     "brandName_esb", "brandName_pulau", "match_confidence", "distance_m"]

  /** Columns of the point files read with a float dtype. */
  const BaseFloatColumns: set<string> := {"latitude", "longitude"}

  /** Columns of the match file read with a float dtype. */
  const MatchFloatColumns: set<string> :=
    {"latitude_esb", "longitude_esb", "latitude_pulau", "longitude_pulau", "match_confidence", "distance_m"}

  /**
    A source file as the CSV reader would find it: absent, not parseable as CSV,
    or a header with its records (a record lacking a field reads that field as NaN).
   */
  datatype CsvFile = Missing | Unparseable | Csv(header: seq<string>, records: seq<Row>)

  datatype Sources = Sources(esb: CsvFile, scraper: CsvFile, matches: CsvFile)

  /** The exceptions loading can raise: file not found, a parse error, a failed float conversion, a missing dropna column. */
  datatype LoadError = FileNotFound | ParseError | ConversionError | KeyError

  /** The three tables one load returns. */
  datatype Bundle = Bundle(esb: Table, scraper: Table, matches: Table)

  /** What every exception handler of the loader returns. */
  const Failed: Bundle := Bundle(EmptyFrame, EmptyFrame, EmptyFrame)

  /** The expected columns that appear in the header, in the order of the expected list. */
  function Project(expected: seq<string>, header: seq<string>): (cols: seq<string>)
    ensures forall c :: c in cols <==> c in expected && c in header
    ensures IsSubsequence(cols, expected)
    ensures |cols| <= |expected|
  {
    if expected == [] then []
    else if expected[0] in header then [expected[0]] + Project(expected[1..], header)
    else Project(expected[1..], header)
  }

  /** A record read with `usecols`: only the projected columns, a missing field as NaN. */
  function Restrict(rec: Row, cols: seq<string>): Row {
    map c | c in cols :: Get(rec, c)
  }

  function ProjectRows(records: seq<Row>, cols: seq<string>): seq<Row> {
    seq(|records|, i requires 0 <= i < |records| => Restrict(records[i], cols))
  }

  /** No cell of a float column holds text. */
  predicate Numeric(t: Table, floats: set<string>) {
    forall r, c :: r in t.rows && c in floats ==> !Get(r, c).Text?
  }

  /** Some record holds text in a projected column that is read as float. */
  predicate Unconvertible(records: seq<Row>, cols: seq<string>, floats: set<string>) {
    exists i, c :: 0 <= i < |records| && c in cols && c in floats && Get(records[i], c).Text?
  }

  lemma ProjectRowsNumeric(records: seq<Row>, cols: seq<string>, floats: set<string>)
    requires !Unconvertible(records, cols, floats)
    ensures Numeric(Table(cols, ProjectRows(records, cols)), floats)
  {
    var rows := ProjectRows(records, cols);
    forall r, c | r in rows && c in floats
      ensures !Get(r, c).Text?
    {
      var i :| 0 <= i < |rows| && rows[i] == r;
      if c in cols {
        assert Get(r, c) == Get(records[i], c);
      }
    }
  }

  /**
    `safe_read_csv`: an empty projection gives an empty frame without reading
    further; otherwise the projected columns are read, and text in a float
    column is a conversion error.
   */
  function ReadCsv(file: CsvFile, expected: seq<string>, floats: set<string>): (r: Result<Table, LoadError>)
    ensures file.Missing? ==> r == Err(FileNotFound)
    ensures file.Unparseable? ==> r == Err(ParseError)
    ensures file.Csv? ==> (r.Err? <==> Unconvertible(file.records, Project(expected, file.header), floats))
    ensures r.Ok? ==> file.Csv? && r.value.columns == Project(expected, file.header)
    ensures r.Ok? ==> Numeric(r.value, floats)
    ensures r.Ok? && r.value.columns == [] ==> r.value == EmptyFrame
    ensures r.Ok? && r.value.columns != [] ==>
      |r.value.rows| == |file.records| &&
      forall i :: 0 <= i < |file.records| ==> r.value.rows[i] == Restrict(file.records[i], r.value.columns)
  {
    match file
    case Missing => Err(FileNotFound)
    case Unparseable => Err(ParseError)
    case Csv(header, records) =>
      var cols := Project(expected, header);
      if cols == [] then Ok(EmptyFrame)
      else if Unconvertible(records, cols, floats) then Err(ConversionError)
      else
        ProjectRowsNumeric(records, cols, floats);
        Ok(Table(cols, ProjectRows(records, cols)))
  }

  /** Both coordinates of the row are non-null (what `dropna(subset=[...])` keeps). */
  predicate Located(r: Row) {
    !Get(r, "latitude").Null? && !Get(r, "longitude").Null?
  }

  /** `df.head(n)` followed by dropping rows without both coordinates. */
  function KeepLocated(t: Table, maxPoints: nat): (k: Table)
    ensures k.columns == t.columns
    ensures |k.rows| <= maxPoints
    ensures forall x :: x in k.rows <==> x in Head(t.rows, maxPoints) && Located(x)
    ensures forall x :: multiset(k.rows)[x] == if Located(x) then multiset(Head(t.rows, maxPoints))[x] else 0
    ensures IsSubsequence(k.rows, Head(t.rows, maxPoints))
  {
    Table(t.columns, FilterRows(Head(t.rows, maxPoints), Located))
  }

  /**
    `df.head(max_points).dropna(subset=['latitude', 'longitude'])`; pandas
    raises KeyError when a subset column is not a column of the frame.
   */
  function LimitPoints(t: Table, maxPoints: nat): (r: Result<Table, LoadError>)
    ensures r.Err? <==> "latitude" !in t.columns || "longitude" !in t.columns
    ensures r.Ok? ==> r.value == KeepLocated(t, maxPoints)
  {
    if "latitude" in t.columns && "longitude" in t.columns then Ok(KeepLocated(t, maxPoints))
    else Err(KeyError)
  }

  /** `df.head(n)` on a whole frame. */
  function HeadTable(t: Table, n: nat): (h: Table)
    ensures h.columns == t.columns
    ensures |h.rows| == if n <= |t.rows| then n else |t.rows|
    ensures forall i :: 0 <= i < |h.rows| ==> h.rows[i] == t.rows[i]
  {
    Table(t.columns, Head(t.rows, n))
  }

  /** The body of the `try` block of `load_data`, with every raise as an `Err`. */
  function LoadTables(files: Sources, maxPoints: nat): (r: Result<Bundle, LoadError>)
  {
    var esb :- ReadCsv(files.esb, BaseColumns, BaseFloatColumns);
    var scraper :- ReadCsv(files.scraper, BaseColumns, BaseFloatColumns);
    var matches :- ReadCsv(files.matches, MatchColumns, MatchFloatColumns);
    var esbPoints :- LimitPoints(esb, maxPoints);
    var scraperPoints :- LimitPoints(scraper, maxPoints);
    Ok(Bundle(esbPoints, scraperPoints, HeadTable(matches, maxPoints / 2)))
  }

  /** The header has both coordinate columns. */
  predicate HasCoordinates(header: seq<string>) {
    "latitude" in header && "longitude" in header
  }

  /** Every condition under which loading raises nothing. */
  predicate Loadable(files: Sources) {
    && files.esb.Csv? && files.scraper.Csv? && files.matches.Csv?
    && !Unconvertible(files.esb.records, Project(BaseColumns, files.esb.header), BaseFloatColumns)
    && !Unconvertible(files.scraper.records, Project(BaseColumns, files.scraper.header), BaseFloatColumns)
    && !Unconvertible(files.matches.records, Project(MatchColumns, files.matches.header), MatchFloatColumns)
    && HasCoordinates(files.esb.header) && HasCoordinates(files.scraper.header)
  }

  /** Rows of a point table all carry two numeric coordinates. */
  predicate AllLocated(t: Table) {
    forall r :: r in t.rows ==> Get(r, "latitude").Num? && Get(r, "longitude").Num?
  }

  /** `load_data(max_points)`: the loaded tables, or three empty frames on any exception. */
  function Load(files: Sources, maxPoints: nat): (b: Bundle)
    ensures |b.esb.rows| <= maxPoints && |b.scraper.rows| <= maxPoints
    ensures |b.matches.rows| <= maxPoints / 2
    ensures AllLocated(b.esb) && AllLocated(b.scraper)
    ensures Numeric(b.esb, BaseFloatColumns) && Numeric(b.scraper, BaseFloatColumns)
    ensures Numeric(b.matches, MatchFloatColumns)
    ensures files.esb.Missing? || files.scraper.Missing? || files.matches.Missing? ==> b == Failed
    ensures b == Failed || (HasCoordinates(b.esb.columns) && HasCoordinates(b.scraper.columns))
  {
    match LoadTables(files, maxPoints)
    case Ok(loaded) => loaded
    case Err(_) => Failed
  }

  /** Loading raises exactly when one of the conditions of `Loadable` fails. */
  lemma LoadSucceedsExactly(files: Sources, maxPoints: nat)
    ensures LoadTables(files, maxPoints).Ok? <==> Loadable(files)
    ensures !Loadable(files) ==> Load(files, maxPoints) == Failed
  {
  }

  /**
    A successful load keeps, of the point files, the projected columns and the
    rows with both coordinates among the first `maxPoints` records, in file order.
   */
  lemma LoadedPoints(files: Sources, maxPoints: nat)
    requires Loadable(files)
    ensures var b := Load(files, maxPoints);
      var esbCols := Project(BaseColumns, files.esb.header);
      var scraperCols := Project(BaseColumns, files.scraper.header);
      && b.esb.columns == esbCols
      && b.scraper.columns == scraperCols
      && (forall x :: x in b.esb.rows <==> x in Head(ProjectRows(files.esb.records, esbCols), maxPoints) && Located(x))
      && (forall x :: x in b.scraper.rows <==> x in Head(ProjectRows(files.scraper.records, scraperCols), maxPoints) && Located(x))
      && (forall x :: multiset(b.esb.rows)[x] ==
            if Located(x) then multiset(Head(ProjectRows(files.esb.records, esbCols), maxPoints))[x] else 0)
      && (forall x :: multiset(b.scraper.rows)[x] ==
            if Located(x) then multiset(Head(ProjectRows(files.scraper.records, scraperCols), maxPoints))[x] else 0)
      && IsSubsequence(b.esb.rows, Head(ProjectRows(files.esb.records, esbCols), maxPoints))
      && IsSubsequence(b.scraper.rows, Head(ProjectRows(files.scraper.records, scraperCols), maxPoints))
  {
  }

  /**
    A successful load keeps, of the match file, exactly the first
    `maxPoints / 2` projected records, null coordinates included; a match file
    with none of the expected columns gives an empty frame and does not stop
    the point files from loading.
   */
  lemma LoadedMatches(files: Sources, maxPoints: nat)
    requires Loadable(files)
    ensures var b := Load(files, maxPoints);
      var cols := Project(MatchColumns, files.matches.header);
      var n := if maxPoints / 2 <= |files.matches.records| then maxPoints / 2 else |files.matches.records|;
      && b.matches.columns == cols
      && (cols == [] ==> b.matches == EmptyFrame)
      && (cols != [] ==> |b.matches.rows| == n && forall i :: 0 <= i < n ==> b.matches.rows[i] == Restrict(files.matches.records[i], cols))
      && b.esb.columns != [] && b.scraper.columns != []
  {
  }

  /**
    As written, a point file whose header has none of the expected columns
    makes the whole load fail: its empty frame has no coordinate columns for
    `dropna` to use.
   */
  lemma PointSchemaMismatchDiscardsAll(files: Sources, maxPoints: nat)
    requires || (files.esb.Csv? && Project(BaseColumns, files.esb.header) == [])
             || (files.scraper.Csv? && Project(BaseColumns, files.scraper.header) == [])
    ensures Load(files, maxPoints) == Failed
  {
  }

  /**
    The loader as its empty-projection branch intends it: a point frame without
    a coordinate column simply has no located rows, so it comes out empty and
    the other two sources still load.
   */
  function LoadTablesIntended(files: Sources, maxPoints: nat): (r: Result<Bundle, LoadError>)
  {
    var esb :- ReadCsv(files.esb, BaseColumns, BaseFloatColumns);
    var scraper :- ReadCsv(files.scraper, BaseColumns, BaseFloatColumns);
    var matches :- ReadCsv(files.matches, MatchColumns, MatchFloatColumns);
    Ok(Bundle(KeepLocated(esb, maxPoints), KeepLocated(scraper, maxPoints), HeadTable(matches, maxPoints / 2)))
  }

  function LoadIntended(files: Sources, maxPoints: nat): (b: Bundle)
    ensures |b.esb.rows| <= maxPoints && |b.scraper.rows| <= maxPoints
    ensures |b.matches.rows| <= maxPoints / 2
    ensures files.esb.Missing? || files.scraper.Missing? || files.matches.Missing? ==> b == Failed
  {
    match LoadTablesIntended(files, maxPoints)
    case Ok(loaded) => loaded
    case Err(_) => Failed
  }

  /** Wherever the as-written loader succeeds, the intended one returns the same tables. */
  lemma IntendedAgreesWhenLoadable(files: Sources, maxPoints: nat)
    requires Loadable(files)
    ensures LoadIntended(files, maxPoints) == Load(files, maxPoints)
  {
  }

  /**
    Under the intended loader, a point file with none of the expected columns
    yields an empty table while the other point file and the match file are
    loaded as they would be otherwise.
   */
  lemma IntendedEsbSchemaMismatchTolerated(files: Sources, maxPoints: nat)
    requires files.esb.Csv? && Project(BaseColumns, files.esb.header) == []
    requires ReadCsv(files.scraper, BaseColumns, BaseFloatColumns).Ok?
    requires ReadCsv(files.matches, MatchColumns, MatchFloatColumns).Ok?
    ensures var b := LoadIntended(files, maxPoints);
      && IsEmpty(b.esb)
      && b.scraper == KeepLocated(ReadCsv(files.scraper, BaseColumns, BaseFloatColumns).value, maxPoints)
      && b.matches == HeadTable(ReadCsv(files.matches, MatchColumns, MatchFloatColumns).value, maxPoints / 2)
  {
  }

  /** The Scraper half: a Scraper file with none of the expected columns gives an empty table, and the rest loads. */
  lemma IntendedScraperSchemaMismatchTolerated(files: Sources, maxPoints: nat)
    requires files.scraper.Csv? && Project(BaseColumns, files.scraper.header) == []
    requires ReadCsv(files.esb, BaseColumns, BaseFloatColumns).Ok?
    requires ReadCsv(files.matches, MatchColumns, MatchFloatColumns).Ok?
    ensures var b := LoadIntended(files, maxPoints);
      && IsEmpty(b.scraper)
      && b.esb == KeepLocated(ReadCsv(files.esb, BaseColumns, BaseFloatColumns).value, maxPoints)
      && b.matches == HeadTable(ReadCsv(files.matches, MatchColumns, MatchFloatColumns).value, maxPoints / 2)
  {
  }

  /**
    Under the intended loader, a point file that lacks a coordinate column
    yields a table with no rows.
   */
  lemma IntendedDropsUnlocatable(file: CsvFile, maxPoints: nat)
    requires file.Csv? && !HasCoordinates(file.header)
    requires ReadCsv(file, BaseColumns, BaseFloatColumns).Ok?
    ensures KeepLocated(ReadCsv(file, BaseColumns, BaseFloatColumns).value, maxPoints).rows == []
  {
    var t := ReadCsv(file, BaseColumns, BaseFloatColumns).value;
    if t.columns != [] {
      assert "latitude" !in t.columns || "longitude" !in t.columns;
      forall x | x in Head(t.rows, maxPoints)
        ensures !Located(x)
      {
        var i :| 0 <= i < |t.rows| && t.rows[i] == x;
        assert x == Restrict(file.records[i], t.columns);
      }
    }
    FilterRowsNone(Head(t.rows, maxPoints), Located);
  }

  /**
    Wherever the as-written loader fails, the intended one leaves a point
    table empty: either it fails as well, or a point file without a
    coordinate column comes out with no rows.
   */
  lemma IntendedEmptyWhenNotLoadable(files: Sources, maxPoints: nat)
    requires !Loadable(files)
    ensures IsEmpty(LoadIntended(files, maxPoints).esb) || IsEmpty(LoadIntended(files, maxPoints).scraper)
  {
    if LoadTablesIntended(files, maxPoints).Ok? {
      if !HasCoordinates(files.esb.header) {
        IntendedDropsUnlocatable(files.esb, maxPoints);
      } else {
        IntendedDropsUnlocatable(files.scraper, maxPoints);
      }
    }
  }
}
