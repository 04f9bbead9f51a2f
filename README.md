# ESB vs Scraper mapping: the data pipeline behind the map

The project models the data path of the Streamlit dashboard in `app.py`, which compares two
store datasets on a map. The datasets are ESB and a web Scraper, plus a file of matches
between them. The path has four stages:

- **Loading** (`load_data` with its helper `safe_read_csv`). Each CSV source is projected onto
  the columns it is expected to have. Coordinates and match metrics are read as floats. The
  ESB and Scraper tables are cut to their first `max_points` rows, and rows without both
  coordinates are dropped. The match table is cut to `max_points // 2` rows. Any exception
  turns the result into three empty frames.
- **The halt check and the match filter** (`main`). An empty ESB or Scraper table stops the
  page. Otherwise the matches are kept whose confidence is at least the minimum and whose
  distance is at most the maximum.
- **The map center** (`create_map`). Each coordinate is the mean of the non-null values over
  ESB followed by Scraper, with the fallbacks -6.2 and 106.8.
- **Layer emission** (`create_map`). Three marker clusters are filled row by row:
  - one circle marker per ESB or Scraper row;
  - for each match row with all four coordinates, a connecting line and two endpoint markers.

  Any exception while building discards the document and yields a default map.

A table is a list of column names plus rows. A row is a map from column name to a cell, and a
cell is `Null` (NaN), a number, or text. A source file is either missing, unparseable, or a
header with records. Every pandas or folium exception that the code can reach is an explicit
error value: a missing file, a parse error, text in a float column, a `dropna` subset column
that is absent, or a marker location that is NaN or text. The clusters are a `Cluster` class
whose `Add` method appends one element. Each layer loop is the method `Plot`, which is proved
against the function `EmitRows`. `CreateMap` allocates the three clusters and is proved equal
to the value-level `BuildMap`.

Modules:
- `Wrappers`: `Option`, `Result`.
- `Frames`: tables, `Head`, `FilterRows`, subsequences.
- `Loader`: the loader.
- `MapBuilder`: the center, the layers, `Cluster`, `Plot`, `CreateMap`.
- `App`: the filter, the halt check, the whole run.

The model follows the code where it departs from what the code evidently intends. In
`safe_read_csv` (app.py:38-40), a source with no expected column gets a warning and an empty
frame instead of an error, so that the other sources can still load. In the code this
tolerance holds only for the match file. For the ESB or Scraper file, the empty frame reaches
`dropna(subset=['latitude', 'longitude'])` at app.py:64-65, which raises `KeyError`. The
generic handler then discards all three tables (see Findings).

## Model

| member | source | states |
|---|---|---|
| Frames.FilterRows | app.py:245-248 | the kept rows are the rows satisfying the predicate, each as many times as it occurs in the input (a failing row not at all), as a subsequence in the original order |
| Frames.FilterRowsAppend | app.py:245-248 | filtering distributes over appending one row: the new row is appended exactly when it passes |
| Frames.FilterRowsNone | app.py:64-65 | when no row passes, the filter keeps nothing |
| Loader.Project | app.py:37 | a column is projected iff it is expected and in the header; the projection is a subsequence of the expected list (expected order) and no longer than it |
| Loader.ReadCsv | app.py:31-48 | a missing file is FileNotFound and an unparseable one a parse error; a parsed file fails exactly when a float column holds text; on success the columns are the projection, float columns hold no text, an empty projection gives the empty frame, otherwise every record is restricted to the projected columns with absent fields as NaN |
| Loader.KeepLocated | app.py:64-65 | `head(n).dropna(...)`: same columns, at most n rows, each located row kept exactly as often as it occurs among the first n and no other row, in source order |
| Loader.LimitPoints | app.py:64-65 | the `dropna` step raises KeyError exactly when the frame lacks latitude or longitude, and otherwise gives KeepLocated |
| Loader.HeadTable | app.py:66 | same columns, exactly min(n, rows) rows, and each equals the source row at the same index |
| Loader.Load | app.py:23-90 | at most max_points point rows and max_points // 2 matches; every point row has numeric coordinates; no float column holds text; a missing file yields three empty frames; a non-failed load has both coordinate columns in both point tables |
| Loader.LoadSucceedsExactly | app.py:24-90 | the try block succeeds iff all three files parse, no float column holds text, and both point headers carry latitude and longitude; otherwise all three tables are empty |
| Loader.LoadedPoints | app.py:52-65 | after a successful load, each point table has the projected columns and the located rows among the first max_points projected records, each as often as it occurs there, in file order |
| Loader.LoadedMatches | app.py:61-66 | after a successful load, the match table is exactly the prefix of min(max_points // 2, records) projected records, null coordinates kept; an empty projection gives the empty frame without affecting the point tables |
| Loader.PointSchemaMismatchDiscardsAll | app.py:38-65 | as written: a point file with no expected column makes the whole load return three empty frames |
| Loader.LoadIntended | app.py:38-66 | the intended loader keeps the row bounds and returns three empty frames when a file is missing |
| Loader.IntendedAgreesWhenLoadable | app.py:63-66 | wherever the code's loader succeeds, the intended loader returns the same tables |
| Loader.IntendedEsbSchemaMismatchTolerated | app.py:38-61 | under the intended loader, an ESB file with no expected column gives an empty ESB table while Scraper and matches load as usual |
| Loader.IntendedScraperSchemaMismatchTolerated | app.py:38-61 | under the intended loader, a Scraper file with no expected column gives an empty Scraper table while ESB and matches load as usual |
| Loader.IntendedDropsUnlocatable | app.py:64-65 | under the intended loader, a point file readable but without a coordinate column gives no rows |
| Loader.IntendedEmptyWhenNotLoadable | app.py:64-90 | wherever the code's loader fails, the intended loader leaves the ESB or the Scraper table empty |
| MapBuilder.LabelOf | app.py:131-135 | `row.get(c, 'N/A')` shows the placeholder exactly when the frame has no such column, and otherwise the row's cell |
| MapBuilder.ColumnCells | app.py:99-102 | `df.get(c, Series([]))` gives the column's cells in row order, or nothing when the column is absent |
| MapBuilder.Numbers | app.py:99-103 | the non-null cells as numbers: it fails iff some cell is text, and otherwise each number occurs exactly as often as a numeric cell holds it |
| MapBuilder.SumBounds | app.py:103 | a sum of values within [lo, hi] lies within [count·lo, count·hi] |
| MapBuilder.MeanWithin | app.py:103-104 | the mean of a non-empty list of values within [lo, hi] lies within [lo, hi] |
| MapBuilder.CenterCoord | app.py:99-104 | a center coordinate fails iff an ESB or Scraper cell is text; it is the fallback when there is no numeric value, and otherwise the mean of the numeric values of ESB followed by Scraper |
| MapBuilder.CenterWithinBox | app.py:99-104 | when the column holds no text and its numeric values and the fallback lie in [lo, hi], the center coordinate is defined and lies in [lo, hi] |
| MapBuilder.MatchStep | app.py:160-194 | a match row missing a coordinate adds nothing; a complete row raises iff a coordinate or a shown metric is text, and otherwise adds the line with both endpoints, both metrics (0 for an absent column) and both brands, then the ESB endpoint marker, then the Scraper endpoint marker |
| MapBuilder.RaisedSticks | app.py:121-194 | after a row raises, later rows change nothing |
| MapBuilder.PointLayerShape | app.py:121-155 | a point layer raises iff some row lacks a numeric coordinate; otherwise row i yields marker i at its coordinates with its brand and address labels |
| MapBuilder.MatchLayerRaises | app.py:159-194 | the match loop raises iff a complete row holds text where a number is placed or formatted |
| MapBuilder.MatchElementsCount | app.py:164-194 | complete, plottable rows yield three elements each |
| MapBuilder.MatchElementsAppend | app.py:159-194 | the elements of the rows plus one row are the rows' elements plus that row's |
| MapBuilder.EmitRowsLast | app.py:121-194 | a loop that did not raise is the loop over all rows but the last, plus the last row's elements |
| MapBuilder.MatchLayerIsFilterThenMap | app.py:158-194 | a match layer that does not raise is filter-then-map: the rows with all four coordinates, in order, each expanded to its three elements |
| MapBuilder.MatchLayerCount | app.py:158-194 | a match layer that does not raise holds exactly 3 × (number of rows with all four coordinates) elements |
| MapBuilder.Cluster.constructor | app.py:115-117 | a new cluster has the given kind and no children |
| MapBuilder.Cluster.Add | app.py:136 | `add_to` appends exactly the element to the cluster |
| MapBuilder.Plot | app.py:120-194 | the loop adds to the cluster exactly the layer's elements, in order, after what it held, and reports a raise exactly when the layer raises |
| MapBuilder.BuildMap | app.py:96-203 | the document is either the fallback (default center, no layers, no control) or has the computed center and exactly the ESB, Scraper and match layers, in that order, each holding the elements its loop emits |
| MapBuilder.CreateMap | app.py:96-203 | `create_map` with fresh clusters filled by the loops equals BuildMap |
| MapBuilder.DrawableColumnsHaveNoText | app.py:99-102 | rows with numeric coordinates give the center only numeric cells |
| MapBuilder.DrawablePointsCenterable | app.py:99-102 | point frames whose rows all have numeric coordinates leave no text in either center column |
| MapBuilder.LayerRaisesExactly | app.py:120-194 | a layer's loop raises iff its guard holds and one of its rows raises |
| MapBuilder.PointLayerSize | app.py:120-155 | a point layer whose rows, when its guard holds, all have numeric coordinates does not raise and holds one marker per row, or none when a coordinate column is absent |
| MapBuilder.MatchLayerSize | app.py:158-194 | a match layer with no text in its complete rows does not raise and holds three elements per complete row, or none when its guard fails |
| MapBuilder.BuildMapFallsBackExactly | app.py:96-203 | `create_map` returns the default map iff a center column holds text or a layer whose guard holds has a raising row |
| MapBuilder.BuildMapShape | app.py:96-199 | with no text in the center columns, numeric point coordinates in every layer whose guard holds, and no text in complete match rows, there is no fallback: the center is the computed one, each point layer has one marker per row (0 when a coordinate column is absent), and the match layer has three elements per complete match (0 when the frame is empty or lacks a coordinate column) |
| MapBuilder.PairMean | app.py:103-104 | two numbers average to their midpoint |
| MapBuilder.WorkedExampleCenter | app.py:99-104 | points (-6.2, 106.8) and (-6.21, 106.81) center the map at (-6.205, 106.805) |
| MapBuilder.WorkedExampleLayers | app.py:119-194 | one point per point frame and one complete match give layers of 1, 1 and 3 elements |
| MapBuilder.IncompleteMatchesDrawNothing | app.py:159-161 | match rows that each miss a coordinate draw nothing and do not prevent the map |
| App.FilterMatches | app.py:244-250 | an empty match frame, or one lacking either filter column, filters to the empty frame; otherwise the columns are kept and each row with confidence ≥ minimum and distance ≤ maximum (NaN fails) is kept as often as it occurs, no other row, in order |
| App.Render | app.py:238-263 | the page halts iff the ESB or Scraper table is empty; otherwise it shows the loaded tables, the filtered matches and the map built from them |
| App.NumericMatchesPlottable | app.py:58-60 | match tables read with float metric columns never hold text where the match layer places or formats a number |
| App.RenderLoadedShape | app.py:236-264 | for tables with the loader's guarantees, a page that shows a map shows no fallback: one marker per point row and three elements per filtered match with all four coordinates |
| App.RunIgnoresLoaderChoice | app.py:236-241 | `main` on the corrected loader ends exactly as on the code's loader |
| App.Run | app.py:209-264 | `main` halts iff a loaded point table is empty, in particular whenever loading fails; otherwise the map is not the fallback and the layer sizes are as in RenderLoadedShape |

## Left out

- CSV parsing and file access are not modelled. A source is an already-parsed header with records, or a missing or unparseable file. A record missing a field reads that field as NaN.
- The order of a `usecols` frame's columns is not modelled. pandas keeps file order; the model keeps it as the projection, the expected order. No property in the model depends on it.
- float32 narrowing and floating-point rounding are not modelled. Numbers are `real`, and the mean is exact.
- Streamlit output is left out: the page config, warnings, errors, sidebar writes and JSON, the RAM readout through `psutil`, and the statistics metrics. None of them affects the returned data.
- `@st.cache_data` memoization is left out. It changes when loading runs, not what it returns.
- The sliders are left out. `max_points`, `min_confidence` and `max_distance` are parameters, and `max_points` is a `nat`. `head` with a negative count is not modelled.
- Folium rendering details are left out: tiles, zoom, colours, radii, opacity, popup and tooltip HTML text, layer names and clustering behaviour. Elements keep only their position, side, brand and address labels, and the raw match metrics. The `:.3f` / `:.1f` formatting is modelled only as the raise it causes on text.
- `LayerControl` appears only as a flag that separates a built map from the fallback map. `st_folium` display is left out.
- Exceptions raised from inside folium or pandas are included only where the code can reach them: a NaN or text location, a text metric in an f-string format, and text in a center column. Other internal failures, including memory exhaustion, are not modelled.
- The analysis and detail tabs of `main` (from app.py:266) are left out. They are display-only sums, means and sorting of the filtered matches.
- App.Run: states the layer sizes of a shown map. The layer contents follow from App.Render (the document is BuildMap of the shown tables), MapBuilder.BuildMap, MapBuilder.PointLayerShape and MapBuilder.MatchLayerIsFilterThenMap; they are not repeated here.
- App.FilterMatches: a text confidence or distance would make the comparison at app.py:246-247 raise `TypeError`, which no handler catches; the model drops such a row instead. A loaded match table never holds text there, because those columns are read as float32 (app.py:58-60; Loader.Load ensures `Numeric` for them).

## Findings

| source | as written | input that shows it | evidently intended | confidence | as-written member | corrected member |
|---|---|---|---|---|---|---|
| app.py:38-65 | when no expected column is in a point file's header, `safe_read_csv` returns a column-less frame; `dropna(subset=['latitude', 'longitude'])` on it raises KeyError, and the generic handler discards all three tables. The same happens for any point header lacking latitude or longitude | ESB header `id,name`, with Scraper and match files well formed: load_data returns three empty frames, and the Scraper and match data are lost | the point source without coordinates yields an empty table while the other sources still load, the tolerance the empty-projection branch exists for | not executed | Loader.PointSchemaMismatchDiscardsAll (on Loader.Load) | Loader.LoadIntended, with Loader.IntendedEsbSchemaMismatchTolerated, Loader.IntendedScraperSchemaMismatchTolerated and Loader.IntendedAgreesWhenLoadable; App.RunIgnoresLoaderChoice shows that `main` ends the same way on either loader, because it halts on the empty point table anyway |
