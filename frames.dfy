/**
  Data frames as the pipeline sees them: an ordered list of column labels and a
  sequence of rows, each row mapping column labels to cells.  This is the shape
  pandas gives the loader and the map builder; file parsing itself is outside
  the model.
 */
module Frames {

  /** One cell: a missing value (NaN), a number, or a non-numeric text value. */
  datatype Cell = Null | Num(x: real) | Text(s: string)

  type Row = map<string, Cell>

  datatype Table = Table(columns: seq<string>, rows: seq<Row>)

  /** `pd.DataFrame()`: no columns and no rows. */
  const EmptyFrame: Table := Table([], [])

  /** The cell of row `r` under column `c`; a field the row lacks reads as NaN. */
  function Get(r: Row, c: string): Cell {
    if c in r then r[c] else Null
  }

  /** pandas' `DataFrame.empty`: true when either axis has length zero. */
  predicate IsEmpty(t: Table) {
    |t.rows| == 0 || |t.columns| == 0
  }

  /** `a` is obtained from `b` by deleting elements, keeping the order of the rest. */
  ghost predicate IsSubsequence<T>(a: seq<T>, b: seq<T>)
    decreases |b|
  {
    a == [] || (b != [] && ((a[0] == b[0] && IsSubsequence(a[1..], b[1..])) || IsSubsequence(a, b[1..])))
  }

  /** `df.head(n)`: the first `n` rows, or all of them when there are fewer. */
  function Head(rows: seq<Row>, n: nat): seq<Row> {
    if n <= |rows| then rows[..n] else rows
  }

  /**
    A row filter in the manner of a pandas boolean mask: the rows for which
    `keep` holds, in their original order.
   */
  function FilterRows(rows: seq<Row>, keep: Row -> bool): (kept: seq<Row>)
    ensures forall r :: r in kept <==> r in rows && keep(r)
    ensures forall r :: multiset(kept)[r] == if keep(r) then multiset(rows)[r] else 0
    ensures IsSubsequence(kept, rows)
    ensures |kept| <= |rows|
  {
    if rows == [] then []
    else
      assert rows == [rows[0]] + rows[1..];
      if keep(rows[0]) then [rows[0]] + FilterRows(rows[1..], keep)
      else FilterRows(rows[1..], keep)
  }

  /** Filtering a sequence extended by one row extends the filtered sequence by at most that row. */
  lemma {:induction false} FilterRowsAppend(rows: seq<Row>, x: Row, keep: Row -> bool)
    ensures FilterRows(rows + [x], keep) == FilterRows(rows, keep) + (if keep(x) then [x] else [])
  {
    if rows == [] {
      assert rows + [x] == [x];
      assert [x][1..] == [];
    } else {
      assert (rows + [x])[0] == rows[0];
      assert (rows + [x])[1..] == rows[1..] + [x];
      FilterRowsAppend(rows[1..], x, keep);
    }
  }

  /** A filter that no row passes keeps nothing. */
  lemma {:induction false} FilterRowsNone(rows: seq<Row>, keep: Row -> bool)
    requires forall r :: r in rows ==> !keep(r)
    ensures FilterRows(rows, keep) == []
  {
    if rows != [] {
      assert rows[0] in rows;
      FilterRowsNone(rows[1..], keep);
    }
  }
}
