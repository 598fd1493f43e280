/** The date-range and category filters of app.py:101-115. */
module Filters {
  import opened Wrappers
  import opened Seqs
  import opened Tables
  import opened Normalise

  predicate AllDated(rows: seq<Row>) {
    forall i :: 0 <= i < |rows| ==> DayAt(rows[i], OrderDate).Some?
  }

  /** `data['Order Date'].min()` on a non-empty frame of dated rows. */
  function MinDay(rows: seq<Row>): (d: int)
    requires |rows| > 0 && AllDated(rows)
    ensures exists i :: 0 <= i < |rows| && DayAt(rows[i], OrderDate) == Some(d)
    ensures forall i :: 0 <= i < |rows| ==> d <= DayAt(rows[i], OrderDate).value
  {
    var d0 := DayAt(rows[0], OrderDate).value;
    if |rows| == 1 then d0
    else
      var m := MinDay(rows[1..]);
      assert forall i :: 1 <= i < |rows| ==> rows[i] == rows[1..][i - 1];
      if d0 <= m then d0 else m
  }

  /** `data['Order Date'].max()` on a non-empty frame of dated rows. */
  function MaxDay(rows: seq<Row>): (d: int)
    requires |rows| > 0 && AllDated(rows)
    ensures exists i :: 0 <= i < |rows| && DayAt(rows[i], OrderDate) == Some(d)
    ensures forall i :: 0 <= i < |rows| ==> DayAt(rows[i], OrderDate).value <= d
  {
    var d0 := DayAt(rows[0], OrderDate).value;
    if |rows| == 1 then d0
    else
      var m := MaxDay(rows[1..]);
      assert forall i :: 1 <= i < |rows| ==> rows[i] == rows[1..][i - 1];
      if d0 >= m then d0 else m
  }

  /** `(data['Order Date'] >= start) & (data['Order Date'] <= end)`; a missing date compares false. */
  function InRange(start: int, end: int): Row -> bool {
    r => DayAt(r, OrderDate).Some? && start <= DayAt(r, OrderDate).value <= end
  }

  function FilterByDate(f: Frame, start: int, end: int): Frame {
    Frame(f.columns, Filter(f.rows, InRange(start, end)))
  }

  /** The date filter keeps, in order, exactly the rows dated within
      [start, end], both ends included. */
  lemma DateFilterExact(f: Frame, start: int, end: int, r: Row)
    ensures r in FilterByDate(f, start, end).rows <==>
              r in f.rows && DayAt(r, OrderDate).Some? && start <= DayAt(r, OrderDate).value <= end
    ensures IsSubsequence(FilterByDate(f, start, end).rows, f.rows)
    ensures FilterByDate(f, start, end).columns == f.columns
  {
    FilterMembership(f.rows, InRange(start, end), r);
    FilterIsSubsequence(f.rows, InRange(start, end));
  }

  /** The widget's default range, from the earliest to the latest date, keeps every row. */
  lemma DefaultRangeKeepsAll(f: Frame)
    requires |f.rows| > 0 && AllDated(f.rows)
    ensures FilterByDate(f, MinDay(f.rows), MaxDay(f.rows)) == f
  {
    FilterAllPass(f.rows, InRange(MinDay(f.rows), MaxDay(f.rows)));
  }

  const Category := "Category"

  function CategoryColumn(f: Frame): seq<Option<Cell>> {
    seq(|f.rows|, i requires 0 <= i < |f.rows| => Get(f.rows[i], Category))
  }

  /** `data['Category'].unique()`: the multiselect's options and its default selection. */
  function Categories(f: Frame): seq<Option<Cell>> {
    Unique(CategoryColumn(f))
  }

  function InSelection(selection: seq<Option<Cell>>): Row -> bool {
    r => Get(r, Category) in selection
  }

  /** `data[data['Category'].isin(selection)]`, applied only when the column exists. */
  function FilterByCategory(f: Frame, selection: seq<Option<Cell>>): Frame {
    if Category in f.columns then Frame(f.columns, Filter(f.rows, InSelection(selection))) else f
  }

  /** With a Category column the filter keeps, in order, exactly the rows whose
      category is selected; without one it changes nothing. */
  lemma CategoryFilterExact(f: Frame, selection: seq<Option<Cell>>, r: Row)
    ensures Category in f.columns ==>
              (r in FilterByCategory(f, selection).rows <==> r in f.rows && Get(r, Category) in selection)
    ensures Category !in f.columns ==> FilterByCategory(f, selection) == f
    ensures IsSubsequence(FilterByCategory(f, selection).rows, f.rows)
    ensures FilterByCategory(f, selection).columns == f.columns
  {
    FilterMembership(f.rows, InSelection(selection), r);
    FilterIsSubsequence(f.rows, InSelection(selection));
    if Category !in f.columns {
      SubsequenceRefl(f.rows);
    }
  }

  /** The default selection, every distinct category, keeps every row. */
  lemma DefaultSelectionKeepsAll(f: Frame)
    ensures FilterByCategory(f, Categories(f)) == f
  {
    if Category in f.columns {
      forall i | 0 <= i < |f.rows| ensures InSelection(Categories(f))(f.rows[i]) {
        assert CategoryColumn(f)[i] == Get(f.rows[i], Category);
      }
      FilterAllPass(f.rows, InSelection(Categories(f)));
    }
  }

  /** Keeping a subset of the rows keeps the frame well formed and normalised. */
  lemma KeepRowsShape(f: Frame, p: Row -> bool)
    ensures var g := Frame(f.columns, Filter(f.rows, p));
      && (WellFormed(f) ==> WellFormed(g))
      && (IsNormalised(f) ==> IsNormalised(g))
  {
    var g := Frame(f.columns, Filter(f.rows, p));
    forall k | 0 <= k < |g.rows| ensures exists j :: 0 <= j < |f.rows| && f.rows[j] == g.rows[k] {
      assert g.rows[k] in g.rows;
    }
  }

  /** Both filters keep the columns, and keep the frame well formed and normalised. */
  lemma FilteredShape(f: Frame, start: int, end: int, selection: seq<Option<Cell>>)
    ensures var g := FilterByCategory(FilterByDate(f, start, end), selection);
      && g.columns == f.columns
      && (WellFormed(f) ==> WellFormed(g))
      && (IsNormalised(f) ==> IsNormalised(g))
  {
    var d := FilterByDate(f, start, end);
    KeepRowsShape(f, InRange(start, end));
    KeepRowsShape(d, InSelection(selection));
  }
}
