/** The data model: a pandas DataFrame as an ordered list of column names
    and a sequence of rows, each row a map from column name to a cell that
    may be missing (NaN, NaT or None). */
module Tables {
  import opened Wrappers
  import opened Seqs

  /** A present cell: text, a number (exact real), a calendar day
      (days since 1970-01-01) or a monthly period (see Calendar.MonthKey). */
  datatype Cell = Text(s: string) | Num(x: real) | Date(day: int) | Period(month: int)

  type Row = map<string, Option<Cell>>

  datatype Frame = Frame(columns: seq<string>, rows: seq<Row>)

  /** Column labels are distinct and every row has exactly the frame's columns. */
  predicate WellFormed(f: Frame) {
    && Distinct(f.columns)
    && forall i :: 0 <= i < |f.rows| ==> f.rows[i].Keys == set c | c in f.columns
  }

  /** Cell lookup; a column the row lacks reads as missing. */
  function Get(r: Row, c: string): Option<Cell> {
    if c in r then r[c] else None
  }

  /** The numeric value of a cell, if it holds a number. */
  function NumberAt(r: Row, c: string): Option<real> {
    match Get(r, c)
    case Some(Num(x)) => Some(x)
    case _ => None
  }

  /** The day of a cell, if it holds a date. */
  function DayAt(r: Row, c: string): Option<int> {
    match Get(r, c)
    case Some(Date(d)) => Some(d)
    case _ => None
  }

  /** `data[name] = values`: an existing column is overwritten where it
      stands, a new one is appended after the last column. */
  function WithColumn(f: Frame, name: string, values: seq<Option<Cell>>): (g: Frame)
    requires |values| == |f.rows|
    ensures WellFormed(f) ==> WellFormed(g)
    ensures |g.rows| == |f.rows|
    ensures name in f.columns ==> g.columns == f.columns
    ensures name !in f.columns ==> g.columns == f.columns + [name]
    ensures forall i :: 0 <= i < |g.rows| ==> Get(g.rows[i], name) == values[i]
    ensures forall i, c :: 0 <= i < |g.rows| && c != name ==> Get(g.rows[i], c) == Get(f.rows[i], c)
  {
    var cols := if name in f.columns then f.columns else f.columns + [name];
    assert (set c | c in cols) == (set c | c in f.columns) + {name};
    Frame(cols, seq(|f.rows|, i requires 0 <= i < |f.rows| => f.rows[i][name := values[i]]))
  }

  /** A column mapping that names a column of the frame; `not column` in
      Python makes None and the empty string fail it. */
  predicate Mapped(column: Option<string>, f: Frame) {
    column.Some? && column.value != "" && column.value in f.columns
  }

  /** A DataFrame object whose columns the scripts assign in place. */
  class DataFrame {
    var columns: seq<string>
    var rows: seq<Row>

    function Value(): Frame
      reads this
    {
      Frame(columns, rows)
    }

    ghost predicate Valid()
      reads this
    {
      WellFormed(Value())
    }

    constructor (f: Frame)
      requires WellFormed(f)
      ensures Valid() && Value() == f
    {
      columns := f.columns;
      rows := f.rows;
    }

    /** `data[name] = values` on this object. */
    method Assign(name: string, values: seq<Option<Cell>>)
      requires Valid() && |values| == |rows|
      modifies this
      ensures Valid() && Value() == WithColumn(old(Value()), name, values)
    {
      var g := WithColumn(Value(), name, values);
      columns := g.columns;
      rows := g.rows;
    }
  }
}
