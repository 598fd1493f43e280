/** The record normaliser of app.py:90-96: coerce the chosen columns into
    "Order Date", "Sales" and "Profit", warn about invalid rows, drop them. */
module Normalise {
  import opened Wrappers
  import opened Seqs
  import opened Tables

  const OrderDate := "Order Date"
  const Sales := "Sales"
  const Profit := "Profit"

  /** `pd.to_datetime(..., errors='coerce')` and `pd.to_numeric(..., errors='coerce')`:
      each present cell either parses (to a day, to a number) or becomes missing.
      How text is parsed is not modelled. */
  datatype Parsers = Parsers(toDatetime: Cell -> Option<int>, toNumeric: Cell -> Option<real>)

  function AsDate(p: Parsers, c: Option<Cell>): Option<Cell> {
    match c
    case None => None
    case Some(x) => match p.toDatetime(x) { case None => None case Some(d) => Some(Date(d)) }
  }

  function AsNumber(p: Parsers, c: Option<Cell>): Option<Cell> {
    match c
    case None => None
    case Some(x) => match p.toNumeric(x) { case None => None case Some(v) => Some(Num(v)) }
  }

  function DatesOf(f: Frame, col: string, p: Parsers): seq<Option<Cell>> {
    seq(|f.rows|, i requires 0 <= i < |f.rows| => AsDate(p, Get(f.rows[i], col)))
  }

  function NumbersOf(f: Frame, col: string, p: Parsers): seq<Option<Cell>> {
    seq(|f.rows|, i requires 0 <= i < |f.rows| => AsNumber(p, Get(f.rows[i], col)))
  }

  /** The frame after the three assignments, made one after the other: the
      second and third read the frame as the earlier ones left it. */
  function Coerced(f: Frame, dateCol: string, salesCol: string, profitCol: string, p: Parsers): Frame {
    var f1 := WithColumn(f, OrderDate, DatesOf(f, dateCol, p));
    var f2 := WithColumn(f1, Sales, NumbersOf(f1, salesCol, p));
    WithColumn(f2, Profit, NumbersOf(f2, profitCol, p))
  }

  /** None of the three core cells is missing. */
  predicate Complete(r: Row) {
    Get(r, OrderDate).Some? && Get(r, Sales).Some? && Get(r, Profit).Some?
  }

  /** `data[['Order Date', 'Sales', 'Profit']].isnull().any().any()`. */
  predicate HasInvalid(f: Frame) {
    exists i :: 0 <= i < |f.rows| && !Complete(f.rows[i])
  }

  /** `data.dropna(subset=['Order Date', 'Sales', 'Profit'])`. */
  function DropInvalid(f: Frame): Frame {
    Frame(f.columns, Filter(f.rows, Complete))
  }

  /** The normalisation block on the uploaded frame: three in-place column
      assignments, the warning test, and the dropna that rebinds `data`. */
  method NormaliseColumns(data: DataFrame, dateCol: string, salesCol: string, profitCol: string, p: Parsers)
    returns (warned: bool, cleaned: Frame)
    requires data.Valid()
    modifies data
    ensures data.Valid() && data.Value() == Coerced(old(data.Value()), dateCol, salesCol, profitCol, p)
    ensures warned == HasInvalid(data.Value())
    ensures cleaned == DropInvalid(data.Value())
  {
    data.Assign(OrderDate, DatesOf(data.Value(), dateCol, p));
    data.Assign(Sales, NumbersOf(data.Value(), salesCol, p));
    data.Assign(Profit, NumbersOf(data.Value(), profitCol, p));
    warned := exists i :: 0 <= i < |data.rows| && !Complete(data.rows[i]);
    cleaned := DropInvalid(data.Value());
  }

  /** Every record of a normalised frame has a date and two numbers. */
  predicate IsNormalised(f: Frame) {
    forall i :: 0 <= i < |f.rows| ==>
      DayAt(f.rows[i], OrderDate).Some? && NumberAt(f.rows[i], Sales).Some? && NumberAt(f.rows[i], Profit).Some?
  }

  /** The frame the rest of app.py works on. */
  function Normalise(f: Frame, dateCol: string, salesCol: string, profitCol: string, p: Parsers): Frame {
    DropInvalid(Coerced(f, dateCol, salesCol, profitCol, p))
  }

  lemma CoercedCells(f: Frame, dateCol: string, salesCol: string, profitCol: string, p: Parsers, i: int)
    requires 0 <= i < |f.rows|
    ensures var g := Coerced(f, dateCol, salesCol, profitCol, p);
      && |g.rows| == |f.rows|
      && (Get(g.rows[i], OrderDate).Some? ==> DayAt(g.rows[i], OrderDate).Some?)
      && (Get(g.rows[i], Sales).Some? ==> NumberAt(g.rows[i], Sales).Some?)
      && (Get(g.rows[i], Profit).Some? ==> NumberAt(g.rows[i], Profit).Some?)
  {
  }

  /** After normalisation every row holds a date, a Sales number and a Profit
      number, and the rows keep their relative order. */
  lemma NormalisedIsComplete(f: Frame, dateCol: string, salesCol: string, profitCol: string, p: Parsers)
    ensures IsNormalised(Normalise(f, dateCol, salesCol, profitCol, p))
    ensures IsSubsequence(Normalise(f, dateCol, salesCol, profitCol, p).rows, Coerced(f, dateCol, salesCol, profitCol, p).rows)
  {
    var g := Coerced(f, dateCol, salesCol, profitCol, p);
    var h := Normalise(f, dateCol, salesCol, profitCol, p);
    forall k | 0 <= k < |h.rows|
      ensures DayAt(h.rows[k], OrderDate).Some? && NumberAt(h.rows[k], Sales).Some? && NumberAt(h.rows[k], Profit).Some?
    {
      assert h.rows[k] in h.rows;
      FilterMembership(g.rows, Complete, h.rows[k]);
      var i :| 0 <= i < |g.rows| && g.rows[i] == h.rows[k];
      CoercedCells(f, dateCol, salesCol, profitCol, p, i);
    }
    FilterIsSubsequence(g.rows, Complete);
  }

  /** The three core columns exist afterwards, and a well-formed frame stays well-formed. */
  lemma NormalisedShape(f: Frame, dateCol: string, salesCol: string, profitCol: string, p: Parsers)
    ensures var h := Normalise(f, dateCol, salesCol, profitCol, p);
      && OrderDate in h.columns && Sales in h.columns && Profit in h.columns
      && (WellFormed(f) ==> WellFormed(h))
  {
    var g := Coerced(f, dateCol, salesCol, profitCol, p);
    var h := Normalise(f, dateCol, salesCol, profitCol, p);
    if WellFormed(f) {
      assert WellFormed(g);
      forall i | 0 <= i < |h.rows| ensures h.rows[i].Keys == set c | c in h.columns {
        assert h.rows[i] in h.rows;
        FilterMembership(g.rows, Complete, h.rows[i]);
        var k :| 0 <= k < |g.rows| && g.rows[k] == h.rows[i];
      }
    }
  }

  /** What `pd.to_numeric` does with the cells the block itself writes:
      a number is kept and a date becomes its nanosecond count, so neither
      is coerced to missing. */
  ghost predicate Lawful(p: Parsers) {
    && (forall x :: p.toNumeric(Num(x)).Some?)
    && (forall d :: p.toNumeric(Date(d)).Some?)
  }

  /** The chosen cells of input row `i` parse. A chosen Sales column that is
      "Order Date" reads the date the first assignment wrote, and a chosen
      Profit column that is "Order Date" or "Sales" reads what the earlier
      assignments wrote; those cells parse whenever the earlier ones did. */
  predicate Parses(f: Frame, dateCol: string, salesCol: string, profitCol: string, p: Parsers, i: int)
    requires 0 <= i < |f.rows|
  {
    && AsDate(p, Get(f.rows[i], dateCol)).Some?
    && (salesCol == OrderDate || AsNumber(p, Get(f.rows[i], salesCol)).Some?)
    && (profitCol == OrderDate || profitCol == Sales || AsNumber(p, Get(f.rows[i], profitCol)).Some?)
  }

  /** A row is kept exactly when its chosen cells parse, for every choice of
      columns, and its other cells are carried over unchanged. */
  lemma KeptIffParses(f: Frame, dateCol: string, salesCol: string, profitCol: string, p: Parsers, i: int)
    requires 0 <= i < |f.rows|
    requires Lawful(p)
    ensures var g := Coerced(f, dateCol, salesCol, profitCol, p);
      && (g.rows[i] in Normalise(f, dateCol, salesCol, profitCol, p).rows <==> Parses(f, dateCol, salesCol, profitCol, p, i))
      && forall c :: c != OrderDate && c != Sales && c != Profit ==> Get(g.rows[i], c) == Get(f.rows[i], c)
  {
    var g := Coerced(f, dateCol, salesCol, profitCol, p);
    FilterMembership(g.rows, Complete, g.rows[i]);
    CompleteIffParses(f, dateCol, salesCol, profitCol, p, i);
  }

  lemma CompleteIffParses(f: Frame, dateCol: string, salesCol: string, profitCol: string, p: Parsers, i: int)
    requires 0 <= i < |f.rows|
    requires Lawful(p)
    ensures Complete(Coerced(f, dateCol, salesCol, profitCol, p).rows[i]) <==> Parses(f, dateCol, salesCol, profitCol, p, i)
  {
    var r := f.rows[i];
    var dc := AsDate(p, Get(r, dateCol));
    var f1 := WithColumn(f, OrderDate, DatesOf(f, dateCol, p));
    var sc := AsNumber(p, Get(f1.rows[i], salesCol));
    var f2 := WithColumn(f1, Sales, NumbersOf(f1, salesCol, p));
    var pc := AsNumber(p, Get(f2.rows[i], profitCol));
    var g := WithColumn(f2, Profit, NumbersOf(f2, profitCol, p));
    assert Get(g.rows[i], OrderDate) == dc && Get(g.rows[i], Sales) == sc && Get(g.rows[i], Profit) == pc;
    if salesCol == OrderDate {
      assert Get(f1.rows[i], salesCol) == dc;
    } else {
      assert Get(f1.rows[i], salesCol) == Get(r, salesCol);
    }
    if profitCol == Sales {
      assert Get(f2.rows[i], profitCol) == sc;
    } else if profitCol == OrderDate {
      assert Get(f2.rows[i], profitCol) == dc;
    } else {
      assert Get(f2.rows[i], profitCol) == Get(r, profitCol);
    }
  }

  /** The warning fires exactly when at least one row is dropped. */
  lemma WarningIffDropped(f: Frame, dateCol: string, salesCol: string, profitCol: string, p: Parsers)
    ensures var g := Coerced(f, dateCol, salesCol, profitCol, p);
      HasInvalid(g) <==> |Normalise(f, dateCol, salesCol, profitCol, p).rows| < |f.rows|
  {
    var g := Coerced(f, dateCol, salesCol, profitCol, p);
    FilterDrops(g.rows, Complete);
  }
}
