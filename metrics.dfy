/** The key metrics of app.py:117-132 and pages/2_Dashboard.py. */
module Metrics {
  import opened Wrappers
  import opened Tables
  import opened Normalise

  /** The number in a cell, or 0 for a missing cell, which `sum` skips. */
  function ValueOr0(r: Row, col: string): real {
    match NumberAt(r, col)
    case Some(x) => x
    case None => 0.0
  }

  /** `data[col].sum()`. */
  function ColumnSum(rows: seq<Row>, col: string): real {
    if rows == [] then 0.0 else ValueOr0(rows[0], col) + ColumnSum(rows[1..], col)
  }

  /** The number of numeric cells, which `mean` divides by. */
  function NumericCount(rows: seq<Row>, col: string): (n: nat)
    ensures n <= |rows|
    ensures (forall i :: 0 <= i < |rows| ==> NumberAt(rows[i], col).Some?) ==> n == |rows|
  {
    if rows == [] then 0
    else (if NumberAt(rows[0], col).Some? then 1 else 0) + NumericCount(rows[1..], col)
  }

  /** `data[col].mean()`: NaN, here None, when there is no number to average. */
  function ColumnMean(rows: seq<Row>, col: string): Option<real> {
    var n := NumericCount(rows, col);
    if n == 0 then None else Some(ColumnSum(rows, col) / n as real)
  }

  lemma {:induction false} ColumnSumAppend(a: seq<Row>, b: seq<Row>, col: string)
    ensures ColumnSum(a + b, col) == ColumnSum(a, col) + ColumnSum(b, col)
  {
    if a == [] {
      assert a + b == b;
    } else {
      ColumnSumAppend(a[1..], b, col);
      assert (a + b)[1..] == a[1..] + b;
    }
  }

  datatype Kpis = Kpis(totalOrders: nat, totalRevenue: real, avgOrderValue: Option<real>, totalProfit: real)

  /** The four `st.metric` values. */
  function KeyMetrics(f: Frame): Kpis {
    Kpis(|f.rows|, ColumnSum(f.rows, Sales), ColumnMean(f.rows, Sales), ColumnSum(f.rows, Profit))
  }

  /** On the non-empty normalised frame app.py reaches, the average order value
      is the revenue divided by the number of orders. */
  lemma MetricsOfNormalised(f: Frame)
    requires IsNormalised(f) && |f.rows| > 0
    ensures KeyMetrics(f).totalOrders == |f.rows|
    ensures KeyMetrics(f).avgOrderValue == Some(KeyMetrics(f).totalRevenue / |f.rows| as real)
  {
    assert NumericCount(f.rows, Sales) == |f.rows|;
  }

  /** The two-record example: 2 orders, revenue 400, average 200, profit 50. */
  lemma TwoRecordMetrics()
    ensures var f := Frame(["Order Date", "Sales", "Profit"],
                          [map["Order Date" := Some(Date(19358)), "Sales" := Some(Num(100.0)), "Profit" := Some(Num(20.0))],
                           map["Order Date" := Some(Date(19389)), "Sales" := Some(Num(300.0)), "Profit" := Some(Num(30.0))]]);
      KeyMetrics(f) == Kpis(2, 400.0, Some(200.0), 50.0)
  {
  }

  /** What pages/2_Dashboard.py shows. The metrics are drawn one after the
      other, so a KeyError on Sales leaves Total Orders on the page and a
      KeyError on Profit leaves the first three metrics; the page does not
      catch either. */
  datatype Dashboard =
    | NoDashboard                                    // no frame in the session: the page stops
    | SalesMissing(totalOrders: nat)                 // `data['Sales']` raises
    | ProfitMissing(totalOrders: nat, totalRevenue: real, avgOrderValue: Option<real>)  // `data['Profit']` raises
    | AllKpis(kpis: Kpis)

  /** pages/2_Dashboard.py on the session frame, which may be the raw upload. */
  function DashboardMetrics(data: Option<Frame>): (d: Dashboard)
    ensures d.NoDashboard? <==> data.None?
    ensures d.SalesMissing? <==> data.Some? && Sales !in data.value.columns
    ensures d.ProfitMissing? <==> data.Some? && Sales in data.value.columns && Profit !in data.value.columns
    ensures d.AllKpis? <==> data.Some? && Sales in data.value.columns && Profit in data.value.columns
    ensures d.SalesMissing? || d.ProfitMissing? ==> d.totalOrders == |data.value.rows|
    ensures d.ProfitMissing? ==> d.totalRevenue == ColumnSum(data.value.rows, Sales) &&
                                 d.avgOrderValue == ColumnMean(data.value.rows, Sales)
    ensures d.AllKpis? ==> d.kpis == KeyMetrics(data.value)
  {
    match data
    case None => NoDashboard
    case Some(f) =>
      if Sales !in f.columns then SalesMissing(|f.rows|)
      else if Profit !in f.columns then ProfitMissing(|f.rows|, ColumnSum(f.rows, Sales), ColumnMean(f.rows, Sales))
      else AllKpis(KeyMetrics(f))
  }

  /** The average order value is the revenue over the number of numeric Sales
      cells, NaN when there is none; when every row holds a number it is the
      revenue over the number of orders. */
  lemma AverageOrderValue(f: Frame)
    ensures KeyMetrics(f).avgOrderValue.None? <==> NumericCount(f.rows, Sales) == 0
    ensures KeyMetrics(f).avgOrderValue.Some? ==>
      KeyMetrics(f).avgOrderValue.value * NumericCount(f.rows, Sales) as real == KeyMetrics(f).totalRevenue
    ensures |f.rows| > 0 && (forall i :: 0 <= i < |f.rows| ==> NumberAt(f.rows[i], Sales).Some?) ==>
      KeyMetrics(f).avgOrderValue == Some(KeyMetrics(f).totalRevenue / |f.rows| as real)
  {
  }
}
