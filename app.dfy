/** The app.py script end to end: the upload is checked, its three columns are
    normalised in place, the frame is filtered, and the metrics, forecast,
    profitability and anomaly sections run on the filtered frame. Each
    `st.stop()` ends the run with its reason. */
module App {
  import opened Wrappers
  import opened Seqs
  import opened Tables
  import opened Schema
  import opened Normalise
  import opened Filters
  import opened Metrics
  import Grouping
  import Forecast
  import Profitability
  import Anomalies

  /** The widget values: the three column selectboxes (None keeps the
      defaults), the date range and category multiselect (None keeps their
      defaults), and the sliders and choices of the later sections. */
  datatype Widgets = Widgets(
    columns: Option<Defaults>,
    dateRange: Option<(int, int)>,
    categories: Option<seq<Option<Cell>>>,
    months: Forecast.Months,
    metric: Forecast.Metric,
    view: Profitability.View,
    sensitivity: Anomalies.Sensitivity)

  /** The selectboxes offer only the frame's columns. */
  predicate Offered(f: Frame, w: Widgets) {
    w.columns.Some? ==>
      w.columns.value.orderDate in f.columns && w.columns.value.sales in f.columns && w.columns.value.profit in f.columns
  }

  datatype Stop =
    | MissingRequired(columns: seq<string>)
    | NoValidData
    | NoDataAfterFilter
    | TooLittleHistory(shown: Kpis)  // the four metrics are drawn before the forecast section
    | ForecastError(shown: Kpis)

  datatype Report = Report(
    invalidWarned: bool,
    filtered: Frame,
    kpis: Kpis,
    forecast: seq<(int, Forecast.Band)>,
    monthly: seq<(int, real)>,
    insights: Profitability.Insights,
    exported: Frame,
    anomalies: seq<Anomalies.MonthType>)

  datatype RunResult = Stopped(reason: Stop) | Completed(report: Report)

  /** The three columns the user mapped. */
  function Selected(f: Frame, w: Widgets): (d: Defaults)
    requires MissingColumns(f) == [] && Offered(f, w)
    ensures d.orderDate in f.columns && d.sales in f.columns && d.profit in f.columns
  {
    match w.columns
    case Some(d) => d
    case None =>
      MissingColumnsExact(f, "Sales");
      Defaults(DefaultColumn(f.columns, OrderDateKeywords), DefaultColumn(f.columns, SalesKeywords),
               DefaultColumn(f.columns, ProfitKeywords))
  }

  /** The frame after `dropna`. */
  function Cleaned(f: Frame, w: Widgets, p: Parsers): Frame
    requires MissingColumns(f) == [] && Offered(f, w)
  {
    var c := Selected(f, w);
    Normalise.Normalise(f, c.orderDate, c.sales, c.profit, p)
  }

  /** Whether the invalid-data warning is shown. */
  function Warned(f: Frame, w: Widgets, p: Parsers): bool
    requires MissingColumns(f) == [] && Offered(f, w)
  {
    var c := Selected(f, w);
    HasInvalid(Coerced(f, c.orderDate, c.sales, c.profit, p))
  }

  /** The date widget's range: the earliest and latest dates unless the user chose one. */
  function DateRange(cleaned: Frame, w: Widgets): (int, int)
    requires |cleaned.rows| > 0 && AllDated(cleaned.rows)
  {
    match w.dateRange
    case None => (MinDay(cleaned.rows), MaxDay(cleaned.rows))
    case Some(r) => r
  }

  /** The multiselect's choice: every distinct category unless the user chose some. */
  function Selection(dated: Frame, w: Widgets): seq<Option<Cell>> {
    match w.categories
    case None => Categories(dated)
    case Some(s) => s
  }

  /** The frame after the date filter and, when there is a Category column, the category filter. */
  function Filtered(cleaned: Frame, w: Widgets): (g: Frame)
    requires |cleaned.rows| > 0 && AllDated(cleaned.rows)
    ensures g.columns == cleaned.columns
  {
    var (start, end) := DateRange(cleaned, w);
    var dated := FilterByDate(cleaned, start, end);
    FilterByCategory(dated, Selection(dated, w))
  }

  /** The filtered frame is normalised, and its rows are, in order, rows of the
      frame it filters. */
  lemma FilteredMeaning(cleaned: Frame, w: Widgets)
    requires |cleaned.rows| > 0 && IsNormalised(cleaned)
    ensures IsNormalised(Filtered(cleaned, w))
    ensures IsSubsequence(Filtered(cleaned, w).rows, cleaned.rows)
  {
    var (start, end) := DateRange(cleaned, w);
    var dated := FilterByDate(cleaned, start, end);
    var selection := Selection(dated, w);
    FilteredShape(cleaned, start, end, selection);
    var anyRow: Row := map[];
    DateFilterExact(cleaned, start, end, anyRow);
    CategoryFilterExact(dated, selection, anyRow);
    SubsequenceTrans(Filtered(cleaned, w).rows, dated.rows, cleaned.rows);
  }

  /** The sections after the filters, on the filtered frame. */
  function Analysis(g: Frame, model: Forecast.Prophet, w: Widgets, warned: bool): (r: RunResult)
    requires "Profit" in g.columns && "Sales" in g.columns
    ensures r.Stopped? ==> (r.reason.TooLittleHistory? || r.reason.ForecastError?) && r.reason.shown == KeyMetrics(g)
  {
    match Forecast.ForecastSection(g, OrderDate, w.months, w.metric, model)
    case NotEnoughData => Stopped(TooLittleHistory(KeyMetrics(g)))
    case FitFailed => Stopped(ForecastError(KeyMetrics(g)))
    case Forecasted(fc, monthly) =>
      var exported := WithColumn(g, Anomalies.MonthColumn, Anomalies.MonthsOf(g));
      Completed(Report(warned, g, KeyMetrics(g), fc, monthly, Profitability.AppInsights(g, w.view), exported,
                       Anomalies.Classify(Anomalies.MonthlyRevenue(exported.rows), w.sensitivity)))
  }

  /** The metrics, forecast, profitability and anomaly sections; the Month
      column is added in place to a new frame object holding the filtered rows. */
  method Analyse(filtered: Frame, model: Forecast.Prophet, w: Widgets, warned: bool) returns (r: RunResult)
    requires WellFormed(filtered) && IsNormalised(filtered) && |filtered.rows| > 0
    requires OrderDate in filtered.columns && Sales in filtered.columns && Profit in filtered.columns
    ensures r == Analysis(filtered, model, w, warned)
    ensures r.Completed? ==> r.report.kpis.avgOrderValue == Some(r.report.kpis.totalRevenue / r.report.kpis.totalOrders as real)
  {
    var kpis := KeyMetrics(filtered);
    MetricsOfNormalised(filtered);
    var section := Forecast.ForecastSection(filtered, OrderDate, w.months, w.metric, model);
    if section.NotEnoughData? {
      return Stopped(TooLittleHistory(kpis));
    }
    if section.FitFailed? {
      return Stopped(ForecastError(kpis));
    }
    var insights := Profitability.AppInsights(filtered, w.view);
    var frame := new DataFrame(filtered);
    var types := Anomalies.DetectAnomalies(frame, w.sensitivity);
    r := Completed(Report(warned, filtered, kpis, section.forecast, section.monthly, insights, frame.Value(), types));
  }

  /** What one run of the script shows, from the upload and the widget values:
      the required-column check comes first, and only it reports missing columns. */
  function Expected(f: Frame, p: Parsers, model: Forecast.Prophet, w: Widgets): (r: RunResult)
    requires WellFormed(f) && Offered(f, w)
    ensures r.Stopped? && r.reason.MissingRequired? <==> MissingColumns(f) != []
    ensures r.Stopped? && r.reason.MissingRequired? ==> r.reason.columns == MissingColumns(f)
  {
    if MissingColumns(f) != [] then Stopped(MissingRequired(MissingColumns(f)))
    else
      var c := Selected(f, w);
      NormalisedIsComplete(f, c.orderDate, c.sales, c.profit, p);
      NormalisedShape(f, c.orderDate, c.sales, c.profit, p);
      AfterCheck(Cleaned(f, w, p), Warned(f, w, p), model, w)
  }

  /** The run once the required columns are present, from the normalised frame. */
  function AfterCheck(cleaned: Frame, warned: bool, model: Forecast.Prophet, w: Widgets): (r: RunResult)
    requires IsNormalised(cleaned) && "Profit" in cleaned.columns && "Sales" in cleaned.columns
    ensures !(r.Stopped? && r.reason.MissingRequired?)
  {
    if |cleaned.rows| == 0 then Stopped(NoValidData)
    else if |Filtered(cleaned, w).rows| == 0 then Stopped(NoDataAfterFilter)
    else Analysis(Filtered(cleaned, w), model, w, warned)
  }

  method Run(data: DataFrame, p: Parsers, model: Forecast.Prophet, w: Widgets) returns (r: RunResult)
    requires data.Valid() && Offered(data.Value(), w)
    modifies data
    ensures data.Valid()
    ensures r == Expected(old(data.Value()), p, model, w)
    ensures MissingColumns(old(data.Value())) != [] ==> data.Value() == old(data.Value())
    ensures MissingColumns(old(data.Value())) == [] ==>
      var c := Selected(old(data.Value()), w);
      data.Value() == Coerced(old(data.Value()), c.orderDate, c.sales, c.profit, p)
  {
    var f0 := data.Value();
    var missing := MissingColumns(f0);
    if missing != [] {
      return Stopped(MissingRequired(missing));
    }
    var cols: Defaults;
    if w.columns.None? {
      cols := ColumnDefaults(f0);
    } else {
      cols := w.columns.value;
    }
    assert cols == Selected(f0, w);
    var warned, cleaned := NormaliseColumns(data, cols.orderDate, cols.sales, cols.profit, p);
    assert cleaned == Cleaned(f0, w, p) && warned == Warned(f0, w, p);
    NormalisedIsComplete(f0, cols.orderDate, cols.sales, cols.profit, p);
    NormalisedShape(f0, cols.orderDate, cols.sales, cols.profit, p);
    r := ProcessCleaned(cleaned, warned, model, w);
  }

  /** The script after normalisation (app.py:101-218): the two empty-data
      stops, the date and category filters, and the analysis. */
  method ProcessCleaned(cleaned: Frame, warned: bool, model: Forecast.Prophet, w: Widgets) returns (r: RunResult)
    requires WellFormed(cleaned) && IsNormalised(cleaned)
    requires OrderDate in cleaned.columns && Sales in cleaned.columns && Profit in cleaned.columns
    ensures r == AfterCheck(cleaned, warned, model, w)
  {
    if |cleaned.rows| == 0 {
      return Stopped(NoValidData);
    }
    var start, end;
    if w.dateRange.None? {
      start, end := MinDay(cleaned.rows), MaxDay(cleaned.rows);
    } else {
      start, end := w.dateRange.value.0, w.dateRange.value.1;
    }
    var dated := FilterByDate(cleaned, start, end);
    var selection := if w.categories.None? then Categories(dated) else w.categories.value;
    var filtered := FilterByCategory(dated, selection);
    assert filtered == Filtered(cleaned, w);
    if |filtered.rows| == 0 {
      return Stopped(NoDataAfterFilter);
    }
    FilteredShape(cleaned, start, end, selection);
    r := Analyse(filtered, model, w, warned);
  }

  /** After the filters: a completed analysis reports the frame it was given,
      with the average order value equal to revenue over orders and a
      monthly summary adding up to the whole forecast. */
  lemma AnalysisMeaning(g: Frame, model: Forecast.Prophet, w: Widgets, warned: bool)
    requires "Profit" in g.columns && "Sales" in g.columns
    requires IsNormalised(g) && |g.rows| > 0
    ensures var r := Analysis(g, model, w, warned);
      r.Completed? ==>
        && r.report.filtered == g
        && r.report.kpis.totalOrders == |g.rows|
        && r.report.kpis.avgOrderValue == Some(r.report.kpis.totalRevenue / r.report.kpis.totalOrders as real)
        && Grouping.Total(r.report.monthly) == Forecast.YhatTotal(r.report.forecast)
  {
    var r := Analysis(g, model, w, warned);
    if r.Completed? {
      MetricsOfNormalised(g);
      Forecast.MonthlySummaryMeaning(r.report.forecast);
    }
  }

  /** Past the required-column check, a completed run reports the analysis of
      a non-empty, normalised frame whose rows are, in order, rows of the
      cleaned frame. */
  lemma AfterCheckMeaning(cleaned: Frame, warned: bool, model: Forecast.Prophet, w: Widgets)
    requires IsNormalised(cleaned) && "Profit" in cleaned.columns && "Sales" in cleaned.columns
    requires AfterCheck(cleaned, warned, model, w).Completed?
    ensures var r := AfterCheck(cleaned, warned, model, w);
      && |r.report.filtered.rows| > 0 && IsNormalised(r.report.filtered)
      && IsSubsequence(r.report.filtered.rows, cleaned.rows)
      && r.report.kpis.totalOrders == |r.report.filtered.rows|
      && r.report.kpis.avgOrderValue == Some(r.report.kpis.totalRevenue / r.report.kpis.totalOrders as real)
      && Grouping.Total(r.report.monthly) == Forecast.YhatTotal(r.report.forecast)
  {
    FilteredMeaning(cleaned, w);
    AnalysisMeaning(Filtered(cleaned, w), model, w, warned);
  }

  /** A completed run reports metrics of a non-empty, normalised frame whose
      rows are, in order, rows of the normalised upload; the average order
      value is revenue over orders, and the monthly forecast summary adds up
      to the whole forecast. */
  lemma CompletedRunMeaning(f: Frame, p: Parsers, model: Forecast.Prophet, w: Widgets)
    requires WellFormed(f) && Offered(f, w)
    requires Expected(f, p, model, w).Completed?
    ensures MissingColumns(f) == []
    ensures var r := Expected(f, p, model, w);
      && |r.report.filtered.rows| > 0 && IsNormalised(r.report.filtered)
      && IsSubsequence(r.report.filtered.rows, Cleaned(f, w, p).rows)
      && r.report.kpis.totalOrders == |r.report.filtered.rows|
      && r.report.kpis.avgOrderValue == Some(r.report.kpis.totalRevenue / r.report.kpis.totalOrders as real)
      && Grouping.Total(r.report.monthly) == Forecast.YhatTotal(r.report.forecast)
  {
    var c := Selected(f, w);
    NormalisedIsComplete(f, c.orderDate, c.sales, c.profit, p);
    NormalisedShape(f, c.orderDate, c.sales, c.profit, p);
    AfterCheckMeaning(Cleaned(f, w, p), Warned(f, w, p), model, w);
  }
}
