/** Revenue prediction: app.py:134-159 and pages/3_Forecasting.py. Prophet
    itself is a parameter; the daily series, the horizon and the monthly
    roll-up around it are modelled. */
module Forecast {
  import opened Wrappers
  import opened Seqs
  import opened Tables
  import opened Grouping
  import opened Calendar
  import opened Metrics
  import opened Aggregate

  /** The months slider: an integer in [1, 12]. */
  type Months = m: int | 1 <= m <= 12 witness 3
  const DefaultMonths: Months := 3

  /** The metric selectbox offers exactly Sales and Profit. */
  datatype Metric = SalesMetric | ProfitMetric

  function MetricColumn(m: Metric): (col: string)
    ensures col == "Sales" || col == "Profit"
  {
    match m
    case SalesMetric => "Sales"
    case ProfitMetric => "Profit"
  }

  // ---------- the daily series `groupby(date).agg({metric: 'sum'})` ----------

  /** The day in the date column of a row; `groupby` leaves out rows without one. */
  function DayOf(dateCol: string): Row -> Option<int> {
    r => DayAt(r, dateCol)
  }

  /** The `(ds, y)` frame handed to Prophet. Every `y` is a sum, so none is
      missing and `y.dropna()` has one entry per point. */
  function DailySeries(rows: seq<Row>, dateCol: string, metricCol: string): seq<(int, real)> {
    GroupSumSorted(Entries(rows, DayOf(dateCol), metricCol))
  }

  /** One point per distinct day, in ascending order, each the sum of the
      metric over that day's rows; the points add up to the column total of
      the dated rows, and of all rows when every row is dated, as after
      normalisation. */
  lemma DailySeriesMeaning(rows: seq<Row>, dateCol: string, metricCol: string)
    ensures var s := DailySeries(rows, dateCol, metricCol);
      && StrictlyIncreasing(KeysOf(s))
      && (forall d :: d in KeysOf(s) <==> exists i :: 0 <= i < |rows| && DayAt(rows[i], dateCol) == Some(d))
      && (forall i :: 0 <= i < |s| ==> s[i].1 == ColumnSum(Filter(rows, KeyIs(DayOf(dateCol), s[i].0)), metricCol))
      && Total(s) == ColumnSum(Filter(rows, HasKey(DayOf(dateCol))), metricCol)
      && ((forall i :: 0 <= i < |rows| ==> DayAt(rows[i], dateCol).Some?) ==> Total(s) == ColumnSum(rows, metricCol))
  {
    SortedGroupsMeaning(rows, DayOf(dateCol), metricCol);
  }

  // ---------- the horizon `make_future_dataframe(periods=months * 30)` ----------

  function Horizon(months: Months): (n: nat)
    ensures 30 <= n <= 360
  {
    months * 30
  }

  /** The `n` days after `last`. */
  function DaysAfter(last: int, n: nat): (ds: seq<int>)
    ensures |ds| == n
    ensures forall i :: 0 <= i < n ==> ds[i] == last + 1 + i
  {
    seq(n, i requires 0 <= i < n => last + 1 + i)
  }

  /** The history dates followed by `periods` daily dates after the last one. */
  function FutureDates(history: seq<int>, periods: nat): seq<int>
    requires history != []
  {
    history + DaysAfter(history[|history| - 1], periods)
  }

  /** The future frame keeps the history in order, stays in ascending date
      order, and reaches exactly `periods` days past the last observed day. */
  lemma FutureDatesShape(history: seq<int>, periods: nat)
    requires history != [] && StrictlyIncreasing(history)
    ensures var ds := FutureDates(history, periods);
      && |ds| == |history| + periods
      && ds[..|history|] == history
      && StrictlyIncreasing(ds)
      && ds[|ds| - 1] == history[|history| - 1] + periods
      && forall i :: |history| <= i < |ds| ==> history[|history| - 1] < ds[i] <= history[|history| - 1] + periods
  {
    var ds := FutureDates(history, periods);
    var last := history[|history| - 1];
    assert ds[..|history|] == history;
    forall i, j | 0 <= i < j < |ds| ensures ds[i] < ds[j] {
      if j < |history| {
      } else if i < |history| {
        assert ds[i] <= last;
      }
    }
  }

  // ---------- the model and `compute_forecast` ----------

  /** One predicted day: `yhat` with its lower and upper bounds. */
  datatype Band = Band(yhat: real, lower: real, upper: real)

  /** Prophet as a parameter: fitting a history either fails (an exception)
      or yields a predictor for any day. */
  datatype Prophet = Prophet(fit: seq<(int, real)> -> Option<int -> Band>)

  /** `fit`, `make_future_dataframe` and `predict`. Prophet refuses a history
      of fewer than two points, and the function of app.py turns every fitting
      error into None. */
  function ComputeForecast(model: Prophet, series: seq<(int, real)>, months: Months): (fc: Option<seq<(int, Band)>>)
    ensures fc.None? <==> |series| < 2 || model.fit(series).None?
    ensures fc.Some? ==> |fc.value| == |series| + Horizon(months)
    ensures fc.Some? ==> forall i :: 0 <= i < |series| ==> fc.value[i].0 == series[i].0
    ensures fc.Some? ==> forall i :: 0 <= i < |fc.value| ==> fc.value[i].1 == model.fit(series).value(fc.value[i].0)
    ensures fc.Some? ==> fc.value[|fc.value| - 1].0 == series[|series| - 1].0 + Horizon(months)
    ensures fc.Some? ==> forall j :: |series| <= j < |fc.value| ==> fc.value[j].0 == series[|series| - 1].0 + 1 + (j - |series|)
  {
    if |series| < 2 then None
    else
      match model.fit(series)
      case None => None
      case Some(predict) =>
        var ds := FutureDates(KeysOf(series), Horizon(months));
        Some(seq(|ds|, i requires 0 <= i < |ds| => (ds[i], predict(ds[i]))))
  }

  // ---------- the monthly roll-up ----------

  function MonthlyEntries(fc: seq<(int, Band)>): (es: seq<(int, real)>)
    ensures |es| == |fc|
  {
    seq(|fc|, i requires 0 <= i < |fc| => (MonthKey(fc[i].0), fc[i].1.yhat))
  }

  /** `groupby('Month')['yhat'].sum()` with `Month` the calendar month of `ds`. */
  function MonthlySummary(fc: seq<(int, Band)>): seq<(int, real)> {
    GroupSumSorted(MonthlyEntries(fc))
  }

  function YhatTotal(fc: seq<(int, Band)>): real {
    if fc == [] then 0.0 else fc[0].1.yhat + YhatTotal(fc[1..])
  }

  function InMonth(m: int): ((int, Band)) -> bool {
    (p: (int, Band)) => MonthKey(p.0) == m
  }

  lemma {:induction false} MonthlyEntriesSums(fc: seq<(int, Band)>, m: int)
    ensures Total(MonthlyEntries(fc)) == YhatTotal(fc)
    ensures SumFor(MonthlyEntries(fc), m) == YhatTotal(Filter(fc, InMonth(m)))
  {
    if fc != [] {
      MonthlyEntriesSums(fc[1..], m);
      assert MonthlyEntries(fc) == [(MonthKey(fc[0].0), fc[0].1.yhat)] + MonthlyEntries(fc[1..]);
      TotalCons((MonthKey(fc[0].0), fc[0].1.yhat), MonthlyEntries(fc[1..]));
      SumForCons((MonthKey(fc[0].0), fc[0].1.yhat), MonthlyEntries(fc[1..]), m);
      if MonthKey(fc[0].0) == m {
        assert Filter(fc, InMonth(m)) == [fc[0]] + Filter(fc[1..], InMonth(m));
        assert ([fc[0]] + Filter(fc[1..], InMonth(m)))[1..] == Filter(fc[1..], InMonth(m));
      }
    }
  }

  /** The month keys of the entries are the calendar months of the forecast dates. */
  lemma MonthlyKeys(fc: seq<(int, Band)>, m: int)
    ensures m in KeysOf(MonthlyEntries(fc)) <==> exists i :: 0 <= i < |fc| && MonthKey(fc[i].0) == m
  {
    var ks := KeysOf(MonthlyEntries(fc));
    assert forall i :: 0 <= i < |fc| ==> ks[i] == MonthKey(fc[i].0);
    if m in ks {
      var k :| 0 <= k < |ks| && ks[k] == m;
      assert MonthKey(fc[k].0) == m;
    }
  }

  /** One row per calendar month that occurs among the forecast dates, in
      calendar order, each the sum of `yhat` over that month, and the rows add
      up to the sum of all `yhat`. */
  lemma MonthlySummaryMeaning(fc: seq<(int, Band)>)
    ensures var s := MonthlySummary(fc);
      && StrictlyIncreasing(KeysOf(s))
      && (forall m :: m in KeysOf(s) <==> exists i :: 0 <= i < |fc| && MonthKey(fc[i].0) == m)
      && (forall i :: 0 <= i < |s| ==> s[i].1 == YhatTotal(Filter(fc, InMonth(s[i].0))))
      && Total(s) == YhatTotal(fc)
  {
    var s := MonthlySummary(fc);
    forall m ensures m in KeysOf(s) <==> exists i :: 0 <= i < |fc| && MonthKey(fc[i].0) == m {
      assert m in KeysOf(s) <==> m in KeysOf(MonthlyEntries(fc));
      MonthlyKeys(fc, m);
    }
    forall i | 0 <= i < |s| ensures s[i].1 == YhatTotal(Filter(fc, InMonth(s[i].0))) {
      MonthlyEntriesSums(fc, s[i].0);
    }
    MonthlyEntriesSums(fc, 0);
  }

  // ---------- the forecasting section ----------

  datatype Outcome =
    | NotEnoughData
    | FitFailed
    | Forecasted(forecast: seq<(int, Band)>, monthly: seq<(int, real)>)

  /** app.py:134-159 (with `dateCol` the Order Date column) and the body of the
      `try` in pages/3_Forecasting.py (with the mapped date column): fewer than
      two points stops before the model is called; otherwise the forecast and
      its monthly roll-up. */
  function ForecastSection(f: Frame, dateCol: string, months: Months, metric: Metric, model: Prophet): (o: Outcome)
    ensures var s := DailySeries(f.rows, dateCol, MetricColumn(metric));
      && (o.NotEnoughData? <==> |s| < 2)
      && (o.FitFailed? <==> |s| >= 2 && model.fit(s).None?)
      && (o.Forecasted? ==> Some(o.forecast) == ComputeForecast(model, s, months)
                            && o.monthly == MonthlySummary(o.forecast))
  {
    var s := DailySeries(f.rows, dateCol, MetricColumn(metric));
    if |s| < 2 then NotEnoughData
    else
      match ComputeForecast(model, s, months)
      case None => FitFailed
      case Some(fc) => Forecasted(fc, MonthlySummary(fc))
  }

  /** When the date column holds at most one distinct day, the section stops
      with "Not enough data" whatever the model would have done. */
  lemma OneDayIsNotEnough(f: Frame, dateCol: string, months: Months, metric: Metric, model: Prophet, d: int)
    requires forall i :: 0 <= i < |f.rows| ==> DayAt(f.rows[i], dateCol).None? || DayAt(f.rows[i], dateCol) == Some(d)
    ensures ForecastSection(f, dateCol, months, metric, model) == NotEnoughData
  {
    var s := DailySeries(f.rows, dateCol, MetricColumn(metric));
    DailySeriesMeaning(f.rows, dateCol, MetricColumn(metric));
    var ks := KeysOf(s);
    if |ks| > 0 {
      IncreasingSpan(ks);
      assert ks[0] in ks && ks[|ks| - 1] in ks;
    }
  }

  // ---------- pages/3_Forecasting.py ----------

  datatype PageOutcome =
    | NoData                  // no frame in the session: the page stops
    | Uncaught                // an exception other than KeyError ends the script
    | Info(missing: string)   // a KeyError, reported as an informational message
    | Shown(section: Outcome)

  datatype ForecastPage = ForecastPage(warned: bool, outcome: PageOutcome)

  /** The page warns when the date column is unmapped, empty or absent and carries on.
      Grouping by an unmapped (None) column is not a KeyError; grouping by an
      absent column or aggregating an absent metric is. Prophet's errors are
      not caught on this page. */
  function ForecastingPage(data: Option<Frame>, mapped: Option<string>, months: Months, metric: Metric, model: Prophet): (p: ForecastPage)
    ensures data.None? ==> p == ForecastPage(false, NoData)
    ensures data.Some? ==> (p.warned <==> !Mapped(mapped, data.value))
    ensures p.outcome.Info? <==>
      data.Some? && mapped.Some? && (mapped.value !in data.value.columns || MetricColumn(metric) !in data.value.columns)
    ensures p.outcome.Info? ==> p.outcome.missing !in data.value.columns
    ensures p.outcome.Shown? ==> data.Some? && mapped.Some? && p.outcome.section == ForecastSection(data.value, mapped.value, months, metric, model)
    ensures p.outcome.Shown? ==> !p.outcome.section.FitFailed?
  {
    match data
    case None => ForecastPage(false, NoData)
    case Some(f) =>
      var warned := !Mapped(mapped, f);
      var outcome :=
        if mapped.None? then Uncaught
        else if mapped.value !in f.columns then Info(mapped.value)
        else if MetricColumn(metric) !in f.columns then Info(MetricColumn(metric))
        else
          var o := ForecastSection(f, mapped.value, months, metric, model);
          if o.FitFailed? then Uncaught else Shown(o);
      ForecastPage(warned, outcome)
  }
}
