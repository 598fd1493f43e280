/** Revenue anomalies: app.py:210-218 and pages/5_Anomalies.py. */
module Anomalies {
  import opened Wrappers
  import opened Seqs
  import opened Tables
  import opened Grouping
  import opened Calendar
  import opened Metrics
  import opened Aggregate
  import opened Normalise

  /** The sensitivity slider: an integer percentage in [10, 100]. */
  type Sensitivity = s: int | 10 <= s <= 100 witness 30
  const DefaultSensitivity: Sensitivity := 30

  const MonthColumn := "Month"

  // ---------- the Month column ----------

  /** `data['Order Date'].dt.to_period("M")`: the month of each date, missing
      where the date is missing. */
  function MonthsOf(f: Frame): (ms: seq<Option<Cell>>)
    ensures |ms| == |f.rows|
    ensures forall i :: 0 <= i < |f.rows| ==> (ms[i].Some? <==> DayAt(f.rows[i], OrderDate).Some?)
    ensures forall i :: 0 <= i < |f.rows| && ms[i].Some? ==>
      ms[i].value.Period? && PeriodYearMonth(ms[i].value.month) == YearMonth(DayAt(f.rows[i], OrderDate).value)
  {
    AllPeriodsDecode();
    seq(|f.rows|, i requires 0 <= i < |f.rows| =>
      match DayAt(f.rows[i], OrderDate)
      case Some(d) => Some(Period(MonthKey(d)))
      case None => None)
  }

  lemma AllPeriodsDecode()
    ensures forall d :: PeriodYearMonth(MonthKey(d)) == YearMonth(d)
  {
    forall d ensures PeriodYearMonth(MonthKey(d)) == YearMonth(d) {
      MonthKeyDecodes(d);
    }
  }

  /** The period in the Month column of a row. */
  function PeriodOf(col: string): Row -> Option<int> {
    r => match Get(r, col) case Some(Period(m)) => Some(m) case _ => None
  }

  // ---------- monthly revenue and labels ----------

  /** `groupby('Month')['Sales'].sum()`. */
  function MonthlyRevenue(rows: seq<Row>): seq<(int, real)> {
    GroupSumSorted(Entries(rows, PeriodOf(MonthColumn), Sales))
  }

  /** After the Month column is assigned, monthly revenue has one point per
      calendar month of a dated order, in calendar order, each the Sales
      total of that month's rows, adding up to the Sales total of the dated rows. */
  lemma MonthlyRevenueMeaning(f: Frame)
    requires WellFormed(f)
    ensures var g := WithColumn(f, MonthColumn, MonthsOf(f));
      var s := MonthlyRevenue(g.rows);
      && (forall i, j :: 0 <= i < j < |s| ==> Before(PeriodYearMonth(s[i].0), PeriodYearMonth(s[j].0)))
      && (forall m :: m in KeysOf(s) <==> exists i :: 0 <= i < |f.rows| && DayAt(f.rows[i], OrderDate).Some? &&
                                                      PeriodYearMonth(m) == YearMonth(DayAt(f.rows[i], OrderDate).value))
      && (forall i :: 0 <= i < |s| ==> s[i].1 == ColumnSum(Filter(g.rows, KeyIs(PeriodOf(MonthColumn), s[i].0)), Sales))
      && Total(s) == ColumnSum(Filter(g.rows, HasKey(PeriodOf(MonthColumn))), Sales)
  {
    var g := WithColumn(f, MonthColumn, MonthsOf(f));
    var s := MonthlyRevenue(g.rows);
    SortedGroupsMeaning(g.rows, PeriodOf(MonthColumn), Sales);
    MonthlyKeys(f);
    forall i, j | 0 <= i < j < |s|
      ensures Before(PeriodYearMonth(s[i].0), PeriodYearMonth(s[j].0))
    {
      assert KeysOf(s)[i] == s[i].0 && KeysOf(s)[j] == s[j].0;
      PeriodOrder(s[i].0, s[j].0);
    }
    forall m ensures m in KeysOf(s) <==> exists i :: 0 <= i < |f.rows| && DayAt(f.rows[i], OrderDate).Some? &&
                                                     PeriodYearMonth(m) == YearMonth(DayAt(f.rows[i], OrderDate).value)
    {
      forall i | 0 <= i < |f.rows| && DayAt(f.rows[i], OrderDate).Some?
        ensures MonthKey(DayAt(f.rows[i], OrderDate).value) == m <==>
                PeriodYearMonth(m) == YearMonth(DayAt(f.rows[i], OrderDate).value)
      {
        PeriodOfDay(m, DayAt(f.rows[i], OrderDate).value);
      }
    }
  }

  /** The months of monthly revenue, as integer keys: those of the dated rows. */
  lemma MonthlyKeys(f: Frame)
    requires WellFormed(f)
    ensures var g := WithColumn(f, MonthColumn, MonthsOf(f));
      forall m :: m in KeysOf(MonthlyRevenue(g.rows)) <==>
        exists i :: 0 <= i < |f.rows| && DayAt(f.rows[i], OrderDate).Some? && MonthKey(DayAt(f.rows[i], OrderDate).value) == m
  {
    var g := WithColumn(f, MonthColumn, MonthsOf(f));
    SortedGroupsMeaning(g.rows, PeriodOf(MonthColumn), Sales);
    forall i | 0 <= i < |f.rows|
      ensures PeriodOf(MonthColumn)(g.rows[i]) ==
              match DayAt(f.rows[i], OrderDate) case Some(d) => Some(MonthKey(d)) case None => None
    {
      assert Get(g.rows[i], MonthColumn) == MonthsOf(f)[i];
    }
  }

  /** The average of the monthly sums; NaN (None) for no months. */
  function MeanOf(series: seq<(int, real)>): (m: Option<real>)
    ensures m.None? <==> series == []
    ensures m.Some? ==> m.value * |series| as real == Total(series)
  {
    if series == [] then None else Some(Total(series) / |series| as real)
  }

  /** `thresh = (sensitivity / 100) * mean`. */
  function Threshold(sensitivity: Sensitivity, mean: real): real {
    sensitivity as real / 100.0 * mean
  }

  datatype Label = Spike | Drop | Normal

  /** The labelling lambda: the Spike condition comes before the Drop condition. */
  function LabelOf(x: real, mean: real, thresh: real): (l: Label)
    ensures l == Spike <==> x > mean + thresh
    ensures l == Drop <==> !(x > mean + thresh) && x < mean - thresh
    ensures l == Normal <==> mean - thresh <= x <= mean + thresh
  {
    if x > mean + thresh then Spike else if x < mean - thresh then Drop else Normal
  }

  datatype MonthType = MonthType(month: int, sales: real, kind: Label)

  /** `monthly_revenue['Type'] = ...`: one label per month, months and sums unchanged. */
  function Classify(series: seq<(int, real)>, sensitivity: Sensitivity): (r: seq<MonthType>)
    ensures |r| == |series|
    ensures forall i :: 0 <= i < |r| ==> r[i].month == series[i].0 && r[i].sales == series[i].1
    ensures forall i :: 0 <= i < |r| ==>
      var mean := MeanOf(series).value;
      r[i].kind == LabelOf(series[i].1, mean, Threshold(sensitivity, mean))
  {
    if series == [] then []
    else
      var mean := MeanOf(series).value;
      var thresh := Threshold(sensitivity, mean);
      seq(|series|, i requires 0 <= i < |series| => MonthType(series[i].0, series[i].1, LabelOf(series[i].1, mean, thresh)))
  }

  /** With a non-negative mean, a Spike lies above the mean by more than the
      sensitivity share and a Drop below it by more than that share. */
  lemma LabelsAroundMean(x: real, mean: real, sensitivity: Sensitivity)
    requires mean >= 0.0
    ensures LabelOf(x, mean, Threshold(sensitivity, mean)) == Spike ==> x > mean && x > mean * (1.0 + sensitivity as real / 100.0)
    ensures LabelOf(x, mean, Threshold(sensitivity, mean)) == Drop ==> x < mean && x < mean * (1.0 - sensitivity as real / 100.0)
    ensures x == mean ==> LabelOf(x, mean, Threshold(sensitivity, mean)) == Normal
  {
    var k := sensitivity as real / 100.0;
    assert k > 0.0;
    assert Threshold(sensitivity, mean) == k * mean;
    assert k * mean >= 0.0 by {
      if mean > 0.0 {
        assert k * mean > 0.0;
      }
    }
    assert mean + k * mean == mean * (1.0 + k);
    assert mean - k * mean == mean * (1.0 - k);
  }

  lemma {:induction false} TotalOfConstant(series: seq<(int, real)>, c: real)
    requires forall i :: 0 <= i < |series| ==> series[i].1 == c
    ensures Total(series) == |series| as real * c
  {
    if series != [] {
      TotalOfConstant(series[1..], c);
    }
  }

  /** A constant series with a non-negative value is all Normal for every sensitivity. */
  lemma ConstantIsNormal(series: seq<(int, real)>, c: real, sensitivity: Sensitivity)
    requires c >= 0.0 && forall i :: 0 <= i < |series| ==> series[i].1 == c
    ensures forall i :: 0 <= i < |series| ==> Classify(series, sensitivity)[i].kind == Normal
  {
    if series != [] {
      TotalOfConstant(series, c);
      assert MeanOf(series).value == c;
      LabelsAroundMean(c, c, sensitivity);
    }
  }

  /** A constant series of negative sums is all Spike: the threshold is then
      negative, so even the mean itself is above `mean + thresh`. */
  lemma NegativeConstantIsSpike(series: seq<(int, real)>, c: real, sensitivity: Sensitivity)
    requires c < 0.0 && forall i :: 0 <= i < |series| ==> series[i].1 == c
    ensures forall i :: 0 <= i < |series| ==> Classify(series, sensitivity)[i].kind == Spike
  {
    if series != [] {
      TotalOfConstant(series, c);
      assert MeanOf(series).value == c;
      assert Threshold(sensitivity, c) < 0.0;
    }
  }

  /** The two-month example: sums 100 and 300 at sensitivity 30 have mean 200
      and threshold 60, so January is a Drop and February a Spike. */
  lemma TwoMonthExample()
    ensures var series: seq<(int, real)> := [(24276, 100.0), (24277, 300.0)];
      && MeanOf(series) == Some(200.0)
      && Threshold(30, 200.0) == 60.0
      && Classify(series, 30) == [MonthType(24276, 100.0, Drop), MonthType(24277, 300.0, Spike)]
  {
    var series: seq<(int, real)> := [(24276, 100.0), (24277, 300.0)];
    assert Total(series) == 400.0 by {
      assert series[1..] == [(24277, 300.0)];
      assert |series[1..][1..]| == 0;
    }
  }

  // ---------- the in-place steps ----------

  /** app.py:210-218: `data['Month'] = ...` in place on the filtered frame, then
      the monthly labels. */
  method DetectAnomalies(data: DataFrame, sensitivity: Sensitivity) returns (types: seq<MonthType>)
    requires data.Valid()
    modifies data
    ensures data.Valid() && data.Value() == WithColumn(old(data.Value()), MonthColumn, MonthsOf(old(data.Value())))
    ensures types == Classify(MonthlyRevenue(data.rows), sensitivity)
  {
    data.Assign(MonthColumn, MonthsOf(data.Value()));
    types := Classify(MonthlyRevenue(data.rows), sensitivity);
  }

  /** What pages/5_Anomalies.py ends with. */
  datatype AnomaliesResult =
    | NoAnomalyData                 // no frame in the session: the page stops
    | AnomalyKeyError(missing: string)  // an uncaught KeyError on a column the page reads
    | Labelled(types: seq<MonthType>)

  /** pages/5_Anomalies.py on the session frame, which may be the raw upload:
      reading a missing Order Date raises before anything changes; otherwise
      Order Date is coerced in place (unparseable dates become missing) and the
      Month column is added, and only then does a missing Sales column raise. */
  method AnomaliesPage(data: DataFrame?, p: Parsers, sensitivity: Sensitivity) returns (r: AnomaliesResult)
    requires data != null ==> data.Valid()
    modifies if data == null then {} else {data}
    ensures r.NoAnomalyData? <==> data == null
    ensures data != null ==> data.Valid()
    ensures data != null && OrderDate !in old(data.columns) ==>
      r == AnomalyKeyError(OrderDate) && data.Value() == old(data.Value())
    ensures data != null && OrderDate in old(data.columns) ==>
      var coerced := WithColumn(old(data.Value()), OrderDate, DatesOf(old(data.Value()), OrderDate, p));
      data.Value() == WithColumn(coerced, MonthColumn, MonthsOf(coerced))
    ensures data != null && OrderDate in old(data.columns) && Sales !in old(data.columns) ==>
      r == AnomalyKeyError(Sales)
    ensures data != null && OrderDate in old(data.columns) && Sales in old(data.columns) ==>
      r == Labelled(Classify(MonthlyRevenue(data.rows), sensitivity))
  {
    if data == null {
      return NoAnomalyData;
    }
    if OrderDate !in data.columns {
      return AnomalyKeyError(OrderDate);
    }
    data.Assign(OrderDate, DatesOf(data.Value(), OrderDate, p));
    if Sales !in data.columns {
      data.Assign(MonthColumn, MonthsOf(data.Value()));
      return AnomalyKeyError(Sales);
    }
    var t := DetectAnomalies(data, sensitivity);
    r := Labelled(t);
  }
}
