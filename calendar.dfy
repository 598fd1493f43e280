/** Calendar projection used by `dt.to_period("M")`: a day number
    (days since 1970-01-01, time of day discarded) to its civil year and month. */
module Calendar {

  // The proleptic Gregorian calendar is read in 400-year eras that start on
  // 1 March 0000; inside an era, years also start on 1 March, so that the
  // leap day is the last day of its year. Dafny's `/` with a positive divisor
  // rounds toward negative infinity, which is what the decomposition needs.

  /** The 400-year era a day number falls in. */
  function Era(day: int): int { (day + 719468) / 146097 }

  /** Day of the era, 0 for 1 March of the era's first year. */
  function DayOfEra(day: int): (doe: int)
    ensures 0 <= doe <= 146096
  {
    (day + 719468) - Era(day) * 146097
  }

  /** Year of the era (March-based) of a day of the era. */
  function YearOfEra(doe: int): int
    requires 0 <= doe <= 146096
  {
    (doe - doe / 1460 + doe / 36524 - doe / 146096) / 365
  }

  /** Day of the (March-based) year, 0 for 1 March. */
  function DayOfYear(doe: int): int
    requires 0 <= doe <= 146096
  {
    var yoe := YearOfEra(doe);
    doe - (365 * yoe + yoe / 4 - yoe / 100)
  }

  /** A day of the era split into century `a`, four-year cycle `b`, year
      within the cycle `e` and day within that year `d`; only the last year
      of a cycle has a 366th day, and the last cycle of a century only
      in the era's last century. */
  predicate EraParts(a: int, b: int, e: int, d: int) {
    0 <= a <= 3 && 0 <= b <= 24 && 0 <= e <= 3 && 0 <= d <= 365 &&
    (d == 365 ==> e == 3 && (b < 24 || a == 3))
  }

  /** Every day of the era has such a split. */
  lemma Decompose(doe: int) returns (a: int, b: int, e: int, d: int)
    requires 0 <= doe <= 146096
    ensures EraParts(a, b, e, d) && doe == 36524 * a + 1461 * b + 365 * e + d
  {
    a := if doe == 146096 then 3 else doe / 36524;
    var r := doe - 36524 * a;
    b := r / 1461;
    var s := r - 1461 * b;
    e := if s / 365 > 3 then 3 else s / 365;
    d := s - 365 * e;
  }

  /** The year-of-era formula counts exactly the years the split says. */
  lemma YearOfEraParts(a: int, b: int, e: int, d: int)
    requires EraParts(a, b, e, d)
    ensures var doe := 36524 * a + 1461 * b + 365 * e + d;
      0 <= doe <= 146096 && YearOfEra(doe) == 100 * a + 4 * b + e
  {
    var doe := 36524 * a + 1461 * b + 365 * e + d;
    var top := if doe == 146096 then 1 else 0;
    var carry := if 24 * a + b + 365 * e + d >= 1460 then 1 else 0;
    assert doe / 146096 == top;
    assert doe / 36524 == a + top;
    assert doe / 1460 == 25 * a + b + carry;
    assert doe - doe / 1460 + doe / 36524 - doe / 146096 == 365 * (100 * a + 4 * b + e) + d - carry;
  }

  /** An era has 400 years, and a year at most 366 days. */
  lemma EraBounds(doe: int)
    requires 0 <= doe <= 146096
    ensures 0 <= YearOfEra(doe) <= 399
    ensures 0 <= DayOfYear(doe) <= 365
  {
    var a, b, e, d := Decompose(doe);
    YearOfEraParts(a, b, e, d);
    var y := 100 * a + 4 * b + e;
    assert y / 4 == 25 * a + b;
    assert y / 100 == a;
    assert DayOfYear(doe) == d;
  }

  /** Months counted from March: 0 for March, 11 for February. */
  function MonthIndex(doy: int): (mp: int)
    requires 0 <= doy <= 365
    ensures 0 <= mp <= 11
  {
    (5 * doy + 2) / 153
  }

  /** Proleptic Gregorian (year, month) of a day number; the month is 1..12. */
  function YearMonth(day: int): (ym: (int, int))
    ensures 1 <= ym.1 <= 12
  {
    var doe := DayOfEra(day);
    EraBounds(doe);
    var mp := MonthIndex(DayOfYear(doe));
    var m := if mp < 10 then mp + 3 else mp - 9;
    (YearOfEra(doe) + Era(day) * 400 + (if m <= 2 then 1 else 0), m)
  }

  /** A monthly period as one integer (`year * 12 + month - 1`). */
  function MonthKey(day: int): int {
    var ym := YearMonth(day);
    ym.0 * 12 + (ym.1 - 1)
  }

  /** The year and month a period key stands for. */
  function PeriodYearMonth(key: int): (int, int) {
    (key / 12, key % 12 + 1)
  }

  /** Year-then-month order of two (year, month) pairs. */
  predicate Before(ym1: (int, int), ym2: (int, int)) {
    ym1.0 < ym2.0 || (ym1.0 == ym2.0 && ym1.1 < ym2.1)
  }

  /** The period of a day stands for that day's year and month. */
  lemma MonthKeyDecodes(day: int)
    ensures PeriodYearMonth(MonthKey(day)) == YearMonth(day)
  {
    var ym := YearMonth(day);
    assert MonthKey(day) == ym.0 * 12 + (ym.1 - 1);
    PeriodOfYearMonth(ym.0, ym.1);
    assert PeriodYearMonth(MonthKey(day)) == (ym.0, ym.1);
  }

  lemma PeriodOfYearMonth(y: int, m: int)
    requires 1 <= m <= 12
    ensures PeriodYearMonth(y * 12 + (m - 1)) == (y, m)
  {
    var k := y * 12 + (m - 1);
    assert k / 12 == y && k % 12 == m - 1;
  }

  /** A key is the period of a day exactly when it stands for that day's
      year and month. */
  lemma PeriodOfDay(key: int, day: int)
    ensures key == MonthKey(day) <==> PeriodYearMonth(key) == YearMonth(day)
  {
    MonthKeyDecodes(day);
    PeriodOrder(key, MonthKey(day));
  }

  /** Period keys compare as their years and months do, in both directions. */
  lemma PeriodOrder(k1: int, k2: int)
    ensures k1 < k2 <==> Before(PeriodYearMonth(k1), PeriodYearMonth(k2))
    ensures k1 == k2 <==> PeriodYearMonth(k1) == PeriodYearMonth(k2)
  {
    assert k1 == (k1 / 12) * 12 + k1 % 12;
    assert k2 == (k2 / 12) * 12 + k2 % 12;
  }

  /** Two days have the same period exactly when they share year and month,
      and one period is smaller exactly when its month comes first. */
  lemma MonthKeyOrder(d1: int, d2: int)
    ensures MonthKey(d1) == MonthKey(d2) <==> YearMonth(d1) == YearMonth(d2)
    ensures MonthKey(d1) < MonthKey(d2) <==> Before(YearMonth(d1), YearMonth(d2))
  {
    MonthKeyDecodes(d1);
    MonthKeyDecodes(d2);
    PeriodOrder(MonthKey(d1), MonthKey(d2));
  }

  /** The period key in terms of the era decomposition: both month
      branches add the same offset. */
  lemma MonthKeyOfEra(day: int)
    ensures var doe := DayOfEra(day);
      0 <= doe <= 146096 && 0 <= DayOfYear(doe) <= 365 &&
      MonthKey(day) == (YearOfEra(doe) + Era(day) * 400) * 12 + MonthIndex(DayOfYear(doe)) + 2
  {
    EraBounds(DayOfEra(day));
  }

  /** Inside one era, a later day of the era has a period at least as late. */
  lemma EraMonthMonotone(doe1: int, doe2: int)
    requires 0 <= doe1 <= doe2 <= 146096
    ensures 0 <= DayOfYear(doe1) <= 365 && 0 <= DayOfYear(doe2) <= 365 &&
      YearOfEra(doe1) * 12 + MonthIndex(DayOfYear(doe1)) <= YearOfEra(doe2) * 12 + MonthIndex(DayOfYear(doe2))
  {
    EraBounds(doe1);
    EraBounds(doe2);
    YearOfEraMonotone(doe1, doe2);
    if YearOfEra(doe1) == YearOfEra(doe2) {
      assert DayOfYear(doe1) <= DayOfYear(doe2);
    }
  }

  lemma YearOfEraMonotone(doe1: int, doe2: int)
    requires 0 <= doe1 <= doe2 <= 146096
    ensures YearOfEra(doe1) <= YearOfEra(doe2)
  {
    assert doe2 / 1460 - doe1 / 1460 <= doe2 - doe1;
    assert doe1 / 36524 - doe1 / 146096 <= doe2 / 36524 - doe2 / 146096;
  }

  /** A later day never has an earlier period. */
  lemma MonthKeyMonotone(d1: int, d2: int)
    requires d1 <= d2
    ensures MonthKey(d1) <= MonthKey(d2)
  {
    MonthKeyOfEra(d1);
    MonthKeyOfEra(d2);
    var doe1, doe2 := DayOfEra(d1), DayOfEra(d2);
    EraBounds(doe1);
    EraBounds(doe2);
    assert Era(d1) <= Era(d2);
    if Era(d1) == Era(d2) {
      EraMonthMonotone(doe1, doe2);
    }
  }

  /** 2023-01-01 and 2023-02-01 (days 19358 and 19389) are in January and February 2023. */
  lemma ScenarioMonths()
    ensures YearMonth(19358) == (2023, 1) && YearMonth(19389) == (2023, 2)
    ensures MonthKey(19358) + 1 == MonthKey(19389)
  {
    assert (19358 + 719468) / 146097 == 5;
    assert (8341 - 8341 / 1460 + 8341 / 36524 - 8341 / 146096) / 365 == 22;
    assert (5 * (8341 - (365 * 22 + 22 / 4 - 22 / 100)) + 2) / 153 == 10;
    assert (19389 + 719468) / 146097 == 5;
    assert (8372 - 8372 / 1460 + 8372 / 36524 - 8372 / 146096) / 365 == 22;
    assert (5 * (8372 - (365 * 22 + 22 / 4 - 22 / 100)) + 2) / 153 == 11;
  }
}
