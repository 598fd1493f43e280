# Business dashboard — a Dafny model of its analysis core

The business dashboard is a Streamlit application. A user uploads a table of orders, and the app does four things with it:

- It finds the *Order Date*, *Sales* and *Profit* columns.
- It coerces those columns to dates and numbers and drops the rows that do not parse.
- It applies a date-range filter and, when a *Category* column exists, a category filter.
- It shows four key metrics, a Prophet forecast with a month-by-month roll-up, the three most and least profitable categories or products by margin, and monthly revenue labelled *Spike*, *Drop* or *Normal*.

The same computations are repeated on separate pages:

- `pages/2_Dashboard.py`: metrics.
- `pages/3_Forecasting.py`: forecast.
- `pages/4_Profitability.py`: margins.
- `pages/5_Anomalies.py`: anomalies.

`helper.py` holds small table utilities:

- `match_elements`;
- `describe`;
- `drop_items`;
- `rename_columns`;
- `handling_missing_values`.

The model works on a table value, `Tables.Frame`:

- An ordered list of distinct column names.
- Rows that map every column to a cell or to "missing".
- A cell is text, a number (an exact real), a day number, or a month period.

Where an operation changes a table in place, the model uses `Tables.DataFrame`. The cases are the column assignments at app.py:91-93 and 212 and at pages/5_Anomalies.py:18 and 25. `DataFrame.Assign` is specified through the pure `Tables.WithColumn`.

The app's other pipelines return new tables, so they are functions:

- the filters;
- the group-bys;
- the metrics;
- the sorts.

Three library pieces become parameters:

- Widget values: a `Widgets` record, the months slider, the metric, the view and the sensitivity.
- The date and number parsers of pandas: `Normalise.Parsers`, which either parses a cell or yields missing.
- The Prophet model: `Forecast.Prophet`, a fitting function that can fail and otherwise provides a prediction band per day.

`App.Run` follows app.py's script from the required-column check to the anomaly labels. It says which stop is reached, or which report is shown.

Modules, in dependency order:

- `Wrappers`, `Seqs`, `Tables`, `Grouping`, `Calendar`;
- `Schema`: required columns and `find_default`;
- `Helper`;
- `Normalise`, `Filters`, `Metrics`, `Aggregate`;
- `Forecast`, `Profitability`, `Anomalies`;
- `App`.

### Behaviour of the code that is easy to miss

- **Column matching.** `find_default` only tests whether the lower-cased keyword is a substring of the lower-cased column name. Keyword order comes first and column order second. When nothing matches it returns the first column, so it always returns a column.
  - `Schema.DefaultColumnPriority` and `Schema.DefaultColumnFallback` state this.
  - `Schema.EarlierPartialMatchWins` shows a partial match ("Sales Rep") winning over the exact "Sales" column.
  - The required columns are checked by their exact names before any matching happens (app.py:65-70).
- **Optional columns are used as they are.** Category, Product and the other optional columns are neither trimmed nor given a placeholder for missing values.
- **Zero sales.** The margin division has no guard. A zero Sales sum gives ±infinity or NaN, and `sort_values` puts NaN last in both directions.
  - `Profitability.MarginOf` models the division.
  - `Profitability.ZeroSalesGroupLeads` shows a zero-sales group with positive profit topping the "most profitable" list.
- **Anomaly labels with a negative mean.** A constant series is all *Normal* only when its mean is non-negative (`Anomalies.ConstantIsNormal`). With a negative mean the threshold is negative, and every month of a constant series is labelled *Spike* (`Anomalies.NegativeConstantIsSpike`).
- **"Not enough data".** This is the stop when the daily series has fewer than two points (`Forecast.ForecastSection`, `App.Analysis`).
- **The pages read the raw upload.** `cleaned_data` holds the table exactly as uploaded (pages/1_Upload.py:25). A page therefore reads columns that may be absent. The Dashboard and Anomalies pages do not catch the resulting KeyError (`Metrics.DashboardMetrics`, `Anomalies.AnomaliesPage`).

## Model

| member | source | states |
|---|---|---|
| Helper.MatchElements | helper.py:10-15 | the loop's result is the list of elements of `list_a` that occur in `list_b`, in `list_a`'s order |
| Helper.MatchingIsIntersection | helper.py:10-15 | x is in the result iff x is in both lists; each element keeps its multiplicity from `list_a`; the result is a subsequence of `list_a` (an intersection, despite the name `non_match`) |
| Helper.MatchingBounds | helper.py:10-15 | the result is never longer than `list_a`, is empty when `list_b` is empty, and is all of `list_a` when every element occurs in `list_b` |
| Helper.DescribePartition | helper.py:31-32 | every column is in exactly one of `num_category` / `str_category`, according to whether its dtype is "O"; both lists keep column order |
| Helper.NullColumnsExact | helper.py:33 | a column is listed as having nulls iff it is a column and some row has a missing cell in it |
| Helper.Globals.Describe | helper.py:29-34 | sets the two module globals to the partition and returns shape (rows, columns), the columns, both lists and the null columns |
| Helper.DropItems | helper.py:36-38 | fails (pandas' KeyError) iff some named label is not a column, and then reports only such labels, at least one; otherwise the result is a well-formed frame without the named columns |
| Helper.DropItemsKeepsTheRest | helper.py:36-38 | a column survives iff it was present and not named; column order is kept; every row survives, and each remaining cell is unchanged |
| Helper.RenameColumns | helper.py:40-42 | for an injective renaming, only the names change: same row count, and each renamed cell holds the old cell of its source column |
| Helper.RenamedWellFormed | helper.py:40-42 | renaming a well-formed frame injectively gives a well-formed frame whose columns are the renamed old columns |
| Helper.HandlingMissingValues | helper.py:44-54 | fails only for the fill option without a dict (pandas refuses `fillna(None)`); every result keeps the columns |
| Helper.DropAnyExact | helper.py:45-46 | "Drop all null value rows" keeps exactly the rows with no missing cell, as a subsequence of the input |
| Helper.DropAllExact | helper.py:48-49 | the how="all" option removes exactly the rows whose every cell is missing; on a frame with columns, every row the drop-any option keeps is kept too |
| Helper.FillExact | helper.py:51-52 | filling keeps row count and order, never changes a present cell, fills a missing cell exactly when its column is in the dict, and leaves the other missing cells missing |
| Helper.OtherOptionIsIdentity | helper.py:44-54 | any other option string returns the data unchanged |
| Schema.MissingColumnsExact | app.py:65-66 | a column is reported missing iff it is required and absent; the report keeps the order of the required list and is empty iff all three required columns are present |
| Schema.FirstMatch | app.py:77-78 | the index of the first column whose lower-cased name contains the keyword, or none when no column matches |
| Schema.FindDefault | app.py:75-80 | the nested loops with early return compute `DefaultColumn`, and the result is always one of the offered columns |
| Schema.DefaultColumnPriority | app.py:76-79 | the first keyword that matches any column wins, and within that keyword the first matching column wins |
| Schema.DefaultColumnFallback | app.py:80 | when no keyword matches any column, the first column is returned |
| Schema.ColumnDefaults | app.py:82-84 | the three defaults are the keyword matches for ["order date","date"], ["sales","revenue"] and ["profit","margin"], each one of the frame's columns |
| Schema.LiteralLabelWins | app.py:82-84 | when a column's lower-cased label contains the lower-cased first keyword, the default is the first column that does, whatever the later keywords match |
| Schema.DefaultsAfterCheck | app.py:65-84 | once the required-column check passes, each default is the first column containing "order date", "sales" or "profit" respectively |
| Schema.EarlierPartialMatchWins | app.py:75-83 | with columns [Sales Rep, Order Date, Sales, Profit] the Sales default is "Sales Rep" |
| Tables.WithColumn | app.py:91-93 | assigning a column keeps the frame well-formed and the row count; it overwrites an existing column in place or appends a new one last; the named cells get the new values, and all other cells are unchanged |
| Tables.DataFrame.Assign | app.py:91-93 | in-place column assignment: the object's new value is `WithColumn` of its old value |
| Normalise.NormaliseColumns | app.py:90-96 | assigns the coerced Order Date, Sales and Profit columns in place, warns iff some coerced cell is missing, and returns the rows with all three present |
| Normalise.CoercedCells | app.py:91-93 | after coercion, a present Order Date cell is a date and present Sales and Profit cells are numbers, for every row |
| Normalise.NormalisedIsComplete | app.py:90-96 | after the drop, every row has a date, a Sales number and a Profit number, and the rows are a subsequence of the coerced rows |
| Normalise.NormalisedShape | app.py:90-96 | the normalised frame has the Order Date, Sales and Profit columns and is well-formed when the input is |
| Normalise.KeptIffParses | app.py:91-96 | for any choice of the three columns, a row is kept iff its chosen date cell parses and each chosen number cell parses; a chosen column that an earlier assignment of the block overwrote reads the value written there, which always parses; cells outside the three assigned columns are carried over unchanged |
| Normalise.CompleteIffParses | app.py:91-94 | a coerced row has all three cells present iff its chosen cells parse, read as above |
| Normalise.WarningIffDropped | app.py:94-96 | the invalid-data warning fires iff at least one row is dropped |
| Filters.MinDay | app.py:108 | the smallest Order Date, attained by some row |
| Filters.MaxDay | app.py:108 | the largest Order Date, attained by some row |
| Filters.DateFilterExact | app.py:110 | a row is kept iff start <= date <= end (both inclusive); the result is a subsequence with the same columns |
| Filters.DefaultRangeKeepsAll | app.py:108-110 | for dates without a time of day, the default range [min, max] keeps every row |
| Filters.CategoryFilterExact | app.py:113-115 | with a Category column, a row is kept iff its category is in the selection; without one, the frame is unchanged; in both cases the result is a subsequence with the same columns |
| Filters.DefaultSelectionKeepsAll | app.py:114-115 | the default selection, all of the distinct categories, keeps every row |
| Filters.FilteredShape | app.py:108-115 | the two filters keep the columns, well-formedness and the normalised invariant |
| Metrics.NumericCount | app.py:130 | the count behind the mean is at most the row count, and equal to it when every Sales cell is a number |
| Metrics.ColumnSumAppend | app.py:128 | column sums add over concatenation |
| Metrics.MetricsOfNormalised | app.py:119-132 | on a non-empty normalised frame, Total Orders is the row count and Avg Order Value is Total Revenue divided by it |
| Metrics.TwoRecordMetrics | app.py:124-132 | two orders of Sales 100 and 300 with Profit 20 and 30 give 2 orders, revenue 400, average 200 and profit 50 |
| Metrics.DashboardMetrics | pages/2_Dashboard.py:12-27 | the page stops iff there is no data; a frame without Sales raises after Total Orders (the row count) is shown; a frame with Sales but without Profit raises after Total Orders, Total Revenue and Avg Order Value are shown; otherwise all four metrics |
| Metrics.AverageOrderValue | pages/2_Dashboard.py:23-25 | Avg Order Value is NaN iff no Sales cell is a number, and otherwise average × number of numeric cells = Total Revenue; when every row has a numeric Sales cell it is Total Revenue divided by the number of orders |
| Grouping.GroupSumSorted | app.py:138 | a group-by sum over integer keys has one point per distinct key, in ascending key order, each the sum of its entries, and the points total the entries' total |
| Aggregate.SortedGroupsMeaning | app.py:138 | the grouped keys are exactly the keys of the rows, each point is the column sum over that key's rows, and when every row has a key the points sum to the column total |
| Forecast.MetricColumn | app.py:137 | the forecast metric is "Sales" or "Profit" |
| Forecast.DailySeriesMeaning | app.py:138-139 | for dates without a time of day, the daily series has one point per distinct day, ascending, each the metric's sum over that day's rows, totalling the metric over the dated rows |
| Forecast.Horizon | app.py:45 | `months * 30` days, between 30 and 360 for months in 1..12 |
| Forecast.FutureDatesShape | app.py:45 | the future frame is the history followed by `periods` consecutive days; it is strictly increasing and ends `periods` days after the last history date |
| Forecast.ComputeForecast | app.py:41-49 | no forecast iff fitting fails (fewer than two points included); otherwise one prediction per history day plus the horizon, carrying the history dates in order followed by each of the horizon days after the last one |
| Forecast.MonthlyEntriesSums | app.py:158-159 | the month-tagged predictions total Σ yhat, and each month's entries sum to Σ yhat over the forecast rows of that month |
| Forecast.MonthlySummaryMeaning | app.py:158-159 | the monthly summary has one row per calendar month of `ds`, ascending, each equal to Σ yhat of that month, and the rows total Σ yhat |
| Forecast.ForecastSection | app.py:138-147 | "not enough data" iff the daily series has fewer than two points (the model is not asked); "fit failed" iff the fit fails on a longer series; otherwise the forecast and its monthly summary |
| Forecast.OneDayIsNotEnough | app.py:141-143 | for dates without a time of day, when all dated rows fall on one day, the section stops with "not enough data" whatever the model |
| Forecast.ForecastingPage | pages/3_Forecasting.py:20-60 | no data stops the page; it warns iff the date column is unmapped, empty or absent; a KeyError becomes an informational message naming an absent column; otherwise the section is shown as in the app, computed on the mapped column |
| Profitability.GroupsMeaning | app.py:181 | one group per distinct key value, with no repeats; each group's Profit and Sales are the sums over its rows; every keyed row belongs to a group |
| Profitability.MarginOf | app.py:182 | the margin is finite iff the Sales sum is non-zero, and then margin × sales = profit × 100; with zero sales it is +inf, -inf or NaN according to the profit's sign |
| Profitability.PrecedesTotal | app.py:183-184 | the sort order of `sort_values` on margins (NaN last) relates every pair |
| Profitability.PrecedesTransitive | app.py:183-184 | that order is transitive |
| Profitability.PrecedesFinite | app.py:183-184 | on finite margins the descending order is >= and the ascending order is <= |
| Profitability.Insert | app.py:183-184 | inserting into a sorted list keeps it sorted and adds exactly the new group |
| Profitability.SortByMargin | app.py:183-184 | the sorted groups are ordered by margin and are a permutation of the input |
| Profitability.Head | app.py:183-184 | `head(3)` keeps min(3, n) groups |
| Profitability.HeadOfSorted | app.py:183-184 | the first n of a sorted list precede every group left out, and together with the rest they make up the input |
| Profitability.MostProfitableMeaning | app.py:183 | `most_profitable` has min(3, #groups) groups, taken from the groups, in descending margin order, each ranked before every group left out |
| Profitability.LeastProfitableMeaning | app.py:184 | `least_profitable` is the same with ascending order |
| Profitability.ZeroSalesGroupLeads | app.py:182-183 | a group with zero sales and positive profit makes the top group's margin +inf |
| Profitability.AppInsights | app.py:180-208 | "not available" iff the chosen view's column (Category or Product) is absent; otherwise the rankings over that column |
| Profitability.AbsentMeasures | pages/4_Profitability.py:35 | the measures a KeyError reports are exactly those of Profit and Sales that are absent |
| Profitability.ViewColumn | pages/4_Profitability.py:34-47 | the Categories view uses the literal Category column when present; the Products view uses the mapped product column only when it is mapped, non-empty and present |
| Profitability.ProfitabilityInsights | pages/4_Profitability.py:12-63 | the page stops iff there is no data; each warning fires iff its column is unmapped or absent; "not available" iff the view has no column; a KeyError reports the absent measures; otherwise the rankings over the view's column |
| Profitability.MappingOnlyWarns | pages/4_Profitability.py:24-27 | the Profit and Sales mappings affect only the warnings, never the insights |
| Anomalies.MonthsOf | app.py:212 | a row has a Month period iff it has an Order Date, and that period stands for the date's year and month |
| Anomalies.MonthlyKeys | app.py:212-213 | the monthly keys are exactly the period keys of the dated rows |
| Anomalies.MonthlyRevenueMeaning | app.py:212-213 | after the Month assignment, monthly revenue has one point per (year, month) of a dated row, in year-then-month order, each the Sales sum of that month's rows, totalling Sales over the dated rows |
| Anomalies.MeanOf | app.py:215 | there is no mean iff the series is empty; otherwise mean × count = total |
| Anomalies.LabelOf | app.py:218 | Spike iff x > mean + thresh; Drop iff not Spike and x < mean - thresh; Normal otherwise, so each month gets exactly one label |
| Anomalies.Classify | app.py:215-218 | one labelled row per month, months and Sales unchanged, each labelled by `LabelOf` with thresh = sensitivity/100 × mean |
| Anomalies.LabelsAroundMean | app.py:217-218 | for mean >= 0, a Spike lies above mean·(1+s/100), a Drop below mean·(1-s/100), and the mean itself is Normal |
| Anomalies.TotalOfConstant | app.py:215 | a constant series totals count × value |
| Anomalies.ConstantIsNormal | app.py:215-218 | a constant non-negative series is all Normal for every sensitivity |
| Anomalies.NegativeConstantIsSpike | app.py:215-218 | a constant negative series is all Spike |
| Anomalies.TwoMonthExample | pages/5_Anomalies.py:28-30 | monthly sums [100, 300] at sensitivity 30 are labelled [Drop, Spike] |
| Anomalies.DetectAnomalies | app.py:212-218 | assigns the Month column in place and returns the labelled monthly revenue of the updated frame |
| Anomalies.AnomaliesPage | pages/5_Anomalies.py:10-30 | the page stops iff there is no data; without Order Date it raises a KeyError and the frame is unchanged; otherwise it re-coerces Order Date in place and assigns Month; then, without Sales, it raises a KeyError, and with Sales it labels monthly revenue |
| Calendar.EraBounds | app.py:212 | a 400-year era has years 0..399 and a year has days 0..365 |
| Calendar.YearMonth | app.py:212 | the month of a day is in 1..12 |
| Calendar.MonthKeyDecodes | app.py:212 | the period key of a day decodes to that day's year and month |
| Calendar.PeriodOrder | app.py:212-213 | period keys are equal iff they decode to the same (year, month), and one is smaller iff its (year, month) comes first in year-then-month order |
| Calendar.PeriodOfDay | app.py:212 | a key is the period of a day iff it decodes to that day's year and month |
| Calendar.MonthKeyOrder | app.py:212-213 | two days have the same period iff they share year and month, and one period is smaller iff its (year, month) comes first |
| Calendar.MonthKeyMonotone | app.py:212-213 | a later day never has an earlier period |
| Calendar.ScenarioMonths | app.py:212 | 2023-01-01 and 2023-02-01 fall in consecutive months |
| App.Selected | app.py:86-88 | the three selected columns are among the frame's columns |
| App.Filtered | app.py:108-115 | the two filters keep the columns |
| App.FilteredMeaning | app.py:108-115 | the filtered rows are a subsequence of the cleaned rows and stay normalised |
| App.Analysis | app.py:124-218 | after the filters, the only stops are "too little history" and a forecasting error, and each carries the four key metrics already drawn |
| App.Analyse | app.py:124-218 | computes `Analysis`, and in a completed report the average order value is revenue divided by the order count |
| App.AnalysisMeaning | app.py:124-159 | a completed analysis has Total Orders = row count, the average as above, and a monthly forecast totalling Σ yhat |
| App.Expected | app.py:64-218 | the script stops for missing columns iff a required column is absent, reporting them |
| App.AfterCheck | app.py:101-121 | past the required-column check, the script never stops for missing columns |
| App.ProcessCleaned | app.py:101-218 | the steps after normalisation compute `AfterCheck`: stop on an empty cleaned frame, then filter, stop on an empty filtered frame, then analyse |
| App.AfterCheckMeaning | app.py:101-159 | a completed run past the check reports a non-empty, normalised subsequence of the cleaned rows, with Total Orders, the average and the monthly total as above |
| App.Run | app.py:64-218 | the script's effect: the result is `Expected` of the uploaded frame; with required columns missing the frame is untouched, otherwise its three columns hold the coerced values |
| App.CompletedRunMeaning | app.py:64-159 | a completed run had all required columns; its filtered table is non-empty, normalised and a subsequence of the cleaned rows, with the metrics and monthly totals above |

## Left out

- Prophet's fitting and prediction are a third-party statistical model. They are the `Forecast.Prophet` parameter. Only the failure path, the horizon, the future dates and the monthly roll-up are modelled. `make_future_dataframe` is taken to add `periods` consecutive days after the last history date.
- File ingestion (`load_data`, app.py:30-38; pages/1_Upload.py) depends on the CSV and Excel readers. The model starts from a parsed table.
- The parsing internals of `pd.to_datetime` and `pd.to_numeric` are not modelled. `Normalise.Parsers` only says whether a cell parses and to what. Text cells in the numeric columns count as missing in the sums.
- Widgets, Plotly charts, `st.metric` formatting, `st.stop` and the cache decorators are library UI. Widget values are inputs. A stop is a `RunResult.Stopped` reason.
- CSV export (app.py:252-253, pages/6_Export.py, `download_data` in helper.py:17-27) is pandas serialisation plus a clock and a download widget.
- `fetch_exchange_rate` (network), `clear_image_cache` (filesystem) and the gtag snippet (analytics) hold no logic. Nor do `show_sidebar_guide` and pages/Help.py, which are static text. The `selected_currency` string only labels values.
- `data.describe()`, `data.isnull().sum()`, `dtypes` and `nunique()` in `describe` are pandas statistics. The dtype itself is an input function.
- Dangling session wiring:
  - `column_map` is read but never set, so the mapped columns are inputs.
  - `handle_missing_columns` is imported but does not exist in helper.py.
  - `forecast` is used outside its `try` at pages/3_Forecasting.py:69, so the page's monthly summary past line 67 is not modelled.
  - `cleaned_data` is the raw upload, so the pages receive an arbitrary frame.
- App.Run: the `except` branch at app.py:97-99 is not represented. Coercion never raises in the model, because every parser result is total.
- Metrics.DashboardMetrics: a Sales or Profit column holding text, as a raw upload may, makes pandas concatenate the strings or raise. The model reads text cells as missing.
- Normalise.KeptIffParses: assumes that `pd.to_numeric` accepts numbers and dates (`Normalise.Lawful`). The parsers are otherwise arbitrary.
- Helper.RenameColumns: requires the renaming to be injective on the columns. pandas would otherwise produce duplicate column labels, which a `Frame` cannot hold.
- Profitability.SortByMargin: a stable insertion sort. pandas' default quicksort does not promise an order among equal margins, so the model fixes one, and the ranking lemmas hold for any such order.
- Profitability.Groups: groups are listed in first-appearance order, where pandas sorts the keys. Only the order among groups of equal margin can differ.
- Forecast.ForecastingPage: the page groups the mapped date column as it stands in the session frame. A text date column, as a raw CSV upload gives, holds no dates in the model, so the model reports "not enough data" where the page groups by the strings and, with two distinct strings, forecasts.
- Floating point is modelled as exact reals. Infinity and NaN appear only as the `Margin` of a zero-sales group.
- Time of day is not modelled: dates are whole day numbers. `pd.to_datetime` keeps the time of day, which has the three consequences below.
- Filters.DefaultRangeKeepsAll: the date widget turns the range ends into dates, so the end filter compares with midnight of the last day. An order later than midnight on that day is dropped by the default range; the lemma holds for dates without a time of day only.
- Forecast.DailySeriesMeaning: `groupby('Order Date')` groups by timestamp, so two orders on one day at different times are two points. "One point per distinct day" holds for dates without a time of day only.
- Forecast.OneDayIsNotEnough: for the same reason, orders on one day at two or more different times make two or more points, and the forecast runs. The lemma holds for dates without a time of day only.
- `str.lower` is modelled for ASCII letters only. Unicode case mapping is not modelled.
