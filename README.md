# Panda Park dashboard: the transaction aggregation and filtering engine

The Panda Park dashboards show a static table of parking transactions. One is
built on Streamlit (`app.py`) and one on Gradio (`main.py`). Once the widgets
and charts are set aside, both compute the same statistics over the table:

- the number of transactions;
- the per-day counts from grouping by `transaction_date`, ascending by date;
- the latest date, its count, and the change from the date before it;
- the counts per payment method;
- four busy-hour segments, [10,13), [13,16), [16,19) and [19,22), that count
  records by entry hour and silently drop hours outside [10,22);
- the per-day average parking duration;
- a payment-method filter over the table, where `"All"` means no filter.

This project models that engine in Dafny as functions over a `seq<Record>`.
It proves the properties the dashboards rely on as lemmas and as `ensures`
clauses.

## Modules

- `Transactions` (`transactions.dfy`) holds the shared record and counting
  layer. A `Record` has a `transactionDate`, an `entryHour` from 0 to 23, a
  `paymentMethod` string and an integer `durationMinutes`. The module defines
  counting by date, by method and by hour range. It also models a data frame
  row (`Row`: an index label plus a record), the frame built from the loaded
  records (labels 0, 1, 2, ...), and the boolean-mask selection of the rows
  whose method equals a given string.
- `Aggregation` (`aggregation.dfy`) holds the statistics the two front ends
  share. The grouping by date is built by inserting each record into an
  ascending list of groups. Each group carries its count and its duration
  total. `DateGroup` (the per-day counts) and `AverageDuration` (the per-day
  (total, count) pairs) are two views of that one grouping. The module also
  holds the `value_counts` map of payment methods and the four busy-hour
  segments.
- `StreamlitApp` (`streamlit_app.dfy`) holds what only `app.py` does:
  - the latest-day metric, read off the last one or two rows of `date_group`;
  - its table filter, which keeps the original index labels (`.copy()` of a
    mask selection);
  - a three-record worked example: two QRIS payments on day 1 and one OVO
    payment on day 2.
- `GradioApp` (`gradio_app.dfy`) holds what only `main.py` does:
  - the latest day as `max(transaction_date)` and its count by a direct mask;
  - `filter_data`, which renumbers the selected rows with `reset_index`.

  Lemmas show that both dashboards report the same latest day and count. They
  also show that the two filters return the same records in the same order.

`main.py` computes its payment counts (line 28), busy-hour segments (lines
33-37) and per-day counts (line 49) with the same pandas expressions as
`app.py`. The `Aggregation` members model those lines too. `line_data` at
main.py:49 has no `sort_values`, but pandas' `groupby` sorts its keys by
default, so it equals `date_group`.

The filter compares method strings exactly. `"All"` is tested before any
comparison, so a record whose method is the literal string `"All"` cannot be
picked out on its own: selecting `"All"` always returns the whole table.

## Model

| member | source | states |
|---|---|---|
| `Aggregation.TotalTransactions` | app.py:55 | `len(df)`, also main.py:20: the number of records; it has no contract of its own, and `DateGroupSumsToTotal`, `PaymentCountsSumToTotal` and `BusyHoursWithinTotal` state that the per-day counts, the payment counts and the segments add up to it |
| `Aggregation.DateGroupSumsToTotal` | app.py:55-58 | the per-day counts of `date_group` add up to `total_transactions`, the number of records |
| `Aggregation.DateGroup` | app.py:58-59 | one row per date that occurs in the data (each row's date occurs, each occurring date has a row), strictly ascending by date, so no key repeats; each count is at least 1 and equals the number of records carrying that date |
| `Aggregation.GroupByDate` | app.py:58 | the `groupby("transaction_date")` grouping, built by inserting each record into an ascending list of (date, count, duration total) groups; its properties are stated by `GroupByDateShape`, `GroupByDateCounts` and `GroupByDateSpec` |
| `Aggregation.GroupByDateSpec` | main.py:49 | the `groupby("transaction_date")` behind `line_data`: as many groups as distinct dates, ascending; every group's date occurs in the data, its size is at least 1 and equals that date's record count, and its duration total is that date's total; every occurring date has a group |
| `Aggregation.GroupByDateShape` | app.py:58 | the groups are ascending and non-empty, their dates are exactly the set of occurring dates, and together they hold every record once |
| `Aggregation.GroupByDateCounts` | app.py:58 | for every date, the groups file exactly that date's records and that date's duration total |
| `Aggregation.InsertAscending` | app.py:58-59 | adding a record keeps the groups strictly ascending by date |
| `Aggregation.InsertCounts` | app.py:58 | adding a record adds one to its own date's count and its duration to its own date's total, leaving every other date as it was |
| `Aggregation.AverageDuration` | app.py:114 | the per-day mean as an exact (total, count) pair: one pair per date that occurs, ascending by date, with count at least 1 equal to the date's record count and total equal to the sum of that date's durations, so mean times count equals total |
| `Aggregation.MeanWithinBounds` | app.py:114 | when every duration on a day lies in [lo, hi], the day's total lies between count times lo and count times hi, so the mean lies in [lo, hi] |
| `StreamlitApp.LatestDaySummary` | app.py:61-62 | no summary exactly when the table is empty, which app.py cannot display (an empty JSON array already fails at app.py:47: the frame has no `entry_time` column); otherwise `selected_day` is a date that occurs and no record is later, and `today_count` is the number of records on that date, at least 1 |
| `StreamlitApp.DeltaDay` | app.py:63-67 | the two-case rule on the per-day counts (last minus second-to-last with two or more rows, else 0); its meaning over the table is stated by `DeltaDayRule` and `DeltaDaySingleDay` |
| `StreamlitApp.DeltaDayRule` | app.py:63-67 | with two or more distinct dates, `delta_day` is the latest date's count minus the count of the latest earlier date |
| `StreamlitApp.DeltaDaySingleDay` | app.py:63-67 | a non-empty table with fewer than two distinct dates has exactly one, and its `delta_day` is 0 |
| `StreamlitApp.DeltaDayExamples` | app.py:63-67 | per-day counts [5, 8] give a delta of 3; a single day with count 4 gives 0 |
| `Aggregation.PaymentCounts` | app.py:70 | `value_counts().to_dict()` on the method column, built one record at a time; its properties are stated by `PaymentCountsSpec` and `PaymentCountsSumToTotal` |
| `Aggregation.PaymentCountsSpec` | app.py:70 | the keys are exactly the observed method strings, unknown ones included; each value is at least 1 and equals the number of records carrying that literal string |
| `Aggregation.PaymentCountsSumToTotal` | main.py:28 | the payment-method counts add up to `total_transactions` |
| `Aggregation.MapSumRemove` | main.py:28 | the sum of a count map is the same whichever key is taken out first |
| `Aggregation.BusyHoursOf` | app.py:73-79 | the four segment counts over [10,13), [13,16), [16,19) and [19,22); its properties are stated by `BusyHoursWithinTotal`, `SegmentsDisjoint`, `BusyHoursAdditive` and `OutOfWindowIgnored` |
| `Aggregation.BusyHoursWithinTotal` | app.py:73-79 | the four segments together count the records with entry hour in [10,22); their sum is at most the total, with equality exactly when every entry hour lies in [10,22) |
| `Aggregation.SegmentsDisjoint` | main.py:33-37 | a record is counted in exactly one segment when its hour is in [10,22) and in none otherwise, so no record is counted twice |
| `Aggregation.BusyHoursAdditive` | app.py:74-79 | segment counts over two concatenated tables are the sums of their segment counts |
| `Aggregation.OutOfWindowIgnored` | app.py:74-79 | adding a record whose entry hour is outside [10,22) changes no segment |
| `Transactions.CountHoursSplit` | main.py:34-37 | adjacent half-open hour ranges split the count of their union |
| `Transactions.CountHoursAll` | app.py:75-78 | an hour-range count equals the number of records exactly when every entry hour is in the range |
| `Transactions.CountOnDatePositive` | main.py:25 | a date's count is positive exactly when the date occurs |
| `Transactions.CountMethodPositive` | app.py:70 | a method's count is positive exactly when the method occurs |
| `Transactions.SelectMethod` | app.py:141 | the mask selection returns only rows of the frame whose method equals the selection, leaves no matching row out, and is never longer than the frame |
| `Transactions.SelectMethodIsSubsequence` | main.py:65 | the selection is the frame with rows left out, the rest kept in their original order |
| `Transactions.SelectMethodIdempotent` | main.py:65 | selecting the selection again by the same method changes nothing |
| `Transactions.SelectMethodSize` | app.py:141 | the selection has exactly as many rows as there are records with that method |
| `Transactions.SelectMethodLabels` | app.py:141 | selection keeps index labels strictly increasing |
| `StreamlitApp.FilterTable` | app.py:140-143 | the `"All"` selection returns the table itself; any other selection returns exactly the rows of the table whose method equals it |
| `StreamlitApp.ListedOptionsFilter` | app.py:138-141 | the dropdown's first option is the `"All"` sentinel and shows the whole table; every other listed option shows only rows paid with it, one per record with that method |
| `StreamlitApp.FilterAllShowsEverything` | app.py:142-143 | the `"All"` selection returns the whole table, every record in its original order |
| `StreamlitApp.FilterExactMatch` | app.py:140-141 | any other selection returns exactly the rows of that method (exact, case-sensitive): each row is the record at its original index, every matching record appears under its own index, labels increase (order preserved), and the row count equals the method's record count |
| `StreamlitApp.FilterTableIdempotent` | app.py:140-143 | filtering the filtered table by the same selection returns it unchanged |
| `StreamlitApp.FilterUnlistedIsEmpty` | app.py:138-141 | a selection other than `"All"` that no record carries yields an empty table; a string outside the option list gives an empty table only when no record carries it |
| `StreamlitApp.ExampleGroups` | app.py:58 | for the three-record example, `date_group` is [(day 1, 2), (day 2, 1)] and the per-day durations are (75, 2) and (15, 1), that is, means 37.5 and 15 |
| `StreamlitApp.ExampleSummary` | app.py:55-67 | for the three-record example, the total is 3 and the latest-day metric is (day 2, 1, delta -1) |
| `StreamlitApp.ExamplePayments` | app.py:70 | for the three-record example, the payment counts are QRIS 2 and OVO 1 |
| `StreamlitApp.ExampleBusyHours` | app.py:74-79 | for the three-record example, the segments are 1, 1, 0 and 1 |
| `GradioApp.SelectedDay` | main.py:24 | `max(transaction_date)` is a date that occurs, and no record carries a later one |
| `GradioApp.TransactionsForDay` | main.py:25 | the number of records on the latest date is at least 1 and at most the total |
| `GradioApp.LatestDayAgrees` | main.py:24-25 | the maximum date and its count form the last row of the per-day counts, and match the Streamlit metric's day and count |
| `GradioApp.ResetIndex` | main.py:65 | `reset_index(drop=True)`: the same records in the same order, relabelled 0, 1, 2, ... |
| `GradioApp.FilterData` | main.py:63-68 | `filter_data("All")` returns the table itself; any other method gives one row per record with that method, each paid with it, labelled 0, 1, 2, ... |
| `GradioApp.FilterDataAll` | main.py:66-67 | `filter_data("All")` returns the loaded table unchanged |
| `GradioApp.FilterDataMatches` | main.py:64-65 | for any other method, `filter_data` returns the same records in the same order as the Streamlit filter, renumbered 0, 1, 2, ...: each has that method, no matching record is missing, and there is one row per matching record |
| `GradioApp.FilterDataIdempotent` | main.py:63-68 | filtering `filter_data`'s output by the same method returns that output unchanged |
| `GradioApp.SelectAllMatching` | main.py:65 | a mask selection on a table whose every row matches returns the table whole |

## Left out

- Reading the JSON file and building the data frame (app.py:42-48,
  main.py:9-11) are file I/O. The model takes the loaded records as a given
  sequence, with the default row labels 0, 1, 2, ... (`Frame`).
- Parsing timestamps with `pd.to_datetime` (app.py:47, main.py:14) is a
  foreign library call. `entryHour` is the already-parsed hour, 0 to 23. An
  unparseable `entry_time` makes the load raise, and that is not modelled.
- Transaction dates are day numbers (`int`). ISO date strings sort the same
  way, and Dafny's `<` on strings is the prefix order, not the lexicographic
  one. `transaction_date` and the entry hour are independent fields, as in
  the source; they are not cross-checked.
- `@st.cache_data` (app.py:41) is memoisation with no effect on the results.
- Streamlit and Gradio layout, CSS, metric widgets, dropdowns, the editable
  table and `demo.launch()` (app.py:9-36, app.py:84-113, app.py:115-137, app.py:144-145, main.py:75-107) are
  UI code.
- Plotly figure construction (app.py:109-132, main.py:50-58) is chart
  rendering.
- Dropping the helper columns `entry_dt` and `entry_hour` before display
  (app.py:144) is presentation only. Records carry no such columns here.
- The order of `value_counts` (by frequency) is not modelled. Pandas' NaN and
  null handling is left out too. `PaymentCounts` is a map, so order does not
  matter.
- AverageDuration: the floating-point mean at app.py:114 is kept as the exact
  pair (total, count). Durations are integers; fractional minutes are not
  modelled.
- GradioApp.SelectedDay: requires a non-empty table. On an empty JSON array,
  `main.py` already fails at line 14: the frame has no `entry_time` column.
  Pandas' NaN maximum is therefore never reached.
- Load failures (a missing file, malformed JSON, an unparseable `entry_time`)
  raise the exceptions of `open`, `json.load` and `pd.to_datetime`, which
  propagate; they are not modelled.
