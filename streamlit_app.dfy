/** The Streamlit dashboard: its "latest day vs previous day" metric, read off
    the sorted per-day counts, and its payment-method filter over the table. */
module StreamlitApp {
  import opened Transactions
  import opened Aggregation

  datatype Option<T> = None | Some(value: T)

  /** The top-panel metric: the latest date, its count and the change from
      the date before it. */
  datatype DaySummary = DaySummary(selectedDay: Date, todayCount: nat, deltaDay: int)

  /** The two-case delta rule: last count minus second-to-last when there are
      at least two rows, otherwise 0. */
  function DeltaDay(dg: seq<DayCount>): int {
    if |dg| >= 2 then dg[|dg| - 1].count - dg[|dg| - 2].count else 0
  }

  /** The metric read from the last row of `date_group`. None stands for a
      table without rows, which app.py cannot display: loading an empty JSON
      array already fails at app.py:47, since the frame has no `entry_time`
      column. */
  function LatestDaySummary(rs: seq<Record>): (s: Option<DaySummary>)
    ensures s.None? <==> rs == []
    ensures s.Some? ==> s.value.selectedDay in DatesOf(rs)
    ensures s.Some? ==> forall r :: r in rs ==> r.transactionDate <= s.value.selectedDay
    ensures s.Some? ==> s.value.todayCount == CountOnDate(rs, s.value.selectedDay) >= 1
  {
    var dg := DateGroup(rs);
    if |dg| == 0 then
      None
    else
      var last := dg[|dg| - 1];
      forall r | r in rs ensures r.transactionDate <= last.date {
        assert r.transactionDate in DatesOf(rs);
        var i :| 0 <= i < |dg| && dg[i].date == r.transactionDate;
        assert i == |dg| - 1 || dg[i].date < last.date;
      }
      Some(DaySummary(last.date, last.count, DeltaDay(dg)))
  }

  /** `p` is the latest occurring date strictly before `day`. */
  ghost predicate PreviousDay(rs: seq<Record>, p: Date, day: Date) {
    p in DatesOf(rs) && p < day && forall d :: d in DatesOf(rs) && d < day ==> d <= p
  }

  /** With two or more distinct dates, the delta is the latest date's count
      minus the count of the latest date before it. */
  lemma {:induction false} DeltaDayRule(rs: seq<Record>)
    requires |DatesOf(rs)| >= 2
    ensures LatestDaySummary(rs).Some?
    ensures exists p ::
              && PreviousDay(rs, p, LatestDaySummary(rs).value.selectedDay)
              && LatestDaySummary(rs).value.deltaDay == LatestDaySummary(rs).value.todayCount - CountOnDate(rs, p)
  {
    var dg := DateGroup(rs);
    var n := |dg|;
    var last, prev := dg[n - 1], dg[n - 2];
    assert LatestDaySummary(rs) == Some(DaySummary(last.date, last.count, last.count - prev.count));
    assert prev.date in DatesOf(rs) && prev.date < last.date && prev.count == CountOnDate(rs, prev.date);
    forall d | d in DatesOf(rs) && d < last.date ensures d <= prev.date {
      SecondToLast(dg, d);
    }
    assert PreviousDay(rs, prev.date, last.date);
  }

  /** With a single date the delta is 0. */
  lemma {:induction false} DeltaDaySingleDay(rs: seq<Record>)
    requires rs != [] && |DatesOf(rs)| < 2
    ensures |DatesOf(rs)| == 1
    ensures LatestDaySummary(rs).Some? && LatestDaySummary(rs).value.deltaDay == 0
  {
    assert rs[0].transactionDate in DatesOf(rs);
  }

  /** In strictly ascending rows, a row's date earlier than the last row's is
      at most the second-to-last row's. */
  lemma {:induction false} SecondToLast(dg: seq<DayCount>, d: Date)
    requires |dg| >= 2
    requires forall i, j :: 0 <= i < j < |dg| ==> dg[i].date < dg[j].date
    requires exists i :: 0 <= i < |dg| && dg[i].date == d
    requires d < dg[|dg| - 1].date
    ensures d <= dg[|dg| - 2].date
  {
    var i :| 0 <= i < |dg| && dg[i].date == d;
    assert i < |dg| - 1;
    assert i == |dg| - 2 || dg[i].date < dg[|dg| - 2].date;
  }

  /** Counts [5, 8] give a delta of 3; a single day gives 0. */
  lemma DeltaDayExamples()
    ensures DeltaDay([DayCount(1, 5), DayCount(2, 8)]) == 3
    ensures DeltaDay([DayCount(1, 4)]) == 0
  {
  }

  /** The table filter: a copy of the table for the sentinel, otherwise the rows
      whose method equals the selection; rows keep their index labels. */
  function FilterTable(df: seq<Row>, selected: string): (out: seq<Row>)
    ensures selected == AllMethods ==> out == df
    ensures selected != AllMethods ==>
      forall row :: row in out <==> row in df && row.record.paymentMethod == selected
  {
    if selected != AllMethods then SelectMethod(df, selected) else df
  }

  /** The dropdown's first choice is the sentinel and no other choice is, so
      the first shows the whole table and each other shows exactly the
      records paid with it. */
  lemma {:induction false} ListedOptionsFilter(rs: seq<Record>, i: nat)
    requires i < |PaymentOptions|
    ensures i == 0 ==> FilterTable(Frame(rs), PaymentOptions[i]) == Frame(rs)
    ensures i > 0 ==> var out := FilterTable(Frame(rs), PaymentOptions[i]);
      && (forall row :: row in out ==> row.record.paymentMethod == PaymentOptions[i])
      && |out| == CountMethod(rs, PaymentOptions[i])
  {
    if i > 0 {
      assert PaymentOptions[i] != AllMethods;
      FilterExactMatch(rs, PaymentOptions[i]);
    }
  }

  /** The sentinel shows the whole table, in its order. */
  lemma {:induction false} FilterAllShowsEverything(rs: seq<Record>)
    ensures FilterTable(Frame(rs), AllMethods) == Frame(rs)
    ensures RecordsOf(FilterTable(Frame(rs), AllMethods)) == rs
  {
  }

  /** Any other selection shows exactly the rows of that method (exact,
      case-sensitive string equality), each under its original label, in
      the table's order. */
  lemma {:induction false} FilterExactMatch(rs: seq<Record>, m: string)
    requires m != AllMethods
    ensures var out := FilterTable(Frame(rs), m);
      && (forall row :: row in out ==>
            row.index < |rs| && rs[row.index] == row.record && row.record.paymentMethod == m)
      && (forall i :: 0 <= i < |rs| && rs[i].paymentMethod == m ==> Row(i, rs[i]) in out)
      && LabelsIncreasing(out)
      && |out| == CountMethod(rs, m)
  {
    var df := Frame(rs);
    assert RecordsOf(df) == rs;
    SelectMethodLabels(df, m);
    SelectMethodSize(df, m);
    forall row | row in df ensures row.index < |rs| && rs[row.index] == row.record {
      var i :| 0 <= i < |df| && df[i] == row;
    }
    forall i | 0 <= i < |rs| && rs[i].paymentMethod == m ensures Row(i, rs[i]) in SelectMethod(df, m) {
      assert df[i] == Row(i, rs[i]);
    }
  }

  /** Filtering the filtered table again by the same selection changes nothing. */
  lemma {:induction false} FilterTableIdempotent(df: seq<Row>, m: string)
    ensures FilterTable(FilterTable(df, m), m) == FilterTable(df, m)
  {
    SelectMethodIdempotent(df, m);
  }

  /** A selection other than the sentinel that no record carries shows an
      empty table. A string outside the dropdown's list shows an empty table
      only when no record carries it: unknown methods are kept as they are. */
  lemma {:induction false} FilterUnlistedIsEmpty(rs: seq<Record>, m: string)
    requires m != AllMethods && m !in MethodsOf(rs)
    ensures FilterTable(Frame(rs), m) == []
  {
    FilterExactMatch(rs, m);
    CountMethodPositive(rs, m);
  }

  /** Three records over two days: two QRIS payments on day 1 at 11:00 and
      20:00 lasting 30 and 45 minutes, one OVO payment on day 2 at 14:00
      lasting 15 minutes. */
  const Example: seq<Record> := [Record(1, 11, "QRIS", 30), Record(1, 20, "QRIS", 45), Record(2, 14, "OVO", 15)]

  lemma ExampleGroups()
    ensures DateGroup(Example) == [DayCount(1, 2), DayCount(2, 1)]
    ensures AverageDuration(Example) == [DayMean(1, 75, 2), DayMean(2, 15, 1)]
  {
    var rs := Example;
    assert rs[1..][1..] == rs[2..];
    assert rs[2..][1..] == [];
    assert GroupByDate(rs[2..]) == [DayGroup(2, 1, 15)];
    assert GroupByDate(rs[1..]) == [DayGroup(1, 1, 45), DayGroup(2, 1, 15)];
    assert GroupByDate(rs) == [DayGroup(1, 2, 75), DayGroup(2, 1, 15)];
  }

  lemma ExampleSummary()
    ensures TotalTransactions(Example) == 3
    ensures LatestDaySummary(Example) == Some(DaySummary(2, 1, -1))
  {
    ExampleGroups();
  }

  lemma ExamplePayments()
    ensures PaymentCounts(Example) == map["QRIS" := 2, "OVO" := 1]
  {
    var rs := Example;
    assert rs[1..][1..] == rs[2..];
    assert rs[2..][1..] == [];
    assert PaymentCounts(rs[2..]) == map["OVO" := 1];
    assert PaymentCounts(rs[1..]) == map["OVO" := 1, "QRIS" := 1];
  }

  lemma ExampleBusyHours()
    ensures BusyHoursOf(Example) == BusyHours(1, 1, 0, 1)
  {
    var rs := Example;
    assert rs[1..][1..] == rs[2..];
    assert rs[2..][1..] == [];
  }
}
