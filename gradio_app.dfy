/** The Gradio dashboard: its latest-day count, taken from the maximum
    transaction date rather than from the sorted per-day counts, and
    `filter_data`, which renumbers the rows it selects. */
module GradioApp {
  import opened Transactions
  import opened Aggregation
  import StreamlitApp

  /** The latest transaction date in the table (`selected_day`). */
  function SelectedDay(rs: seq<Record>): (d: Date)
    requires rs != []
    ensures d in DatesOf(rs)
    ensures forall r :: r in rs ==> r.transactionDate <= d
  {
    if |rs| == 1 then rs[0].transactionDate
    else
      var rest := SelectedDay(rs[1..]);
      assert forall r :: r in rs ==> r == rs[0] || r in rs[1..];
      assert DatesOf(rs) == {rs[0].transactionDate} + DatesOf(rs[1..]);
      if rs[0].transactionDate >= rest then rs[0].transactionDate else rest
  }

  /** How many records carry the latest date (`transactions_for_day`): at
      least one, since that date occurs. */
  function TransactionsForDay(rs: seq<Record>): (n: nat)
    requires rs != []
    ensures 1 <= n <= TotalTransactions(rs)
  {
    CountOnDatePositive(rs, SelectedDay(rs));
    CountOnDate(rs, SelectedDay(rs))
  }

  /** Both dashboards report the same latest day and count: the maximum date
      is the date of the last row of the per-day counts, and its count is
      that row's count. */
  lemma {:induction false} LatestDayAgrees(rs: seq<Record>)
    requires rs != []
    ensures var dg := DateGroup(rs);
      && |dg| >= 1
      && dg[|dg| - 1] == DayCount(SelectedDay(rs), TransactionsForDay(rs))
      && StreamlitApp.LatestDaySummary(rs).value.selectedDay == SelectedDay(rs)
      && StreamlitApp.LatestDaySummary(rs).value.todayCount == TransactionsForDay(rs)
  {
    var s := StreamlitApp.LatestDaySummary(rs).value;
    var d := SelectedDay(rs);
    assert s.selectedDay <= d by {
      assert s.selectedDay in DatesOf(rs);
    }
    assert d <= s.selectedDay by {
      var r :| r in rs && r.transactionDate == d;
    }
  }

  /** Resetting the index: the same rows relabelled 0, 1, 2, ... */
  function ResetIndex(df: seq<Row>): (out: seq<Row>)
    ensures |out| == |df|
    ensures forall i :: 0 <= i < |out| ==> out[i].index == i && out[i].record == df[i].record
  {
    Frame(RecordsOf(df))
  }

  /** `filter_data`: the whole table for the sentinel, otherwise the rows of
      the selected method, renumbered from 0. */
  function FilterData(df: seq<Row>, paymentMethod: string): (out: seq<Row>)
    ensures paymentMethod == AllMethods ==> out == df
    ensures paymentMethod != AllMethods ==>
      && |out| == CountMethod(RecordsOf(df), paymentMethod)
      && forall i :: 0 <= i < |out| ==> out[i].index == i && out[i].record.paymentMethod == paymentMethod
  {
    if paymentMethod != AllMethods then
      var sel := SelectMethod(df, paymentMethod);
      SelectMethodSize(df, paymentMethod);
      assert forall i :: 0 <= i < |sel| ==> sel[i] in sel;
      ResetIndex(sel)
    else
      df
  }

  /** The sentinel returns the loaded table unchanged. */
  lemma {:induction false} FilterDataAll(rs: seq<Record>)
    ensures FilterData(Frame(rs), AllMethods) == Frame(rs)
  {
  }

  /** Any other method gives the same records, in the same order, as the
      Streamlit filter; only the index labels differ, renumbered 0, 1, 2, ...
      so every returned record has that method, no matching record is
      left out, and there is one row per matching record. */
  lemma {:induction false} FilterDataMatches(rs: seq<Record>, m: string)
    requires m != AllMethods
    ensures var out := FilterData(Frame(rs), m);
      && RecordsOf(out) == RecordsOf(StreamlitApp.FilterTable(Frame(rs), m))
      && (forall i :: 0 <= i < |out| ==> out[i].index == i && out[i].record.paymentMethod == m)
      && (forall r :: r in rs && r.paymentMethod == m ==> r in RecordsOf(out))
      && |out| == CountMethod(rs, m)
  {
    var df := Frame(rs);
    var sel := SelectMethod(df, m);
    var out := FilterData(df, m);
    StreamlitApp.FilterExactMatch(rs, m);
    assert RecordsOf(out) == RecordsOf(sel);
    forall i | 0 <= i < |out| ensures out[i].record.paymentMethod == m {
      assert sel[i] in sel;
    }
    forall r | r in rs && r.paymentMethod == m ensures r in RecordsOf(out) {
      var i :| 0 <= i < |rs| && rs[i] == r;
      assert Row(i, r) in sel;
      var j :| 0 <= j < |sel| && sel[j] == Row(i, r);
      assert RecordsOf(out)[j] == r;
    }
  }

  /** Filtering its own output by the same method returns that output. */
  lemma {:induction false} FilterDataIdempotent(df: seq<Row>, m: string)
    ensures FilterData(FilterData(df, m), m) == FilterData(df, m)
  {
    if m != AllMethods {
      var sel := SelectMethod(df, m);
      var once := ResetIndex(sel);
      var twice := SelectMethod(once, m);
      assert forall row :: row in once ==> row.record.paymentMethod == m by {
        forall row | row in once ensures row.record.paymentMethod == m {
          var i :| 0 <= i < |once| && once[i] == row;
          assert sel[i] in sel;
        }
      }
      SelectAllMatching(once, m);
    }
  }

  /** Selecting on a table whose every row matches keeps it whole. */
  lemma {:induction false} SelectAllMatching(df: seq<Row>, m: string)
    requires forall row :: row in df ==> row.record.paymentMethod == m
    ensures SelectMethod(df, m) == df
  {
    if df != [] {
      assert df[0] in df;
      assert forall row :: row in df[1..] ==> row in df;
      SelectAllMatching(df[1..], m);
      assert df == [df[0]] + df[1..];
    }
  }
}
