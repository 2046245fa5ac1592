/** The transaction table shared by both dashboards: one record per parking
    event, the per-field counts every statistic is built from, and the data
    frame view (rows carrying an index label) that the filters work on. */
module Transactions {

  /** A calendar date as a day number; ISO date strings order the same way. */
  type Date = int

  /** Hour of day of the parsed entry timestamp. */
  type Hour = h: int | 0 <= h < 24

  datatype Record = Record(
    transactionDate: Date,
    entryHour: Hour,
    paymentMethod: string,
    durationMinutes: int)

  /** Dates that occur in the table. */
  function DatesOf(rs: seq<Record>): set<Date> {
    set r | r in rs :: r.transactionDate
  }

  /** Payment-method strings that occur in the table. */
  function MethodsOf(rs: seq<Record>): set<string> {
    set r | r in rs :: r.paymentMethod
  }

  /** Number of records whose transaction date is `d`. */
  function CountOnDate(rs: seq<Record>, d: Date): (n: nat)
    ensures n <= |rs|
  {
    if rs == [] then 0
    else (if rs[0].transactionDate == d then 1 else 0) + CountOnDate(rs[1..], d)
  }

  /** A date has a positive count exactly when it occurs. */
  lemma {:induction false} CountOnDatePositive(rs: seq<Record>, d: Date)
    ensures CountOnDate(rs, d) > 0 <==> d in DatesOf(rs)
  {
    if rs != [] {
      assert DatesOf(rs) == {rs[0].transactionDate} + DatesOf(rs[1..]);
      CountOnDatePositive(rs[1..], d);
    }
  }

  /** Sum of the durations of the records dated `d`. */
  function DurationOnDate(rs: seq<Record>, d: Date): int {
    if rs == [] then 0
    else (if rs[0].transactionDate == d then rs[0].durationMinutes else 0) + DurationOnDate(rs[1..], d)
  }

  /** Number of records paid with exactly the method string `m`. */
  function CountMethod(rs: seq<Record>, m: string): (n: nat)
    ensures n <= |rs|
  {
    if rs == [] then 0
    else (if rs[0].paymentMethod == m then 1 else 0) + CountMethod(rs[1..], m)
  }

  /** A method string has a positive count exactly when it occurs. */
  lemma {:induction false} CountMethodPositive(rs: seq<Record>, m: string)
    ensures CountMethod(rs, m) > 0 <==> m in MethodsOf(rs)
  {
    if rs != [] {
      assert MethodsOf(rs) == {rs[0].paymentMethod} + MethodsOf(rs[1..]);
      CountMethodPositive(rs[1..], m);
    }
  }

  /** Number of records whose entry hour lies in the half-open range [lo, hi). */
  function CountHours(rs: seq<Record>, lo: int, hi: int): (n: nat)
    ensures n <= |rs|
  {
    if rs == [] then 0
    else (if lo <= rs[0].entryHour < hi then 1 else 0) + CountHours(rs[1..], lo, hi)
  }

  /** Every record is counted exactly when every entry hour is in range. */
  lemma {:induction false} CountHoursAll(rs: seq<Record>, lo: int, hi: int)
    ensures CountHours(rs, lo, hi) == |rs| <==> forall r :: r in rs ==> lo <= r.entryHour < hi
  {
    if rs != [] {
      assert forall r :: r in rs ==> r == rs[0] || r in rs[1..];
      CountHoursAll(rs[1..], lo, hi);
    }
  }

  /** Counting over a concatenation adds up. */
  lemma {:induction false} CountHoursAppend(a: seq<Record>, b: seq<Record>, lo: int, hi: int)
    ensures CountHours(a + b, lo, hi) == CountHours(a, lo, hi) + CountHours(b, lo, hi)
  {
    if a == [] {
      assert a + b == b;
    } else {
      assert (a + b)[1..] == a[1..] + b;
      CountHoursAppend(a[1..], b, lo, hi);
    }
  }

  /** Adjacent half-open hour ranges split the count of their union. */
  lemma {:induction false} CountHoursSplit(rs: seq<Record>, lo: int, mid: int, hi: int)
    requires lo <= mid <= hi
    ensures CountHours(rs, lo, hi) == CountHours(rs, lo, mid) + CountHours(rs, mid, hi)
  {
    if rs != [] {
      CountHoursSplit(rs[1..], lo, mid, hi);
    }
  }

  /** The filter dropdown's sentinel that selects every record. */
  const AllMethods: string := "All"

  /** The filter dropdown's choices, sentinel first. */
  const PaymentOptions: seq<string> := ["All", "EMONEY", "FLASH", "QRIS", "GOPAY", "DANA", "OVO"]

  // ---------------------------------------------------------------------------
  // Data frame rows
  // ---------------------------------------------------------------------------

  /** One row of a data frame: its index label and the record it holds. */
  datatype Row = Row(index: nat, record: Record)

  /** The frame built from the loaded records, labelled 0, 1, 2, ... */
  function Frame(rs: seq<Record>): (df: seq<Row>)
    ensures |df| == |rs|
    ensures forall i :: 0 <= i < |df| ==> df[i] == Row(i, rs[i])
  {
    seq(|rs|, i requires 0 <= i < |rs| => Row(i, rs[i]))
  }

  /** The records of a frame, in row order. */
  function RecordsOf(df: seq<Row>): (rs: seq<Record>)
    ensures |rs| == |df|
    ensures forall i :: 0 <= i < |df| ==> rs[i] == df[i].record
  {
    seq(|df|, i requires 0 <= i < |df| => df[i].record)
  }

  /** Boolean-mask selection on the payment-method column: the rows whose
      method equals `m`, in frame order, keeping their index labels. */
  function SelectMethod(df: seq<Row>, m: string): (sel: seq<Row>)
    ensures |sel| <= |df|
    ensures forall row :: row in sel ==> row in df && row.record.paymentMethod == m
    ensures forall row :: row in df && row.record.paymentMethod == m ==> row in sel
  {
    if df == [] then []
    else if df[0].record.paymentMethod == m then [df[0]] + SelectMethod(df[1..], m)
    else SelectMethod(df[1..], m)
  }

  /** `sub` is `df` with some rows left out and the rest in their order. */
  ghost predicate Subsequence(sub: seq<Row>, df: seq<Row>)
    decreases |df|
  {
    if sub == [] then true
    else if df == [] then false
    else (sub[0] == df[0] && Subsequence(sub[1..], df[1..])) || Subsequence(sub, df[1..])
  }

  lemma {:induction false} SelectMethodIsSubsequence(df: seq<Row>, m: string)
    ensures Subsequence(SelectMethod(df, m), df)
  {
    if df != [] {
      SelectMethodIsSubsequence(df[1..], m);
      if df[0].record.paymentMethod == m {
        assert ([df[0]] + SelectMethod(df[1..], m))[1..] == SelectMethod(df[1..], m);
      }
    }
  }

  /** Every selected row satisfies the mask, so selecting again changes nothing. */
  lemma {:induction false} SelectMethodIdempotent(df: seq<Row>, m: string)
    ensures SelectMethod(SelectMethod(df, m), m) == SelectMethod(df, m)
  {
    if df != [] {
      SelectMethodIdempotent(df[1..], m);
      if df[0].record.paymentMethod == m {
        var rest := SelectMethod(df[1..], m);
        assert ([df[0]] + rest)[1..] == rest;
      }
    }
  }

  /** Selection keeps one row per matching record: as many as CountMethod says. */
  lemma {:induction false} SelectMethodSize(df: seq<Row>, m: string)
    ensures |SelectMethod(df, m)| == CountMethod(RecordsOf(df), m)
  {
    if df != [] {
      assert RecordsOf(df)[1..] == RecordsOf(df[1..]);
      SelectMethodSize(df[1..], m);
    }
  }

  /** Index labels strictly increase along the frame. */
  ghost predicate LabelsIncreasing(df: seq<Row>) {
    forall i, j :: 0 <= i < j < |df| ==> df[i].index < df[j].index
  }

  /** Selection from a frame with increasing labels keeps them increasing. */
  lemma {:induction false} SelectMethodLabels(df: seq<Row>, m: string)
    requires LabelsIncreasing(df)
    ensures LabelsIncreasing(SelectMethod(df, m))
  {
    if df != [] {
      assert LabelsIncreasing(df[1..]);
      SelectMethodLabels(df[1..], m);
      if df[0].record.paymentMethod == m {
        var rest := SelectMethod(df[1..], m);
        forall j | 0 <= j < |rest| ensures df[0].index < rest[j].index {
          assert rest[j] in df[1..];
        }
      }
    }
  }
}
