/** The statistics both dashboards compute from the transaction table:
    the grouping by transaction date (per-day counts and per-day duration
    totals), the payment-method breakdown and the four busy-hour segments. */
module Aggregation {
  import opened Transactions

  /** The number of transactions: the number of rows of the table. */
  function TotalTransactions(rs: seq<Record>): nat {
    |rs|
  }

  // ---------------------------------------------------------------------------
  // Grouping by transaction date
  // ---------------------------------------------------------------------------

  /** One group of the grouping by transaction date: the date, its group size
      and the total of its durations. */
  datatype DayGroup = DayGroup(date: Date, count: nat, durationSum: int)

  ghost predicate Ascending(g: seq<DayGroup>) {
    forall i, j :: 0 <= i < j < |g| ==> g[i].date < g[j].date
  }

  ghost predicate NonEmptyGroups(g: seq<DayGroup>) {
    forall e :: e in g ==> e.count >= 1
  }

  /** Dates that have a group. */
  function KeysOf(g: seq<DayGroup>): set<Date> {
    if g == [] then {} else {g[0].date} + KeysOf(g[1..])
  }

  lemma {:induction false} KeysOfAt(g: seq<DayGroup>, x: Date)
    ensures x in KeysOf(g) <==> exists i :: 0 <= i < |g| && g[i].date == x
  {
    if g != [] {
      KeysOfAt(g[1..], x);
      if x in KeysOf(g[1..]) {
        var i :| 0 <= i < |g[1..]| && g[1..][i].date == x;
        assert g[i + 1].date == x;
      }
      if exists i :: 0 <= i < |g| && g[i].date == x {
        var i :| 0 <= i < |g| && g[i].date == x;
        if i > 0 { assert g[1..][i - 1].date == x; }
      }
    }
  }

  /** Records counted under date `d`, over all groups. */
  function CountIn(g: seq<DayGroup>, d: Date): nat {
    if g == [] then 0 else (if g[0].date == d then g[0].count else 0) + CountIn(g[1..], d)
  }

  /** Duration total under date `d`, over all groups. */
  function DurationIn(g: seq<DayGroup>, d: Date): int {
    if g == [] then 0 else (if g[0].date == d then g[0].durationSum else 0) + DurationIn(g[1..], d)
  }

  /** Records counted over all groups. */
  function TotalIn(g: seq<DayGroup>): nat {
    if g == [] then 0 else g[0].count + TotalIn(g[1..])
  }

  lemma {:induction false} AbsentKey(g: seq<DayGroup>, d: Date)
    requires d !in KeysOf(g)
    ensures CountIn(g, d) == 0 && DurationIn(g, d) == 0
  {
    if g != [] {
      AbsentKey(g[1..], d);
    }
  }

  /** Adds one record to an ascending list of groups: a new group of size one
      when its date is not there yet, otherwise one more in its date's group. */
  function Insert(g: seq<DayGroup>, r: Record): seq<DayGroup> {
    var d := r.transactionDate;
    if g == [] || d < g[0].date then [DayGroup(d, 1, r.durationMinutes)] + g
    else if d == g[0].date then [DayGroup(d, g[0].count + 1, g[0].durationSum + r.durationMinutes)] + g[1..]
    else [g[0]] + Insert(g[1..], r)
  }

  lemma {:induction false} InsertHead(g: seq<DayGroup>, r: Record)
    ensures |Insert(g, r)| > 0
    ensures Insert(g, r)[0].date == if g == [] || r.transactionDate < g[0].date then r.transactionDate else g[0].date
  {
  }

  lemma {:induction false} InsertAscending(g: seq<DayGroup>, r: Record)
    requires Ascending(g)
    ensures Ascending(Insert(g, r))
  {
    var d := r.transactionDate;
    if g != [] && d > g[0].date {
      var rest := Insert(g[1..], r);
      InsertAscending(g[1..], r);
      InsertHead(g[1..], r);
      assert g[1..] != [] ==> g[0].date < g[1].date;
      var g' := [g[0]] + rest;
      forall i, j | 0 <= i < j < |g'| ensures g'[i].date < g'[j].date {
        if i == 0 {
          assert g'[j] == rest[j - 1];
          if j > 1 { assert rest[0].date < rest[j - 1].date; }
        } else {
          assert g'[i] == rest[i - 1] && g'[j] == rest[j - 1];
        }
      }
    }
  }

  lemma {:induction false} InsertKeys(g: seq<DayGroup>, r: Record)
    ensures KeysOf(Insert(g, r)) == KeysOf(g) + {r.transactionDate}
  {
    var d := r.transactionDate;
    if g == [] || d < g[0].date {
      assert ([DayGroup(d, 1, r.durationMinutes)] + g)[1..] == g;
    } else if d == g[0].date {
      assert ([DayGroup(d, g[0].count + 1, g[0].durationSum + r.durationMinutes)] + g[1..])[1..] == g[1..];
    } else {
      InsertKeys(g[1..], r);
      assert ([g[0]] + Insert(g[1..], r))[1..] == Insert(g[1..], r);
    }
  }

  lemma {:induction false} InsertCounts(g: seq<DayGroup>, r: Record, x: Date)
    ensures CountIn(Insert(g, r), x) == CountIn(g, x) + (if x == r.transactionDate then 1 else 0)
    ensures DurationIn(Insert(g, r), x) == DurationIn(g, x) + (if x == r.transactionDate then r.durationMinutes else 0)
    ensures TotalIn(Insert(g, r)) == TotalIn(g) + 1
  {
    var d := r.transactionDate;
    if g == [] || d < g[0].date {
      assert ([DayGroup(d, 1, r.durationMinutes)] + g)[1..] == g;
    } else if d == g[0].date {
      assert ([DayGroup(d, g[0].count + 1, g[0].durationSum + r.durationMinutes)] + g[1..])[1..] == g[1..];
    } else {
      InsertCounts(g[1..], r, x);
      assert ([g[0]] + Insert(g[1..], r))[1..] == Insert(g[1..], r);
    }
  }

  lemma {:induction false} InsertNonEmpty(g: seq<DayGroup>, r: Record)
    requires NonEmptyGroups(g)
    ensures NonEmptyGroups(Insert(g, r))
  {
    var d := r.transactionDate;
    if g != [] && d > g[0].date {
      assert forall e :: e in g[1..] ==> e in g;
      InsertNonEmpty(g[1..], r);
    } else if g != [] && d == g[0].date {
      assert forall e :: e in g[1..] ==> e in g;
    }
  }

  /** The grouping of the table by transaction date, groups in ascending
      date order (pandas sorts group keys). */
  function GroupByDate(rs: seq<Record>): seq<DayGroup> {
    if rs == [] then [] else Insert(GroupByDate(rs[1..]), rs[0])
  }

  /** The groups are ascending and non-empty, one per occurring date, and
      together they hold every record once. */
  lemma {:induction false} GroupByDateShape(rs: seq<Record>)
    ensures Ascending(GroupByDate(rs)) && NonEmptyGroups(GroupByDate(rs))
    ensures KeysOf(GroupByDate(rs)) == DatesOf(rs)
    ensures TotalIn(GroupByDate(rs)) == |rs|
  {
    if rs != [] {
      GroupByDateShape(rs[1..]);
      var g := GroupByDate(rs[1..]);
      InsertAscending(g, rs[0]);
      InsertNonEmpty(g, rs[0]);
      InsertKeys(g, rs[0]);
      InsertCounts(g, rs[0], rs[0].transactionDate);
      assert DatesOf(rs) == {rs[0].transactionDate} + DatesOf(rs[1..]);
    }
  }

  /** The groups file under each date exactly that date's records. */
  lemma {:induction false} GroupByDateCounts(rs: seq<Record>, x: Date)
    ensures CountIn(GroupByDate(rs), x) == CountOnDate(rs, x)
    ensures DurationIn(GroupByDate(rs), x) == DurationOnDate(rs, x)
  {
    if rs != [] {
      GroupByDateCounts(rs[1..], x);
      InsertCounts(GroupByDate(rs[1..]), rs[0], x);
    }
  }

  /** In an ascending list of groups, the group at index `i` holds everything
      filed under its date. */
  lemma {:induction false} GroupAt(g: seq<DayGroup>, i: nat)
    requires Ascending(g) && i < |g|
    ensures CountIn(g, g[i].date) == g[i].count
    ensures DurationIn(g, g[i].date) == g[i].durationSum
  {
    if i == 0 {
      KeysOfAt(g[1..], g[0].date);
      AbsentKey(g[1..], g[0].date);
    } else {
      assert Ascending(g[1..]);
      GroupAt(g[1..], i - 1);
      assert g[0].date < g[i].date;
    }
  }

  /** An ascending list of groups has one distinct date per group. */
  lemma {:induction false} AscendingKeysCount(g: seq<DayGroup>)
    requires Ascending(g)
    ensures |KeysOf(g)| == |g|
  {
    if g != [] {
      KeysOfAt(g[1..], g[0].date);
      assert Ascending(g[1..]);
      AscendingKeysCount(g[1..]);
    }
  }

  /** Facts about the group at index `i` of the grouping. */
  lemma {:induction false} GroupOf(rs: seq<Record>, i: nat)
    requires i < |GroupByDate(rs)|
    ensures GroupGood(rs, GroupByDate(rs)[i])
  {
    var g := GroupByDate(rs);
    GroupByDateShape(rs);
    GroupAt(g, i);
    GroupByDateCounts(rs, g[i].date);
    assert g[i] in g;
    KeysOfAt(g, g[i].date);
  }

  /** A group that occurs and holds exactly the records of its date. */
  ghost predicate GroupGood(rs: seq<Record>, e: DayGroup) {
    e.date in DatesOf(rs) && e.count >= 1
    && e.count == CountOnDate(rs, e.date) && e.durationSum == DurationOnDate(rs, e.date)
  }

  /** The grouping, index by index: one group per occurring date, ascending,
      each holding exactly its date's records. */
  lemma {:induction false} GroupByDateSpec(rs: seq<Record>)
    ensures |GroupByDate(rs)| == |DatesOf(rs)|
    ensures Ascending(GroupByDate(rs))
    ensures forall i :: 0 <= i < |GroupByDate(rs)| ==> GroupGood(rs, GroupByDate(rs)[i])
    ensures forall x :: x in DatesOf(rs) ==> exists i :: 0 <= i < |GroupByDate(rs)| && GroupByDate(rs)[i].date == x
  {
    var g := GroupByDate(rs);
    GroupByDateShape(rs);
    AscendingKeysCount(g);
    forall i | 0 <= i < |g| ensures GroupGood(rs, g[i]) {
      GroupOf(rs, i);
    }
    forall x | x in DatesOf(rs) ensures exists i :: 0 <= i < |g| && g[i].date == x {
      KeysOfAt(g, x);
    }
  }

  /** One row of `date_group`: a transaction date and its record count. */
  datatype DayCount = DayCount(date: Date, count: nat)

  /** The group sizes sorted by date (`date_group`): one row per
      occurring date, strictly ascending, each holding that date's count. */
  function DateGroup(rs: seq<Record>): (dg: seq<DayCount>)
    ensures |dg| == |DatesOf(rs)|
    ensures forall i, j :: 0 <= i < j < |dg| ==> dg[i].date < dg[j].date
    ensures forall i :: 0 <= i < |dg| ==>
      dg[i].date in DatesOf(rs) && dg[i].count >= 1 && dg[i].count == CountOnDate(rs, dg[i].date)
    ensures forall x :: x in DatesOf(rs) ==> exists i :: 0 <= i < |dg| && dg[i].date == x
  {
    var g := GroupByDate(rs);
    GroupByDateSpec(rs);
    var dg := seq(|g|, i requires 0 <= i < |g| => DayCount(g[i].date, g[i].count));
    assert forall i :: 0 <= i < |g| ==> dg[i].date == g[i].date && dg[i].count == g[i].count;
    dg
  }

  function SumCounts(dg: seq<DayCount>): nat {
    if dg == [] then 0 else dg[0].count + SumCounts(dg[1..])
  }

  lemma {:induction false} SumCountsOfProjection(g: seq<DayGroup>, dg: seq<DayCount>)
    requires |dg| == |g|
    requires forall i :: 0 <= i < |g| ==> dg[i].count == g[i].count
    ensures SumCounts(dg) == TotalIn(g)
  {
    if g != [] {
      SumCountsOfProjection(g[1..], dg[1..]);
    }
  }

  /** The per-day counts of `date_group` add up to the number of records. */
  lemma {:induction false} DateGroupSumsToTotal(rs: seq<Record>)
    ensures SumCounts(DateGroup(rs)) == TotalTransactions(rs)
  {
    GroupByDateShape(rs);
    SumCountsOfProjection(GroupByDate(rs), DateGroup(rs));
  }

  /** A per-day mean of the parking durations, kept as the exact pair
      (total, count): the mean is durationSum / count. */
  datatype DayMean = DayMean(date: Date, durationSum: int, count: nat)

  /** The per-day mean duration (`avg_duration`), one
      (total, count) pair per occurring date, ascending by date. */
  function AverageDuration(rs: seq<Record>): (avg: seq<DayMean>)
    ensures |avg| == |DatesOf(rs)|
    ensures forall i, j :: 0 <= i < j < |avg| ==> avg[i].date < avg[j].date
    ensures forall i :: 0 <= i < |avg| ==>
      avg[i].date in DatesOf(rs) && avg[i].count >= 1 && avg[i].count == CountOnDate(rs, avg[i].date)
      && avg[i].durationSum == DurationOnDate(rs, avg[i].date)
    ensures forall x :: x in DatesOf(rs) ==> exists i :: 0 <= i < |avg| && avg[i].date == x
  {
    var g := GroupByDate(rs);
    GroupByDateSpec(rs);
    var avg := seq(|g|, i requires 0 <= i < |g| => DayMean(g[i].date, g[i].durationSum, g[i].count));
    assert forall i :: 0 <= i < |g| ==>
      avg[i].date == g[i].date && avg[i].count == g[i].count && avg[i].durationSum == g[i].durationSum;
    avg
  }

  /** When every duration on day `d` lies in [lo, hi], so does their mean:
      count * lo <= total <= count * hi. */
  lemma {:induction false} MeanWithinBounds(rs: seq<Record>, d: Date, lo: int, hi: int)
    requires forall r :: r in rs && r.transactionDate == d ==> lo <= r.durationMinutes <= hi
    ensures CountOnDate(rs, d) * lo <= DurationOnDate(rs, d) <= CountOnDate(rs, d) * hi
  {
    if rs != [] {
      var tail := rs[1..];
      assert forall r :: r in tail ==> r in rs;
      MeanWithinBounds(tail, d, lo, hi);
      var c, t := CountOnDate(tail, d), DurationOnDate(tail, d);
      if rs[0].transactionDate == d {
        var x := rs[0].durationMinutes;
        assert rs[0] in rs;
        assert CountOnDate(rs, d) == c + 1 && DurationOnDate(rs, d) == x + t;
        MulStep(c, lo);
        MulStep(c, hi);
      } else {
        assert CountOnDate(rs, d) == c && DurationOnDate(rs, d) == t;
      }
    }
  }

  lemma MulStep(c: int, k: int)
    ensures (c + 1) * k == c * k + k
  {
  }

  // ---------------------------------------------------------------------------
  // Payment methods
  // ---------------------------------------------------------------------------

  /** The value counts of the payment-method column: every observed string,
      counted literally (no validation against the option list). */
  function PaymentCounts(rs: seq<Record>): map<string, nat> {
    if rs == [] then map[]
    else
      var pc, m := PaymentCounts(rs[1..]), rs[0].paymentMethod;
      pc[m := (if m in pc then pc[m] else 0) + 1]
  }

  /** The keys are exactly the observed method strings, and each value is
      the positive number of records carrying that string. */
  lemma {:induction false} PaymentCountsSpec(rs: seq<Record>)
    ensures PaymentCounts(rs).Keys == MethodsOf(rs)
    ensures forall m :: m in PaymentCounts(rs) ==> PaymentCounts(rs)[m] >= 1 && PaymentCounts(rs)[m] == CountMethod(rs, m)
  {
    if rs != [] {
      var pc, m := PaymentCounts(rs[1..]), rs[0].paymentMethod;
      assert PaymentCounts(rs) == pc[m := (if m in pc then pc[m] else 0) + 1];
      PaymentCountsSpec(rs[1..]);
      CountMethodPositive(rs[1..], m);
      assert MethodsOf(rs) == {m} + MethodsOf(rs[1..]);
    }
  }

  /** Sum of the values of a count map. */
  ghost function MapSum(pc: map<string, nat>): nat
    decreases |pc|
  {
    if pc == map[] then 0
    else
      var m :| m in pc;
      assert |(pc - {m}).Keys| == |pc.Keys - {m}| == |pc.Keys| - 1;
      pc[m] + MapSum(pc - {m})
  }

  /** MapSum does not depend on which key is taken out first. */
  lemma {:induction false} MapSumRemove(pc: map<string, nat>, m: string)
    requires m in pc
    ensures MapSum(pc) == pc[m] + MapSum(pc - {m})
    decreases |pc|
  {
    var j :| j in pc && MapSum(pc) == pc[j] + MapSum(pc - {j});
    if j != m {
      assert |(pc - {j}).Keys| == |pc.Keys - {j}| == |pc.Keys| - 1;
      assert |(pc - {m}).Keys| == |pc.Keys - {m}| == |pc.Keys| - 1;
      MapSumRemove(pc - {j}, m);
      MapSumRemove(pc - {m}, j);
      assert pc - {j} - {m} == pc - {m} - {j};
    }
  }

  /** Counting one more occurrence of `m` adds one to the sum. */
  lemma {:induction false} MapSumIncrement(pc: map<string, nat>, m: string)
    ensures MapSum(pc[m := (if m in pc then pc[m] else 0) + 1]) == MapSum(pc) + 1
  {
    var pc' := pc[m := (if m in pc then pc[m] else 0) + 1];
    MapSumRemove(pc', m);
    assert pc' - {m} == pc - {m};
    if m in pc {
      MapSumRemove(pc, m);
    } else {
      assert pc - {m} == pc;
    }
  }

  /** The payment-method counts add up to the number of records. */
  lemma {:induction false} PaymentCountsSumToTotal(rs: seq<Record>)
    ensures MapSum(PaymentCounts(rs)) == TotalTransactions(rs)
  {
    if rs != [] {
      var pc, m := PaymentCounts(rs[1..]), rs[0].paymentMethod;
      assert PaymentCounts(rs) == pc[m := (if m in pc then pc[m] else 0) + 1];
      PaymentCountsSumToTotal(rs[1..]);
      MapSumIncrement(pc, m);
    }
  }

  // ---------------------------------------------------------------------------
  // Busy hours
  // ---------------------------------------------------------------------------

  /** The four busy-hour segments of the 10:00-22:00 operating window. */
  datatype BusyHours = BusyHours(from10To13: nat, from13To16: nat, from16To19: nat, from19To22: nat) {
    function Sum(): nat {
      from10To13 + from13To16 + from16To19 + from19To22
    }
    function Plus(other: BusyHours): BusyHours {
      BusyHours(from10To13 + other.from10To13, from13To16 + other.from13To16,
                from16To19 + other.from16To19, from19To22 + other.from19To22)
    }
  }

  /** Each segment counts the entry hours in its half-open 3-hour range; hours
      outside [10, 22) are in no segment. */
  function BusyHoursOf(rs: seq<Record>): BusyHours {
    BusyHours(CountHours(rs, 10, 13), CountHours(rs, 13, 16), CountHours(rs, 16, 19), CountHours(rs, 19, 22))
  }

  /** The segments never count more than all records, and count all of them
      exactly when every entry hour lies in [10, 22). */
  lemma {:induction false} BusyHoursWithinTotal(rs: seq<Record>)
    ensures BusyHoursOf(rs).Sum() == CountHours(rs, 10, 22)
    ensures BusyHoursOf(rs).Sum() <= TotalTransactions(rs)
    ensures BusyHoursOf(rs).Sum() == TotalTransactions(rs) <==> forall r :: r in rs ==> 10 <= r.entryHour < 22
  {
    CountHoursSplit(rs, 10, 13, 22);
    CountHoursSplit(rs, 13, 16, 22);
    CountHoursSplit(rs, 16, 19, 22);
    CountHoursAll(rs, 10, 22);
  }

  lemma {:induction false} PlusFieldwise(x: BusyHours, y: BusyHours, z: BusyHours)
    requires x.from10To13 == y.from10To13 + z.from10To13
    requires x.from13To16 == y.from13To16 + z.from13To16
    requires x.from16To19 == y.from16To19 + z.from16To19
    requires x.from19To22 == y.from19To22 + z.from19To22
    ensures x == y.Plus(z)
  {
  }

  /** Segment counts over a concatenation add up. */
  lemma {:induction false} BusyHoursAdditive(a: seq<Record>, b: seq<Record>)
    ensures BusyHoursOf(a + b) == BusyHoursOf(a).Plus(BusyHoursOf(b))
  {
    CountHoursAppend(a, b, 10, 13);
    CountHoursAppend(a, b, 13, 16);
    CountHoursAppend(a, b, 16, 19);
    CountHoursAppend(a, b, 19, 22);
    PlusFieldwise(BusyHoursOf(a + b), BusyHoursOf(a), BusyHoursOf(b));
  }

  /** A single record falls in exactly one segment when its hour is in the
      window, and in none otherwise: no record is counted twice. */
  lemma {:induction false} SegmentsDisjoint(r: Record)
    ensures BusyHoursOf([r]).Sum() == if 10 <= r.entryHour < 22 then 1 else 0
  {
    assert [r][1..] == [];
    BusyHoursWithinTotal([r]);
  }

  /** Adding a record whose entry hour is outside [10, 22) changes no segment. */
  lemma {:induction false} OutOfWindowIgnored(rs: seq<Record>, r: Record)
    requires !(10 <= r.entryHour < 22)
    ensures BusyHoursOf(rs + [r]) == BusyHoursOf(rs)
  {
    assert [r][1..] == [];
    CountHoursAppend(rs, [r], 10, 13);
    CountHoursAppend(rs, [r], 13, 16);
    CountHoursAppend(rs, [r], 16, 19);
    CountHoursAppend(rs, [r], 19, 22);
  }
}
