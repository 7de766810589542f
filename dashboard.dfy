/**
 * The admin dashboard: the month axis of the approved-payments timeline (the
 * last twelve months, or a start..end range), its labels, the zero-filled
 * totals per month, the order counters and the service-usage names.
 * Months are (year, month) pairs; dates, time zones and the SQL grouping are
 * not modelled, and the grouped sums arrive as rows.
 */
module Dashboard {
  import opened Wrappers
  import opened Tables

  // ------------------------------------------------------------ months

  /** A calendar month; `month` runs from 1 to 12 as `getMonth() + 1` does. */
  datatype YearMonth = YearMonth(year: int, month: int)

  predicate ValidMonth(ym: YearMonth) {
    1 <= ym.month <= 12
  }

  /** The number of months since January of year 0. */
  function Index(ym: YearMonth): int {
    ym.year * 12 + ym.month - 1
  }

  /** The month with a given index, as `new Date(y, m, 1)` normalises an out-of-range month. */
  function FromIndex(k: int): (ym: YearMonth)
    ensures ValidMonth(ym) && Index(ym) == k
  {
    YearMonth(k / 12, k % 12 + 1)
  }

  lemma FromIndexOfIndex(ym: YearMonth)
    requires ValidMonth(ym)
    ensures FromIndex(Index(ym)) == ym
  {
    var k := Index(ym);
    assert k == ym.year * 12 + (ym.month - 1) && 0 <= ym.month - 1 < 12;
    assert k / 12 == ym.year && k % 12 == ym.month - 1;
  }

  /** `d.setMonth(d.getMonth() + 1)` on the first day of a month. */
  function NextMonth(d: YearMonth): (r: YearMonth)
    requires ValidMonth(d)
    ensures ValidMonth(r) && Index(r) == Index(d) + 1
  {
    if d.month == 12 then YearMonth(d.year + 1, 1) else YearMonth(d.year, d.month + 1)
  }

  // ------------------------------------------------------------ labels

  function Digit(n: nat): char
    requires n < 10
  {
    ('0' as int + n) as char
  }

  predicate AllDigits(s: string) {
    forall i :: 0 <= i < |s| ==> '0' <= s[i] <= '9'
  }

  /** The decimal text of a natural number, as a template literal prints it. */
  function NatStr(n: nat): (s: string)
    ensures |s| >= 1 && AllDigits(s)
    ensures s[0] == '0' ==> n == 0
    ensures n < 100 ==> |s| == if n < 10 then 1 else 2
  {
    if n < 10 then [Digit(n)] else NatStr(n / 10) + [Digit(n % 10)]
  }

  /** The value of a digit string. */
  function ParseNat(s: string): nat
    requires AllDigits(s)
  {
    if s == [] then 0 else ParseNat(s[..|s| - 1]) * 10 + (s[|s| - 1] as int - '0' as int)
  }

  lemma {:induction false} ParseNatStr(n: nat)
    ensures ParseNat(NatStr(n)) == n
  {
    if n >= 10 {
      ParseNatStr(n / 10);
      var s := NatStr(n);
      assert s[..|s| - 1] == NatStr(n / 10);
    }
  }

  /** The text of `getFullYear()`, with a sign for a year before 0. */
  function YearStr(y: int): (s: string)
    ensures |s| >= 1
  {
    if y < 0 then "-" + NatStr(-y) else NatStr(y)
  }

  /** `String(month).padStart(2, '0')`. */
  function Pad2(m: nat): (s: string)
    ensures m < 100 ==> |s| == 2 && AllDigits(s)
  {
    if m < 10 then "0" + NatStr(m) else NatStr(m)
  }

  /** The two digits read back as the month. */
  lemma Pad2Parse(m: nat)
    requires m < 100
    ensures ParseNat(Pad2(m)) == m
  {
    ParseNatStr(m);
    if m < 10 {
      var s := Pad2(m);
      assert s[..|s| - 1] == "0";
    }
  }

  /** The month label `YYYY-MM`. */
  function Label(ym: YearMonth): string
    requires ValidMonth(ym)
  {
    YearStr(ym.year) + "-" + Pad2(ym.month)
  }

  /** A label is the year, `-`, and the month as two digits. */
  lemma LabelParts(ym: YearMonth)
    requires ValidMonth(ym)
    ensures var s := Label(ym);
            && |s| >= 4 && s[|s| - 3] == '-' && AllDigits(s[|s| - 2..])
            && ParseNat(s[|s| - 2..]) == ym.month
            && s[..|s| - 3] == YearStr(ym.year)
  {
    var s := Label(ym);
    Pad2Parse(ym.month);
    assert s[|s| - 2..] == Pad2(ym.month);
    assert s[..|s| - 3] == YearStr(ym.year);
  }

  /** Reads a year back: digits, with an optional leading `-`. */
  function ParseYear(y: string): (r: Option<int>)
  {
    if |y| >= 2 && y[0] == '-' && AllDigits(y[1..]) then Some(-(ParseNat(y[1..]) as int))
    else if |y| >= 1 && AllDigits(y) then Some(ParseNat(y))
    else None
  }

  lemma ParseYearStr(y: int)
    ensures ParseYear(YearStr(y)) == Some(y)
  {
    if y < 0 {
      NegativeYear(-y);
    } else {
      var t := NatStr(y);
      ParseNatStr(y);
      assert YearStr(y) == t && t[0] != '-';
    }
  }

  lemma NegativeYear(n: nat)
    requires n > 0
    ensures ParseYear("-" + NatStr(n)) == Some(-(n as int))
  {
    var t := NatStr(n);
    ParseNatStr(n);
    var u := "-" + t;
    assert u[1..] == t;
    assert |u| >= 2 && u[0] == '-' && AllDigits(u[1..]);
  }

  /** Reads a label back: a year, `-`, and a two-digit month from 01 to 12. */
  function ParseLabel(s: string): (r: Option<YearMonth>)
    ensures r.Some? ==> ValidMonth(r.value)
  {
    if |s| < 4 || s[|s| - 3] != '-' || !AllDigits(s[|s| - 2..]) then None
    else
      var m := ParseNat(s[|s| - 2..]);
      var y := ParseYear(s[..|s| - 3]);
      if !(1 <= m <= 12) || y.None? then None else Some(YearMonth(y.value, m))
  }

  /** A label names its month: reading it back gives the same month. */
  lemma ParseLabelRoundTrip(ym: YearMonth)
    requires ValidMonth(ym)
    ensures ParseLabel(Label(ym)) == Some(ym)
  {
    LabelParts(ym);
    ParseYearStr(ym.year);
  }

  /** So two months with the same label are the same month, and a label identifies one totals entry. */
  lemma LabelInjective(a: YearMonth, b: YearMonth)
    requires ValidMonth(a) && ValidMonth(b) && Label(a) == Label(b)
    ensures a == b
  {
    ParseLabelRoundTrip(a);
    ParseLabelRoundTrip(b);
  }

  function Labels(ms: seq<YearMonth>): (r: seq<string>)
    requires forall j :: 0 <= j < |ms| ==> ValidMonth(ms[j])
    ensures |r| == |ms| && forall j :: 0 <= j < |ms| ==> r[j] == Label(ms[j])
  {
    seq(|ms|, j requires 0 <= j < |ms| => Label(ms[j]))
  }

  // ------------------------------------------------------------ axis

  /** Each month follows the one before it. */
  predicate Consecutive(ms: seq<YearMonth>) {
    forall j :: 0 <= j < |ms| - 1 ==> Index(ms[j + 1]) == Index(ms[j]) + 1
  }

  /** `n` consecutive months from the month with index `first`. */
  function Span(first: int, n: nat): (r: seq<YearMonth>)
    ensures |r| == n
    ensures forall j :: 0 <= j < n ==> r[j] == FromIndex(first + j) && ValidMonth(r[j]) && Index(r[j]) == first + j
  {
    if n == 0 then [] else Span(first, n - 1) + [FromIndex(first + n - 1)]
  }

  /** The default axis: the twelve months ending with the current one. */
  function DefaultAxis(now: YearMonth): (r: seq<YearMonth>)
    ensures |r| == 12 && forall j :: 0 <= j < 12 ==> ValidMonth(r[j])
  {
    Span(Index(now) - 11, 12)
  }

  lemma DefaultAxisShape(now: YearMonth)
    requires ValidMonth(now)
    ensures Consecutive(DefaultAxis(now))
    ensures DefaultAxis(now)[11] == now
    ensures Index(DefaultAxis(now)[0]) == Index(now) - 11
  {
    FromIndexOfIndex(now);
  }

  /** The range axis: every month from `start` through `end`, none when `start` is after `end`. */
  function RangeAxis(start: YearMonth, end: YearMonth): (r: seq<YearMonth>)
    ensures |r| == if Index(end) < Index(start) then 0 else Index(end) - Index(start) + 1
    ensures forall j :: 0 <= j < |r| ==> ValidMonth(r[j]) && Index(r[j]) == Index(start) + j
  {
    if Index(end) < Index(start) then []
    else Span(Index(start), Index(end) - Index(start) + 1)
  }

  lemma RangeAxisShape(start: YearMonth, end: YearMonth)
    requires ValidMonth(start) && ValidMonth(end)
    ensures Consecutive(RangeAxis(start, end))
    ensures RangeAxis(start, end) == [] <==> Index(end) < Index(start)
    ensures Index(start) <= Index(end) ==> RangeAxis(start, end)[0] == start
    ensures Index(start) <= Index(end) ==> RangeAxis(start, end)[|RangeAxis(start, end)| - 1] == end
  {
    if Index(start) <= Index(end) {
      FromIndexOfIndex(start);
      FromIndexOfIndex(end);
      var r := RangeAxis(start, end);
      assert Index(r[0]) == Index(start) && Index(r[|r| - 1]) == Index(end);
    }
  }

  /** The months shown: the default twelve unless both `start` and `end` are given. */
  function Axis(start: Option<YearMonth>, end: Option<YearMonth>, now: YearMonth): (r: seq<YearMonth>)
    requires start.Some? ==> ValidMonth(start.value)
    requires end.Some? ==> ValidMonth(end.value)
    requires ValidMonth(now)
    ensures forall j :: 0 <= j < |r| ==> ValidMonth(r[j])
    ensures start.None? || end.None? ==> r == DefaultAxis(now)
    ensures start.Some? && end.Some? ==> r == RangeAxis(start.value, end.value)
  {
    if start.None? || end.None? then DefaultAxis(now) else RangeAxis(start.value, end.value)
  }

  /** `months` holds the labels of the first `|months|` months of `ax`. */
  predicate LabelsPrefix(months: seq<string>, ax: seq<YearMonth>) {
    |months| <= |ax| && forall j :: 0 <= j < |months| ==> ValidMonth(ax[j]) && months[j] == Label(ax[j])
  }

  /** Appending the label of the next month of `ax` keeps `months` a prefix of its labels. */
  lemma PushLabel(months: seq<string>, ax: seq<YearMonth>, d: YearMonth)
    requires LabelsPrefix(months, ax) && |months| < |ax| && ax[|months|] == d && ValidMonth(d)
    ensures LabelsPrefix(months + [Label(d)], ax)
  {
  }

  /** A prefix as long as `ax` is all its labels. */
  lemma LabelsComplete(months: seq<string>, ax: seq<YearMonth>)
    requires LabelsPrefix(months, ax) && |months| == |ax|
    ensures forall j :: 0 <= j < |ax| ==> ValidMonth(ax[j])
    ensures months == Labels(ax)
  {
  }

  /** The `for` loop that lists the default labels, oldest first. */
  method DefaultMonths(now: YearMonth) returns (months: seq<string>)
    requires ValidMonth(now)
    ensures months == Labels(DefaultAxis(now))
  {
    months := [];
    ghost var ax := DefaultAxis(now);
    var i := 11;
    while i >= 0
      invariant -1 <= i <= 11
      invariant |months| == 11 - i
      invariant LabelsPrefix(months, ax)
    {
      var d := FromIndex(Index(now) - i);
      assert d == ax[|months|];
      PushLabel(months, ax, d);
      months := months + [Label(d)];
      i := i - 1;
    }
    LabelsComplete(months, ax);
  }

  /** The `while` loop that lists the range labels, stepping with `setMonth`. */
  method RangeMonths(start: YearMonth, end: YearMonth) returns (months: seq<string>)
    requires ValidMonth(start) && ValidMonth(end)
    ensures months == Labels(RangeAxis(start, end))
  {
    months := [];
    var d := start;
    ghost var r := RangeAxis(start, end);
    while Index(d) <= Index(end)
      invariant ValidMonth(d) && Index(start) <= Index(d)
      invariant |months| == Index(d) - Index(start) <= |r|
      invariant LabelsPrefix(months, r)
      decreases Index(end) - Index(d)
    {
      FromIndexOfIndex(d);
      assert d == r[|months|];
      PushLabel(months, r, d);
      months := months + [Label(d)];
      d := NextMonth(d);
    }
    LabelsComplete(months, r);
  }

  /** The month list of `paymentsApprovedTimeline`. */
  method TimelineMonths(start: Option<YearMonth>, end: Option<YearMonth>, now: YearMonth) returns (months: seq<string>)
    requires start.Some? ==> ValidMonth(start.value)
    requires end.Some? ==> ValidMonth(end.value)
    requires ValidMonth(now)
    ensures months == Labels(Axis(start, end, now))
  {
    if start.None? || end.None? {
      months := DefaultMonths(now);
    } else {
      months := RangeMonths(start.value, end.value);
    }
  }

  // ------------------------------------------------------------ totals

  /** `totalsByMonth` after the `forEach` over the grouped rows: a later row for a label wins. */
  function ToMap(rows: seq<(string, real)>): (m: map<string, real>)
    ensures m.Keys == set i | 0 <= i < |rows| :: rows[i].0
  {
    if rows == [] then map[] else ToMap(rows[..|rows| - 1])[rows[|rows| - 1].0 := rows[|rows| - 1].1]
  }

  /** With one row per month, as the grouping gives, each row's total is found under its label. */
  lemma {:induction false} ToMapLookup(rows: seq<(string, real)>, i: nat)
    requires i < |rows|
    requires forall a, b :: 0 <= a < b < |rows| ==> rows[a].0 != rows[b].0
    ensures ToMap(rows)[rows[i].0] == rows[i].1
  {
    if i < |rows| - 1 {
      ToMapLookup(rows[..|rows| - 1], i);
    }
  }

  /** The `forEach` that fills `totalsByMonth`. */
  method TotalsByMonth(rows: seq<(string, real)>) returns (totals: map<string, real>)
    ensures totals == ToMap(rows)
  {
    totals := map[];
    var i := 0;
    while i < |rows|
      invariant 0 <= i <= |rows|
      invariant totals == ToMap(rows[..i])
    {
      assert rows[..i + 1][..i] == rows[..i];
      totals := totals[rows[i].0 := rows[i].1];
      i := i + 1;
    }
    assert rows[..|rows|] == rows;
  }

  /** `months.map(m => totalsByMonth[m] || 0)`: one total per month, 0 for a month without payments. */
  function ZeroFill(months: seq<string>, totals: map<string, real>): (r: seq<real>)
    ensures |r| == |months|
    ensures forall j :: 0 <= j < |months| ==> (months[j] in totals ==> r[j] == totals[months[j]])
    ensures forall j :: 0 <= j < |months| ==> (months[j] !in totals ==> r[j] == 0.0)
  {
    seq(|months|, j requires 0 <= j < |months| => if months[j] in totals then totals[months[j]] else 0.0)
  }

  /** A month of the axis with a grouped row shows that row's total; one without shows 0. */
  lemma TimelineTotals(ms: seq<YearMonth>, rows: seq<(string, real)>, j: nat)
    requires forall k :: 0 <= k < |ms| ==> ValidMonth(ms[k])
    requires j < |ms|
    requires forall a, b :: 0 <= a < b < |rows| ==> rows[a].0 != rows[b].0
    ensures (exists i :: 0 <= i < |rows| && rows[i].0 == Label(ms[j])) <==> Label(ms[j]) in ToMap(rows)
    ensures forall i :: 0 <= i < |rows| && rows[i].0 == Label(ms[j]) ==>
              ZeroFill(Labels(ms), ToMap(rows))[j] == rows[i].1
    ensures Label(ms[j]) !in ToMap(rows) ==> ZeroFill(Labels(ms), ToMap(rows))[j] == 0.0
  {
    forall i | 0 <= i < |rows| && rows[i].0 == Label(ms[j])
      ensures ZeroFill(Labels(ms), ToMap(rows))[j] == rows[i].1
    {
      ToMapLookup(rows, i);
    }
  }

  // ------------------------------------------------------------ counters

  function CountStatus(os: seq<Order>, s: OrderStatus): (n: nat)
    ensures n <= |os|
  {
    if os == [] then 0 else (if os[0].status == s then 1 else 0) + CountStatus(os[1..], s)
  }

  /** Every order has exactly one of the four statuses. */
  lemma {:induction false} StatusPartition(os: seq<Order>)
    ensures CountStatus(os, Completed) + CountStatus(os, Failed) + CountStatus(os, Pending)
            + CountStatus(os, Partial) == |os|
  {
    if os != [] {
      StatusPartition(os[1..]);
    }
  }

  /** The answer of `orderStats`. */
  datatype OrderStats = OrderStats(total: nat, completed: nat, failed: nat, pending: nat)

  /** `orderStats`: partial orders count in `total` only, so the three counters never exceed it. */
  function OrderStatsOf(os: seq<Order>): (r: OrderStats)
    ensures r.total == |os|
    ensures r.completed == CountStatus(os, Completed) && r.failed == CountStatus(os, Failed)
    ensures r.pending == CountStatus(os, Pending)
    ensures r.completed + r.failed + r.pending + CountStatus(os, Partial) == r.total
    ensures r.completed + r.failed + r.pending == r.total <==> (forall i :: 0 <= i < |os| ==> os[i].status != Partial)
  {
    StatusPartition(os);
    NoPartial(os);
    OrderStats(|os|, CountStatus(os, Completed), CountStatus(os, Failed), CountStatus(os, Pending))
  }

  lemma {:induction false} NoPartial(os: seq<Order>)
    ensures CountStatus(os, Partial) == 0 <==> (forall i :: 0 <= i < |os| ==> os[i].status != Partial)
  {
    if os != [] {
      NoPartial(os[1..]);
      assert forall i :: 1 <= i < |os| ==> os[i] == os[1..][i - 1];
    }
  }

  // ------------------------------------------------------------ services usage

  /** One grouped row of `servicesUsage`: the name snapshot (NULL allowed) and its order count. */
  datatype UsageRow = UsageRow(service: string, count: nat)

  /** `u.service_name_at_order || 'Other'`. */
  function UsageName(name: Option<string>): (r: string)
    ensures r != ""
    ensures r == "Other" <==> name.None? || name.value == "" || name.value == "Other"
    ensures name.Some? && name.value != "" ==> r == name.value
  {
    if name.Some? && name.value != "" then name.value else "Other"
  }

  /** The rows sent to the pie chart, in the order of the grouping. */
  function ServicesUsage(groups: seq<(Option<string>, nat)>): (r: seq<UsageRow>)
    ensures |r| == |groups|
    ensures forall i :: 0 <= i < |groups| ==> r[i] == UsageRow(UsageName(groups[i].0), groups[i].1)
  {
    seq(|groups|, i requires 0 <= i < |groups| => UsageRow(UsageName(groups[i].0), groups[i].1))
  }

  /** A NULL group and a group named "" are both shown as "Other", next to any service really called that. */
  lemma OtherMerges(groups: seq<(Option<string>, nat)>)
    requires |groups| == 2 && groups[0].0 == None && groups[1].0 == Some("")
    ensures ServicesUsage(groups)[0].service == ServicesUsage(groups)[1].service == "Other"
  {
  }
}
