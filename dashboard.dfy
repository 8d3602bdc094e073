/**
 * The revenue dashboard: validation of the chosen date range, the summary over the loaded
 * bills, the per-day chart, moving to the next range, and the preset ranges. Dates are day
 * numbers; a date that does not parse is `None`.
 */
module Dashboard {
  import opened Common
  import opened Store
  import opened Seqs
  import opened Client

  /** The longest range the dashboard loads, in days. */
  const MaxRangeDays := 60

  /** The lengths, in days, of the preset ranges: today, 3 and 7 days, 30 and 90 days, 6 months, 1 year. */
  const PresetDays: seq<int> := [1, 3, 7, 30, 90, 182, 365]

  datatype RangeError = InvalidDates | StartAfterEnd | TooLong

  /** The number of days `eachDayOfInterval` lists from `start` to `end` inclusive. */
  function DayCount(start: Day, end: Day): nat {
    if start > end then 0 else end - start + 1
  }

  /** `dateRangeError`: what is wrong with the range, if anything. */
  function DateRangeError(start: Option<Day>, end: Option<Day>): Option<RangeError> {
    if start.None? || end.None? then Some(InvalidDates)
    else if start.value > end.value then Some(StartAfterEnd)
    else if DayCount(start.value, end.value) > MaxRangeDays then Some(TooLong)
    else None
  }

  /** A range is accepted exactly when both dates parse, start is not after end, and it spans at most 60 days. */
  lemma DateRangeErrorCases(start: Option<Day>, end: Option<Day>)
    ensures DateRangeError(start, end) == None <==>
      start.Some? && end.Some? && start.value <= end.value && end.value - start.value < 60
    ensures DateRangeError(start, end) == Some(StartAfterEnd) <==>
      start.Some? && end.Some? && start.value > end.value
    ensures DateRangeError(start, end) == Some(TooLong) <==>
      start.Some? && end.Some? && start.value <= end.value && end.value - start.value >= 60
  {
  }

  // ---------------------------------------------------------------------------------------
  // Summary

  datatype Summary = Summary(totalRevenue: int, totalBills: nat, avgOrder: real)

  /** `summary`: total revenue, number of bills, and the average bill (0 when there are none). */
  function Summarize(bills: seq<ClientBill>): (s: Summary)
    ensures s.totalRevenue == Revenue(bills) && s.totalBills == |bills|
    ensures s.totalBills == 0 ==> s.avgOrder == 0.0
    ensures s.totalBills > 0 ==> s.avgOrder * s.totalBills as real == s.totalRevenue as real
  {
    var total := Revenue(bills);
    Summary(total, |bills|, if |bills| > 0 then total as real / |bills| as real else 0.0)
  }

  // ---------------------------------------------------------------------------------------
  // Chart

  datatype ChartPoint = ChartPoint(day: Day, revenue: int, orders: nat)

  /** The test of `bill_date` against one day. */
  function OnDay(day: Day): ClientBill -> bool {
    (b: ClientBill) => b.billDate == day
  }

  /** The test of `bill_date` against an inclusive range of days. */
  function Within(start: Day, end: Day): ClientBill -> bool {
    (b: ClientBill) => start <= b.billDate <= end
  }

  /** The chart entry of one day: the revenue and the number of that day's bills. */
  function Point(bills: seq<ClientBill>, day: Day): ChartPoint {
    var dayBills := Keep(bills, OnDay(day));
    ChartPoint(day, Revenue(dayBills), |dayBills|)
  }

  /** The entries of `n` consecutive days from `start`. */
  function Points(bills: seq<ClientBill>, start: Day, n: nat): (r: seq<ChartPoint>)
    ensures |r| == n
  {
    seq(n, i requires 0 <= i < n => Point(bills, start + i))
  }

  /** `chartData`: nothing when a date does not parse, else one entry per day of the range. */
  function ChartData(bills: seq<ClientBill>, start: Option<Day>, end: Option<Day>): seq<ChartPoint> {
    if start.None? || end.None? then []
    else Points(bills, start.value, DayCount(start.value, end.value))
  }

  function SumOrders(points: seq<ChartPoint>): int {
    if |points| == 0 then 0 else SumOrders(points[..|points| - 1]) + points[|points| - 1].orders
  }

  function SumRevenue(points: seq<ChartPoint>): int {
    if |points| == 0 then 0 else SumRevenue(points[..|points| - 1]) + points[|points| - 1].revenue
  }

  /**
   * The chart has one entry per day of the range, ascending; each counts the positions of the
   * bill list dated that day, and its revenue is the sum over exactly the bills dated that day.
   */
  lemma ChartShape(bills: seq<ClientBill>, start: Day, end: Day)
    ensures var c := ChartData(bills, Some(start), Some(end));
      && |c| == DayCount(start, end)
      && forall i :: 0 <= i < |c| ==>
           && c[i].day == start + i
           && c[i].orders == |set k | 0 <= k < |bills| && bills[k].billDate == start + i|
           && c[i].revenue == Revenue(Keep(bills, OnDay(start + i)))
           && (forall b :: b in Keep(bills, OnDay(start + i)) <==> b in bills && b.billDate == start + i)
  {
    var c := ChartData(bills, Some(start), Some(end));
    assert forall i :: 0 <= i < |c| ==> c[i] == Point(bills, start + i);
    forall i | 0 <= i < |c|
      ensures c[i].orders == |set k | 0 <= k < |bills| && bills[k].billDate == start + i|
      ensures forall b :: b in Keep(bills, OnDay(start + i)) <==> b in bills && b.billDate == start + i
    {
      var day := start + i;
      assert c[i] == Point(bills, day);
      KeepCount(bills, OnDay(day));
      KeepMembers(bills, OnDay(day));
      assert Positions(bills, OnDay(day)) == set k | 0 <= k < |bills| && bills[k].billDate == day;
    }
  }

  /**
   * Over the whole chart, the orders add up to the number of bills dated inside the range and
   * the revenue to their final prices.
   */
  lemma ChartTotals(bills: seq<ClientBill>, start: Day, end: Day)
    ensures var c := ChartData(bills, Some(start), Some(end));
      && SumOrders(c) == |Keep(bills, Within(start, end))|
      && SumRevenue(c) == Revenue(Keep(bills, Within(start, end)))
  {
    if start > end {
      KeepNone(bills, Within(start, end));
    } else {
      PointsTotals(bills, start, end - start + 1);
    }
  }

  lemma PointsTotals(bills: seq<ClientBill>, start: Day, n: nat)
    ensures SumOrders(Points(bills, start, n)) == |Keep(bills, Within(start, start + n - 1))|
    ensures SumRevenue(Points(bills, start, n)) == Revenue(Keep(bills, Within(start, start + n - 1)))
  {
    PointsOrders(bills, start, n);
    PointsRevenue(bills, start, n);
  }

  lemma {:induction false} PointsOrders(bills: seq<ClientBill>, start: Day, n: nat)
    ensures SumOrders(Points(bills, start, n)) == |Keep(bills, Within(start, start + n - 1))|
  {
    if n == 0 {
      KeepNone(bills, Within(start, start - 1));
    } else {
      var last := start + n - 1;
      PointsOrders(bills, start, n - 1);
      PointsStep(bills, start, n);
      RangeCountStep(bills, start, last);
    }
  }

  lemma {:induction false} PointsRevenue(bills: seq<ClientBill>, start: Day, n: nat)
    ensures SumRevenue(Points(bills, start, n)) == Revenue(Keep(bills, Within(start, start + n - 1)))
  {
    if n == 0 {
      KeepNone(bills, Within(start, start - 1));
    } else {
      var last := start + n - 1;
      PointsRevenue(bills, start, n - 1);
      PointsStep(bills, start, n);
      RangeRevenueStep(bills, start, last);
    }
  }

  /** One more day adds that day's entry to the sums. */
  lemma PointsStep(bills: seq<ClientBill>, start: Day, n: nat)
    requires n >= 1
    ensures SumOrders(Points(bills, start, n)) == SumOrders(Points(bills, start, n - 1)) + |Keep(bills, OnDay(start + n - 1))|
    ensures SumRevenue(Points(bills, start, n)) == SumRevenue(Points(bills, start, n - 1)) + Revenue(Keep(bills, OnDay(start + n - 1)))
  {
    var p := Points(bills, start, n);
    assert p[..n - 1] == Points(bills, start, n - 1);
    assert p[n - 1] == Point(bills, start + n - 1);
  }

  lemma RangeCountStep(bills: seq<ClientBill>, start: Day, last: Day)
    requires start <= last
    ensures |Keep(bills, Within(start, last))| == |Keep(bills, Within(start, last - 1))| + |Keep(bills, OnDay(last))|
  {
    WithinSplit(start, last);
    KeepCountSplit(bills, Within(start, last - 1), OnDay(last), Within(start, last));
  }

  lemma RangeRevenueStep(bills: seq<ClientBill>, start: Day, last: Day)
    requires start <= last
    ensures Revenue(Keep(bills, Within(start, last)))
            == Revenue(Keep(bills, Within(start, last - 1))) + Revenue(Keep(bills, OnDay(last)))
  {
    WithinSplit(start, last);
    RevenueSplit(bills, Within(start, last - 1), OnDay(last), Within(start, last));
  }

  /** A range one day longer adds exactly the bills of its last day. */
  lemma WithinSplit(start: Day, last: Day)
    requires start <= last
    ensures forall b :: Within(start, last)(b) == (Within(start, last - 1)(b) || OnDay(last)(b))
    ensures forall b :: !(Within(start, last - 1)(b) && OnDay(last)(b))
  {
  }

  // ---------------------------------------------------------------------------------------
  // Moving through ranges

  /** `nextRange`: both dates move forward by the range's length (at least one day). */
  function NextRange(start: Option<Day>, end: Option<Day>): (Option<Day>, Option<Day>) {
    if start.None? || end.None? then (start, end)
    else
      var shift := Max(1, DayCount(start.value, end.value));
      (Some(start.value + shift), Some(end.value + shift))
  }

  /**
   * The next range of a valid range starts the day after it ends and is as long; an unparsable
   * range stays where it is, and a reversed one moves by one day.
   */
  lemma NextRangeEffect(start: Option<Day>, end: Option<Day>)
    ensures start.None? || end.None? ==> NextRange(start, end) == (start, end)
    ensures start.Some? && end.Some? && start.value <= end.value ==>
      var (s, e) := NextRange(start, end);
      && s == Some(end.value + 1)
      && e.Some? && DayCount(s.value, e.value) == DayCount(start.value, end.value)
    ensures start.Some? && end.Some? && start.value > end.value ==>
      NextRange(start, end) == (Some(start.value + 1), Some(end.value + 1))
  {
  }

  /** `applyPreset`: the range of `days` days that ends today. */
  function ApplyPreset(today: Day, days: int): (Day, Day) {
    (today - (days - 1), today)
  }

  /** `isPresetActive`: the range is the one `days` would choose today. */
  predicate IsPresetActive(start: Option<Day>, end: Option<Day>, today: Day, days: int) {
    end == Some(today) && start == Some(today - (days - 1))
  }

  /**
   * Right after a preset is applied, that preset and no other shows as active, and the range
   * spans exactly its number of days.
   */
  lemma PresetEffect(today: Day, days: int, other: int)
    requires days >= 1
    ensures var (s, e) := ApplyPreset(today, days);
      && IsPresetActive(Some(s), Some(e), today, days)
      && (IsPresetActive(Some(s), Some(e), today, other) <==> other == days)
      && DayCount(s, e) == days
  {
  }

  /**
   * The presets of 90 days and beyond choose a range that the 60-day limit refuses; the others
   * are accepted.
   */
  lemma PresetsAgainstLimit(today: Day)
    ensures forall i :: 0 <= i < |PresetDays| ==>
      var (s, e) := ApplyPreset(today, PresetDays[i]);
      DateRangeError(Some(s), Some(e)) == if PresetDays[i] > MaxRangeDays then Some(TooLong) else None
    ensures forall i :: 0 <= i < |PresetDays| ==> (PresetDays[i] > MaxRangeDays <==> i >= 4)
  {
  }
}
