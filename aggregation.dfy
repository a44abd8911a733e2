/**
 * The dashboard's aggregation helpers: period-over-period trends, the previous period of
 * a date range, sparkline series, sentiment shares that add up to 100, and the dates of
 * the last N days. Datetimes are integer seconds.
 */
module AggregationService {
  import opened Numeric
  import Sorting
  import DashboardSchemas

  type Trend = DashboardSchemas.TrendSchema

  /**
   * `calculate_trend`: up when the value did not fall, the absolute change, and the change
   * as a rounded percentage of the previous value (100 or 0 when there was nothing before).
   */
  function CalculateTrend(current: int, previous: int): (r: Trend)
    ensures r.direction == DashboardSchemas.Up <==> current >= previous
    ensures r.change == Abs(current - previous)
    ensures previous > 0 ==>
      previous * (2 * r.changePercent - 1) <= 200 * r.change <= previous * (2 * r.changePercent + 1)
    ensures previous > 0 && previous * (2 * r.changePercent - 1) == 200 * r.change ==> r.changePercent % 2 == 0
    ensures previous > 0 && 200 * r.change == previous * (2 * r.changePercent + 1) ==> r.changePercent % 2 == 0
    ensures previous <= 0 ==> r.changePercent == (if current > 0 then 100 else 0)
    ensures DashboardSchemas.ValidTrend(r)
  {
    var change := current - previous;
    var direction := if change >= 0 then DashboardSchemas.Up else DashboardSchemas.Down;
    var percent :=
      if previous > 0 then
        var p := RoundHalfEven(Abs(change) * 100, previous);
        RoundHalfEvenNonNegative(Abs(change) * 100, previous);
        p
      else if current > 0 then 100
      else 0;
    DashboardSchemas.TrendSchema(direction, Abs(change), percent)
  }

  lemma RoundHalfEvenNonNegative(n: nat, d: int)
    requires d > 0
    ensures RoundHalfEven(n, d) >= 0
  {
  }

  /** An unchanged value is an upward trend of 0, 0%. */
  lemma {:induction false} UnchangedIsFlatUp(v: int)
    ensures CalculateTrend(v, v) == DashboardSchemas.TrendSchema(DashboardSchemas.Up, 0, 0)
  {
  }

  /** Swapping the two periods keeps the size of the change and reverses a strict direction. */
  lemma SwappedPeriods(a: int, b: int)
    ensures CalculateTrend(a, b).change == CalculateTrend(b, a).change
    ensures a != b ==> CalculateTrend(a, b).direction != CalculateTrend(b, a).direction
  {
  }

  /** Doubling a positive value reads as +100%. */
  lemma DoublingIsHundredPercent(v: int)
    requires v > 0
    ensures CalculateTrend(2 * v, v).changePercent == 100
  {
    var r := CalculateTrend(2 * v, v);
    assert v * (2 * r.changePercent - 1) <= v * 200 <= v * (2 * r.changePercent + 1);
    MulCancel(2 * r.changePercent - 1, 200, v);
    MulCancel(200, 2 * r.changePercent + 1, v);
  }

  /**
   * `get_previous_period_dates`: the period of the same length that ends one second
   * before the current one starts.
   */
  function PreviousPeriod(from: int, to: int): (r: (int, int))
    ensures r.1 - r.0 == to - from
    ensures r.1 == from - 1
  {
    var prevTo := from - 1;
    (prevTo - (to - from), prevTo)
  }

  /** For a valid range the previous period is a valid range that lies wholly before it. */
  lemma PreviousPeriodPrecedes(from: int, to: int)
    requires from <= to
    ensures PreviousPeriod(from, to).0 <= PreviousPeriod(from, to).1 < from
    ensures PreviousPeriod(from, to).0 < from - (to - from) || from == to
  {
  }

  /** One row of sparkline data: the day (as a sortable number) and its count. */
  datatype SparklinePoint = SparklinePoint(date: int, value: int)

  const DateKey: SparklinePoint -> real := (p: SparklinePoint) => p.date as real

  function ValuesOf(points: seq<SparklinePoint>): (r: seq<int>)
    ensures |r| == |points|
    ensures forall i :: 0 <= i < |points| ==> r[i] == points[i].value
  {
    seq(|points|, i requires 0 <= i < |points| => points[i].value)
  }

  function Zeros(n: nat): (r: seq<int>)
    ensures |r| == n && forall i :: 0 <= i < n ==> r[i] == 0
  {
    seq(n, _ => 0)
  }

  /**
   * `format_sparkline` as the source writes it: with `values[-days:]` a day count of 0
   * selects the whole list rather than none of it.
   */
  function FormatSparklineAsWritten(points: seq<SparklinePoint>, days: nat): (r: seq<int>)
    ensures |r| == if points != [] && days == 0 then |points| else days
  {
    if points == [] then Zeros(days)
    else
      var values := ValuesOf(Sorting.Sort(points, DateKey));
      if |values| >= days then values[(if days == 0 then 0 else |values| - days)..]
      else Zeros(days - |values|) + values
  }

  /** The day count 0 with one point gives a series of length 1. */
  lemma FormatSparklineZeroDays()
    ensures FormatSparklineAsWritten([SparklinePoint(0, 5)], 0) == [5]
  {
    assert Sorting.Sort([SparklinePoint(0, 5)], DateKey) == [SparklinePoint(0, 5)];
  }

  /**
   * `format_sparkline` with the intended slice: the series of the `days` latest values in
   * date order (a stable sort), padded with zeros in front when there are fewer points.
   */
  function FormatSparkline(points: seq<SparklinePoint>, days: nat): (r: seq<int>)
    ensures |r| == days
    ensures forall i :: 0 <= i < days - |points| ==> r[i] == 0
    ensures |points| <= days ==> forall p :: p in points ==> p.value in r
    ensures forall i :: 0 <= i < days && i >= days - |points| ==> exists p :: p in points && r[i] == p.value
  {
    var values := ValuesOf(Sorting.Sort(points, DateKey));
    SortedValuesFromPoints(points);
    Latest(values, days)
  }

  /** The last `days` values, padded with zeros in front when there are fewer. */
  function Latest(values: seq<int>, days: nat): (r: seq<int>)
    ensures |r| == days
    ensures forall i :: 0 <= i < days - |values| ==> r[i] == 0
    ensures forall i :: 0 <= i < days && i >= days - |values| ==> r[i] == values[|values| - days + i]
  {
    if |values| >= days then values[|values| - days..]
    else Zeros(days - |values|) + values
  }

  /** The sorted series holds exactly the points' values, one per point. */
  lemma SortedValuesFromPoints(points: seq<SparklinePoint>)
    ensures var values := ValuesOf(Sorting.Sort(points, DateKey));
      && |values| == |points|
      && (forall j :: 0 <= j < |values| ==> exists p :: p in points && values[j] == p.value)
      && (forall p :: p in points ==> p.value in values)
  {
    var sorted := Sorting.Sort(points, DateKey);
    var values := ValuesOf(sorted);
    forall j | 0 <= j < |values| ensures exists p :: p in points && values[j] == p.value {
      assert sorted[j] in points;
    }
    forall p | p in points ensures p.value in values {
      var j :| 0 <= j < |sorted| && sorted[j] == p;
      assert values[j] == p.value;
    }
  }

  /** Away from the day count 0 the corrected series is the source's. */
  lemma FormatSparklineAgrees(points: seq<SparklinePoint>, days: nat)
    requires days > 0 || points == []
    ensures FormatSparkline(points, days) == FormatSparklineAsWritten(points, days)
  {
  }

  /** A stable sort leaves an already ordered list as it is. */
  lemma {:induction false} SortOrdered(s: seq<SparklinePoint>)
    requires Sorting.SortedBy(s, DateKey)
    ensures Sorting.Sort(s, DateKey) == s
  {
    if s != [] {
      SortOrdered(s[1..]);
      assert Sorting.Sort(s, DateKey) == Sorting.Insert(s[0], s[1..], DateKey);
      if |s| > 1 {
        assert DateKey(s[0]) <= DateKey(s[1..][0]);
      }
      assert s == [s[0]] + s[1..];
    }
  }

  /** Points already in date order come out as their values, the latest `days` of them. */
  lemma SparklineOfOrderedPoints(points: seq<SparklinePoint>, days: nat)
    requires Sorting.SortedBy(points, DateKey)
    ensures |points| >= days ==> FormatSparkline(points, days) == ValuesOf(points[|points| - days..])
    ensures |points| < days ==> FormatSparkline(points, days) == Zeros(days - |points|) + ValuesOf(points)
  {
    var values := ValuesOf(points);
    assert FormatSparkline(points, days) == Latest(values, days) by {
      SortOrdered(points);
    }
    if |points| >= days {
      assert Latest(values, days) == ValuesOf(points[|points| - days..]) by {
        assert ValuesOf(points[|points| - days..]) == values[|points| - days..];
      }
    }
  }

  /**
   * For any points, in any order: the series is the latest `days` values of the points
   * sorted by date (a permutation of them), so no dropped point is later than a kept one.
   */
  lemma SparklineLatestByDate(points: seq<SparklinePoint>, days: nat)
    ensures var sorted := Sorting.Sort(points, DateKey);
      && Sorting.SortedBy(sorted, DateKey)
      && multiset(sorted) == multiset(points)
      && FormatSparkline(points, days) == Latest(ValuesOf(sorted), days)
      && forall j, k :: 0 <= j < |points| - days && |points| - days <= k < |points| ==> sorted[j].date <= sorted[k].date
  {
    var sorted := Sorting.Sort(points, DateKey);
    Sorting.SortPermutes(points, DateKey);
    forall j, k | 0 <= j < |points| - days && |points| - days <= k < |points|
      ensures sorted[j].date <= sorted[k].date
    {
      assert DateKey(sorted[j]) <= DateKey(sorted[k]);
    }
  }

  /** The three shares of one day. */
  datatype Shares = Shares(positive: int, neutral: int, negative: int)

  function Total(s: Shares): int { s.positive + s.neutral + s.negative }

  /**
   * `normalize_percentages`: shares adding up to 100 are returned as they are; otherwise
   * the difference goes to the largest share (the first of equals, in the order positive,
   * neutral, negative) and then every share is clamped to [0, 100].
   */
  function NormalizePercentages(s: Shares): (r: Shares)
    ensures Total(s) == 100 ==> r == s
    ensures Total(s) != 100 ==> 0 <= r.positive <= 100 && 0 <= r.neutral <= 100 && 0 <= r.negative <= 100
    ensures Total(s) != 100 && s.positive >= s.neutral && s.positive >= s.negative ==>
      r == Shares(Clamp(s.positive + 100 - Total(s), 0, 100), Clamp(s.neutral, 0, 100), Clamp(s.negative, 0, 100))
    ensures Total(s) != 100 && s.neutral > s.positive && s.neutral >= s.negative ==>
      r == Shares(Clamp(s.positive, 0, 100), Clamp(s.neutral + 100 - Total(s), 0, 100), Clamp(s.negative, 0, 100))
    ensures Total(s) != 100 && s.negative > s.positive && s.negative > s.neutral ==>
      r == Shares(Clamp(s.positive, 0, 100), Clamp(s.neutral, 0, 100), Clamp(s.negative + 100 - Total(s), 0, 100))
  {
    var total := Total(s);
    if total == 100 then s
    else
      var diff := 100 - total;
      var adjusted :=
        if s.positive >= s.neutral && s.positive >= s.negative then s.(positive := s.positive + diff)
        else if s.neutral >= s.negative then s.(neutral := s.neutral + diff)
        else s.(negative := s.negative + diff);
      Shares(Clamp(adjusted.positive, 0, 100), Clamp(adjusted.neutral, 0, 100), Clamp(adjusted.negative, 0, 100))
  }

  /** Non-negative shares with a total of at most 150 are brought to exactly 100. */
  lemma NormalizeReachesHundred(s: Shares)
    requires s.positive >= 0 && s.neutral >= 0 && s.negative >= 0
    requires Total(s) <= 150
    ensures Total(NormalizePercentages(s)) == 100
  {
  }

  /** Normalising twice changes nothing more once the total is 100. */
  lemma NormalizeIdempotent(s: Shares)
    requires s.positive >= 0 && s.neutral >= 0 && s.negative >= 0
    requires Total(s) <= 150
    ensures NormalizePercentages(NormalizePercentages(s)) == NormalizePercentages(s)
  {
    NormalizeReachesHundred(s);
  }

  /** Clamping can leave the total away from 100 when the shares are far off. */
  lemma NormalizeCanMissHundred()
    ensures NormalizePercentages(Shares(60, 60, 60)) == Shares(0, 60, 60)
  {
  }

  /** `calculate_percentage`: `count / total` as a rounded percentage, 0 for an empty total. */
  function CalculatePercentage(count: int, total: int): (r: int)
    ensures total == 0 ==> r == 0
    ensures total > 0 ==> total * (2 * r - 1) <= 200 * count <= total * (2 * r + 1)
    ensures total > 0 && total * (2 * r - 1) == 200 * count ==> r % 2 == 0
    ensures total > 0 && 200 * count == total * (2 * r + 1) ==> r % 2 == 0
  {
    if total == 0 then 0 else RoundHalfEven(count * 100, total)
  }

  /** A part of a total is a percentage in [0, 100]. */
  lemma PercentageBounds(count: int, total: int)
    requires 0 <= count <= total
    ensures 0 <= CalculatePercentage(count, total) <= 100
  {
    if total > 0 {
      RoundHalfEvenPercentBounds(count, total);
    }
  }

  /**
   * The day's shares are rounded percentages of three counts; normalising them always
   * yields shares that add up to exactly 100.
   */
  lemma RoundedSharesNormalizeToHundred(p: nat, n: nat, g: nat)
    requires p + n + g > 0
    ensures
      var t := p + n + g;
      Total(NormalizePercentages(Shares(CalculatePercentage(p, t), CalculatePercentage(n, t), CalculatePercentage(g, t)))) == 100
  {
    var t := p + n + g;
    var a, b, c := CalculatePercentage(p, t), CalculatePercentage(n, t), CalculatePercentage(g, t);
    PercentageBounds(p, t);
    PercentageBounds(n, t);
    PercentageBounds(g, t);
    assert t * (2 * a - 1) + t * (2 * b - 1) + t * (2 * c - 1) <= 200 * p + 200 * n + 200 * g;
    ThreeRoundingsBound(t, a, b, c);
    NormalizeReachesHundred(Shares(a, b, c));
  }

  /** Three quotients of one total, each rounded to the nearest, add up to at most 101. */
  lemma ThreeRoundingsBound(t: int, a: int, b: int, c: int)
    requires t > 0
    requires t * (2 * a - 1) + t * (2 * b - 1) + t * (2 * c - 1) <= 200 * t
    ensures a + b + c <= 101
  {
    assert t * (2 * (a + b + c) - 3) == t * (2 * a - 1) + t * (2 * b - 1) + t * (2 * c - 1);
    MulCancel(2 * (a + b + c) - 3, 200, t);
  }

  const DaySeconds: int := 86_400

  /**
   * `get_last_n_days_dates`: the `days` instants one day apart that end at `end`, in
   * chronological order (none for a count below 1).
   */
  method GetLastNDaysDates(end: int, days: int) returns (dates: seq<int>)
    ensures |dates| == if days > 0 then days else 0
    ensures |dates| > 0 ==> dates[|dates| - 1] == end
    ensures forall k :: 0 <= k < |dates| - 1 ==> dates[k + 1] - dates[k] == DaySeconds
    ensures forall k :: 0 <= k < |dates| ==> dates[k] <= end
  {
    dates := [];
    var i := days - 1;
    while i >= 0
      invariant days > 0 ==> -1 <= i <= days - 1 && |dates| == days - 1 - i
      invariant days <= 0 ==> i == days - 1 && dates == []
      invariant forall k :: 0 <= k < |dates| ==> dates[k] == end - (days - 1 - k) * DaySeconds
      decreases i
    {
      dates := dates + [end - i * DaySeconds];
      i := i - 1;
    }
  }
}
