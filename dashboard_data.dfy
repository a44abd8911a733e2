/**
 * The dashboard hooks (useDashboardData, useMetrics, useSentimentDynamics): mapping
 * of the overview response, the all-zero fallback, the trend figures shown on the
 * metric cards, the aggregation of the sentiment series, and the chart handlers
 * that write into the filter store.
 */
module DashboardData {
  import opened Wrappers
  import Numeric
  import Seqs
  import opened UnifiedFiltersContext

  /** One metric of the overview response. `percentage` is absent when the API sent null. */
  datatype ApiMetric = ApiMetric(current: int, percentage: Option<int>, sparkline: seq<int>)

  datatype DashboardMetrics = DashboardMetrics(
    totalReviews: int, positiveReviews: int, neutralReviews: int, negativeReviews: int,
    positivePercentage: int, neutralPercentage: int, negativePercentage: int,
    totalTrend: seq<int>, positiveTrend: seq<int>, neutralTrend: seq<int>, negativeTrend: seq<int>)

  /** `percentage || 0`: null, absent and 0 all give 0. */
  function PercentageOrZero(p: Option<int>): (r: int)
    ensures p.None? ==> r == 0
    ensures p.Some? ==> r == p.value
  {
    if p.Some? && p.value != 0 then p.value else 0
  }

  /** `mapApiResponseToMetrics` */
  function MapApiResponseToMetrics(total: ApiMetric, positive: ApiMetric, neutral: ApiMetric, negative: ApiMetric)
    : (m: DashboardMetrics)
    ensures m.totalReviews == total.current && m.positiveReviews == positive.current
    ensures m.neutralReviews == neutral.current && m.negativeReviews == negative.current
    ensures m.positivePercentage == if positive.percentage.Some? then positive.percentage.value else 0
    ensures m.neutralPercentage == if neutral.percentage.Some? then neutral.percentage.value else 0
    ensures m.negativePercentage == if negative.percentage.Some? then negative.percentage.value else 0
    ensures m.totalTrend == total.sparkline && m.positiveTrend == positive.sparkline
    ensures m.neutralTrend == neutral.sparkline && m.negativeTrend == negative.sparkline
  {
    DashboardMetrics(
      total.current, positive.current, neutral.current, negative.current,
      PercentageOrZero(positive.percentage), PercentageOrZero(neutral.percentage),
      PercentageOrZero(negative.percentage),
      total.sparkline, positive.sparkline, neutral.sparkline, negative.sparkline)
  }

  /** The metrics shown when the request failed or no data has arrived. */
  function EmptyMetrics(): (m: DashboardMetrics)
    ensures m.totalReviews == 0 && m.positiveReviews == 0 && m.neutralReviews == 0 && m.negativeReviews == 0
    ensures m.positivePercentage == 0 && m.neutralPercentage == 0 && m.negativePercentage == 0
    ensures |m.totalTrend| == 7 && |m.positiveTrend| == 7 && |m.neutralTrend| == 7 && |m.negativeTrend| == 7
    ensures forall i :: 0 <= i < 7 ==>
      m.totalTrend[i] == 0 && m.positiveTrend[i] == 0 && m.neutralTrend[i] == 0 && m.negativeTrend[i] == 0
  {
    var zeros := [0, 0, 0, 0, 0, 0, 0];
    DashboardMetrics(0, 0, 0, 0, 0, 0, 0, zeros, zeros, zeros, zeros)
  }

  /** One day of the sentiment chart. */
  datatype DayDynamics = DayDynamics(date: string, positive: int, neutral: int, negative: int, topics: seq<string>)

  /** What the dashboard shows: the response when there is one, else the empty structure. */
  function ShownData(response: Option<(DashboardMetrics, seq<DayDynamics>)>): (r: (DashboardMetrics, seq<DayDynamics>))
    ensures response.None? ==> r.0 == EmptyMetrics() && r.1 == []
    ensures response.Some? ==> r == response.value
  {
    if response.Some? then response.value else (EmptyMetrics(), [])
  }

  /**
   * The filters the dashboard query uses. Both arguments come from the same store, so
   * in practice the result is that store's state (`CombinedOfOneStore`).
   */
  function CombinedFilters(filters: FilterState, dashboard: FilterState): (r: FilterState)
    ensures r.dateRange == filters.dateRange
    ensures r.sources == (if filters.sources != [] then filters.sources else dashboard.sources)
    ensures r.products == (if filters.products != [] then filters.products else dashboard.products)
    ensures r.aspects == dashboard.aspects && r.sentiments == dashboard.sentiments
    ensures r.searchText == dashboard.searchText
  {
    FilterState(
      filters.dateRange,
      if |filters.sources| > 0 then filters.sources else dashboard.sources,
      if |filters.products| > 0 then filters.products else dashboard.products,
      dashboard.aspects, dashboard.sentiments, dashboard.searchText)
  }

  lemma CombinedOfOneStore(s: FilterState)
    ensures CombinedFilters(s, s) == s
  {
  }

  datatype Direction = Up | Down | Stable

  datatype Trend = Trend(direction: Direction, change: int, changePercent: int)

  /** `calculateTrend` of a metric card: first point against last point. */
  function CalculateTrend(points: seq<int>): (t: Trend)
    ensures |points| < 2 ==> t == Trend(Up, 0, 0)
    ensures |points| >= 2 ==>
      var first, last := points[0], points[|points| - 1];
      && t.change == last - first
      && (t.direction == Up <==> last >= first)
      && (t.direction == Down <==> last < first)
      && t.changePercent >= 0
      && (first == 0 ==> t.changePercent == 0)
      && (first != 0 ==> t.changePercent == Numeric.Abs(Numeric.RoundHalfUp((last - first) * 100, first)))
  {
    if |points| < 2 then Trend(Up, 0, 0)
    else
      var current := points[|points| - 1];
      var previous := points[0];
      var change := current - previous;
      var changePercent := if previous != 0 then Numeric.RoundHalfUp(change * 100, previous) else 0;
      Trend(if change >= 0 then Up else Down, change, Numeric.Abs(changePercent))
  }

  /** A flat series, such as the all-zero fallback sparkline, shows no change. */
  lemma FlatSeriesHasNoTrend(points: seq<int>)
    requires |points| >= 2 && forall i :: 0 <= i < |points| ==> points[i] == points[0]
    ensures CalculateTrend(points) == Trend(Up, 0, 0)
  {
    var t := CalculateTrend(points);
    assert points[|points| - 1] == points[0];
    if points[0] != 0 {
      assert Numeric.Den(points[0]) * (2 * Numeric.RoundHalfUp(0, points[0]) - 1) <= 0;
      assert 0 < Numeric.Den(points[0]) * (2 * Numeric.RoundHalfUp(0, points[0]) + 1);
      ZeroRoundsToZero(points[0]);
    }
  }

  lemma ZeroRoundsToZero(d: int)
    requires d != 0
    ensures Numeric.RoundHalfUp(0, d) == 0
  {
    Numeric.RoundHalfUpWithin(0, Numeric.Den(d), 0, 0);
  }

  function Field(day: DayDynamics, which: Sentiment): int {
    match which
    case Positive => day.positive
    case Neutral => day.neutral
    case Negative => day.negative
  }

  datatype SentimentTrend = SentimentTrend(direction: Direction, change: int, changePercent: Option<int>)

  /** `getSentimentTrend`: a change of more than 2 points either way counts as a move. */
  function GetSentimentTrend(days: seq<DayDynamics>, which: Sentiment): (t: SentimentTrend)
    ensures |days| < 2 ==> t == SentimentTrend(Stable, 0, None)
    ensures |days| >= 2 ==>
      var first, last := Field(days[0], which), Field(days[|days| - 1], which);
      && t.change == last - first
      && (t.direction == Up <==> t.change > 2)
      && (t.direction == Down <==> t.change < -2)
      && (t.direction == Stable <==> -2 <= t.change <= 2)
      && t.changePercent.Some?
      && (first == 0 ==> t.changePercent.value == 0)
      && (first != 0 ==> t.changePercent.value == Numeric.RoundHalfUp(t.change * 100, first))
  {
    if |days| < 2 then SentimentTrend(Stable, 0, None)
    else
      var first := Field(days[0], which);
      var last := Field(days[|days| - 1], which);
      var change := last - first;
      SentimentTrend(
        if change > 2 then Up else if change < -2 then Down else Stable,
        change,
        Some(if first != 0 then Numeric.RoundHalfUp(change * 100, first) else 0))
  }

  /** The sign of the signed percentage agrees with the sign of the change when the first value is positive. */
  lemma SentimentTrendPercentSign(days: seq<DayDynamics>, which: Sentiment)
    requires |days| >= 2 && Field(days[0], which) > 0
    ensures var t := GetSentimentTrend(days, which);
      (t.change >= 0 ==> t.changePercent.value >= 0) && (t.change <= 0 ==> t.changePercent.value <= 0)
  {
    var t := GetSentimentTrend(days, which);
    Numeric.RoundHalfUpSign(t.change * 100, Field(days[0], which));
  }

  /** The sum of one sentiment over the days, as the reduce accumulates it. */
  function Sum(days: seq<DayDynamics>, which: Sentiment): int {
    if days == [] then 0 else Sum(days[..|days| - 1], which) + Field(days[|days| - 1], which)
  }

  /** Summing a series split in two gives the sum of the parts. */
  lemma {:induction false} SumAppend(a: seq<DayDynamics>, b: seq<DayDynamics>, which: Sentiment)
    ensures Sum(a + b, which) == Sum(a, which) + Sum(b, which)
    decreases |b|
  {
    if b == [] {
      assert a + b == a;
    } else {
      assert (a + b)[..|a + b| - 1] == a + b[..|b| - 1];
      SumAppend(a, b[..|b| - 1], which);
    }
  }

  /** Days whose value of `which` is a percentage in [0, 100] sum to at most 100 per day. */
  lemma {:induction false} SumBounds(days: seq<DayDynamics>, which: Sentiment)
    requires forall i :: 0 <= i < |days| ==> 0 <= Field(days[i], which) <= 100
    ensures 0 <= Sum(days, which) <= 100 * |days|
  {
    if days != [] {
      SumBounds(days[..|days| - 1], which);
    }
  }

  datatype Averages = Averages(positive: int, neutral: int, negative: int)

  datatype Aggregated = Aggregated(positive: int, neutral: int, negative: int, total: int, averages: Option<Averages>)

  /** `getAggregatedData` */
  function GetAggregatedData(days: seq<DayDynamics>): (r: Aggregated)
    ensures days == [] ==> r == Aggregated(0, 0, 0, 0, None)
    ensures r.positive == Sum(days, Positive) && r.neutral == Sum(days, Neutral)
    ensures r.negative == Sum(days, Negative)
    ensures r.total == r.positive + r.neutral + r.negative
    ensures days != [] <==> r.averages.Some?
    ensures days != [] ==> var a := r.averages.value;
      a.positive == Numeric.RoundHalfUp(r.positive, |days|)
      && a.neutral == Numeric.RoundHalfUp(r.neutral, |days|)
      && a.negative == Numeric.RoundHalfUp(r.negative, |days|)
    ensures days != [] ==> var a, n := r.averages.value, |days|;
      n * (2 * a.positive - 1) <= 2 * r.positive < n * (2 * a.positive + 1)
      && n * (2 * a.neutral - 1) <= 2 * r.neutral < n * (2 * a.neutral + 1)
      && n * (2 * a.negative - 1) <= 2 * r.negative < n * (2 * a.negative + 1)
  {
    if days == [] then Aggregated(0, 0, 0, 0, None)
    else
      var p, n, g := Sum(days, Positive), Sum(days, Neutral), Sum(days, Negative);
      Aggregated(p, n, g, p + n + g, Some(Averages(
        Numeric.RoundHalfUp(p, |days|), Numeric.RoundHalfUp(n, |days|), Numeric.RoundHalfUp(g, |days|))))
  }

  /** Averages of daily percentages are percentages. */
  lemma AveragesArePercentages(days: seq<DayDynamics>)
    requires days != []
    requires forall i :: 0 <= i < |days| ==>
      0 <= days[i].positive <= 100 && 0 <= days[i].neutral <= 100 && 0 <= days[i].negative <= 100
    ensures var a := GetAggregatedData(days).averages.value;
      0 <= a.positive <= 100 && 0 <= a.neutral <= 100 && 0 <= a.negative <= 100
  {
    forall which: Sentiment ensures 0 <= Numeric.RoundHalfUp(Sum(days, which), |days|) <= 100 {
      SumBounds(days, which);
      Numeric.RoundHalfUpWithin(Sum(days, which), |days|, 0, 100);
    }
    assert Numeric.RoundHalfUp(Sum(days, Positive), |days|) <= 100;
    assert Numeric.RoundHalfUp(Sum(days, Neutral), |days|) <= 100;
    assert Numeric.RoundHalfUp(Sum(days, Negative), |days|) <= 100;
  }

  /** The index of the first day whose date is `date`. */
  function FindDay(days: seq<DayDynamics>, date: string): (i: Option<nat>)
    ensures i.Some? ==>
      i.value < |days| && days[i.value].date == date && forall j :: 0 <= j < i.value ==> days[j].date != date
    ensures i.None? ==> forall j :: 0 <= j < |days| ==> days[j].date != date
  {
    if days == [] then None
    else if days[0].date == date then Some(0)
    else match FindDay(days[1..], date)
      case None => None
      case Some(k) => Some(k + 1)
  }

  /** `handleDateClick`: the clicked day becomes a one-instant range. */
  method HandleDateClick(store: UnifiedFilters, clicked: int)
    modifies store
    ensures store.state == old(store.state).(dateRange := DateRange(clicked, clicked))
  {
    store.SetDateRange(DateRange(clicked, clicked));
  }

  /** `handleSentimentClick`: toggle `which` in the sentiment filter. */
  method HandleSentimentClick(store: UnifiedFilters, which: Sentiment)
    modifies store
    ensures store.state == old(store.state).(sentiments := Seqs.Toggle(old(store.state).sentiments, which))
  {
    var current := store.state.sentiments;
    if which in current {
      store.SetFilter(SentimentsTo(Seqs.Remove(current, which)));
    } else {
      store.SetFilter(SentimentsTo(current + [which]));
    }
  }

  /**
   * `handleDrillDown(date, sentiment?)`; `clicked` is the instant `new Date(date)` denotes.
   * Returns the topics of the first chart day with that date, or none.
   */
  method HandleDrillDown(store: UnifiedFilters, days: seq<DayDynamics>, date: string, clicked: int,
                         sentiment: Option<Sentiment>)
    returns (topics: seq<string>)
    modifies store
    ensures store.state.dateRange == DateRange(clicked, clicked)
    ensures store.state.sentiments == if sentiment.Some? then [sentiment.value] else old(store.state.sentiments)
    ensures store.state.sources == old(store.state.sources) && store.state.products == old(store.state.products)
    ensures store.state.aspects == old(store.state.aspects) && store.state.searchText == old(store.state.searchText)
    ensures FindDay(days, date).Some? ==> topics == days[FindDay(days, date).value].topics
    ensures FindDay(days, date).None? ==> topics == []
  {
    store.SetDateRange(DateRange(clicked, clicked));
    if sentiment.Some? {
      store.SetFilter(SentimentsTo([sentiment.value]));
    }
    var found := FindDay(days, date);
    topics := if found.Some? then days[found.value].topics else [];
  }
}
