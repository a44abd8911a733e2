/**
 * Response constraints of the dashboard API, stated as validity predicates over the
 * fields the schemas declare.
 */
module DashboardSchemas {
  import opened Wrappers

  datatype Direction = Up | Down

  datatype TrendSchema = TrendSchema(direction: Direction, change: int, changePercent: int)

  /** `direction` is "up" or "down" (the datatype), and both numbers are non-negative. */
  predicate ValidTrend(t: TrendSchema) {
    t.change >= 0 && t.changePercent >= 0
  }

  const SparklineLength: nat := 7

  datatype MetricSchema = MetricSchema(current: int, percentage: Option<int>, trend: TrendSchema, sparkline: seq<int>)

  predicate ValidMetric(m: MetricSchema) {
    && m.current >= 0
    && (m.percentage.Some? ==> 0 <= m.percentage.value <= 100)
    && ValidTrend(m.trend)
    && |m.sparkline| == SparklineLength
  }

  const MaxTopics: nat := 3

  datatype SentimentDynamicsSchema = SentimentDynamicsSchema(
    date: string, positive: int, neutral: int, negative: int, topics: Option<seq<string>>)

  /** Each share is in [0, 100]; the schema itself does not require the three to add up to 100. */
  predicate ValidDynamics(d: SentimentDynamicsSchema) {
    && 0 <= d.positive <= 100 && 0 <= d.neutral <= 100 && 0 <= d.negative <= 100
    && (d.topics.Some? ==> |d.topics.value| <= MaxTopics)
  }

  /** The schema accepts shares that do not add up to 100. */
  lemma DynamicsSumNotEnforced()
    ensures ValidDynamics(SentimentDynamicsSchema("2025-01-01", 10, 10, 10, None))
  {
  }
}
