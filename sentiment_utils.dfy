/**
 * Shared sentiment helpers of the frontend: score thresholds and the classifiers built
 * on them, the sanitising of a positive / neutral / negative breakdown, the overall
 * score, and the trend arrow and colour.
 *
 * JavaScript numbers are modelled as exact reals plus NaN; infinities and binary
 * floating-point rounding are not modelled.
 */
module SentimentUtils {
  import Numeric
  import opened UnifiedFiltersContext

  datatype JsNumber = NaN | Num(value: real)

  /** `x >= bound`, false for NaN as in JavaScript. */
  predicate AtLeast(x: JsNumber, bound: real) {
    x.Num? && x.value >= bound
  }

  const Excellent: real := 70.0
  const Good: real := 50.0
  const Poor: real := 30.0

  datatype Level = ExcellentLevel | GoodLevel | PoorLevel | CriticalLevel

  /** `getSentimentLevel` */
  function GetSentimentLevel(score: JsNumber): (l: Level)
    ensures l == ExcellentLevel <==> AtLeast(score, Excellent)
    ensures l == GoodLevel <==> AtLeast(score, Good) && !AtLeast(score, Excellent)
    ensures l == PoorLevel <==> AtLeast(score, Poor) && !AtLeast(score, Good)
    ensures l == CriticalLevel <==> !AtLeast(score, Poor)
  {
    if AtLeast(score, Excellent) then ExcellentLevel
    else if AtLeast(score, Good) then GoodLevel
    else if AtLeast(score, Poor) then PoorLevel
    else CriticalLevel
  }

  /** `getSentimentType` */
  function GetSentimentType(score: JsNumber): (t: Sentiment)
    ensures t == Positive <==> AtLeast(score, Excellent)
    ensures t == Neutral <==> AtLeast(score, Good) && !AtLeast(score, Excellent)
    ensures t == Negative <==> !AtLeast(score, Good)
  {
    if AtLeast(score, Excellent) then Positive
    else if AtLeast(score, Good) then Neutral
    else Negative
  }

  /** The type is the level with "poor" and "critical" merged into "negative". */
  lemma TypeRefinesLevel(score: JsNumber)
    ensures GetSentimentType(score) == Positive <==> GetSentimentLevel(score) == ExcellentLevel
    ensures GetSentimentType(score) == Neutral <==> GetSentimentLevel(score) == GoodLevel
    ensures GetSentimentType(score) == Negative <==>
      GetSentimentLevel(score) == PoorLevel || GetSentimentLevel(score) == CriticalLevel
  {
  }

  /** A higher score never gets a worse level. */
  lemma LevelIsMonotone(a: real, b: real)
    requires a <= b
    ensures LevelRank(GetSentimentLevel(Num(a))) <= LevelRank(GetSentimentLevel(Num(b)))
  {
  }

  function LevelRank(l: Level): nat {
    match l
    case CriticalLevel => 0
    case PoorLevel => 1
    case GoodLevel => 2
    case ExcellentLevel => 3
  }

  datatype Palette = Palette(text: string, bg: string, border: string, badge: string, hsl: string)

  function Colors(t: Sentiment): Palette {
    match t
    case Positive => Palette("text-sentiment-positive", "bg-green-100", "border-green-200",
                             "bg-green-100 text-green-800", "hsl(var(--sentiment-positive))")
    case Neutral => Palette("text-muted-foreground", "bg-gray-100", "border-gray-200",
                            "bg-gray-100 text-gray-800", "hsl(var(--sentiment-neutral))")
    case Negative => Palette("text-sentiment-negative", "bg-red-100", "border-red-200",
                             "bg-red-100 text-red-800", "hsl(var(--sentiment-negative))")
  }

  datatype SentimentConfig = SentimentConfig(
    score: JsNumber, level: Level, kind: Sentiment, color: string, bgColor: string, borderColor: string,
    caption: string)

  /** The Russian caption the configuration shows for each level. */
  function Caption(level: Level): string {
    match level
    case ExcellentLevel => "Отлично"
    case GoodLevel => "Хорошо"
    case PoorLevel => "Плохо"
    case CriticalLevel => "Критично"
  }

  /** `getSentimentConfig`: level, type and colours agree with the separate classifiers. */
  function GetSentimentConfig(score: JsNumber): (c: SentimentConfig)
    ensures c.score == score
    ensures c.level == GetSentimentLevel(score)
    ensures c.kind == GetSentimentType(score)
    ensures c.color == Colors(c.kind).text && c.bgColor == Colors(c.kind).bg
    ensures c.borderColor == Colors(c.kind).border
    ensures c.caption == Caption(c.level)
  {
    if AtLeast(score, Excellent) then
      SentimentConfig(score, ExcellentLevel, Positive, Colors(Positive).text, Colors(Positive).bg,
                      Colors(Positive).border, "Отлично")
    else if AtLeast(score, Good) then
      SentimentConfig(score, GoodLevel, Neutral, Colors(Neutral).text, Colors(Neutral).bg,
                      Colors(Neutral).border, "Хорошо")
    else if AtLeast(score, Poor) then
      SentimentConfig(score, PoorLevel, Negative, Colors(Negative).text, Colors(Negative).bg,
                      Colors(Negative).border, "Плохо")
    else
      SentimentConfig(score, CriticalLevel, Negative, Colors(Negative).text, Colors(Negative).bg,
                      Colors(Negative).border, "Критично")
  }

  /** `getSentimentColor`: the chart colour of the score's type. */
  function GetSentimentColor(score: JsNumber): (c: string)
    ensures c == "hsl(var(--sentiment-positive))" <==> AtLeast(score, Excellent)
    ensures c == "hsl(var(--sentiment-neutral))" <==> AtLeast(score, Good) && !AtLeast(score, Excellent)
    ensures c == "hsl(var(--sentiment-negative))" <==> !AtLeast(score, Good)
  {
    Colors(GetSentimentType(score)).hsl
  }

  /** `getSentimentTextClass`: the text colour of the score's type, the one its configuration uses. */
  function GetSentimentTextClass(score: JsNumber): (c: string)
    ensures c == GetSentimentConfig(score).color
    ensures c == "text-sentiment-positive" <==> AtLeast(score, Excellent)
    ensures c == "text-sentiment-negative" <==> !AtLeast(score, Good)
  {
    Colors(GetSentimentType(score)).text
  }

  datatype Breakdown = Breakdown(positive: JsNumber, neutral: JsNumber, negative: JsNumber)

  /** NaN becomes 0, anything else is clamped to [0, 100]. */
  function ValidateValue(x: JsNumber): (r: real)
    ensures 0.0 <= r <= 100.0
    ensures x.Num? && 0.0 <= x.value <= 100.0 ==> r == x.value
    ensures x.NaN? ==> r == 0.0
    ensures x.Num? && x.value < 0.0 ==> r == 0.0
    ensures x.Num? && x.value > 100.0 ==> r == 100.0
  {
    if x.NaN? then 0.0
    else if x.value < 0.0 then 0.0
    else if x.value > 100.0 then 100.0
    else x.value
  }

  /** `validateSentimentData` */
  function ValidateSentimentData(data: Breakdown): (r: Breakdown)
    ensures r.positive.Num? && r.neutral.Num? && r.negative.Num?
    ensures 0.0 <= r.positive.value <= 100.0 && 0.0 <= r.neutral.value <= 100.0
    ensures 0.0 <= r.negative.value <= 100.0
    ensures r.positive == Num(ValidateValue(data.positive))
    ensures r.neutral == Num(ValidateValue(data.neutral))
    ensures r.negative == Num(ValidateValue(data.negative))
  {
    Breakdown(Num(ValidateValue(data.positive)), Num(ValidateValue(data.neutral)), Num(ValidateValue(data.negative)))
  }

  /** A breakdown whose three shares are already in [0, 100] passes unchanged. */
  lemma ValidBreakdownKept(data: Breakdown)
    requires data.positive.Num? && 0.0 <= data.positive.value <= 100.0
    requires data.neutral.Num? && 0.0 <= data.neutral.value <= 100.0
    requires data.negative.Num? && 0.0 <= data.negative.value <= 100.0
    ensures ValidateSentimentData(data) == data
  {
  }

  /** Validating twice is validating once. */
  lemma ValidateIdempotent(data: Breakdown)
    ensures ValidateSentimentData(ValidateSentimentData(data)) == ValidateSentimentData(data)
  {
  }

  /** A part over a positive whole lies in [0, 1]. */
  lemma RatioInUnit(part: real, whole: real)
    requires 0.0 <= part <= whole && whole > 0.0
    ensures 0.0 <= part / whole <= 1.0
  {
    assert part / whole * whole == part;
  }

  /** `calculateSentimentScore`: positive counts fully, neutral half, negative not at all. */
  function CalculateSentimentScore(data: Breakdown): (score: int)
    ensures 0 <= score <= 100
    ensures var v := ValidateSentimentData(data);
      v.positive.value + v.neutral.value + v.negative.value == 0.0 ==> score == 0
    ensures var v := ValidateSentimentData(data);
      var t := v.positive.value + v.neutral.value + v.negative.value;
      t != 0.0 ==> score as real - 0.5 <= (v.positive.value + v.neutral.value * 0.5) / t * 100.0 < score as real + 0.5
  {
    var v := ValidateSentimentData(data);
    var p, n, g := v.positive.value, v.neutral.value, v.negative.value;
    var total := p + n + g;
    if total == 0.0 then 0
    else
      var ratio := (p + n * 0.5) / total;
      assert 0.0 <= ratio <= 1.0 by {
        assert 0.0 <= p && 0.0 <= n && 0.0 <= g;
        assert 0.0 <= p + n * 0.5 <= total;
        RatioInUnit(p + n * 0.5, total);
      }
      var r := Numeric.RealRound(ratio * 100.0);
      assert 0 <= r <= 100;
      r
  }

  /** All-positive shares score 100, all-negative shares score 0. */
  lemma ScoreExtremes(x: real)
    requires 0.0 < x <= 100.0
    ensures CalculateSentimentScore(Breakdown(Num(x), Num(0.0), Num(0.0))) == 100
    ensures CalculateSentimentScore(Breakdown(Num(0.0), Num(0.0), Num(x))) == 0
  {
    assert (x + 0.0 * 0.5) / (x + 0.0 + 0.0) == 1.0;
    assert (0.0 + 0.0 * 0.5) / (0.0 + 0.0 + x) == 0.0;
  }

  datatype TrendIcon = Rising | Falling | Flat

  /** `getTrendIcon`: follows the sign of the trend; NaN shows as flat. */
  function GetTrendIcon(trend: JsNumber): (i: TrendIcon)
    ensures i == Rising <==> trend.Num? && trend.value > 0.0
    ensures i == Falling <==> trend.Num? && trend.value < 0.0
  {
    if trend.Num? && trend.value > 0.0 then Rising
    else if trend.Num? && trend.value < 0.0 then Falling
    else Flat
  }

  datatype TrendColor = Muted | Favourable | Unfavourable

  /** `getTrendColorClass`: zero is muted; otherwise favourable iff the trend goes the good way. */
  function GetTrendColorClass(trend: JsNumber, higherIsBetter: bool): (c: TrendColor)
    ensures c == Muted <==> trend == Num(0.0)
    ensures c == Favourable <==> trend.Num? && (if higherIsBetter then trend.value > 0.0 else trend.value < 0.0)
  {
    if trend == Num(0.0) then Muted
    else if trend.Num? && (if higherIsBetter then trend.value > 0.0 else trend.value < 0.0) then Favourable
    else Unfavourable
  }

  /** Flipping `higherIsBetter` swaps favourable and unfavourable for any non-zero trend. */
  lemma TrendColorFlips(trend: real)
    requires trend != 0.0
    ensures GetTrendColorClass(Num(trend), true) == Favourable <==>
            GetTrendColorClass(Num(trend), false) == Unfavourable
  {
  }
}
