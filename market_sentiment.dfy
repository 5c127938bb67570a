/** The sentiment panel of src/components/MarketSentiment.tsx: a trend over the historical
    series, weighted with the 24-hour change and classified into five bands, each with a gauge
    position and a gauge colour. Prices and percentages are `real`. */
module MarketSentiment {
  import opened GoldTypes

  /** `calculateTrend`: the percentage move from the oldest to the newest point, or 0 when
      there are fewer than two points or the oldest price is 0. */
  function CalculateTrend(h: seq<PricePoint>): real {
    if |h| < 2 then 0.0
    else
      var oldest := h[0].price;
      var newest := h[|h| - 1].price;
      if oldest == 0.0 then 0.0 else (newest - oldest) / oldest * 100.0
  }

  /** 30% weight on the 24-hour change, 70% on the trend. */
  function CombinedChange(changePercent: real, trend: real): real {
    changePercent * 0.3 + trend * 0.7
  }

  /** The value classified: the combined change, or the 24-hour change when that is exactly 0. */
  function ChangeToUse(changePercent: real, trend: real): real {
    var combined := CombinedChange(changePercent, trend);
    if combined != 0.0 then combined else changePercent
  }

  datatype Band = StrongBullish | Bullish | Neutral | Bearish | StrongBearish

  datatype Icon = TrendingUp | TrendingDown | Minus

  /** What `getSentiment` returns for a band. */
  datatype Sentiment = Sentiment(
    band: Band, labelText: string, color: string, bgColor: string, borderColor: string,
    icon: Icon, description: string, gauge: int)

  /** The `getSentiment` thresholds, all exclusive. */
  function Classify(x: real): (b: Band)
    ensures b == StrongBullish <==> x > 2.0
    ensures b == Bullish <==> 0.5 < x <= 2.0
    ensures b == Neutral <==> -0.5 <= x <= 0.5
    ensures b == Bearish <==> -2.0 <= x < -0.5
    ensures b == StrongBearish <==> x < -2.0
  {
    if x > 2.0 then StrongBullish
    else if x > 0.5 then Bullish
    else if x < -2.0 then StrongBearish
    else if x < -0.5 then Bearish
    else Neutral
  }

  function SentimentOf(b: Band): (s: Sentiment)
    ensures s.band == b
  {
    match b
    case StrongBullish =>
      Sentiment(b, "Strong Bullish", "text-green-600", "bg-green-50", "border-green-300", TrendingUp, "Strong upward momentum", 90)
    case Bullish =>
      Sentiment(b, "Bullish", "text-green-500", "bg-green-50", "border-green-200", TrendingUp, "Positive price movement", 70)
    case StrongBearish =>
      Sentiment(b, "Strong Bearish", "text-red-600", "bg-red-50", "border-red-300", TrendingDown, "Strong downward pressure", 10)
    case Bearish =>
      Sentiment(b, "Bearish", "text-red-500", "bg-red-50", "border-red-200", TrendingDown, "Negative price movement", 30)
    case Neutral =>
      Sentiment(b, "Neutral", "text-gray-600", "bg-gray-50", "border-gray-200", Minus, "Stable, no clear trend", 50)
  }

  /** The panel's sentiment for a 24-hour change and a historical series. */
  function GetSentiment(changePercent: real, h: seq<PricePoint>): Sentiment {
    SentimentOf(Classify(ChangeToUse(changePercent, CalculateTrend(h))))
  }

  datatype GaugeColour = Green | Red | Gray

  /** The gauge bar's colour: `gauge > 60` green, `gauge < 40` red, gray otherwise. */
  function ColourOf(gauge: int): GaugeColour {
    if gauge > 60 then Green else if gauge < 40 then Red else Gray
  }

  predicate IsBullish(b: Band) {
    b == StrongBullish || b == Bullish
  }

  predicate IsBearish(b: Band) {
    b == StrongBearish || b == Bearish
  }

  /** The trend is 0 without two points or with an oldest price of 0. */
  lemma TrendDegenerate(h: seq<PricePoint>)
    requires |h| < 2 || h[0].price == 0.0
    ensures CalculateTrend(h) == 0.0
  {
  }

  /** With a positive oldest price, the trend has the sign of the move from oldest to newest. */
  lemma TrendSign(h: seq<PricePoint>)
    requires |h| >= 2 && h[0].price > 0.0
    ensures CalculateTrend(h) > 0.0 <==> h[|h| - 1].price > h[0].price
    ensures CalculateTrend(h) < 0.0 <==> h[|h| - 1].price < h[0].price
    ensures CalculateTrend(h) == 0.0 <==> h[|h| - 1].price == h[0].price
  {
    var o, n := h[0].price, h[|h| - 1].price;
    var q := (n - o) / o;
    assert q * o == n - o;
    if n > o {
      assert q > 0.0;
    } else if n < o {
      assert q < 0.0;
    }
  }

  /** With a nonzero oldest price, the trend is the percentage move from oldest to newest:
      applying it to the oldest price gives the newest. */
  lemma TrendValue(h: seq<PricePoint>)
    requires |h| >= 2 && h[0].price != 0.0
    ensures h[0].price * (1.0 + CalculateTrend(h) / 100.0) == h[|h| - 1].price
  {
    var o, n := h[0].price, h[|h| - 1].price;
    var q := (n - o) / o;
    assert q * o == n - o;
  }

  /** A combined value of exactly 0 falls back to the 24-hour change. */
  lemma ZeroCombinedUsesDailyChange(changePercent: real, trend: real)
    requires CombinedChange(changePercent, trend) == 0.0
    ensures ChangeToUse(changePercent, trend) == changePercent
  {
  }

  /** The panel classifies `0.3 * changePercent + 0.7 * trend`, or `changePercent` alone when
      that weighted value is exactly 0. */
  lemma SentimentUsesWeightedChange(changePercent: real, h: seq<PricePoint>)
    ensures
      var w := changePercent * 0.3 + CalculateTrend(h) * 0.7;
      GetSentiment(changePercent, h).band == Classify(if w != 0.0 then w else changePercent)
  {
  }

  /** Classification is total and yields exactly one band; 0.5 and -0.5 are Neutral. */
  lemma BoundariesAreNeutral()
    ensures Classify(0.5) == Neutral && Classify(-0.5) == Neutral
    ensures Classify(2.0) == Bullish && Classify(-2.0) == Bearish
  {
  }

  /** The gauge never decreases as the classified value grows. */
  lemma GaugeMonotone(x: real, y: real)
    requires x <= y
    ensures SentimentOf(Classify(x)).gauge <= SentimentOf(Classify(y)).gauge
  {
  }

  /** Gauge colour: green exactly for the bullish bands, red exactly for the bearish ones,
      gray exactly for Neutral. */
  lemma GaugeColourMatchesBand(b: Band)
    ensures ColourOf(SentimentOf(b).gauge) == Green <==> IsBullish(b)
    ensures ColourOf(SentimentOf(b).gauge) == Red <==> IsBearish(b)
    ensures ColourOf(SentimentOf(b).gauge) == Gray <==> b == Neutral
  {
  }
}
