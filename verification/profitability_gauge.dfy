/**
 * `ProfitabilityGauge`: the radial gauge plots the win rate clamped into
 * [0, 100] with `Math.max(0, Math.min(100, winRate))`, while the headline
 * text shows the raw win rate.
 */
module ProfitabilityGauge {
  import BiasCard

  datatype GaugeView = GaugeView(headline: real, gaugeValue: real, totalTrades: int)

  /** `Math.max(0, Math.min(100, winRate))`. */
  function ClampWinRate(winRate: real): (r: real)
    ensures 0.0 <= r <= 100.0
    ensures 0.0 <= winRate <= 100.0 ==> r == winRate
    ensures winRate < 0.0 ==> r == 0.0
    ensures winRate > 100.0 ==> r == 100.0
  {
    BiasCard.Max(0.0, BiasCard.Min(100.0, winRate))
  }

  /** Only the gauge value is clamped; the headline and trade count pass through. */
  function View(totalTrades: int, winRate: real): (v: GaugeView)
    ensures v.headline == winRate
    ensures v.totalTrades == totalTrades
    ensures v.gaugeValue == winRate <==> 0.0 <= winRate <= 100.0
  {
    GaugeView(winRate, ClampWinRate(winRate), totalTrades)
  }

  /** The gauge's max-of-min clamp and the bias card's min-of-max clamp agree everywhere. */
  lemma ClampsAgree(x: real)
    ensures ClampWinRate(x) == BiasCard.ClampPercent(x)
  {
  }
}
