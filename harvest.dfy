/**
 * The harvest readiness score: weather, market and soil-readiness subscores added into a score
 * out of 100 with a traffic-light band (`compute_harvest_score`, backend/agents/harvest_agent.py).
 */
module Harvest {
  import opened Basics
  import opened Numeric

  const MaxWeather: int := 30
  const MaxMarket: int := 40
  const MaxReadiness: int := 30

  /** Points lost to heat: 15 above 40 °C, otherwise 8 above 35 °C. */
  function HeatPenalty(tempC: real): (p: int)
    ensures p == 15 <==> tempC > 40.0
    ensures p == 8 <==> 35.0 < tempC <= 40.0
    ensures p == 0 <==> tempC <= 35.0
  {
    if tempC > 40.0 then 15 else if tempC > 35.0 then 8 else 0
  }

  /**
   * The weather subscore: 30 less the heat penalty, 10 for humidity above 80 % and 15 for
   * forecast rain, clamped to [0, 30].
   */
  function WeatherSubscore(tempC: real, humidityPct: int, rainForecast: bool): (w: int)
    ensures 0 <= w <= MaxWeather
    // the penalties only ever subtract, so the upper clamp never acts and the lower one only
    // when the penalties exceed 30 points
    ensures var penalties := HeatPenalty(tempC) + (if humidityPct > 80 then 10 else 0)
                           + (if rainForecast then 15 else 0);
            && (penalties <= 30 ==> w == 30 - penalties)
            && (penalties > 30 ==> w == 0)
    // full marks exactly when no penalty applies
    ensures w == MaxWeather <==> tempC <= 35.0 && humidityPct <= 80 && !rainForecast
  {
    var score := 30;
    var score := if tempC > 40.0 then score - 15 else if tempC > 35.0 then score - 8 else score;
    var score := if humidityPct > 80 then score - 10 else score;
    var score := if rainForecast then score - 15 else score;
    ClampInt(score, 0, MaxWeather)
  }

  /** The market subscore before the price adjustment: 40 for "falling", 25 for "stable", and 10
      for any other trend, "rising" included. */
  function TrendBase(priceTrend: string): (b: int)
    ensures priceTrend == "falling" ==> b == 40
    ensures priceTrend == "stable" ==> b == 25
    ensures priceTrend != "falling" && priceTrend != "stable" ==> b == 10
  {
    if priceTrend == "falling" then 40 else if priceTrend == "stable" then 25 else 10
  }

  /**
   * The market subscore: the trend base, plus 10 above ₹20 per kg or minus 10 below ₹10 per kg,
   * clamped to [0, 40].
   */
  function MarketSubscore(avgMandiPrice: real, priceTrend: string): (m: int)
    ensures 0 <= m <= MaxMarket
    // a middling price leaves the trend base as it is
    ensures 10.0 <= avgMandiPrice <= 20.0 ==> m == TrendBase(priceTrend)
    // a high price adds 10, but a falling trend is already at the cap
    ensures avgMandiPrice > 20.0 ==> m == if priceTrend == "falling" then 40 else TrendBase(priceTrend) + 10
    // a low price takes 10 off; no trend base is below 10, so the lower clamp never acts
    ensures avgMandiPrice < 10.0 ==> m == TrendBase(priceTrend) - 10
  {
    var score := TrendBase(priceTrend);
    var score := if avgMandiPrice > 20.0 then score + 10
                 else if avgMandiPrice < 10.0 then score - 10
                 else score;
    ClampInt(score, 0, MaxMarket)
  }

  /** The readiness subscore: `int(20 * moisture)`, truncated toward zero, clamped to [0, 30]. */
  function ReadinessSubscore(soilMoistureFactor: real): (r: int)
    ensures 0 <= r <= MaxReadiness
    ensures r == ClampInt((20.0 * soilMoistureFactor).Floor, 0, MaxReadiness)
  {
    ClampInt(Trunc(20.0 * soilMoistureFactor), 0, MaxReadiness)
  }

  /** The colour band of a score: 80 and above green, 50 and above yellow, otherwise red. */
  function ScoreColor(score: int): (c: Color)
    ensures c == Green <==> score >= 80
    ensures c == Yellow <==> 50 <= score < 80
    ensures c == Red <==> score < 50
  {
    if score >= 80 then Green else if score >= 50 then Yellow else Red
  }

  /** The advice shown with each colour. */
  datatype HarvestAdvice = HarvestNow | ConsiderHarvesting | WaitForBetter

  function AdviceFor(c: Color): HarvestAdvice {
    match c
    case Green => HarvestNow
    case Yellow => ConsiderHarvesting
    case Red => WaitForBetter
  }

  datatype Breakdown = Breakdown(weather: int, market: int, readiness: int)

  /** The dictionary `compute_harvest_score` returns. */
  datatype HarvestScore = HarvestScore(score: int, color: Color, advice: HarvestAdvice, breakdown: Breakdown)

  /** `compute_harvest_score`. */
  function ComputeHarvestScore(
    tempC: real, humidityPct: int, rainForecast: bool,
    avgMandiPrice: real, priceTrend: string, soilMoistureFactor: real
  ): (h: HarvestScore)
    ensures h.breakdown == Breakdown(WeatherSubscore(tempC, humidityPct, rainForecast),
                                     MarketSubscore(avgMandiPrice, priceTrend),
                                     ReadinessSubscore(soilMoistureFactor))
    // the subscores are bounded by 30 + 40 + 30, so the final clamp never changes their sum
    ensures h.score == h.breakdown.weather + h.breakdown.market + h.breakdown.readiness
    ensures 0 <= h.score <= 100
    ensures h.color == ScoreColor(h.score) && h.advice == AdviceFor(h.color)
  {
    var weather := WeatherSubscore(tempC, humidityPct, rainForecast);
    var market := MarketSubscore(avgMandiPrice, priceTrend);
    var readiness := ReadinessSubscore(soilMoistureFactor);
    var total := ClampInt(weather + market + readiness, 0, 100);
    var color := ScoreColor(total);
    HarvestScore(total, color, AdviceFor(color), Breakdown(weather, market, readiness))
  }

  /** Worse weather never raises the weather subscore. */
  lemma WeatherMonotone(t1: real, t2: real, h1: int, h2: int, rain1: bool, rain2: bool)
    requires t1 <= t2 && h1 <= h2 && (rain1 ==> rain2)
    ensures WeatherSubscore(t2, h2, rain2) <= WeatherSubscore(t1, h1, rain1)
  {
  }

  /** A higher average price never lowers the market subscore. */
  lemma MarketMonotoneInPrice(p1: real, p2: real, priceTrend: string)
    requires p1 <= p2
    ensures MarketSubscore(p1, priceTrend) <= MarketSubscore(p2, priceTrend)
  {
  }

  /** For the same price, falling beats stable beats rising (or any other trend). */
  lemma TrendOrder(price: real, other: string)
    requires other != "falling" && other != "stable"
    ensures MarketSubscore(price, other) <= MarketSubscore(price, "stable")
                                        <= MarketSubscore(price, "falling")
  {
  }

  /** Wetter soil never lowers readiness. */
  lemma ReadinessMonotone(m1: real, m2: real)
    requires m1 <= m2
    ensures ReadinessSubscore(m1) <= ReadinessSubscore(m2)
  {
    assert (20.0 * m1).Floor <= (20.0 * m2).Floor;
  }

  /** The best conditions give the full 100 and a green band; the worst give 0 and red. */
  lemma ScoreExtremes(avgMandiPrice: real, soilMoistureFactor: real)
    ensures avgMandiPrice > 20.0 && soilMoistureFactor >= 1.5 ==>
      ComputeHarvestScore(20.0, 50, false, avgMandiPrice, "falling", soilMoistureFactor).score == 100
    ensures avgMandiPrice < 10.0 && soilMoistureFactor < 0.05 ==>
      ComputeHarvestScore(41.0, 90, true, avgMandiPrice, "rising", soilMoistureFactor).score == 0
  {
  }
}
