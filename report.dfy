/**
 * The figures the report page derives from a stored diagnosis: the ratios of
 * every period, the ratios of the last period, the radar-chart axes, the
 * traffic lights and the colour band of the score.
 */
module Report {
  import opened Wrappers
  import opened FinancialCalculations

  datatype Light = Green | Yellow | Red

  /** How bad a light is: green 0, yellow 1, red 2. */
  function Severity(l: Light): nat {
    match l
    case Green => 0
    case Yellow => 1
    case Red => 2
  }

  /** Net profit: green when positive, red otherwise; never yellow. */
  function NetProfitLight(netProfit: real): (l: Light)
    ensures l == Green <==> netProfit > 0.0
    ensures l == Red <==> netProfit <= 0.0
  {
    if netProfit > 0.0 then Green else Red
  }

  /** Liquidity: green above 1.2, yellow in (0.8, 1.2], red at 0.8 or below. */
  function LiquidityLight(liquidity: real): (l: Light)
    ensures l == Green <==> liquidity > 1.2
    ensures l == Yellow <==> 0.8 < liquidity <= 1.2
    ensures l == Red <==> liquidity <= 0.8
  {
    if liquidity > 1.2 then Green else if liquidity > 0.8 then Yellow else Red
  }

  /** Gross margin: green above 30, yellow in (15, 30], red at 15 or below. */
  function GrossMarginLight(grossMargin: real): (l: Light)
    ensures l == Green <==> grossMargin > 30.0
    ensures l == Yellow <==> 15.0 < grossMargin <= 30.0
    ensures l == Red <==> grossMargin <= 15.0
  {
    if grossMargin > 30.0 then Green else if grossMargin > 15.0 then Yellow else Red
  }

  /** Debt ratio: green below 50, yellow in [50, 70), red at 70 or above. */
  function DebtRatioLight(debtRatio: real): (l: Light)
    ensures l == Green <==> debtRatio < 50.0
    ensures l == Yellow <==> 50.0 <= debtRatio < 70.0
    ensures l == Red <==> debtRatio >= 70.0
  {
    if debtRatio < 50.0 then Green else if debtRatio < 70.0 then Yellow else Red
  }

  /** More of a good figure never gets a worse light; more debt never gets a better one. */
  lemma LightsAreMonotone(a: real, b: real)
    requires a <= b
    ensures Severity(NetProfitLight(b)) <= Severity(NetProfitLight(a))
    ensures Severity(LiquidityLight(b)) <= Severity(LiquidityLight(a))
    ensures Severity(GrossMarginLight(b)) <= Severity(GrossMarginLight(a))
    ensures Severity(DebtRatioLight(a)) <= Severity(DebtRatioLight(b))
  {
  }

  /** One row of the financial traffic-light panel. */
  datatype LightItem = LightItem(title: string, status: Light)

  /** The traffic-light panel for the last period's ratios, in display order. */
  function TrafficLights(last: CalculatedRatios): (items: seq<LightItem>)
    ensures |items| == 4
    ensures items[0].title == "Utilidad Neta" && items[0].status == NetProfitLight(last.netProfit)
    ensures items[1].title == "Liquidez" && items[1].status == LiquidityLight(last.liquidity)
    ensures items[2].title == "Margen Bruto" && items[2].status == GrossMarginLight(last.grossMargin)
    ensures items[3].title == "Endeudamiento" && items[3].status == DebtRatioLight(last.debtRatio)
  {
    [ LightItem("Utilidad Neta", NetProfitLight(last.netProfit)),
      LightItem("Liquidez", LiquidityLight(last.liquidity)),
      LightItem("Margen Bruto", GrossMarginLight(last.grossMargin)),
      LightItem("Endeudamiento", DebtRatioLight(last.debtRatio)) ]
  }

  /**
   * The liquidity light read off the statement: with positive short-term
   * obligations it is green exactly when short-term assets exceed 1.2 times
   * those obligations, and red exactly when they are at most 0.8 times.
   */
  lemma LiquidityLightOfStatement(data: FinancialData)
    requires ShortTermObligations(data.balanceSheet) > 0.0
    ensures LiquidityLight(CalculateRatios(data).liquidity) == Green <==>
              ShortTermAssets(data.balanceSheet) > 1.2 * ShortTermObligations(data.balanceSheet)
    ensures LiquidityLight(CalculateRatios(data).liquidity) == Red <==>
              ShortTermAssets(data.balanceSheet) <= 0.8 * ShortTermObligations(data.balanceSheet)
  {
    var r := CalculateRatios(data);
    LiquidityLightOfQuotient(r.liquidity, ShortTermAssets(data.balanceSheet), ShortTermObligations(data.balanceSheet));
  }

  /** The liquidity bands for a quotient `q` of `n` by a positive `d`, in terms of `n` and `d`. */
  lemma LiquidityLightOfQuotient(q: real, n: real, d: real)
    requires d > 0.0 && q * d == n
    ensures LiquidityLight(q) == Green <==> n > 1.2 * d
    ensures LiquidityLight(q) == Red <==> n <= 0.8 * d
  {
    ScaledComparison(q, d, n, 1.2);
    ScaledComparison(q, d, n, 0.8);
  }

  /**
   * The debt-ratio light read off the statement: with positive total assets
   * it is green exactly when liabilities are below half the assets, and red
   * exactly when they reach 70% of them.
   */
  lemma DebtRatioLightOfStatement(data: FinancialData)
    requires data.balanceSheet.totalAssets > 0.0
    ensures DebtRatioLight(CalculateRatios(data).debtRatio) == Green <==>
              data.balanceSheet.totalLiabilities < 0.5 * data.balanceSheet.totalAssets
    ensures DebtRatioLight(CalculateRatios(data).debtRatio) == Red <==>
              data.balanceSheet.totalLiabilities >= 0.7 * data.balanceSheet.totalAssets
  {
    var r := CalculateRatios(data);
    DebtRatioLightOfPercentage(r.debtRatio, data.balanceSheet.totalLiabilities, data.balanceSheet.totalAssets);
  }

  /** The debt bands for a percentage `p` of `l` over a positive `a`, in terms of `l` and `a`. */
  lemma DebtRatioLightOfPercentage(p: real, l: real, a: real)
    requires a > 0.0 && p * a == l * 100.0
    ensures DebtRatioLight(p) == Green <==> l < 0.5 * a
    ensures DebtRatioLight(p) == Red <==> l >= 0.7 * a
  {
    ScaledComparison(p, a, l * 100.0, 50.0);
    ScaledComparison(p, a, l * 100.0, 70.0);
  }

  /** For `q` the quotient of `n` by a positive `d`, comparing `q` with `k` is comparing `n` with `k * d`. */
  lemma ScaledComparison(q: real, d: real, n: real, k: real)
    requires d > 0.0 && q * d == n
    ensures q > k <==> n > k * d
    ensures q < k <==> n < k * d
  {
    if q > k { assert (q - k) * d > 0.0; }
    if q < k { assert (k - q) * d > 0.0; }
    if q == k { assert q * d == k * d; }
  }

  datatype ScoreColour = Emerald | Amber | RedText

  /** The colour of the financial score: emerald from 70, amber from 40, red below 40. */
  function ScoreColourOf(score: real): (c: ScoreColour)
    ensures c == Emerald <==> score >= 70.0
    ensures c == Amber <==> 40.0 <= score < 70.0
    ensures c == RedText <==> score < 40.0
  {
    if score >= 70.0 then Emerald else if score >= 40.0 then Amber else RedText
  }

  /** One axis of the radar chart. */
  datatype RadarPoint = RadarPoint(subject: string, value: real, fullMark: real)

  /**
   * The radar chart: liquidity scaled by 20 and capped at 100, the gross
   * margin as it is, and leverage as the complement of the debt ratio.
   */
  function RadarData(last: CalculatedRatios): (r: seq<RadarPoint>)
    ensures |r| == 3
    ensures forall i :: 0 <= i < 3 ==> r[i].fullMark == 100.0
    ensures r[0].subject == "Liquidez" && r[0].value <= 100.0 && r[0].value <= last.liquidity * 20.0
    ensures r[0].value == 100.0 || r[0].value == last.liquidity * 20.0
    ensures r[1].subject == "Margen Bruto (%)" && r[1].value == last.grossMargin
    ensures r[2].subject == "Endeudamiento" && r[2].value + last.debtRatio == 100.0
  {
    var scaledLiquidity := last.liquidity * 20.0;
    [ RadarPoint("Liquidez", if scaledLiquidity < 100.0 then scaledLiquidity else 100.0, 100.0),
      RadarPoint("Margen Bruto (%)", last.grossMargin, 100.0),
      RadarPoint("Endeudamiento", 100.0 - last.debtRatio, 100.0) ]
  }

  /**
   * For a statement whose liabilities lie between 0 and its positive total
   * assets, the leverage axis stays on the chart, between 0 and 100.
   */
  lemma LeverageAxisOnChart(data: FinancialData)
    requires data.balanceSheet.totalAssets > 0.0
    requires 0.0 <= data.balanceSheet.totalLiabilities <= data.balanceSheet.totalAssets
    ensures 0.0 <= RadarData(CalculateRatios(data))[2].value <= 100.0
  {
    var a := data.balanceSheet.totalAssets;
    var l := data.balanceSheet.totalLiabilities;
    var p := CalculateRatios(data).debtRatio;
    ScaledComparison(p, a, l * 100.0, 0.0);
    ScaledComparison(p, a, l * 100.0, 100.0);
  }

  /** The ratios of one period, labelled with the period. */
  datatype PeriodRatios = PeriodRatios(period: string, ratios: CalculatedRatios)

  /** The ratios of every period of the diagnosis, in the stored order. */
  function RatiosByPeriod(data: seq<FinancialData>): (rows: seq<PeriodRatios>)
    ensures |rows| == |data|
    ensures forall i :: 0 <= i < |data| ==>
              rows[i].period == data[i].period && rows[i].ratios == CalculateRatios(data[i])
  {
    if data == [] then [] else [PeriodRatios(data[0].period, CalculateRatios(data[0]))] + RatiosByPeriod(data[1..])
  }

  /**
   * The ratios of the last period. None for a diagnosis with no period, where
   * the page would fail on an undefined statement.
   */
  function LastRatios(data: seq<FinancialData>): (r: Option<CalculatedRatios>)
    ensures r.None? <==> data == []
    ensures r.Some? ==> r.value == CalculateRatios(data[|data| - 1])
  {
    if data == [] then None else Some(CalculateRatios(data[|data| - 1]))
  }

  /** The last-period ratios are the last row of the per-period ratios. */
  lemma LastRatiosIsLastRow(data: seq<FinancialData>)
    requires data != []
    ensures LastRatios(data) == Some(RatiosByPeriod(data)[|data| - 1].ratios)
  {
  }
}
