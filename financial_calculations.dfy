/**
 * The financial-ratio engine: one period's income statement and balance sheet
 * give ten derived figures, and an ordered list of periods gives one
 * period-over-period variation record per adjacent pair.
 *
 * Amounts are modelled as mathematical reals; floating-point rounding, NaN and
 * Infinity are not modelled. Every guarded ratio follows the engine's policy
 * "an exactly zero denominator gives 0".
 */
module FinancialCalculations {
  import opened Wrappers

  datatype IncomeStatement = IncomeStatement(
    operatingIncome: real,
    nonOperatingIncome: real,
    costs: real,
    adminExpenses: real,
    salesExpenses: real,
    interest: real,
    nonOperatingExpenses: real,
    taxes: real)

  datatype BalanceSheet = BalanceSheet(
    currentAssets: real,
    nonCurrentAssets: real,
    accountsReceivable: real,
    totalAssets: real,
    currentLiabilities: real,
    nonCurrentLiabilities: real,
    accountsPayable: real,
    totalLiabilities: real,
    equity: real)

  /** One reporting period. */
  datatype FinancialData = FinancialData(
    period: string,
    incomeStatement: IncomeStatement,
    balanceSheet: BalanceSheet)

  datatype CalculatedRatios = CalculatedRatios(
    grossProfit: real,
    operatingProfit: real,
    netProfit: real,
    grossMargin: real,
    operatingMargin: real,
    netMargin: real,
    liquidity: real,
    debtRatio: real,
    interestCoverage: real,
    workingCapital: real)

  /** One record of the horizontal analysis, for an adjacent pair of periods. */
  datatype PeriodVariation = PeriodVariation(
    period: string,
    operatingIncomeVar: real,
    netProfitVar: real,
    assetsVar: real)

  /** Short-term assets: the liquidity numerator. */
  function ShortTermAssets(bs: BalanceSheet): real {
    bs.currentAssets + bs.accountsReceivable
  }

  /** Short-term obligations: the liquidity denominator. */
  function ShortTermObligations(bs: BalanceSheet): real {
    bs.currentLiabilities + bs.accountsPayable
  }

  /**
   * The ten ratios of one period. Each guarded ratio is characterised by its
   * inverse: multiplied back by its (non-zero) denominator it gives the
   * numerator, and it is 0 exactly when the denominator is 0 by policy.
   */
  function CalculateRatios(data: FinancialData): (r: CalculatedRatios)
    ensures r.grossProfit == data.incomeStatement.operatingIncome - data.incomeStatement.costs
    ensures r.operatingProfit == r.grossProfit - (data.incomeStatement.adminExpenses + data.incomeStatement.salesExpenses)
    ensures r.netProfit == r.operatingProfit + data.incomeStatement.nonOperatingIncome
                           - data.incomeStatement.interest - data.incomeStatement.nonOperatingExpenses
                           - data.incomeStatement.taxes
    ensures data.incomeStatement.operatingIncome == 0.0 ==>
              r.grossMargin == 0.0 && r.operatingMargin == 0.0 && r.netMargin == 0.0
    ensures data.incomeStatement.operatingIncome != 0.0 ==>
              r.grossMargin * data.incomeStatement.operatingIncome == r.grossProfit * 100.0 &&
              r.operatingMargin * data.incomeStatement.operatingIncome == r.operatingProfit * 100.0 &&
              r.netMargin * data.incomeStatement.operatingIncome == r.netProfit * 100.0
    ensures ShortTermObligations(data.balanceSheet) == 0.0 ==> r.liquidity == 0.0
    ensures ShortTermObligations(data.balanceSheet) != 0.0 ==>
              r.liquidity * ShortTermObligations(data.balanceSheet) == ShortTermAssets(data.balanceSheet)
    ensures data.balanceSheet.totalAssets == 0.0 ==> r.debtRatio == 0.0
    ensures data.balanceSheet.totalAssets != 0.0 ==>
              r.debtRatio * data.balanceSheet.totalAssets == data.balanceSheet.totalLiabilities * 100.0
    ensures data.incomeStatement.interest == 0.0 ==> r.interestCoverage == 0.0
    ensures data.incomeStatement.interest != 0.0 ==>
              r.interestCoverage * data.incomeStatement.interest == r.operatingProfit
    ensures r.workingCapital + ShortTermObligations(data.balanceSheet) == ShortTermAssets(data.balanceSheet)
  {
    var inc := data.incomeStatement;
    var bs := data.balanceSheet;
    var grossProfit := inc.operatingIncome - inc.costs;
    var operatingProfit := grossProfit - (inc.adminExpenses + inc.salesExpenses);
    var netProfit := operatingProfit + inc.nonOperatingIncome - inc.interest - inc.nonOperatingExpenses - inc.taxes;
    var grossMargin := if inc.operatingIncome != 0.0 then (grossProfit / inc.operatingIncome) * 100.0 else 0.0;
    var operatingMargin := if inc.operatingIncome != 0.0 then (operatingProfit / inc.operatingIncome) * 100.0 else 0.0;
    var netMargin := if inc.operatingIncome != 0.0 then (netProfit / inc.operatingIncome) * 100.0 else 0.0;
    var liquidity := if bs.currentLiabilities + bs.accountsPayable != 0.0
                     then (bs.currentAssets + bs.accountsReceivable) / (bs.currentLiabilities + bs.accountsPayable)
                     else 0.0;
    var debtRatio := if bs.totalAssets != 0.0 then (bs.totalLiabilities / bs.totalAssets) * 100.0 else 0.0;
    var interestCoverage := if inc.interest != 0.0 then operatingProfit / inc.interest else 0.0;
    var workingCapital := (bs.currentAssets + bs.accountsReceivable) - (bs.currentLiabilities + bs.accountsPayable);
    CalculatedRatios(grossProfit, operatingProfit, netProfit, grossMargin, operatingMargin, netMargin,
                     liquidity, debtRatio, interestCoverage, workingCapital)
  }

  /** Net profit written out over the raw income-statement fields. */
  lemma NetProfitFromIncomeStatement(data: FinancialData)
    ensures var inc := data.incomeStatement;
            CalculateRatios(data).grossProfit == inc.operatingIncome - inc.costs &&
            CalculateRatios(data).netProfit ==
              inc.operatingIncome + inc.nonOperatingIncome
              - (inc.costs + inc.adminExpenses + inc.salesExpenses + inc.interest + inc.nonOperatingExpenses + inc.taxes)
  {
  }

  /** With positive operating income, each margin has the sign of its profit. */
  lemma MarginsFollowProfitSign(data: FinancialData)
    requires data.incomeStatement.operatingIncome > 0.0
    ensures var r := CalculateRatios(data);
            (r.grossMargin > 0.0 <==> r.grossProfit > 0.0) &&
            (r.operatingMargin > 0.0 <==> r.operatingProfit > 0.0) &&
            (r.netMargin > 0.0 <==> r.netProfit > 0.0)
  {
    var r := CalculateRatios(data);
    var oi := data.incomeStatement.operatingIncome;
    SignOfQuotient(r.grossProfit * 100.0, oi, r.grossMargin);
    SignOfQuotient(r.operatingProfit * 100.0, oi, r.operatingMargin);
    SignOfQuotient(r.netProfit * 100.0, oi, r.netMargin);
  }

  /** If q * d == n with d > 0, then q and n have the same sign. */
  lemma SignOfQuotient(n: real, d: real, q: real)
    requires d > 0.0 && q * d == n
    ensures q > 0.0 <==> n > 0.0
    ensures q < 0.0 <==> n < 0.0
  {
    if q > 0.0 { assert q * d > 0.0; }
    if q < 0.0 { assert (-q) * d > 0.0; }
    if q == 0.0 { assert q * d == 0.0; }
  }

  /**
   * When short-term obligations are positive, working capital is positive
   * exactly when liquidity exceeds 1.
   */
  lemma WorkingCapitalAgreesWithLiquidity(data: FinancialData)
    requires ShortTermObligations(data.balanceSheet) > 0.0
    ensures CalculateRatios(data).workingCapital > 0.0 <==> CalculateRatios(data).liquidity > 1.0
  {
    var r := CalculateRatios(data);
    var d := ShortTermObligations(data.balanceSheet);
    assert (r.liquidity - 1.0) * d == r.workingCapital;
    SignOfQuotient(r.workingCapital, d, r.liquidity - 1.0);
  }

  /** A worked example: 1000 of income, 400 of costs, 150 of expenses. */
  lemma IncomeScenario(data: FinancialData)
    requires data.incomeStatement == IncomeStatement(1000.0, 0.0, 400.0, 100.0, 50.0, 0.0, 0.0, 0.0)
    ensures var r := CalculateRatios(data);
            r.grossProfit == 600.0 && r.operatingProfit == 450.0 && r.netProfit == 450.0 &&
            r.grossMargin == 60.0 && r.operatingMargin == 45.0 && r.netMargin == 45.0 &&
            r.interestCoverage == 0.0
  {
  }

  /** A worked example for liquidity, working capital and debt ratio. */
  lemma BalanceScenario(data: FinancialData)
    requires data.balanceSheet.currentAssets == 500.0 && data.balanceSheet.accountsReceivable == 100.0
    requires data.balanceSheet.currentLiabilities == 300.0 && data.balanceSheet.accountsPayable == 100.0
    requires data.balanceSheet.totalLiabilities == 600.0 && data.balanceSheet.totalAssets == 1000.0
    ensures var r := CalculateRatios(data);
            r.liquidity == 1.5 && r.workingCapital == 200.0 && r.debtRatio == 60.0
  {
  }

  /**
   * Percentage change from `previous` to `current`; 0 when `previous` is 0.
   * Applying the change to `previous` gives back `current`.
   */
  function Variation(current: real, previous: real): (r: real)
    ensures previous == 0.0 ==> r == 0.0
    ensures previous != 0.0 ==> previous + previous * r / 100.0 == current
  {
    if previous != 0.0 then ((current - previous) / previous) * 100.0 else 0.0
  }

  /** Growth from a positive base shows as a positive variation, and only growth does. */
  lemma VariationSign(current: real, previous: real)
    requires previous > 0.0
    ensures Variation(current, previous) > 0.0 <==> current > previous
    ensures Variation(current, previous) == 0.0 <==> current == previous
  {
    var r := Variation(current, previous);
    assert (r / 100.0) * previous == current - previous;
    SignOfQuotient(current - previous, previous, r / 100.0);
  }

  /** The label of the record for the pair (prev, curr). */
  function PairLabel(prev: FinancialData, curr: FinancialData): string {
    prev.period + " vs " + curr.period
  }

  /**
   * What the record for the adjacent pair (prev, curr) holds: the pair's label
   * and the variations of raw operating income, of computed net profit and
   * of raw total assets.
   */
  predicate DescribesPair(v: PeriodVariation, prev: FinancialData, curr: FinancialData) {
    v.period == PairLabel(prev, curr) &&
    v.operatingIncomeVar == Variation(curr.incomeStatement.operatingIncome, prev.incomeStatement.operatingIncome) &&
    v.netProfitVar == Variation(CalculateRatios(curr).netProfit, CalculateRatios(prev).netProfit) &&
    v.assetsVar == Variation(curr.balanceSheet.totalAssets, prev.balanceSheet.totalAssets)
  }

  /**
   * The horizontal analysis: None for fewer than two periods, otherwise one
   * record per adjacent pair, in input order.
   */
  method CalculateHorizontalAnalysis(data: seq<FinancialData>) returns (res: Option<seq<PeriodVariation>>)
    ensures res.None? <==> |data| < 2
    ensures res.Some? ==> |res.value| == |data| - 1
    ensures res.Some? ==> forall i :: 0 <= i < |res.value| ==> DescribesPair(res.value[i], data[i], data[i + 1])
  {
    if |data| < 2 {
      return None;
    }
    var results: seq<PeriodVariation> := [];
    var i := 1;
    while i < |data|
      invariant 1 <= i <= |data|
      invariant |results| == i - 1
      invariant forall k :: 0 <= k < |results| ==> DescribesPair(results[k], data[k], data[k + 1])
    {
      var prev := data[i - 1];
      var curr := data[i];
      var record := PeriodVariation(
        prev.period + " vs " + curr.period,
        Variation(curr.incomeStatement.operatingIncome, prev.incomeStatement.operatingIncome),
        Variation(CalculateRatios(curr).netProfit, CalculateRatios(prev).netProfit),
        Variation(curr.balanceSheet.totalAssets, prev.balanceSheet.totalAssets));
      assert DescribesPair(record, data[i - 1], data[i]);
      results := results + [record];
      i := i + 1;
    }
    return Some(results);
  }
}
