/** The ratio calculator of the global screener: ROE, gross margin and
    debt-to-equity from the financial statements, each falling back to a
    fixed failure value instead of raising. */
module BuffettRatios {
  import opened Fundamentals

  /** A financial-statement table (`stock.financials`, `stock.balance_sheet`):
      line item -> its values per reporting period, latest first.
      An `Option<Sheet>` is None when fetching the table raises. */
  type Sheet = map<string, seq<real>>

  /** Failure value of ROE and gross margin: below any passing threshold. */
  const RatioFailure: real := -1.0
  /** Failure value of D/E: above any passing ceiling. */
  const DebtFailure: real := 9999.0

  /** `sheet.loc[item].iloc[0]`: the latest value of a line item; None where
      pandas raises (no table, no such row, no period). */
  function LatestValue(sheet: Option<Sheet>, item: string): (r: Option<real>)
    ensures r.Some? <==> sheet.Some? && item in sheet.value && |sheet.value[item]| > 0
    ensures r.Some? ==> r.value == sheet.value[item][0]
  {
    if sheet.Some? && item in sheet.value && |sheet.value[item]| > 0
    then Some(sheet.value[item][0])
    else None
  }

  /** `numerator / denominator` when the denominator is positive, else the
      failure value. */
  function GuardedRatio(numerator: real, denominator: real, failure: real): (r: real)
    ensures denominator > 0.0 ==> r * denominator == numerator
    ensures denominator <= 0.0 ==> r == failure
  {
    if denominator > 0.0 then numerator / denominator else failure
  }

  /** `calculate_roe`: net income over total stockholder equity. */
  function CalculateRoe(financials: Option<Sheet>, balanceSheet: Option<Sheet>): (r: real)
    ensures var income := LatestValue(financials, "Net Income");
            var equity := LatestValue(balanceSheet, "Total Stockholder Equity");
            if income.Some? && equity.Some? && equity.value > 0.0
            then r * equity.value == income.value
            else r == RatioFailure
  {
    var income := LatestValue(financials, "Net Income");
    var equity := LatestValue(balanceSheet, "Total Stockholder Equity");
    if income.None? || equity.None? then RatioFailure
    else GuardedRatio(income.value, equity.value, RatioFailure)
  }

  /** `calculate_gpm`: gross profit over total revenue. */
  function CalculateGpm(financials: Option<Sheet>): (r: real)
    ensures var profit := LatestValue(financials, "Gross Profit");
            var revenue := LatestValue(financials, "Total Revenue");
            if profit.Some? && revenue.Some? && revenue.value > 0.0
            then r * revenue.value == profit.value
            else r == RatioFailure
  {
    var profit := LatestValue(financials, "Gross Profit");
    var revenue := LatestValue(financials, "Total Revenue");
    if profit.None? || revenue.None? then RatioFailure
    else GuardedRatio(profit.value, revenue.value, RatioFailure)
  }

  /** Whether the balance-sheet path of `calculate_de_ratio` finds both of
      its line items (otherwise its lookups raise and the fallback runs). */
  predicate BalanceSheetUsable(balanceSheet: Option<Sheet>)
  {
    LatestValue(balanceSheet, "Total Debt").Some? &&
    LatestValue(balanceSheet, "Total Stockholder Equity").Some?
  }

  /** `calculate_de_ratio`: total debt over total stockholder equity from the
      balance sheet; when that table cannot be read, from the info record,
      where a missing debt reads as 0.0 and a missing equity as -1.0. */
  function CalculateDeRatio(balanceSheet: Option<Sheet>, info: Info): (r: real)
    ensures BalanceSheetUsable(balanceSheet) ==>
              var debt := LatestValue(balanceSheet, "Total Debt").value;
              var equity := LatestValue(balanceSheet, "Total Stockholder Equity").value;
              if equity > 0.0 then r * equity == debt else r == DebtFailure
    ensures !BalanceSheetUsable(balanceSheet) ==>
              var debt := SafeFloat(info, "totalDebt", 0.0);
              var equity := SafeFloat(info, "totalStockholderEquity", -1.0);
              if equity > 0.0 then r * equity == debt else r == DebtFailure
  {
    var debt := LatestValue(balanceSheet, "Total Debt");
    var equity := LatestValue(balanceSheet, "Total Stockholder Equity");
    if debt.Some? && equity.Some? then
      GuardedRatio(debt.value, equity.value, DebtFailure)
    else
      var infoDebt := SafeFloat(info, "totalDebt", 0.0);
      var infoEquity := SafeFloat(info, "totalStockholderEquity", -1.0);
      GuardedRatio(infoDebt, infoEquity, DebtFailure)
  }

  /** A ratio other than the failure value was divided by a positive equity
      taken from the balance sheet; ROE never divides by a value <= 0. */
  lemma RoeDividesByPositiveEquity(financials: Option<Sheet>, balanceSheet: Option<Sheet>)
    ensures CalculateRoe(financials, balanceSheet) != RatioFailure ==>
              var equity := LatestValue(balanceSheet, "Total Stockholder Equity");
              equity.Some? && equity.value > 0.0 &&
              CalculateRoe(financials, balanceSheet) * equity.value == LatestValue(financials, "Net Income").value
  {
  }

  /** Equity missing from both the balance sheet and the info record always
      gives the D/E failure value, whatever the debt. */
  lemma DeMissingEquityFails(balanceSheet: Option<Sheet>, info: Info)
    requires LatestValue(balanceSheet, "Total Stockholder Equity").None?
    requires "totalStockholderEquity" !in info || !info["totalStockholderEquity"].VNum?
    ensures CalculateDeRatio(balanceSheet, info) == DebtFailure
  {
  }

  /** On the fallback path a missing debt counts as no debt at all. */
  lemma DeMissingDebtIsZero(balanceSheet: Option<Sheet>, info: Info)
    requires !BalanceSheetUsable(balanceSheet)
    requires "totalDebt" !in info
    requires "totalStockholderEquity" in info && info["totalStockholderEquity"].VNum?
    requires info["totalStockholderEquity"].num > 0.0
    ensures CalculateDeRatio(balanceSheet, info) == 0.0
  {
  }

  /** A non-positive balance-sheet equity is final: it gives the failure
      value without consulting the info record. */
  lemma DeNegativeEquityNoFallback(balanceSheet: Option<Sheet>, info: Info, info': Info)
    requires BalanceSheetUsable(balanceSheet)
    requires LatestValue(balanceSheet, "Total Stockholder Equity").value <= 0.0
    ensures CalculateDeRatio(balanceSheet, info) == DebtFailure == CalculateDeRatio(balanceSheet, info')
  {
  }
}
