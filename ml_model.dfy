/**
 * The window-only engine: four features, the savings percentage clamped at 0 and the
 * utilization at 100, a forecast capped at twice the budget, three-case trend messages
 * and at most one alert per category.
 */
module MlModel {
  import opened Outcomes
  import opened Categories
  import opened Analytics

  datatype ModelReport = ModelReport(
    totalExpenses: real,
    exceededBudget: int,
    exceededCategories: CategoryMap,
    expenseTrend: Trend,
    spendingTrend: real,
    futureRiskPrediction: Trend,
    savings: Savings,
    budgetUtilization: real,
    potentialSavings: Insight,
    constantSpending: Insight,
    predictedFutureExpenses: real,
    predictedSavingsNextMonth: real,
    abnormalSpendingAlerts: seq<Alert>,
    warnings: seq<Warning>)

  /** `max((savings / total_budget) * 100, 0) if total_budget else 0`. */
  function SavingsPercentage(totalBudget: real, totalExpenses: real): (p: real)
    ensures p >= 0.0
    ensures totalBudget == 0.0 ==> p == 0.0
    ensures totalBudget != 0.0 ==> p >= (totalBudget - totalExpenses) / totalBudget * 100.0
    ensures totalBudget != 0.0 && p != 0.0 ==> p == (totalBudget - totalExpenses) / totalBudget * 100.0
  {
    if totalBudget != 0.0 then Max((totalBudget - totalExpenses) / totalBudget * 100.0, 0.0) else 0.0
  }

  /** `min((total_expenses / total_budget) * 100, 100) if total_budget else 0`. */
  function BudgetUtilization(totalBudget: real, totalExpenses: real): (u: real)
    ensures u <= 100.0
    ensures totalBudget == 0.0 ==> u == 0.0
    ensures totalBudget != 0.0 ==> u <= totalExpenses / totalBudget * 100.0
    ensures totalBudget != 0.0 && u != 100.0 ==> u == totalExpenses / totalBudget * 100.0
  {
    if totalBudget != 0.0 then Min(totalExpenses / totalBudget * 100.0, 100.0) else 0.0
  }

  /** The four model inputs; the last is the clamped savings percentage. */
  function Features(totalBudget: real, totalExpenses: real): seq<real>
  {
    BaseFeatures(totalBudget, totalExpenses, SavingsPercentage(totalBudget, totalExpenses))
  }

  /** `predict_spending(total_budget, total_expenses, categories)` with the regressor `model`. */
  function PredictSpending(totalBudget: real, totalExpenses: real, categories: CategoryMap, model: Predictor): (r: ModelReport)
    // clamped percentages
    ensures r.savings.amount == totalBudget - totalExpenses
    ensures r.savings.percentage == SavingsPercentage(totalBudget, totalExpenses)
    ensures r.budgetUtilization == BudgetUtilization(totalBudget, totalExpenses)
    ensures r.spendingTrend == r.budgetUtilization
    // three-case messages
    ensures r.expenseTrend == ThreeWay(totalExpenses - totalBudget)
    ensures r.futureRiskPrediction == ThreeWay(r.predictedFutureExpenses - totalBudget)
    // over budget
    ensures r.exceededBudget in {0, 1}
    ensures r.exceededBudget == 1 <==> totalExpenses > totalBudget
    ensures r.warnings != [] <==> totalExpenses > totalBudget
    ensures r.warnings != [] ==> r.warnings == [ExceededBy(Abs(r.savings.amount))]
    // category rules
    ensures r.exceededCategories == ExceededCategories(categories, Allocation(totalBudget, categories))
    ensures r.abnormalSpendingAlerts == FirstAlerts(categories, totalExpenses)
    ensures r.potentialSavings == AsInsight(Top(categories)) && r.constantSpending == AsInsight(Low(categories))
    // the capped forecast
    ensures var raw := model(Features(totalBudget, totalExpenses));
      && r.predictedFutureExpenses <= 2.0 * totalBudget
      && (raw <= 2.0 * totalBudget ==> r.predictedFutureExpenses == raw)
      && (raw > 2.0 * totalBudget ==> r.predictedFutureExpenses == 2.0 * totalBudget)
    ensures r.predictedSavingsNextMonth >= 0.0
    ensures r.predictedSavingsNextMonth == 0.0 || r.predictedSavingsNextMonth == totalBudget - r.predictedFutureExpenses
    ensures r.predictedSavingsNextMonth >= totalBudget - r.predictedFutureExpenses
    ensures r.totalExpenses == totalExpenses
  {
    var savings := totalBudget - totalExpenses;
    var savingsPercentage := SavingsPercentage(totalBudget, totalExpenses);
    var budgetUtilization := BudgetUtilization(totalBudget, totalExpenses);
    var exceededBudget := if totalExpenses > totalBudget then 1 else 0;
    var exceededCategories := ExceededCategories(categories, Allocation(totalBudget, categories));
    var raw := model(Features(totalBudget, totalExpenses));
    var predicted := Min(raw, totalBudget * 2.0);
    var predictedSavings := Max(totalBudget - predicted, 0.0);
    ModelReport(
      totalExpenses,
      exceededBudget,
      exceededCategories,
      ThreeWay(totalExpenses - totalBudget),
      budgetUtilization,
      ThreeWay(predicted - totalBudget),
      Savings(savings, savingsPercentage),
      budgetUtilization,
      AsInsight(Top(categories)),
      AsInsight(Low(categories)),
      predicted,
      predictedSavings,
      FirstAlerts(categories, totalExpenses),
      BudgetWarnings(totalBudget, totalExpenses))
  }

  /** The utilization is clamped above only: negative expenses against a positive budget report below 0. */
  lemma UtilizationNotClampedBelow(totalBudget: real, totalExpenses: real)
    requires totalBudget > 0.0 && totalExpenses < 0.0
    ensures BudgetUtilization(totalBudget, totalExpenses) < 0.0
  {
    assert totalExpenses / totalBudget < 0.0;
  }

  /** The third feature is the unclamped ratio even when the reported utilization is capped at 100. */
  lemma FeatureRatioIsUnclamped(totalBudget: real, totalExpenses: real)
    requires 0.0 < totalBudget < totalExpenses
    ensures Features(totalBudget, totalExpenses)[2] > 1.0
    ensures BudgetUtilization(totalBudget, totalExpenses) == 100.0
    ensures Features(totalBudget, totalExpenses)[3] == 0.0
  {
    assert totalExpenses / totalBudget > 1.0;
    assert (totalBudget - totalExpenses) / totalBudget < 0.0;
  }
}
