/**
 * The engine that blends the requested window with the user's all-time history: seven
 * features, a forecast capped at twice the budget, two-case trend messages, independent
 * alerts, and unclamped utilization and savings percentages.
 */
module MlPredictSpending {
  import opened Outcomes
  import opened Categories
  import opened Analytics

  datatype HistoryReport = HistoryReport(
    totalExpenses: real,
    exceededBudget: int,
    exceededCategories: CategoryMap,
    expenseTrend: Trend,
    spendingTrend: real,
    futureRiskPrediction: Trend,
    savings: Savings,
    budgetUtilization: Utilization,
    potentialSavings: Insight,
    constantSpending: Insight,
    topSpendingCategory: Option<Entry>,
    lowSpendingCategory: Option<Entry>,
    predictedFutureExpenses: real,
    predictedSavingsNextMonth: real,
    abnormalSpendingAlerts: seq<Alert>,
    warnings: seq<Warning>,
    totalBudget: real,
    categories: CategoryMap)

  /** The seven model inputs, in the column order the regressor was trained on. */
  function Features(totalBudget: real, totalExpenses: real, allTimeExpenses: real, allTimeBudget: real): (f: seq<real>)
    ensures |f| == 7
    ensures f[..4] == BaseFeatures(totalBudget, totalExpenses, Percent(totalBudget - totalExpenses, totalBudget))
    ensures f[4] == allTimeExpenses && f[5] == allTimeBudget
    ensures allTimeBudget == 0.0 ==> f[6] == 0.0
    ensures allTimeBudget != 0.0 ==> f[6] * allTimeBudget == allTimeExpenses
  {
    BaseFeatures(totalBudget, totalExpenses, Percent(totalBudget - totalExpenses, totalBudget))
    + [allTimeExpenses, allTimeBudget, Ratio(allTimeExpenses, allTimeBudget)]
  }

  /** `predict_spending`: the report for one window, calling the regressor `model` once. */
  function PredictSpending(
    totalBudget: real, totalExpenses: real, categories: CategoryMap,
    allTimeExpenses: real, allTimeBudget: real, allTimeCategories: CategoryMap,
    model: Predictor): (r: HistoryReport)
    // savings and the unclamped percentages
    ensures r.savings.amount == totalBudget - totalExpenses
    ensures totalBudget == 0.0 ==> r.savings.percentage == 0.0 && r.budgetUtilization.percentage == 0.0
    ensures totalBudget != 0.0 ==> r.savings.percentage == (totalBudget - totalExpenses) / totalBudget * 100.0
    ensures totalBudget != 0.0 ==> r.budgetUtilization.percentage == totalExpenses / totalBudget * 100.0
    ensures r.spendingTrend == r.budgetUtilization.percentage
    // over budget: the flag, the trend message and exactly one warning
    ensures r.exceededBudget in {0, 1}
    ensures r.exceededBudget == 1 <==> totalExpenses > totalBudget
    ensures r.expenseTrend == TwoWay(totalExpenses - totalBudget)
    ensures r.expenseTrend.Over? <==> totalExpenses > totalBudget
    ensures Magnitude(r.expenseTrend) == Abs(r.savings.amount)
    ensures r.warnings != [] <==> totalExpenses > totalBudget
    ensures r.warnings != [] ==> r.warnings == [ExceededBy(Abs(r.savings.amount))]
    // category rules
    ensures r.exceededCategories == ExceededCategories(categories, Allocation(totalBudget, categories))
    ensures r.abnormalSpendingAlerts == AllAlerts(categories, totalExpenses)
    ensures r.topSpendingCategory == Top(categories) && r.lowSpendingCategory == Low(categories)
    ensures r.potentialSavings == AsInsight(Top(categories)) && r.constantSpending == AsInsight(Low(categories))
    // the capped forecast
    ensures var raw := model(Features(totalBudget, totalExpenses, allTimeExpenses, allTimeBudget));
      && r.predictedFutureExpenses <= 2.0 * totalBudget
      && (raw <= 2.0 * totalBudget ==> r.predictedFutureExpenses == raw)
      && (raw > 2.0 * totalBudget ==> r.predictedFutureExpenses == 2.0 * totalBudget)
    ensures r.predictedSavingsNextMonth >= 0.0
    ensures r.predictedSavingsNextMonth >= totalBudget - r.predictedFutureExpenses
    ensures r.predictedSavingsNextMonth == 0.0 || r.predictedSavingsNextMonth == totalBudget - r.predictedFutureExpenses
    ensures r.futureRiskPrediction == TwoWay(r.predictedFutureExpenses - totalBudget)
    ensures !r.expenseTrend.Exact? && !r.futureRiskPrediction.Exact?
    ensures r.futureRiskPrediction.Over? <==> r.predictedFutureExpenses > totalBudget
    ensures Magnitude(r.futureRiskPrediction) == Abs(r.predictedFutureExpenses - totalBudget)
    ensures totalBudget == 0.0 ==> r.budgetUtilization.change == 0.0
    ensures totalBudget != 0.0 ==>
      r.budgetUtilization.change == r.predictedFutureExpenses / totalBudget * 100.0 - r.budgetUtilization.percentage
    // echoed inputs
    ensures r.totalExpenses == totalExpenses && r.totalBudget == totalBudget && r.categories == categories
  {
    var savings := totalBudget - totalExpenses;
    var savingsPercentage := Percent(savings, totalBudget);
    var budgetUtilization := Percent(totalExpenses, totalBudget);
    var exceededBudget := if totalExpenses > totalBudget then 1 else 0;
    var exceededCategories := ExceededCategories(categories, Allocation(totalBudget, categories));
    var raw := model(Features(totalBudget, totalExpenses, allTimeExpenses, allTimeBudget));
    var predicted := Min(raw, totalBudget * 2.0);
    var predictedSavings := Max(totalBudget - predicted, 0.0);
    var futureUtilization := Percent(predicted, totalBudget);
    var top, low := Top(categories), Low(categories);
    HistoryReport(
      totalExpenses,
      exceededBudget,
      exceededCategories,
      TwoWay(totalExpenses - totalBudget),
      budgetUtilization,
      TwoWay(predicted - totalBudget),
      Savings(savings, savingsPercentage),
      Utilization(budgetUtilization, futureUtilization - budgetUtilization),
      AsInsight(top),
      AsInsight(low),
      top,
      low,
      predicted,
      predictedSavings,
      AllAlerts(categories, totalExpenses),
      BudgetWarnings(totalBudget, totalExpenses),
      totalBudget,
      categories)
  }

  /** An exact balance is reported as under budget by 0, and the forecast likewise. */
  lemma ExactBalanceReadsUnder(
    totalBudget: real, totalExpenses: real, categories: CategoryMap,
    allTimeExpenses: real, allTimeBudget: real, allTimeCategories: CategoryMap, model: Predictor)
    requires totalExpenses == totalBudget
    ensures var r := PredictSpending(totalBudget, totalExpenses, categories, allTimeExpenses, allTimeBudget, allTimeCategories, model);
      && r.expenseTrend == Under(0.0)
      && (r.predictedFutureExpenses == totalBudget ==> r.futureRiskPrediction == Under(0.0))
  {
  }

  /** Nothing is clamped: an overspent positive budget reports negative savings and over 100% use. */
  lemma OverspendingIsNotClamped(
    totalBudget: real, totalExpenses: real, categories: CategoryMap,
    allTimeExpenses: real, allTimeBudget: real, allTimeCategories: CategoryMap, model: Predictor)
    requires 0.0 < totalBudget < totalExpenses
    ensures var r := PredictSpending(totalBudget, totalExpenses, categories, allTimeExpenses, allTimeBudget, allTimeCategories, model);
      r.savings.percentage < 0.0 && r.budgetUtilization.percentage > 100.0
  {
    var savings := totalBudget - totalExpenses;
    assert savings / totalBudget < 0.0;
    assert totalExpenses / totalBudget > 1.0;
  }

  /** The all-time category totals are accepted but play no part in the report. */
  lemma AllTimeCategoriesUnused(
    totalBudget: real, totalExpenses: real, categories: CategoryMap,
    allTimeExpenses: real, allTimeBudget: real, a: CategoryMap, b: CategoryMap, model: Predictor)
    ensures PredictSpending(totalBudget, totalExpenses, categories, allTimeExpenses, allTimeBudget, a, model)
         == PredictSpending(totalBudget, totalExpenses, categories, allTimeExpenses, allTimeBudget, b, model)
  {
  }
}
