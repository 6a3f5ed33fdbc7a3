/**
 * How the four spending engines relate: the same rules over the same inputs, differing
 * only where one clamps, caps, guards or phrases a message differently.
 */
module Variants {
  import opened Outcomes
  import opened Categories
  import opened Analytics
  import MlPredictSpending
  import MlModel
  import RoutesAiApi
  import AiApi

  /** Both endpoints feed the regressor the same vector, the first four of the history engine's seven. */
  lemma EndpointFeaturesAgree(data: FinanceData, allTimeExpenses: real, allTimeBudget: real)
    ensures AiApi.Features(data) == RoutesAiApi.Features(data)
    ensures MlPredictSpending.Features(data.totalBudget, data.totalExpenses, allTimeExpenses, allTimeBudget)[..4]
      == RoutesAiApi.Features(data)
  {
  }

  /** The clamping engine's vector differs only in its last entry, the savings percentage raised to 0. */
  lemma ClampedFeatureVector(data: FinanceData)
    ensures var clamped, raw := MlModel.Features(data.totalBudget, data.totalExpenses), RoutesAiApi.Features(data);
      && |clamped| == |raw| == 4
      && clamped[..3] == raw[..3]
      && clamped[3] == Max(raw[3], 0.0)
  {
  }

  /**
   * Within a positive budget the clamping engine sees the uncapped endpoint's vector, so its
   * forecast is that endpoint's forecast capped at twice the budget.
   */
  lemma WithinBudgetForecastIsCapped(data: FinanceData, model: Predictor)
    requires 0.0 < data.totalBudget && data.totalExpenses <= data.totalBudget
    ensures MlModel.Features(data.totalBudget, data.totalExpenses) == RoutesAiApi.Features(data)
    ensures MlModel.PredictSpending(data.totalBudget, data.totalExpenses, data.categories, model).predictedFutureExpenses
      == Min(RoutesAiApi.Response(data, model).value.predictedFutureExpenses, 2.0 * data.totalBudget)
  {
    var b, e := data.totalBudget, data.totalExpenses;
    assert (b - e) / b * 100.0 >= 0.0;
    assert MlModel.SavingsPercentage(b, e) == Percent(b - e, b);
  }

  /** The two message styles disagree only on an exact balance, which one calls "under by 0". */
  lemma MessageStylesAgree(diff: real)
    ensures TwoWay(diff) == if diff == 0.0 then Under(0.0) else ThreeWay(diff)
  {
  }

  /**
   * Whatever the regressor, the two engines under `ml/` agree on every category rule, the
   * over-budget flag and its warning; the history engine's independent alert checks yield
   * the same list as the clamping engine's single check.
   */
  lemma EnginesShareCategoryRules(
    totalBudget: real, totalExpenses: real, categories: CategoryMap,
    allTimeExpenses: real, allTimeBudget: real, allTimeCategories: CategoryMap,
    m1: Predictor, m2: Predictor)
    ensures var h := MlPredictSpending.PredictSpending(
              totalBudget, totalExpenses, categories, allTimeExpenses, allTimeBudget, allTimeCategories, m1);
            var c := MlModel.PredictSpending(totalBudget, totalExpenses, categories, m2);
      && h.exceededBudget == c.exceededBudget
      && h.warnings == c.warnings
      && h.savings.amount == c.savings.amount
      && h.exceededCategories == c.exceededCategories
      && h.abnormalSpendingAlerts == c.abnormalSpendingAlerts
      && h.potentialSavings == c.potentialSavings
      && h.constantSpending == c.constantSpending
  {
    AlertRulesAgree(categories, totalExpenses);
  }

  /**
   * With a non-zero budget the uncapped endpoint agrees with the history engine on the flag,
   * the warnings, the savings, the utilization percentage, the category rules, the alerts and
   * the four insights.
   */
  lemma EndpointSharesHistoryRules(data: FinanceData, allTimeExpenses: real, allTimeBudget: real,
                                   allTimeCategories: CategoryMap, m1: Predictor, m2: Predictor)
    requires data.totalBudget != 0.0
    ensures var h := MlPredictSpending.PredictSpending(
              data.totalBudget, data.totalExpenses, data.categories,
              allTimeExpenses, allTimeBudget, allTimeCategories, m1);
            var r := RoutesAiApi.Response(data, m2).value;
      && h.exceededBudget == r.exceededBudget
      && h.warnings == r.warnings
      && h.savings == r.savings
      && h.budgetUtilization.percentage == r.budgetUtilization.percentage
      && h.exceededCategories == r.exceededCategories
      && h.abnormalSpendingAlerts == r.abnormalSpendingAlerts
      && h.potentialSavings == r.potentialSavings
      && h.constantSpending == r.constantSpending
      && h.topSpendingCategory == r.topSpendingCategory
      && h.lowSpendingCategory == r.lowSpendingCategory
  {
  }
}
