/**
 * The minimal FastAPI endpoint: utilization and savings percentage, four features, the
 * raw forecast, and one warning when over budget.
 */
module AiApi {
  import opened Categories
  import opened Analytics

  datatype MinimalReport = MinimalReport(
    userId: int,
    dateRange: string,
    totalExpenses: real,
    predictedFutureExpenses: real,
    budgetUtilization: real,
    savingsPercentage: real,
    exceededBudget: bool,
    warnings: seq<Warning>)

  /** `[total_budget, total_expenses, budget_utilization, savings_percentage]`. */
  function Features(data: FinanceData): seq<real>
  {
    BaseFeatures(data.totalBudget, data.totalExpenses, Percent(data.totalBudget - data.totalExpenses, data.totalBudget))
  }

  /** `predict_spending(data)` with the regressor `model`. */
  function PredictSpending(data: FinanceData, model: Predictor): (r: MinimalReport)
    ensures var b, e := data.totalBudget, data.totalExpenses;
      && (b == 0.0 ==> r.budgetUtilization == 0.0 && r.savingsPercentage == 0.0)
      && (b != 0.0 ==> r.budgetUtilization == e / b * 100.0)
      && (b != 0.0 ==> r.savingsPercentage == (b - e) / b * 100.0)
      && r.predictedFutureExpenses == model(Features(data))
      && (r.exceededBudget <==> e > b)
      && (r.warnings != [] <==> r.exceededBudget)
      && (r.warnings != [] ==> r.warnings == [ExceededBy(Abs(b - e))])
    ensures r.userId == data.userId && r.dateRange == data.dateRange && r.totalExpenses == data.totalExpenses
  {
    var totalBudget, totalExpenses := data.totalBudget, data.totalExpenses;
    var budgetUtilization := Ratio(totalExpenses, totalBudget);
    var savings := totalBudget - totalExpenses;
    var savingsPercentage := Percent(savings, totalBudget);
    var predicted := model(BaseFeatures(totalBudget, totalExpenses, savingsPercentage));
    var exceeded := totalExpenses > totalBudget;
    MinimalReport(
      data.userId,
      data.dateRange,
      totalExpenses,
      predicted,
      budgetUtilization * 100.0,
      savingsPercentage,
      exceeded,
      if exceeded then [ExceededBy(Abs(savings))] else [])
  }
}
