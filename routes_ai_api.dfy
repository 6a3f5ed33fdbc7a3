/**
 * The FastAPI endpoint that takes the aggregates in its request body: four features, an
 * uncapped forecast, three-case messages, loop-built over-share map, alerts and warnings.
 * It divides by the budget without a guard when it computes the current and future
 * utilization, so a zero budget raises `ZeroDivisionError` before the regressor runs.
 */
module RoutesAiApi {
  import opened Outcomes
  import opened Categories
  import opened Analytics

  datatype RouteReport = RouteReport(
    totalExpenses: real,
    exceededBudget: int,
    exceededCategories: CategoryMap,
    expenseTrend: Trend,
    spendingTrend: real,
    futureRiskPrediction: Trend,
    savings: Savings,
    budgetUtilization: Utilization,
    potentialSavings: Insight,
    constantSpending: Insight,
    topSpendingCategory: Option<Entry>,
    lowSpendingCategory: Option<Entry>,
    predictedFutureExpenses: real,
    predictedSavingsNextMonth: real,
    abnormalSpendingAlerts: seq<Alert>,
    warnings: seq<Warning>)

  /** The four model inputs, with the unclamped savings percentage. */
  function Features(data: FinanceData): seq<real>
  {
    BaseFeatures(data.totalBudget, data.totalExpenses, Percent(data.totalBudget - data.totalExpenses, data.totalBudget))
  }

  /** What the endpoint returns for `data`, or the exception it raises. */
  function Response(data: FinanceData, model: Predictor): (r: Result<RouteReport>)
    ensures r.Failure? <==> data.totalBudget == 0.0
    ensures r.Failure? ==> r.error == ZeroDivisionError
    ensures r.Success? ==> var rep, b, e := r.value, data.totalBudget, data.totalExpenses;
      // unclamped percentages
      && rep.savings.amount == b - e
      && rep.savings.percentage == (b - e) / b * 100.0
      && rep.budgetUtilization.percentage == e / b * 100.0
      && rep.spendingTrend == rep.budgetUtilization.percentage
      // the raw, uncapped forecast
      && rep.predictedFutureExpenses == model(Features(data))
      && rep.predictedSavingsNextMonth == b - rep.predictedFutureExpenses
      && rep.budgetUtilization.change == rep.predictedFutureExpenses / b * 100.0 - rep.budgetUtilization.percentage
      // three-case messages
      && rep.expenseTrend == ThreeWay(e - b)
      && rep.futureRiskPrediction == ThreeWay(rep.predictedFutureExpenses - b)
      // over budget
      && rep.exceededBudget in {0, 1}
      && (rep.exceededBudget == 1 <==> e > b)
      && (rep.warnings != [] <==> e > b)
      && (rep.warnings != [] ==> rep.warnings == [ExceededBy(Abs(rep.savings.amount))])
      // category rules
      && rep.exceededCategories == ExceededCategories(data.categories, Allocation(b, data.categories))
      && rep.abnormalSpendingAlerts == AllAlerts(data.categories, e)
      && rep.topSpendingCategory == Top(data.categories)
      && rep.lowSpendingCategory == Low(data.categories)
      && rep.potentialSavings == AsInsight(rep.topSpendingCategory)
      && rep.constantSpending == AsInsight(rep.lowSpendingCategory)
      && rep.totalExpenses == e
  {
    var b, e, categories := data.totalBudget, data.totalExpenses, data.categories;
    if b == 0.0 then Failure(ZeroDivisionError)
    else
      var savings := b - e;
      var budgetUtilization := Percent(e, b);
      var predicted := model(Features(data));
      var top, low := Top(categories), Low(categories);
      Success(RouteReport(
        e,
        if e > b then 1 else 0,
        ExceededCategories(categories, Allocation(b, categories)),
        ThreeWay(e - b),
        budgetUtilization,
        ThreeWay(predicted - b),
        Savings(savings, Percent(savings, b)),
        Utilization(budgetUtilization, predicted / b * 100.0 - e / b * 100.0),
        AsInsight(top),
        AsInsight(low),
        top,
        low,
        predicted,
        b - predicted,
        AllAlerts(categories, e),
        BudgetWarnings(b, e)))
  }

  /** The endpoint body, statement by statement, with its `for` loops. */
  method PredictSpending(data: FinanceData, model: Predictor) returns (response: Result<RouteReport>)
    requires Distinct(data.categories)
    ensures response == Response(data, model)
  {
    var totalBudget := data.totalBudget;
    var totalExpenses := data.totalExpenses;
    var categories := data.categories;

    var savings := totalBudget - totalExpenses;
    var savingsPercentage := if totalBudget != 0.0 then savings / totalBudget * 100.0 else 0.0;
    var budgetUtilization := if totalBudget != 0.0 then totalExpenses / totalBudget * 100.0 else 0.0;
    var exceededBudget := if totalExpenses > totalBudget then 1 else 0;

    var categoryAlloc := Allocation(totalBudget, categories);
    var exceededCategories := CollectExceeded(categories, categoryAlloc);

    var features := BaseFeatures(totalBudget, totalExpenses, savingsPercentage);
    if data.totalBudget == 0.0 {
      // `(data.total_expenses / data.total_budget) * 100` raises
      return Failure(ZeroDivisionError);
    }
    var currentUtilization := data.totalExpenses / data.totalBudget * 100.0;

    var predictedExpenses := model(features);
    var futureUtilization := predictedExpenses / data.totalBudget * 100.0;
    var utilizationChange := futureUtilization - currentUtilization;
    var predictedSavingsNextMonth := totalBudget - predictedExpenses;

    var expenseTrend := ThreeWay(totalExpenses - totalBudget);
    var futureRisk := ThreeWay(predictedExpenses - totalBudget);

    var topSpending := Top(categories);
    var lowSpending := Low(categories);

    var alerts := CollectAlerts(categories, totalExpenses);

    var warnings := [];
    if exceededBudget == 1 {
      warnings := warnings + [ExceededBy(Abs(savings))];
    }

    assert warnings == BudgetWarnings(totalBudget, totalExpenses);
    assert savingsPercentage == Percent(savings, totalBudget);
    assert budgetUtilization == Percent(totalExpenses, totalBudget);
    assert features == Features(data);
    response := Success(RouteReport(
      totalExpenses,
      exceededBudget,
      exceededCategories,
      expenseTrend,
      budgetUtilization,
      futureRisk,
      Savings(savings, savingsPercentage),
      Utilization(budgetUtilization, utilizationChange),
      AsInsight(topSpending),
      AsInsight(lowSpending),
      topSpending,
      lowSpending,
      predictedExpenses,
      predictedSavingsNextMonth,
      alerts,
      warnings));
  }

  /** A zero budget fails before the regressor is consulted: the outcome does not depend on it. */
  lemma ZeroBudgetNeverPredicts(data: FinanceData, m1: Predictor, m2: Predictor)
    requires data.totalBudget == 0.0
    ensures Response(data, m1) == Response(data, m2) == Failure(ZeroDivisionError)
  {
  }

  /** Without a cap the projected savings go negative whenever the forecast exceeds the budget. */
  lemma UncappedForecast(data: FinanceData, model: Predictor)
    requires data.totalBudget != 0.0 && model(Features(data)) > data.totalBudget
    ensures Response(data, model).value.predictedSavingsNextMonth < 0.0
    ensures Response(data, model).value.futureRiskPrediction.Over?
  {
  }
}
