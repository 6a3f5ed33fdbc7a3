/**
 * The `/predict` route that serves the history engine: it aggregates the user's
 * Firestore records and answers with an error record, not a report, when the window
 * has no budget.
 */
module Prediction {
  import opened Categories
  import opened Analytics
  import opened Firestore
  import MlPredictSpending

  /** The request body `PredictionRequest`. */
  datatype PredictionRequest = PredictionRequest(userId: string, dateRange: string)

  /** The four Firestore queries for a user, a window start and today's date. */
  type Store = (string, Date, Date) -> QueryResults

  /** `{"error": "No budget data found for user"}`, or the engine's report. */
  datatype PredictionResult = NoBudgetData | Report(report: MlPredictSpending.HistoryReport)

  /** The records the route reads for `data` on the day `today`. */
  function Fetch(data: PredictionRequest, today: Date, store: Store): QueryResults
    requires ValidDate(today)
  {
    store(data.userId, StartDate(today, data.dateRange), today)
  }

  /** `predict(data)`, with the clock, the data store and the regressor made explicit. */
  function Predict(data: PredictionRequest, today: Date, store: Store, model: Predictor): (r: PredictionResult)
    requires ValidDate(today)
    ensures var start := StartDate(today, data.dateRange);
      var a := GetTransactionsAndBudgets(store(data.userId, start, today));
      && (r.NoBudgetData? <==> a.totalBudget == 0.0)
      && (r.Report? ==> r.report == MlPredictSpending.PredictSpending(
            a.totalBudget, a.totalExpenses, a.categories,
            a.allTimeExpenses, a.allTimeBudget, a.allTimeCategories, model))
  {
    Respond(Fetch(data, today, store), model)
  }

  /** What the route answers once the four queries have returned `q`. */
  function Respond(q: QueryResults, model: Predictor): (r: PredictionResult)
    ensures var a := GetTransactionsAndBudgets(q);
      && (r.NoBudgetData? <==> a.totalBudget == 0.0)
      && (r.Report? ==> r.report == MlPredictSpending.PredictSpending(
            a.totalBudget, a.totalExpenses, a.categories,
            a.allTimeExpenses, a.allTimeBudget, a.allTimeCategories, model))
  {
    var a := GetTransactionsAndBudgets(q);
    if a.totalBudget == 0.0 then NoBudgetData
    else Report(MlPredictSpending.PredictSpending(
      a.totalBudget, a.totalExpenses, a.categories,
      a.allTimeExpenses, a.allTimeBudget, a.allTimeCategories, model))
  }

  /** With no window budget the answer is the error record whatever the regressor would say. */
  lemma NoBudgetNeverPredicts(q: QueryResults, m1: Predictor, m2: Predictor)
    requires Total(q.budgets) == 0.0
    ensures Respond(q, m1) == Respond(q, m2) == NoBudgetData
  {
  }

  /** A report from this route always comes from a non-zero budget, so its percentages are the true ratios. */
  lemma RouteReportHasBudget(q: QueryResults, model: Predictor)
    requires Total(q.budgets) != 0.0
    ensures Respond(q, model).Report?
    ensures var rep := Respond(q, model).report;
      && rep.totalBudget != 0.0
      && rep.budgetUtilization.percentage == rep.totalExpenses / rep.totalBudget * 100.0
      && rep.savings.percentage == (rep.totalBudget - rep.totalExpenses) / rep.totalBudget * 100.0
  {
    var a := GetTransactionsAndBudgets(q);
    var b, e := a.totalBudget, a.totalExpenses;
    var rep := MlPredictSpending.PredictSpending(
      b, e, a.categories, a.allTimeExpenses, a.allTimeBudget, a.allTimeCategories, model);
    assert Respond(q, model).report == rep;
    assert b != 0.0 && rep.totalBudget == b && rep.totalExpenses == e;
    assert rep.budgetUtilization.percentage == e / b * 100.0;
    assert rep.savings.percentage == (b - e) / b * 100.0;
  }

  /** A report's categories are the grouped window transactions: a dict whose values add up to the expenses. */
  lemma RouteReportCategories(q: QueryResults, model: Predictor)
    requires Total(q.budgets) != 0.0
    ensures var rep := Respond(q, model).report;
      && Distinct(rep.categories)
      && Sum(rep.categories) == rep.totalExpenses
      && Keys(rep.categories) == CategorySet(q.transactions)
  {
    var a := GetTransactionsAndBudgets(q);
    var rep := Respond(q, model).report;
    assert rep.categories == a.categories && rep.totalExpenses == a.totalExpenses;
  }

  /** The reported top and low amounts are `categories[top_category]` and `categories[low_category]`. */
  lemma RouteInsightsAreLookups(q: QueryResults, model: Predictor)
    requires Total(q.budgets) != 0.0
    ensures var rep := Respond(q, model).report;
      rep.topSpendingCategory.Some? ==>
        Get(rep.categories, rep.topSpendingCategory.value.0, 0.0) == rep.topSpendingCategory.value.1
    ensures var rep := Respond(q, model).report;
      rep.lowSpendingCategory.Some? ==>
        Get(rep.categories, rep.lowSpendingCategory.value.0, 0.0) == rep.lowSpendingCategory.value.1
  {
    var a := GetTransactionsAndBudgets(q);
    var rep := Respond(q, model).report;
    assert rep.categories == a.categories;
    var cats := rep.categories;
    if |cats| > 0 {
      GetDistinct(cats, MaxIndex(cats), 0.0);
      GetDistinct(cats, MinIndex(cats), 0.0);
    }
  }
}
