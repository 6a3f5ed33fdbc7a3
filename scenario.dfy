/**
 * The sample request of `test_request.py`, stated on the engines for any regressor:
 * a small overspend, three categories above an equal share, and one negative category.
 */
module Scenario {
  import opened Outcomes
  import opened Categories
  import opened Analytics
  import MlPredictSpending
  import MlModel
  import RoutesAiApi

  const SampleBudget: real := 2510.84
  const SampleExpenses: real := 2538.37

  const SampleCategories: CategoryMap := [
    ("Essentials", 715.6),
    ("Food & Entertainment", 634.97),
    ("Shopping", 731.86),
    ("Health & Wellness", 385.99),
    ("Other", -420.06)
  ]

  /** The equal share is 2510.84 / 5; three categories are above it, by their exact excess. */
  lemma SampleExceededCategories()
    ensures Allocation(SampleBudget, SampleCategories) == 502.168
    ensures ExceededCategories(SampleCategories, 502.168)
      == [("Essentials", 213.432), ("Food & Entertainment", 132.802), ("Shopping", 229.692)]
  {
    var c := SampleCategories;
    assert c[..1] == [c[0]] && c[..2] == c[..1] + [c[1]] && c[..3] == c[..2] + [c[2]];
    assert c[..4] == c[..3] + [c[3]] && c == c[..4] + [c[4]];
    assert ExceededCategories(c[..1], 502.168) == [("Essentials", 213.432)];
    assert ExceededCategories(c[..2], 502.168) == [("Essentials", 213.432), ("Food & Entertainment", 132.802)];
    assert ExceededCategories(c[..4], 502.168) == ExceededCategories(c[..3], 502.168);
  }

  /** Only "Other" is reported, as a negative value; no category holds half the expenses. */
  lemma SampleAlerts()
    ensures AllAlerts(SampleCategories, SampleExpenses) == [NegativeValue("Other", -420.06)]
    ensures FirstAlerts(SampleCategories, SampleExpenses) == [NegativeValue("Other", -420.06)]
  {
    var c := SampleCategories;
    assert c[..1] == [c[0]] && c[..2] == c[..1] + [c[1]] && c[..3] == c[..2] + [c[2]];
    assert c[..4] == c[..3] + [c[3]] && c == c[..4] + [c[4]];
    forall i | 0 <= i < 4
      ensures EntryAlerts(c[i], SampleExpenses) == []
    {
      assert c[i].1 <= 731.86;
    }
    assert AllAlerts(c[..1], SampleExpenses) == [];
    assert AllAlerts(c[..2], SampleExpenses) == [];
    assert AllAlerts(c[..3], SampleExpenses) == [];
    assert AllAlerts(c[..4], SampleExpenses) == [];
    AlertRulesAgree(c, SampleExpenses);
  }

  /** "Shopping" is the top category and "Other" the low one. */
  lemma SampleInsights()
    ensures Top(SampleCategories) == Some(("Shopping", 731.86))
    ensures Low(SampleCategories) == Some(("Other", -420.06))
  {
    var c := SampleCategories;
    assert c[..1] == [c[0]] && c[..2] == c[..1] + [c[1]] && c[..3] == c[..2] + [c[2]];
    assert c[..4] == c[..3] + [c[3]];
  }

  /** The history engine flags the overspend of 27.53 and reports the rules above. */
  lemma SampleHistoryReport(allTimeExpenses: real, allTimeBudget: real, allTimeCategories: CategoryMap, model: Predictor)
    ensures var r := MlPredictSpending.PredictSpending(
              SampleBudget, SampleExpenses, SampleCategories,
              allTimeExpenses, allTimeBudget, allTimeCategories, model);
      && r.exceededBudget == 1
      && r.expenseTrend == Over(27.53)
      && r.warnings == [ExceededBy(27.53)]
      && r.savings.amount == -27.53
      && r.savings.percentage < 0.0
      && r.budgetUtilization.percentage > 100.0
      && r.exceededCategories == [("Essentials", 213.432), ("Food & Entertainment", 132.802), ("Shopping", 229.692)]
      && r.abnormalSpendingAlerts == [NegativeValue("Other", -420.06)]
      && r.potentialSavings == Insight(Some("Shopping"), 731.86)
      && r.constantSpending == Insight(Some("Other"), -420.06)
  {
    SampleExceededCategories();
    SampleAlerts();
    SampleInsights();
    SampleOverspendPercentages();
  }

  /** The clamping engine reports the same overspend with 0% savings and 100% use. */
  lemma SampleModelReport(model: Predictor)
    ensures var r := MlModel.PredictSpending(SampleBudget, SampleExpenses, SampleCategories, model);
      && r.exceededBudget == 1
      && r.expenseTrend == Over(27.53)
      && r.warnings == [ExceededBy(27.53)]
      && r.savings == Savings(-27.53, 0.0)
      && r.budgetUtilization == 100.0
      && r.exceededCategories == [("Essentials", 213.432), ("Food & Entertainment", 132.802), ("Shopping", 229.692)]
      && r.abnormalSpendingAlerts == [NegativeValue("Other", -420.06)]
  {
    SampleExceededCategories();
    SampleAlerts();
    SampleOverspendPercentages();
  }

  /**
   * For the sample's figures with any user id and date range, the uncapped endpoint (whose
   * budget is then not zero) reports the same rules.
   */
  lemma SampleRouteReport(userId: int, dateRange: string, model: Predictor)
    ensures var r := RoutesAiApi.Response(FinanceData(userId, dateRange, SampleBudget, SampleExpenses, SampleCategories), model);
      && r.Success?
      && r.value.exceededBudget == 1
      && r.value.warnings == [ExceededBy(27.53)]
      && r.value.exceededCategories == [("Essentials", 213.432), ("Food & Entertainment", 132.802), ("Shopping", 229.692)]
      && r.value.abnormalSpendingAlerts == [NegativeValue("Other", -420.06)]
  {
    SampleExceededCategories();
    SampleAlerts();
  }

  /** The sample's expenses exceed its budget, so its percentages leave the 0..100 range. */
  lemma SampleOverspendPercentages()
    ensures (SampleBudget - SampleExpenses) / SampleBudget * 100.0 < 0.0
    ensures SampleExpenses / SampleBudget * 100.0 > 100.0
  {
  }

  /** The sample's categories do not add up to its expenses: they are not its grouped transactions. */
  lemma SampleIsNotAGrouping()
    ensures Sum(SampleCategories) == 2048.36 != SampleExpenses
  {
    var c := SampleCategories;
    assert c[..1] == [c[0]] && c[..2] == c[..1] + [c[1]] && c[..3] == c[..2] + [c[2]];
    assert c[..4] == c[..3] + [c[3]] && c == c[..4] + [c[4]];
    assert Sum(c[..1]) == 715.6;
    assert Sum(c[..2]) == 1350.57;
    assert Sum(c[..3]) == 2082.43;
    assert Sum(c[..4]) == 2468.42;
  }
}
