/**
 * The rules the four copies of the spending-analytics engine have in common: guarded
 * ratios, the equal-split category allocation, the over-allocation map, the anomaly
 * alerts, the top/low category choice, the trend messages and the budget warning.
 * Messages are kept as data (their case and the amount they print), not as text.
 */
module Analytics {
  import opened Outcomes
  import opened Categories

  /** The trained regressor: the feature vector in, one predicted amount out. */
  type Predictor = seq<real> -> real

  /** The request body `FinanceData` of both FastAPI endpoints. */
  datatype FinanceData = FinanceData(
    userId: int,
    dateRange: string,
    totalBudget: real,
    totalExpenses: real,
    categories: CategoryMap)

  datatype Savings = Savings(amount: real, percentage: real)

  /** The utilization percentage and its forecast change, both in percent. */
  datatype Utilization = Utilization(percentage: real, change: real)

  /** A category named in a report, or `None` with amount 0 when there are no categories. */
  datatype Insight = Insight(category: Option<string>, amount: real)

  /** A trend message: over by an amount, under by an amount, or an exact match. */
  datatype Trend = Over(amount: real) | Under(amount: real) | Exact

  /** "Category '...' is negative (...)" and "Category '...' is over 50% ...". */
  datatype Alert = NegativeValue(category: string, value: real) | HighConcentration(category: string)

  /** "You have exceeded your budget by $...". */
  datatype Warning = ExceededBy(amount: real)

  function Abs(x: real): real { if x < 0.0 then -x else x }
  function Min(x: real, y: real): real { if x <= y then x else y }
  function Max(x: real, y: real): real { if x >= y then x else y }

  /** `x / d if d else 0`: Python treats a zero divisor as false. */
  function Ratio(x: real, d: real): (r: real)
    ensures d == 0.0 ==> r == 0.0
    ensures d != 0.0 ==> r * d == x
  {
    if d != 0.0 then x / d else 0.0
  }

  /** `(x / d) * 100 if d else 0`. */
  function Percent(x: real, d: real): (r: real)
    ensures r == Ratio(x, d) * 100.0
  {
    if d != 0.0 then x / d * 100.0 else 0.0
  }

  /**
   * The four columns `total_budget, total_expenses, budget_utilization,
   * savings_percentage` of the model input; the third is the plain ratio, not a percentage.
   */
  function BaseFeatures(budget: real, expenses: real, savingsPercentage: real): (f: seq<real>)
    ensures |f| == 4
    ensures f[0] == budget && f[1] == expenses && f[3] == savingsPercentage
    ensures budget == 0.0 ==> f[2] == 0.0
    ensures budget != 0.0 ==> f[2] * budget == expenses
  {
    [budget, expenses, Ratio(expenses, budget), savingsPercentage]
  }

  /** The equal share of the budget per category: `budget / (len(categories) or 1)`. */
  function Allocation(budget: real, cats: CategoryMap): (r: real)
    ensures |cats| == 0 ==> r == budget
    ensures |cats| > 0 ==> r * (|cats| as real) == budget
  {
    budget / (if |cats| > 0 then |cats| as real else 1.0)
  }

  /**
   * `{name: spend - alloc for name, spend in categories.items() if spend > alloc}`:
   * every category spending more than its share, with the amount by which it does,
   * in iteration order.
   */
  function ExceededCategories(cats: CategoryMap, alloc: real): CategoryMap
  {
    if cats == [] then []
    else
      var init, last := cats[..|cats| - 1], cats[|cats| - 1];
      ExceededCategories(init, alloc)
      + (if last.1 > alloc then [(last.0, last.1 - alloc)] else [])
  }

  /** The map is no longer than the categories, and every excess in it is positive. */
  lemma {:induction false} ExceededCategoriesPositive(cats: CategoryMap, alloc: real)
    ensures |ExceededCategories(cats, alloc)| <= |cats|
    ensures forall e :: e in ExceededCategories(cats, alloc) ==> e.1 > 0.0
  {
    if cats != [] {
      ExceededCategoriesPositive(cats[..|cats| - 1], alloc);
    }
  }

  /** Every category spending more than its share is in the map, with its excess. */
  lemma {:induction false} ExceededCategoriesComplete(cats: CategoryMap, alloc: real)
    ensures forall i :: 0 <= i < |cats| && cats[i].1 > alloc ==> (cats[i].0, cats[i].1 - alloc) in ExceededCategories(cats, alloc)
  {
    if cats != [] {
      var init, last := cats[..|cats| - 1], cats[|cats| - 1];
      ExceededCategoriesComplete(init, alloc);
      forall i | 0 <= i < |cats| && cats[i].1 > alloc
        ensures (cats[i].0, cats[i].1 - alloc) in ExceededCategories(cats, alloc)
      {
        if i < |init| {
          assert init[i] == cats[i];
        }
      }
    }
  }

  /** Every entry of the map is a category spending more than its share, with its excess. */
  lemma {:induction false} ExceededCategoriesSound(cats: CategoryMap, alloc: real)
    ensures forall e :: e in ExceededCategories(cats, alloc) ==>
      exists i :: 0 <= i < |cats| && cats[i].1 > alloc && e == (cats[i].0, cats[i].1 - alloc)
  {
    if cats != [] {
      var init, last := cats[..|cats| - 1], cats[|cats| - 1];
      ExceededCategoriesSound(init, alloc);
      forall e | e in ExceededCategories(cats, alloc)
        ensures exists i :: 0 <= i < |cats| && cats[i].1 > alloc && e == (cats[i].0, cats[i].1 - alloc)
      {
        if e in ExceededCategories(init, alloc) {
          var i :| 0 <= i < |init| && init[i].1 > alloc && e == (init[i].0, init[i].1 - alloc);
          assert cats[i] == init[i];
        } else {
          assert cats[|cats| - 1].1 > alloc && e == (last.0, last.1 - alloc);
        }
      }
    }
  }

  /** The keys are category names; from a dict they are distinct, and under-share names are absent. */
  lemma {:induction false} ExceededCategoriesKeys(cats: CategoryMap, alloc: real)
    ensures Keys(ExceededCategories(cats, alloc)) <= Keys(cats)
    ensures Distinct(cats) ==> Distinct(ExceededCategories(cats, alloc))
    ensures Distinct(cats) ==> forall i :: 0 <= i < |cats| && cats[i].1 <= alloc ==> cats[i].0 !in Keys(ExceededCategories(cats, alloc))
  {
    if cats != [] {
      var init, last := cats[..|cats| - 1], cats[|cats| - 1];
      assert forall i :: 0 <= i < |init| ==> init[i] == cats[i];
      KeysInit(cats);
      ExceededCategoriesKeys(init, alloc);
      var prefix := ExceededCategories(init, alloc);
      if last.1 > alloc {
        var r := prefix + [(last.0, last.1 - alloc)];
        assert forall i :: 0 <= i < |prefix| ==> r[i] == prefix[i];
        assert r[|prefix|].0 == last.0;
        assert Keys(r) == Keys(prefix) + {last.0};
      }
    }
  }

  /**
   * The map follows iteration order: for categories `c1` followed by `c2`, the entries of
   * `c1` come first, then those of `c2`.
   */
  lemma {:induction false} ExceededCategoriesAppend(c1: CategoryMap, c2: CategoryMap, alloc: real)
    ensures ExceededCategories(c1 + c2, alloc) == ExceededCategories(c1, alloc) + ExceededCategories(c2, alloc)
  {
    if c2 == [] {
      assert c1 + c2 == c1;
    } else {
      var init := c2[..|c2| - 1];
      assert (c1 + c2)[..|c1 + c2| - 1] == c1 + init;
      assert (c1 + c2)[|c1 + c2| - 1] == c2[|c2| - 1];
      ExceededCategoriesAppend(c1, init, alloc);
    }
  }

  /**
   * The loop that fills `exceeded_categories` one key at a time. Because the names are
   * distinct, every insertion is of a new key, so the loop builds the same ordered map
   * as the dict comprehension.
   */
  method CollectExceeded(cats: CategoryMap, alloc: real) returns (exceeded: CategoryMap)
    requires Distinct(cats)
    ensures exceeded == ExceededCategories(cats, alloc)
  {
    exceeded := [];
    for i := 0 to |cats|
      invariant exceeded == ExceededCategories(cats[..i], alloc)
    {
      var (name, spend) := cats[i];
      ghost var done := cats[..i];
      assert cats[..i + 1][..i] == done;
      if spend > alloc {
        ExceededCategoriesKeys(done, alloc);
        KeysInit(cats[..i + 1]);
        PutKeys(exceeded, name, spend - alloc);
        exceeded := Put(exceeded, name, spend - alloc);
      }
    }
    assert cats[..|cats|] == cats;
  }

  /** `expenses > 0 and value / expenses > 0.5`. */
  predicate Concentrated(value: real, expenses: real)
  {
    expenses > 0.0 && value / expenses > 0.5
  }

  /** Whether the entry `e` is what the alert `a` reports. */
  predicate Reports(e: Entry, expenses: real, a: Alert)
  {
    || (a == NegativeValue(e.0, e.1) && e.1 < 0.0)
    || (a == HighConcentration(e.0) && Concentrated(e.1, expenses))
  }

  /** The two independent `if`s of the alert loop, for one category. */
  function EntryAlerts(e: Entry, expenses: real): seq<Alert>
  {
    (if e.1 < 0.0 then [NegativeValue(e.0, e.1)] else [])
    + (if Concentrated(e.1, expenses) then [HighConcentration(e.0)] else [])
  }

  /** The alerts of the loop with two independent `if`s, in category order. */
  function AllAlerts(cats: CategoryMap, expenses: real): seq<Alert>
  {
    if cats == [] then []
    else AllAlerts(cats[..|cats| - 1], expenses) + EntryAlerts(cats[|cats| - 1], expenses)
  }

  /** The list-comprehension rule: one alert per category at most, the negative one first. */
  function EntryAlert(e: Entry, expenses: real): seq<Alert>
  {
    if e.1 < 0.0 then [NegativeValue(e.0, e.1)]
    else if Concentrated(e.1, expenses) then [HighConcentration(e.0)]
    else []
  }

  /** The alerts of the list comprehension, in category order. */
  function FirstAlerts(cats: CategoryMap, expenses: real): seq<Alert>
  {
    if cats == [] then []
    else FirstAlerts(cats[..|cats| - 1], expenses) + EntryAlert(cats[|cats| - 1], expenses)
  }

  /** A negative amount is never more than half of positive expenses. */
  lemma NegativeIsNotConcentrated(value: real, expenses: real)
    requires value < 0.0
    ensures !Concentrated(value, expenses)
  {
    if expenses > 0.0 {
      assert value / expenses < 0.0;
    }
  }

  /**
   * No category raises both alerts, so the two alert rules agree on every input: the
   * loop with two independent `if`s yields the list comprehension's alerts.
   */
  lemma {:induction false} AlertRulesAgree(cats: CategoryMap, expenses: real)
    ensures AllAlerts(cats, expenses) == FirstAlerts(cats, expenses)
  {
    if cats != [] {
      var last := cats[|cats| - 1];
      AlertRulesAgree(cats[..|cats| - 1], expenses);
      if last.1 < 0.0 {
        NegativeIsNotConcentrated(last.1, expenses);
      }
    }
  }

  /** The alerts follow iteration order: those of `c1` come before those of `c2`. */
  lemma {:induction false} AllAlertsAppend(c1: CategoryMap, c2: CategoryMap, expenses: real)
    ensures AllAlerts(c1 + c2, expenses) == AllAlerts(c1, expenses) + AllAlerts(c2, expenses)
  {
    if c2 == [] {
      assert c1 + c2 == c1;
    } else {
      var init := c2[..|c2| - 1];
      assert (c1 + c2)[..|c1 + c2| - 1] == c1 + init;
      assert (c1 + c2)[|c1 + c2| - 1] == c2[|c2| - 1];
      AllAlertsAppend(c1, init, expenses);
    }
  }

  /**
   * Every alert reports a category that warrants it; every negative category gets a
   * negative-value alert and every other category above half the expenses a
   * concentration alert; there is at most one alert per entry.
   */
  lemma {:induction false} FirstAlertsReport(cats: CategoryMap, expenses: real)
    ensures var r := FirstAlerts(cats, expenses);
      && |r| <= |cats|
      && (forall a :: a in r ==> exists i :: 0 <= i < |cats| && Reports(cats[i], expenses, a))
      && (forall i :: 0 <= i < |cats| && cats[i].1 < 0.0 ==> NegativeValue(cats[i].0, cats[i].1) in r)
      && (forall i :: 0 <= i < |cats| && Concentrated(cats[i].1, expenses) ==> HighConcentration(cats[i].0) in r)
  {
    if cats != [] {
      var init, last := cats[..|cats| - 1], cats[|cats| - 1];
      assert forall i :: 0 <= i < |init| ==> init[i] == cats[i];
      FirstAlertsReport(init, expenses);
      if last.1 < 0.0 {
        NegativeIsNotConcentrated(last.1, expenses);
      }
      var r := FirstAlerts(cats, expenses);
      assert forall a :: a in r ==> a in FirstAlerts(init, expenses) || a in EntryAlert(last, expenses);
    }
  }

  /** No two alerts name the same category. */
  predicate NoCategoryTwice(alerts: seq<Alert>)
  {
    forall i, j :: 0 <= i < j < |alerts| ==> alerts[i].category != alerts[j].category
  }

  /** Alerts name categories of the map; for a dict no category is named twice. */
  lemma {:induction false} FirstAlertsOnePerCategory(cats: CategoryMap, expenses: real)
    ensures forall a :: a in FirstAlerts(cats, expenses) ==> a.category in Keys(cats)
    ensures Distinct(cats) ==> NoCategoryTwice(FirstAlerts(cats, expenses))
  {
    if cats != [] {
      var init, last := cats[..|cats| - 1], cats[|cats| - 1];
      assert forall i :: 0 <= i < |init| ==> init[i] == cats[i];
      KeysInit(cats);
      FirstAlertsOnePerCategory(init, expenses);
      var prefix, tail := FirstAlerts(init, expenses), EntryAlert(last, expenses);
      var r := FirstAlerts(cats, expenses);
      assert r == prefix + tail;
      assert |tail| <= 1 && forall a :: a in tail ==> a.category == last.0;
      assert forall a :: a in r ==> a in prefix || a in tail;
      if Distinct(cats) {
        assert last.0 !in Keys(init);
        forall i, j | 0 <= i < j < |r| ensures r[i].category != r[j].category {
          assert Distinct(init);
          if j < |prefix| {
            assert r[i] == prefix[i] && r[j] == prefix[j];
            assert prefix[i].category != prefix[j].category;
          } else {
            assert i < |prefix|;
            assert r[i] == prefix[i] && r[j] == tail[j - |prefix|];
            assert prefix[i] in prefix;
            assert prefix[i].category in Keys(init);
            assert r[j].category == last.0;
          }
        }
      }
    }
  }

  /** The `for` loop that appends the alerts of each category to a list. */
  method CollectAlerts(cats: CategoryMap, expenses: real) returns (alerts: seq<Alert>)
    ensures alerts == AllAlerts(cats, expenses)
  {
    alerts := [];
    for i := 0 to |cats|
      invariant alerts == AllAlerts(cats[..i], expenses)
    {
      var (name, value) := cats[i];
      assert cats[..i + 1][..i] == cats[..i];
      if value < 0.0 {
        alerts := alerts + [NegativeValue(name, value)];
      }
      if expenses > 0.0 && value / expenses > 0.5 {
        alerts := alerts + [HighConcentration(name)];
      }
    }
    assert cats[..|cats|] == cats;
  }

  /** The position `max(categories, key=categories.get)` picks: the first largest value. */
  function MaxIndex(cats: CategoryMap): (k: nat)
    requires |cats| > 0
    ensures k < |cats|
    ensures forall j :: 0 <= j < |cats| ==> cats[j].1 <= cats[k].1
    ensures forall j :: 0 <= j < k ==> cats[j].1 < cats[k].1
  {
    if |cats| == 1 then 0
    else
      var k := MaxIndex(cats[..|cats| - 1]);
      if cats[|cats| - 1].1 > cats[k].1 then |cats| - 1 else k
  }

  /** The position `min(categories, key=categories.get)` picks: the first smallest value. */
  function MinIndex(cats: CategoryMap): (k: nat)
    requires |cats| > 0
    ensures k < |cats|
    ensures forall j :: 0 <= j < |cats| ==> cats[k].1 <= cats[j].1
    ensures forall j :: 0 <= j < k ==> cats[k].1 < cats[j].1
  {
    if |cats| == 1 then 0
    else
      var k := MinIndex(cats[..|cats| - 1]);
      if cats[|cats| - 1].1 < cats[k].1 then |cats| - 1 else k
  }

  /** The top category and its amount, `None` when there are no categories. */
  function Top(cats: CategoryMap): (r: Option<Entry>)
    ensures r.None? <==> |cats| == 0
    ensures r.Some? ==> forall j :: 0 <= j < |cats| ==> cats[j].1 <= r.value.1
    ensures r.Some? ==> exists k :: 0 <= k < |cats| && cats[k] == r.value && forall j :: 0 <= j < k ==> cats[j].1 < cats[k].1
  {
    if |cats| > 0 then Some(cats[MaxIndex(cats)]) else None
  }

  /** The low category and its amount, `None` when there are no categories. */
  function Low(cats: CategoryMap): (r: Option<Entry>)
    ensures r.None? <==> |cats| == 0
    ensures r.Some? ==> forall j :: 0 <= j < |cats| ==> r.value.1 <= cats[j].1
    ensures r.Some? ==> exists k :: 0 <= k < |cats| && cats[k] == r.value && forall j :: 0 <= j < k ==> cats[k].1 < cats[j].1
  {
    if |cats| > 0 then Some(cats[MinIndex(cats)]) else None
  }

  /** `{"category": name, "amount": amount}`, or `{"category": None, "amount": 0}`. */
  function AsInsight(o: Option<Entry>): (r: Insight)
    ensures o.None? ==> r == Insight(None, 0.0)
    ensures o.Some? ==> r == Insight(Some(o.value.0), o.value.1)
  {
    match o
    case None => Insight(None, 0.0)
    case Some(e) => Insight(Some(e.0), e.1)
  }

  /** The amount a trend message prints. */
  function Magnitude(t: Trend): real
  {
    if t.Exact? then 0.0 else t.amount
  }

  /** A message with two cases: over when `diff > 0`, otherwise under by `abs(diff)`. */
  function TwoWay(diff: real): (t: Trend)
    ensures t.Over? <==> diff > 0.0
    ensures t.Under? <==> diff <= 0.0
    ensures Magnitude(t) == Abs(diff)
  {
    if diff > 0.0 then Over(diff) else Under(Abs(diff))
  }

  /** A message with three cases, on the sign of `diff`; it prints `abs(diff)`. */
  function ThreeWay(diff: real): (t: Trend)
    ensures t.Over? <==> diff > 0.0
    ensures t.Under? <==> diff < 0.0
    ensures t.Exact? <==> diff == 0.0
    ensures Magnitude(t) == Abs(diff)
  {
    if diff > 0.0 then Over(diff)
    else if diff < 0.0 then Under(Abs(diff))
    else Exact
  }

  /** The warnings list: one "exceeded" warning for `abs(savings)` when over budget. */
  function BudgetWarnings(budget: real, expenses: real): (w: seq<Warning>)
    ensures w != [] <==> expenses > budget
    ensures w != [] ==> w == [ExceededBy(expenses - budget)] && expenses - budget > 0.0
  {
    if expenses > budget then [ExceededBy(Abs(budget - expenses))] else []
  }
}
