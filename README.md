# ai-finance spending analytics, modelled in Dafny

This project models the spending-analytics core of the ai-finance back end. That core has three parts:

- **The aggregator.** It reads a user's transactions and budgets from Firestore for a date window. It adds them up and groups the window's expenses by category.
- **The `/predict` route.** It answers with an error record when the window has no budget. Otherwise it hands the aggregates to the history-aware engine.
- **The four engines.** Each turns a budget, an expense total and a category dict into a report: over-budget flag, savings and utilization percentages, categories above an equal share of the budget, abnormal-spending alerts, top and low categories, a regressor forecast and warnings.
  - The history engine (`ml/predict_spending.py`) uses seven features and caps the forecast.
  - The clamping engine (`ml/model.py`) uses four features and clamps the percentages.
  - The uncapped endpoint (`routes/ai_api.py`) builds its dicts and lists with loops and divides by the budget without a guard.
  - The minimal endpoint (`ai_api.py`).

## Modelling choices

- **Category dicts** are `seq<(string, real)>` in insertion order. A lookup with a default is `Categories.Get` and an assignment is `Categories.Put`. Grouped dicts satisfy `Distinct` (no key appears twice), which is proved.
- **The XGBoost regressor** is a parameter `model: seq<real> -> real`. Every property holds for every regressor.
- **Amounts** are exact reals. `round(x, 2)` and string formatting are treated as the identity.
- **Messages** are datatypes with the amount they print:
  - `Trend`: `Over`, `Under` and `Exact`.
  - `Alert`: `NegativeValue` and `HighConcentration`.
  - `Warning`: `ExceededBy`.
- **Python's `x / d if d else 0`** is `Analytics.Ratio`.
- **The uncapped endpoint's unguarded division** (`routes/ai_api.py:48`) becomes `Failure(ZeroDivisionError)` in a `Result`.
- **Imperative code stays imperative.** The loops that build the exceeded-category dict, the alert list and the category grouping are methods with loop invariants, and the uncapped endpoint's handler is a method that runs them in the source's order. Each is proved equal to a specification function, and the properties are proved about that function.
- **Firestore and the clock.** The four Firestore queries are abstracted as `Firestore.QueryResults`. A document's missing `amount` counts as 0 and a missing `category` as `"Other"`. Today's date is a parameter, and `Prediction.Store` maps user, window start and today to the query results.

## Observations

- **The two alert rules give the same list.** The history engine and the uncapped endpoint run two independent `if`s per category. The clamping engine emits at most one alert per category, preferring the negative-value one. A negative amount is never more than half of positive expenses, so no category can trigger both checks, and the two rules always produce the same list (`Analytics.AlertRulesAgree`).
- **`past_3_months` does not always go back three months.** It steps 90 days back from the first of the current month and takes that month's first day. When today is in May of a common year, February to April hold only 89 days, so the window starts on 1 January, four months back (`Firestore.PastThreeMonths`). `past_6_months` always lands exactly six months back (`Firestore.PastSixMonths`).
- **The history engine clamps nothing.** Its savings percentage can be negative and its utilization can exceed 100% (`MlPredictSpending.OverspendingIsNotClamped`). Its messages are two-way: an exact balance reads as "under budget by 0" (`MlPredictSpending.ExactBalanceReadsUnder`, `Variants.MessageStylesAgree`). Only the forecast is capped, at twice the budget.
- **The clamping engine clamps its features too.** It feeds the clamped savings percentage to the regressor, but uses the unclamped expense ratio there (`MlModel.FeatureRatioIsUnclamped`).
- **The uncapped endpoint fails on a zero budget.** Its percentages at lines 26-31 guard against a zero budget, but line 48 divides by it anyway. Its forecast is not capped and its predicted savings can be negative (`RoutesAiApi.UncappedForecast`).
- **The route never passes a zero budget to the engine.** Its guard means every report comes from a non-zero budget. Such a report's categories add up to its expenses (`Prediction.RouteReportHasBudget`, `Prediction.RouteReportCategories`).
- **The sample request of `test_request.py` carries no `user_id` or `date_range`.** Every endpoint requires both fields (`routes/prediction.py:8-10`, `routes/ai_api.py:11-16`, `ai_api.py:11-16`), so request validation would reject the payload. Its figures are therefore stated on the engines directly, with any user id and date range where an endpoint needs them (`Scenario`). Its categories add up to 2048.36, not to its expenses of 2538.37 (`Scenario.SampleIsNotAGrouping`).

## Model

| member | source | states |
|---|---|---|
| Categories.GetFound | utils/firestore.py:52 | `dict.get(k, default)` returns the default exactly when the key is absent, and otherwise the value stored under the key |
| Categories.Get | utils/firestore.py:52 | `d.get(k, default)`: the value of the last entry named `k`, or the default; its meaning is stated by `GetFound`, `GetDistinct` and `GetPut` |
| Categories.GetDistinct | ml/predict_spending.py:79 | in a dict without repeated keys, looking up an entry's key returns that entry's value |
| Categories.PutKeys | utils/firestore.py:52 | assigning `d[k] = v` adds `k` to the keys; it keeps the key order when `k` is present and appends `k` otherwise; it keeps keys distinct |
| Categories.Put | utils/firestore.py:52 | `d[k] = v`: an existing key keeps its place with the new value, a new key goes to the end; its meaning is stated by `PutKeys` and `GetPut` |
| Categories.GetPut | utils/firestore.py:52 | after `d[k] = v`, looking up `k` gives `v` and every other key is unchanged |
| Categories.SumPutAdd | utils/firestore.py:52 | adding an amount to one key's running total adds exactly that amount to the dict's total |
| Analytics.Ratio | ml/predict_spending.py:32 | `x / d if d else 0` is 0 for a zero divisor and otherwise the quotient |
| Analytics.BaseFeatures | routes/ai_api.py:41-47 | the four model inputs are budget, expenses, guarded expense ratio and the given savings percentage, in that order |
| Analytics.Percent | ml/predict_spending.py:18-19 | `(x / d) * 100 if d else 0` is 0 for a zero divisor and otherwise 100 times the guarded ratio |
| Analytics.Allocation | ml/predict_spending.py:22-23 | the equal share is the budget over the number of categories, or the whole budget when there are none |
| Analytics.ExceededCategories | ml/predict_spending.py:24-27 | the comprehension of over-share categories in iteration order (also ml/model.py:20-22); its meaning is stated by the four `ExceededCategories` lemmas below |
| Analytics.ExceededCategoriesPositive | ml/predict_spending.py:24-27 | the report is no longer than the categories and every reported excess is positive |
| Analytics.ExceededCategoriesComplete | ml/predict_spending.py:24-27 | every category above the share is reported, with its spend minus the share |
| Analytics.ExceededCategoriesSound | ml/predict_spending.py:24-27 | every reported entry is a category above the share, with the excess as its value |
| Analytics.ExceededCategoriesKeys | ml/predict_spending.py:24-27 | the reported keys are a subset of the category keys, stay distinct, and exclude every category at or below the share |
| Analytics.ExceededCategoriesAppend | routes/ai_api.py:37-39 | the map follows iteration order: the entries of earlier categories precede those of later ones |
| Analytics.CollectExceeded | routes/ai_api.py:34-39 | the loop that fills `exceeded_categories` builds exactly the dict of the comprehension |
| Analytics.NegativeIsNotConcentrated | ml/predict_spending.py:62-66 | a negative category never exceeds half of the expenses |
| Analytics.AllAlerts | ml/predict_spending.py:60-69 | the alerts of the two independent checks per category, in iteration order; stated by `AlertRulesAgree`, `FirstAlertsReport` and `AllAlertsAppend` |
| Analytics.FirstAlerts | ml/model.py:63-69 | the one-alert-per-category comprehension, the negative-value alert first; stated by `FirstAlertsReport` and `FirstAlertsOnePerCategory` |
| Analytics.AlertRulesAgree | ml/model.py:63-69 | the one-alert rule gives the same list as the loop of two independent checks |
| Analytics.AllAlertsAppend | routes/ai_api.py:114-123 | the alerts follow iteration order: those of earlier categories precede those of later ones |
| Analytics.FirstAlertsReport | ml/model.py:63-69 | no more alerts than categories; every alert reports a negative or over-half category; every negative category gets its negative-value alert and every over-half category its high-concentration alert |
| Analytics.FirstAlertsOnePerCategory | ml/model.py:63-69 | every alert names a category of the dict, and no category is named twice when keys are distinct |
| Analytics.CollectAlerts | ml/predict_spending.py:60-69 | the alert loop appends exactly the alerts of the two independent checks, in category order |
| Analytics.MaxIndex | ml/predict_spending.py:74 | `max(categories, key=categories.get)` picks an entry no smaller than any other, the first such one |
| Analytics.MinIndex | ml/predict_spending.py:75 | `min(categories, key=categories.get)` picks an entry no larger than any other, the first such one |
| Analytics.Top | ml/predict_spending.py:73-74 | no top category for an empty dict; otherwise an entry of the dict with the largest value, the first one of them |
| Analytics.Low | ml/predict_spending.py:73-75 | no low category for an empty dict; otherwise an entry of the dict with the smallest value, the first one of them |
| Analytics.TwoWay | ml/predict_spending.py:50-57 | a two-case message says "over" exactly when the difference is positive, and prints its absolute value |
| Analytics.ThreeWay | ml/model.py:36-52 | a three-case message is over, under or exact according to the sign of the difference, and prints its absolute value |
| Analytics.BudgetWarnings | ml/predict_spending.py:71 | one warning exactly when expenses exceed the budget, for the positive overspend |
| MlPredictSpending.Features | ml/predict_spending.py:29-40 | seven inputs: the four base features with unclamped savings, the all-time expenses and budget, and the guarded all-time ratio |
| MlPredictSpending.PredictSpending | ml/predict_spending.py:11-124 | the exact rules of the report: unclamped percentages, the over-budget flag, two-way messages that are never "exact", warnings, exceeded categories, alerts, top and low, a forecast capped at twice the budget, predicted savings of `max(budget - forecast, 0)`, and the utilization change |
| MlPredictSpending.OverspendingIsNotClamped | ml/predict_spending.py:18-19 | overspending a positive budget reports negative savings and utilization above 100% |
| MlPredictSpending.ExactBalanceReadsUnder | ml/predict_spending.py:50-57 | an exact balance is reported as under budget by 0, for the expenses and for a forecast equal to the budget |
| MlPredictSpending.AllTimeCategoriesUnused | ml/predict_spending.py:13 | the report does not depend on the all-time categories |
| MlModel.SavingsPercentage | ml/model.py:14 | the savings percentage is never negative, is 0 for a zero budget, and otherwise equals the true percentage unless clamped to 0 |
| MlModel.BudgetUtilization | ml/model.py:15 | the utilization never exceeds 100, is 0 for a zero budget, and otherwise equals the true percentage unless clamped to 100 |
| MlModel.Features | ml/model.py:24-29 | the four inputs with the clamped savings percentage; how they differ from the endpoints' is stated by `Variants.ClampedFeatureVector` |
| MlModel.PredictSpending | ml/model.py:10-88 | the report's rules: clamped percentages, three-way messages, flag and warnings, exceeded categories, one-per-category alerts, insights, and a forecast capped at twice the budget with predicted savings of `max(budget - forecast, 0)` |
| MlModel.UtilizationNotClampedBelow | ml/model.py:15 | negative expenses against a positive budget give a negative utilization |
| MlModel.FeatureRatioIsUnclamped | ml/model.py:24-29 | when overspending, the regressor sees a ratio above 1 and a savings percentage of 0 while the report says 100% |
| RoutesAiApi.Response | routes/ai_api.py:19-154 | raises `ZeroDivisionError` exactly for a zero budget; otherwise it states the report's rules, including the uncapped forecast and its unclamped predicted savings |
| RoutesAiApi.Features | routes/ai_api.py:41-47 | the four inputs with the unclamped savings percentage; stated by `Variants.EndpointFeaturesAgree` |
| RoutesAiApi.PredictSpending | routes/ai_api.py:19-154 | the statement-by-statement handler returns exactly that response |
| RoutesAiApi.ZeroBudgetNeverPredicts | routes/ai_api.py:48 | with a zero budget the handler fails whatever the regressor |
| RoutesAiApi.UncappedForecast | routes/ai_api.py:50-56 | a forecast above the budget gives negative predicted savings and an over-budget risk message |
| AiApi.PredictSpending | ai_api.py:19-48 | the minimal report: guarded utilization and savings percentages, the raw forecast, a boolean flag, and warnings exactly when over budget |
| AiApi.Features | ai_api.py:23-30 | the four inputs of the minimal endpoint; stated by `Variants.EndpointFeaturesAgree` |
| Firestore.DaysInMonth | utils/firestore.py:13 | every month has 28 to 31 days |
| Firestore.FirstOfMonth | utils/firestore.py:11 | `today.replace(day=1)` is a valid date in the same month |
| Firestore.LastOfPreviousMonth | utils/firestore.py:13 | the day before a first of the month is the last day of the previous month |
| Firestore.PreviousDay | utils/firestore.py:13 | subtracting one day gives a valid date |
| Firestore.StepBack | utils/firestore.py:15 | stepping back `n` single days gives a valid date |
| Firestore.MinusDays | utils/firestore.py:15 | subtracting a `timedelta` of `n` days gives a valid date |
| Firestore.StepBackAdd | utils/firestore.py:15 | stepping back `a + b` days is stepping back `a` and then `b` |
| Firestore.StepBackWithinMonth | utils/firestore.py:15 | stepping back fewer days than the day of the month stays in the month |
| Firestore.MinusDaysIsStepBack | utils/firestore.py:15-17 | the month-jumping subtraction equals day-by-day stepping |
| Firestore.StartDate | utils/firestore.py:10-21 | every `date_range` selector, known or not, gives a valid first of a month; the per-selector months are stated by the three lemmas below |
| Firestore.StartDateClosedForms | utils/firestore.py:10-21 | `this_month`, `past_month`, `past_year` and any other selector start on the month they name, the other one being 1 January 2024 |
| Firestore.PastThreeMonths | utils/firestore.py:14-15 | `past_3_months` starts three months back, except in May of a common year, where it starts four months back |
| Firestore.PastSixMonths | utils/firestore.py:16-17 | `past_6_months` always starts six months back |
| Firestore.SixMonthsBack | utils/firestore.py:17 | 180 days before the first of a month falls in the month six months back |
| Firestore.AddKeys | utils/firestore.py:51-52 | one loop step adds the document's category to the keys and keeps keys distinct |
| Firestore.AddGet | utils/firestore.py:51-52 | one loop step adds the document's amount to its own category and leaves every other category's value |
| Firestore.AddSum | utils/firestore.py:51-52 | one loop step adds the document's amount to the dict's total |
| Firestore.AddNames | utils/firestore.py:51-52 | one loop step appends the document's category to the key order exactly when it is new |
| Firestore.GroupByCategory | utils/firestore.py:48-52 | the grouping loop builds exactly the grouped dict |
| Firestore.Total | utils/firestore.py:42-46 | the sum of the documents' amounts, a missing amount read as 0; the grouped values add up to it (`GroupSum`) |
| Firestore.Group | utils/firestore.py:48-52 | the dict after the grouping loop; its meaning is stated by the `Group` lemmas below |
| Firestore.GroupDistinct | utils/firestore.py:48-52 | the grouped dict has no key twice |
| Firestore.GroupKeys | utils/firestore.py:48-52 | its keys are exactly the documents' categories, missing ones read as "Other" |
| Firestore.GroupValues | utils/firestore.py:48-52 | each key holds the total amount of the documents in that category |
| Firestore.GroupSum | utils/firestore.py:42-52 | the category values add up to the window's total expenses |
| Firestore.GroupOrder | utils/firestore.py:48-52 | the keys appear in the order their categories first occur |
| Firestore.GetTransactionsAndBudgets | utils/firestore.py:5-77 | the six aggregates: the four totals, and the two grouped dicts with distinct keys, the right key sets, per-key totals and sums equal to the totals |
| Firestore.GetTransactionsAndBudgetsOrder | utils/firestore.py:48-52 | both grouped dicts list their keys in the order the categories first occur in the queried records, which fixes the top/low tie-break and the alert order |
| Prediction.Predict | routes/prediction.py:13-30 | the route fetches (`Prediction.Fetch`) with the request's user id and `StartDate(today, date_range)`, then answers the error record exactly for a zero window budget and otherwise the history engine's report on the fetched aggregates |
| Prediction.Respond | routes/prediction.py:18-30 | the error record exactly when the window's budget is 0; otherwise the history engine's report on the aggregates |
| Prediction.NoBudgetNeverPredicts | routes/prediction.py:18-19 | without budget data the answer is the error record whatever the regressor |
| Prediction.RouteReportHasBudget | routes/prediction.py:18-28 | every report comes from a non-zero budget, so its utilization and savings percentages are the true ratios |
| Prediction.RouteReportCategories | routes/prediction.py:21-28 | every report's categories are distinct, are exactly the window transactions' categories, and add up to its expenses |
| Prediction.RouteInsightsAreLookups | routes/prediction.py:21-28 | the reported top and low amounts are the dict's values under the reported names |
| Variants.EndpointFeaturesAgree | ai_api.py:23-30 | both endpoints build the same four features, which are the history engine's first four |
| Variants.ClampedFeatureVector | ml/model.py:24-29 | the clamping engine's features differ only in the savings percentage, raised to 0 |
| Variants.WithinBudgetForecastIsCapped | ml/model.py:31-33 | within a positive budget the clamping engine's forecast is the uncapped endpoint's, capped at twice the budget |
| Variants.MessageStylesAgree | ml/predict_spending.py:57 | the two-way and three-way messages differ only on an exact balance |
| Variants.EnginesShareCategoryRules | ml/model.py:16-71 | whatever the regressors, the two engines agree on the flag, warnings, savings, exceeded categories, alerts and insights |
| Variants.EndpointSharesHistoryRules | routes/ai_api.py:25-129 | with a non-zero budget the uncapped endpoint agrees with the history engine on the flag, warnings, savings, utilization percentage, exceeded categories, alerts, potential savings, constant spending, and top and low categories |
| Scenario.SampleExceededCategories | test_request.py:8-16 | for the sample, the share is 502.168, and Essentials, Food & Entertainment and Shopping are above it by 213.432, 132.802 and 229.692 |
| Scenario.SampleAlerts | test_request.py:8-16 | both alert rules report only the negative "Other" category |
| Scenario.SampleInsights | test_request.py:10-16 | Shopping is the top category and Other the low one |
| Scenario.SampleHistoryReport | test_request.py:7-17 | the history engine reports an overspend of 27.53 with negative savings, utilization above 100%, and the rules above |
| Scenario.SampleModelReport | test_request.py:7-17 | the clamping engine reports the same overspend with savings of 0% and utilization of 100% |
| Scenario.SampleRouteReport | test_request.py:7-17 | for the sample's figures with any user id and date range, the uncapped endpoint reports the same rules; the payload itself lacks fields every endpoint requires |
| Scenario.SampleIsNotAGrouping | test_request.py:10-16 | the sample categories add up to 2048.36, not to the expenses |

## Left out

- Firestore itself is left out: the connection, the filters on user id and dates (`utils/firestore.py:23-40`) and document decoding. The queries are the abstract `QueryResults`, and `Prediction.Store` stands for the filtered queries. Which documents a query matches is not modelled.
- The `print` of the aggregates (`utils/firestore.py:60-68`) is left out, because it is output only.
- `datetime.date.today()` is the `today` parameter. Python's year bounds, where `replace(year=today.year - 1)` fails in year 1, are not modelled.
- Loading, training and evaluating the XGBoost regressor are left out. The regressor is an arbitrary function from the feature vector to a real, and `pandas` framing is the feature sequence.
- FastAPI routing, pydantic validation and JSON encoding are left out. Request bodies are datatypes whose fields are already well typed. `user_id` is a string in `routes/prediction.py` and an integer in the other endpoints, as there.
- Float arithmetic is modelled as exact reals. This leaves out float rounding, infinities and NaN, and a category value that is not a number.
- `round(x, 2)` and every f-string format are left out, because they only format output.
- MlPredictSpending.PredictSpending: the exceeded-category excesses, the echoed `total_expenses` and the predicted amounts are unrounded. The percentages and the change are numbers rather than formatted strings.
- MlModel.PredictSpending: the message text, including its mis-encoded dash, is not kept. Only the alert kind and category are.
- The alert text's rendering of the category value is not kept. `NegativeValue` holds the exact value.
- A `categories` value of `None`, which `ml/predict_spending.py:22` would treat as empty before failing at line 26, is not modelled. The category dict is always a dict.
- `test_request.py` is not modelled as a request against the running application; its payload is a set of scenario lemmas on the engines.
- The training scripts are not part of this model.
