/**
 * The aggregator behind the prediction route: the window start date for a `date_range`
 * selector, and the sums and per-category totals of the records the Firestore queries
 * return. The queries themselves are not modelled; their results are the input.
 */
module Firestore {
  import opened Outcomes
  import opened Categories

  // ---------------------------------------------------------------- dates

  /** A `datetime.date` in the proleptic Gregorian calendar. */
  datatype Date = Date(year: int, month: int, day: int)

  predicate IsLeapYear(year: int)
  {
    year % 4 == 0 && (year % 100 != 0 || year % 400 == 0)
  }

  function DaysInMonth(year: int, month: int): (n: int)
    requires 1 <= month <= 12
    ensures 28 <= n <= 31
  {
    if month == 2 then (if IsLeapYear(year) then 29 else 28)
    else if month == 4 || month == 6 || month == 9 || month == 11 then 30
    else 31
  }

  predicate ValidDate(d: Date)
  {
    1 <= d.month <= 12 && 1 <= d.day <= DaysInMonth(d.year, d.month)
  }

  /** Months counted from year 0, so that consecutive months differ by one. */
  function MonthNumber(d: Date): int
  {
    d.year * 12 + d.month - 1
  }

  /** `d.replace(day=1)`. */
  function FirstOfMonth(d: Date): (r: Date)
    requires ValidDate(d)
    ensures ValidDate(r) && r.day == 1 && MonthNumber(r) == MonthNumber(d)
  {
    Date(d.year, d.month, 1)
  }

  /** The last day of the month before the month of `d`. */
  function LastOfPreviousMonth(d: Date): (r: Date)
    requires ValidDate(d)
    ensures ValidDate(r) && r.day == DaysInMonth(r.year, r.month)
    ensures MonthNumber(r) == MonthNumber(d) - 1
  {
    if d.month == 1 then Date(d.year - 1, 12, 31)
    else Date(d.year, d.month - 1, DaysInMonth(d.year, d.month - 1))
  }

  /** The calendar day before `d`: the reference for subtracting days. */
  function PreviousDay(d: Date): (r: Date)
    requires ValidDate(d)
    ensures ValidDate(r)
  {
    if d.day > 1 then Date(d.year, d.month, d.day - 1) else LastOfPreviousMonth(d)
  }

  /** Stepping back `n` days one at a time. */
  function StepBack(d: Date, n: nat): (r: Date)
    requires ValidDate(d)
    ensures ValidDate(r)
    decreases n
  {
    if n == 0 then d else StepBack(PreviousDay(d), n - 1)
  }

  /** `d - timedelta(days=n)`, a month at a time. */
  function MinusDays(d: Date, n: nat): (r: Date)
    requires ValidDate(d)
    ensures ValidDate(r)
    decreases n
  {
    if n < d.day then Date(d.year, d.month, d.day - n)
    else MinusDays(LastOfPreviousMonth(d), n - d.day)
  }

  lemma {:induction false} StepBackAdd(d: Date, a: nat, b: nat)
    requires ValidDate(d)
    ensures StepBack(d, a + b) == StepBack(StepBack(d, a), b)
    decreases a
  {
    if a > 0 {
      StepBackAdd(PreviousDay(d), a - 1, b);
    }
  }

  lemma {:induction false} StepBackWithinMonth(d: Date, n: nat)
    requires ValidDate(d) && n < d.day
    ensures StepBack(d, n) == Date(d.year, d.month, d.day - n)
    decreases n
  {
    if n > 0 {
      StepBackWithinMonth(PreviousDay(d), n - 1);
    }
  }

  /** Subtracting a month at a time is the same as stepping back day by day. */
  lemma {:induction false} MinusDaysIsStepBack(d: Date, n: nat)
    requires ValidDate(d)
    ensures MinusDays(d, n) == StepBack(d, n)
    decreases n
  {
    if n < d.day {
      StepBackWithinMonth(d, n);
    } else {
      StepBackWithinMonth(d, d.day - 1);
      assert StepBack(d, d.day) == LastOfPreviousMonth(d) by {
        StepBackAdd(d, d.day - 1, 1);
      }
      StepBackAdd(d, d.day, n - d.day);
      MinusDaysIsStepBack(LastOfPreviousMonth(d), n - d.day);
    }
  }

  /** The start of the requested window, given today's date: always the first of a month. */
  function StartDate(today: Date, dateRange: string): (r: Date)
    requires ValidDate(today)
    ensures ValidDate(r) && r.day == 1
  {
    if dateRange == "this_month" then FirstOfMonth(today)
    else if dateRange == "past_month" then FirstOfMonth(MinusDays(FirstOfMonth(today), 1))
    else if dateRange == "past_3_months" then FirstOfMonth(MinusDays(FirstOfMonth(today), 90))
    else if dateRange == "past_6_months" then FirstOfMonth(MinusDays(FirstOfMonth(today), 180))
    else if dateRange == "past_year" then Date(today.year - 1, today.month, 1)
    else Date(2024, 1, 1)
  }

  /** `this_month`, `past_month`, `past_year` and the fallback, in closed form. */
  lemma StartDateClosedForms(today: Date)
    requires ValidDate(today)
    ensures StartDate(today, "this_month") == Date(today.year, today.month, 1)
    ensures StartDate(today, "past_month")
      == if today.month == 1 then Date(today.year - 1, 12, 1) else Date(today.year, today.month - 1, 1)
    ensures StartDate(today, "past_year") == Date(today.year - 1, today.month, 1)
    ensures forall s :: s !in {"this_month", "past_month", "past_3_months", "past_6_months", "past_year"} ==>
      StartDate(today, s) == Date(2024, 1, 1)
  {
    var first := FirstOfMonth(today);
    assert MinusDays(first, 1) == MinusDays(LastOfPreviousMonth(first), 0);
  }

  /**
   * `past_3_months` goes back 90 days from the first of this month: that is the first of
   * the month three months back, except in May of a common year, where February, March
   * and April have only 89 days and the window starts in January.
   */
  lemma PastThreeMonths(today: Date)
    requires ValidDate(today)
    ensures var start := StartDate(today, "past_3_months");
      MonthNumber(today) - MonthNumber(start) == if today.month == 5 && !IsLeapYear(today.year) then 4 else 3
  {
    var d0 := FirstOfMonth(today);
    var d1 := LastOfPreviousMonth(d0);
    var d2 := LastOfPreviousMonth(d1);
    var d3 := LastOfPreviousMonth(d2);
    var rest := 89 - d1.day - d2.day;
    assert MinusDays(d0, 90) == MinusDays(d1, 89);
    assert MinusDays(d1, 89) == MinusDays(d2, 89 - d1.day);
    assert MinusDays(d2, 89 - d1.day) == MinusDays(d3, rest);
    if rest < d3.day {
      assert MinusDays(d3, rest) == Date(d3.year, d3.month, d3.day - rest);
      assert !(today.month == 5 && !IsLeapYear(today.year));
    } else {
      var d4 := LastOfPreviousMonth(d3);
      assert rest == d3.day;
      assert MinusDays(d3, rest) == MinusDays(d4, 0) == d4;
      assert today.month == 5 && !IsLeapYear(today.year);
    }
  }

  /**
   * `past_6_months` goes back 180 days from the first of this month. Any five months
   * have fewer than 180 days and any six have more, so the window always starts on the
   * first of the month six months back.
   */
  lemma PastSixMonths(today: Date)
    requires ValidDate(today)
    ensures MonthNumber(today) - MonthNumber(StartDate(today, "past_6_months")) == 6
  {
    SixMonthsBack(FirstOfMonth(today));
  }

  /** 180 days before the first of a month is a day of the month six months back. */
  lemma SixMonthsBack(d0: Date)
    requires ValidDate(d0) && d0.day == 1
    ensures MonthNumber(MinusDays(d0, 180)) == MonthNumber(d0) - 6
  {
    var d1 := LastOfPreviousMonth(d0);
    var d2 := LastOfPreviousMonth(d1);
    var d3 := LastOfPreviousMonth(d2);
    var d4 := LastOfPreviousMonth(d3);
    var d5 := LastOfPreviousMonth(d4);
    var d6 := LastOfPreviousMonth(d5);
    SixMonthsLength(d0);
    var n1 := 179;
    var n2 := n1 - d1.day;
    var n3 := n2 - d2.day;
    var n4 := n3 - d3.day;
    var n5 := n4 - d4.day;
    var rest := n5 - d5.day;
    MonthBack(d0, 180);
    MonthBack(d1, n1);
    MonthBack(d2, n2);
    MonthBack(d3, n3);
    MonthBack(d4, n4);
    MonthBack(d5, n5);
    assert MinusDays(d6, rest) == Date(d6.year, d6.month, d6.day - rest);
  }

  /** Subtracting at least the day of the month moves to the last day of the previous month. */
  lemma MonthBack(d: Date, n: nat)
    requires ValidDate(d) && n >= d.day
    ensures MinusDays(d, n) == MinusDays(LastOfPreviousMonth(d), n - d.day)
  {
  }

  /** Five months have at most 155 days, six consecutive ones at least 181. */
  lemma SixMonthsLength(d0: Date)
    requires ValidDate(d0)
    ensures var d1 := LastOfPreviousMonth(d0);
      var d2 := LastOfPreviousMonth(d1);
      var d3 := LastOfPreviousMonth(d2);
      var d4 := LastOfPreviousMonth(d3);
      var d5 := LastOfPreviousMonth(d4);
      var d6 := LastOfPreviousMonth(d5);
      && d1.day + d2.day + d3.day + d4.day + d5.day <= 155
      && d1.day + d2.day + d3.day + d4.day + d5.day + d6.day >= 181
  {
  }

  // ---------------------------------------------------------------- records

  /** A transaction or budget document as `to_dict()` gives it; either field may be missing. */
  datatype Document = Document(amount: Option<real>, category: Option<string>)

  /** The six aggregates the engine is called with. */
  datatype Aggregates = Aggregates(
    totalBudget: real,
    totalExpenses: real,
    categories: CategoryMap,
    allTimeExpenses: real,
    allTimeBudget: real,
    allTimeCategories: CategoryMap)

  /** What the four queries return: window transactions and budgets, then all of the user's. */
  datatype QueryResults = QueryResults(
    transactions: seq<Document>,
    budgets: seq<Document>,
    allTransactions: seq<Document>,
    allBudgets: seq<Document>)

  /** `doc.get("amount", 0)`. */
  function AmountOf(doc: Document): real
  {
    match doc.amount
    case Some(a) => a
    case None => 0.0
  }

  /** `doc.get("category", "Other")`. */
  function CategoryOf(doc: Document): string
  {
    match doc.category
    case Some(c) => c
    case None => "Other"
  }

  /** `sum(d.get("amount", 0) for d in docs)`. */
  function Total(docs: seq<Document>): real
  {
    if docs == [] then 0.0 else Total(docs[..|docs| - 1]) + AmountOf(docs[|docs| - 1])
  }

  /** The categories of the documents, a missing one read as "Other". */
  function CategorySet(docs: seq<Document>): set<string>
  {
    set i | 0 <= i < |docs| :: CategoryOf(docs[i])
  }

  /** The total of the documents whose category is `k`: the reference for one group. */
  function CategoryTotal(docs: seq<Document>, k: string): real
  {
    if docs == [] then 0.0
    else CategoryTotal(docs[..|docs| - 1], k) + (if CategoryOf(docs[|docs| - 1]) == k then AmountOf(docs[|docs| - 1]) else 0.0)
  }

  /** The categories in the order they first occur. */
  function FirstOccurrences(docs: seq<Document>): seq<string>
  {
    if docs == [] then []
    else
      var seen := FirstOccurrences(docs[..|docs| - 1]);
      var c := CategoryOf(docs[|docs| - 1]);
      if c in seen then seen else seen + [c]
  }

  /** The dict that the grouping loop has built after the documents `docs`. */
  function Group(docs: seq<Document>): CategoryMap
  {
    if docs == [] then []
    else
      Add(Group(docs[..|docs| - 1]), docs[|docs| - 1])
  }

  /** `categories[category] = categories.get(category, 0) + amount` for one document. */
  function Add(m: CategoryMap, doc: Document): CategoryMap
  {
    Put(m, CategoryOf(doc), Get(m, CategoryOf(doc), 0.0) + AmountOf(doc))
  }

  /**
   * The loop `categories[category] = categories.get(category, 0) + amount`
   * over the documents, in order.
   */
  method GroupByCategory(docs: seq<Document>) returns (categories: CategoryMap)
    ensures categories == Group(docs)
  {
    categories := [];
    for i := 0 to |docs|
      invariant categories == Group(docs[..i])
    {
      var category := CategoryOf(docs[i]);
      assert docs[..i + 1][..i] == docs[..i];
      assert docs[..i + 1][i] == docs[i];
      categories := Put(categories, category, Get(categories, category, 0.0) + AmountOf(docs[i]));
    }
    assert docs[..|docs|] == docs;
  }

  /** One step of the grouping fold: the last document adds its amount to its category. */
  lemma GroupStep(docs: seq<Document>)
    requires docs != []
    ensures Group(docs) == Add(Group(docs[..|docs| - 1]), docs[|docs| - 1])
  {
  }

  /** The documents' categories are those of all but the last, and the last one's. */
  lemma CategorySetStep(docs: seq<Document>)
    requires docs != []
    ensures CategorySet(docs) == CategorySet(docs[..|docs| - 1]) + {CategoryOf(docs[|docs| - 1])}
  {
    var init := docs[..|docs| - 1];
    assert forall i :: 0 <= i < |init| ==> init[i] == docs[i];
  }

  /** Adding a document adds its category to the keys and keeps a dict a dict. */
  lemma AddKeys(m: CategoryMap, doc: Document)
    ensures Keys(Add(m, doc)) == Keys(m) + {CategoryOf(doc)}
    ensures Distinct(m) ==> Distinct(Add(m, doc))
  {
    PutKeys(m, CategoryOf(doc), Get(m, CategoryOf(doc), 0.0) + AmountOf(doc));
  }

  /** The grouped dict is a dict: no category twice. */
  lemma {:induction false} GroupDistinct(docs: seq<Document>)
    ensures Distinct(Group(docs))
  {
    if docs != [] {
      GroupDistinct(docs[..|docs| - 1]);
      GroupStep(docs);
      AddKeys(Group(docs[..|docs| - 1]), docs[|docs| - 1]);
    }
  }

  /** The grouped dict has exactly the documents' categories as keys, each once. */
  lemma {:induction false} GroupKeys(docs: seq<Document>)
    ensures Distinct(Group(docs))
    ensures Keys(Group(docs)) == CategorySet(docs)
  {
    if docs != [] {
      GroupKeys(docs[..|docs| - 1]);
      GroupStep(docs);
      CategorySetStep(docs);
      AddKeys(Group(docs[..|docs| - 1]), docs[|docs| - 1]);
    }
  }

  /** Adding a document adds its amount to its own category and leaves the others. */
  lemma AddGet(m: CategoryMap, doc: Document, k: string)
    ensures Get(Add(m, doc), k, 0.0) == Get(m, k, 0.0) + (if CategoryOf(doc) == k then AmountOf(doc) else 0.0)
  {
    GetPut(m, CategoryOf(doc), Get(m, CategoryOf(doc), 0.0) + AmountOf(doc), k, 0.0);
  }

  /** Adding a document to a dict adds its amount to the dict's total. */
  lemma AddSum(m: CategoryMap, doc: Document)
    requires Distinct(m)
    ensures Sum(Add(m, doc)) == Sum(m) + AmountOf(doc)
  {
    SumPutAdd(m, CategoryOf(doc), AmountOf(doc));
  }

  /** Adding a document appends its category to the names exactly when it is new. */
  lemma AddNames(m: CategoryMap, doc: Document)
    ensures Names(Add(m, doc)) == if CategoryOf(doc) in Names(m) then Names(m) else Names(m) + [CategoryOf(doc)]
  {
    var c := CategoryOf(doc);
    var v := Get(m, c, 0.0) + AmountOf(doc);
    PutKeys(m, c, v);
    assert c in Keys(m) <==> c in Names(m);
    if c !in Keys(m) {
      assert Names(m + [(c, v)]) == Names(m) + [c];
    }
  }

  /** The value of each category is the total of that category's documents. */
  lemma {:induction false} GroupValues(docs: seq<Document>, k: string)
    ensures Get(Group(docs), k, 0.0) == CategoryTotal(docs, k)
  {
    if docs != [] {
      GroupValues(docs[..|docs| - 1], k);
      GroupStep(docs);
      AddGet(Group(docs[..|docs| - 1]), docs[|docs| - 1], k);
    }
  }

  /** The category values add up to the total of all documents. */
  lemma {:induction false} GroupSum(docs: seq<Document>)
    ensures Sum(Group(docs)) == Total(docs)
  {
    if docs != [] {
      GroupSum(docs[..|docs| - 1]);
      GroupDistinct(docs[..|docs| - 1]);
      GroupStep(docs);
      AddSum(Group(docs[..|docs| - 1]), docs[|docs| - 1]);
    }
  }

  /** The dict iterates its categories in the order they first occur. */
  lemma {:induction false} GroupOrder(docs: seq<Document>)
    ensures Names(Group(docs)) == FirstOccurrences(docs)
  {
    if docs != [] {
      GroupOrder(docs[..|docs| - 1]);
      GroupStep(docs);
      AddNames(Group(docs[..|docs| - 1]), docs[|docs| - 1]);
    }
  }

  /** `get_transactions_and_budgets`, from the results of its four queries. */
  function GetTransactionsAndBudgets(q: QueryResults): (a: Aggregates)
    ensures a.totalExpenses == Total(q.transactions) && a.totalBudget == Total(q.budgets)
    ensures a.allTimeExpenses == Total(q.allTransactions) && a.allTimeBudget == Total(q.allBudgets)
    ensures Distinct(a.categories) && Distinct(a.allTimeCategories)
    ensures Sum(a.categories) == a.totalExpenses && Sum(a.allTimeCategories) == a.allTimeExpenses
    ensures Keys(a.categories) == CategorySet(q.transactions)
    ensures Keys(a.allTimeCategories) == CategorySet(q.allTransactions)
    ensures forall k :: Get(a.categories, k, 0.0) == CategoryTotal(q.transactions, k)
    ensures forall k :: Get(a.allTimeCategories, k, 0.0) == CategoryTotal(q.allTransactions, k)
  {
    GroupKeys(q.transactions);
    GroupKeys(q.allTransactions);
    GroupSum(q.transactions);
    GroupSum(q.allTransactions);
    forall k ensures Get(Group(q.transactions), k, 0.0) == CategoryTotal(q.transactions, k) {
      GroupValues(q.transactions, k);
    }
    forall k ensures Get(Group(q.allTransactions), k, 0.0) == CategoryTotal(q.allTransactions, k) {
      GroupValues(q.allTransactions, k);
    }
    Aggregates(
      Total(q.budgets),
      Total(q.transactions),
      Group(q.transactions),
      Total(q.allTransactions),
      Total(q.allBudgets),
      Group(q.allTransactions))
  }

  /** Both grouped dicts list their keys in the order the categories first occur in the records. */
  lemma GetTransactionsAndBudgetsOrder(q: QueryResults)
    ensures Names(GetTransactionsAndBudgets(q).categories) == FirstOccurrences(q.transactions)
    ensures Names(GetTransactionsAndBudgets(q).allTimeCategories) == FirstOccurrences(q.allTransactions)
  {
    GroupOrder(q.transactions);
    GroupOrder(q.allTransactions);
  }
}
