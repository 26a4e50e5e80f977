/** The dashboard: the transactions of the shown month, its income, expense
    and balance, the per-category totals of each kind, the five most recent
    transactions, and the expense total of every day of the month. The
    dashboard adds amounts with `+`, so it is modelled on lists whose amounts
    are all numbers. */
module DashboardPage {
  import opened Common
  import opened Dates
  import opened Records
  import opened Folds
  import opened Sorting
  import opened Grouping

  /** `monthTransactions`: those dated inside the shown month. */
  function MonthTransactions(ts: seq<Transaction>, ym: YearMonth): (r: seq<Transaction>)
    requires ValidMonth(ym)
    ensures forall t :: t in r <==> t in ts && DatedIn(t, MonthWindow(ym))
    ensures forall t :: multiset(r)[t] == if DatedIn(t, MonthWindow(ym)) then multiset(ts)[t] else 0
    ensures IsSubsequence(r, ts)
  {
    DatedWithin(ts, MonthWindow(ym))
  }

  /** A transaction is shown exactly when its date parses and falls in the
      shown month. */
  lemma InShownMonth(ts: seq<Transaction>, ym: YearMonth, t: Transaction)
    requires ValidMonth(ym)
    ensures t in MonthTransactions(ts, ym)
        <==> t in ts && ParseIso(t.date).Some? && MonthOf(ParseIso(t.date).value) == ym
  {
    if ParseIso(t.date).Some? {
      InMonthWindow(ParseIso(t.date).value, ym);
    }
  }

  datatype Summary = Summary(income: real, expenses: real, balance: real)

  /** `summaryData`'s income, expenses and balance. */
  function Summarize(month: seq<Transaction>): (r: Summary)
    requires AllNumeric(month)
    ensures r.income == SumOf(OfType(month, Income), NumericAmount)
    ensures r.expenses == SumOf(OfType(month, Expense), NumericAmount)
    ensures r.income + r.expenses == SumOf(month, NumericAmount)
    ensures r.balance == r.income - r.expenses
  {
    var income := SumOf(OfType(month, Income), NumericAmount);
    var expenses := SumOf(OfType(month, Expense), NumericAmount);
    IncomeExpenseSplit(month, NumericAmount);
    Summary(income, expenses, income - expenses)
  }

  // ---------------------------------------------------------------------
  // Per-category totals

  datatype CategoryDatum = CategoryDatum(name: string, value: real, color: string)

  function DatumName(d: CategoryDatum): string {
    d.name
  }

  function DatumValue(d: CategoryDatum): real {
    d.value
  }

  /** The colour used when no category carries the name. */
  function FallbackColor(ty: TxType): string {
    match ty
    case Income => "#36B37E"
    case Expense => "#FF5630"
  }

  /** The colour of the category with that name, else the fallback for the kind. */
  function DatumColor(categories: seq<Category>, name: string, ty: TxType): (c: string)
    ensures FindCategory(categories, name).None? ==> c == FallbackColor(ty)
    ensures FindCategory(categories, name).Some? ==> c == FindCategory(categories, name).value.color
  {
    match FindCategory(categories, name)
    case Some(cat) => cat.color
    case None => FallbackColor(ty)
  }

  /** `Object.entries(categoryTotals).map(...)`. */
  function ToData(es: seq<Entry>, categories: seq<Category>, ty: TxType): (r: seq<CategoryDatum>)
    ensures |r| == |es|
    ensures forall i :: 0 <= i < |es| ==>
              r[i] == CategoryDatum(es[i].key, es[i].total, DatumColor(categories, es[i].key, ty))
  {
    if es == [] then []
    else
      var last := es[|es| - 1];
      ToData(es[..|es| - 1], categories, ty) + [CategoryDatum(last.key, last.total, DatumColor(categories, last.key, ty))]
  }

  lemma {:induction false} ToDataTotal(es: seq<Entry>, categories: seq<Category>, ty: TxType)
    ensures SumOf(ToData(es, categories, ty), DatumValue) == SumOf(es, EntryTotal)
  {
    if es != [] {
      var r := ToData(es, categories, ty);
      assert r[..|r| - 1] == ToData(es[..|es| - 1], categories, ty);
      ToDataTotal(es[..|es| - 1], categories, ty);
    }
  }

  /** `getCategoryData(monthTransactions, ty)`: one entry per category name
      used by a transaction of that kind, in order of first appearance, with
      the kind's total for it; the entries add up to the kind's total. */
  function GetCategoryData(month: seq<Transaction>, ty: TxType, categories: seq<Category>): (r: seq<CategoryDatum>)
    requires AllNumeric(month)
    ensures DistinctBy(r, DatumName)
    ensures forall i :: 0 <= i < |r| ==>
              r[i].value == BucketSum(OfType(month, ty), TxCategory, r[i].name, NumericAmount)
              && r[i].color == DatumColor(categories, r[i].name, ty)
    ensures SumOf(r, DatumValue) == SumOf(OfType(month, ty), NumericAmount)
  {
    var es := GroupSum(OfType(month, ty), TxCategory, NumericAmount);
    ToDataValues(OfType(month, ty), categories, ty);
    ToDataTotal(es, categories, ty);
    GroupSumTotal(OfType(month, ty), TxCategory, NumericAmount);
    ToData(es, categories, ty)
  }

  lemma ToDataValues(ofType: seq<Transaction>, categories: seq<Category>, ty: TxType)
    ensures var r := ToData(GroupSum(ofType, TxCategory, NumericAmount), categories, ty);
            forall i :: 0 <= i < |r| ==> r[i].value == BucketSum(ofType, TxCategory, r[i].name, NumericAmount)
  {
    var es := GroupSum(ofType, TxCategory, NumericAmount);
    var r := ToData(es, categories, ty);
    forall i | 0 <= i < |r|
      ensures r[i].value == BucketSum(ofType, TxCategory, r[i].name, NumericAmount)
    {
      LookupAt(es, i);
    }
  }

  /** Some entry carries the name. */
  predicate Named(r: seq<CategoryDatum>, name: string) {
    exists i :: 0 <= i < |r| && r[i].name == name
  }

  /** There is an entry for a name exactly when some transaction of that
      kind in the month carries that category. */
  lemma CategoryDataNames(month: seq<Transaction>, ty: TxType, categories: seq<Category>, name: string)
    requires AllNumeric(month)
    ensures Named(GetCategoryData(month, ty, categories), name)
        <==> (exists t :: t in month && t.txType == ty && t.category == name)
  {
    var ofType := OfType(month, ty);
    var es := GroupSum(ofType, TxCategory, NumericAmount);
    assert GetCategoryData(month, ty, categories) == ToData(es, categories, ty);
    ToDataNames(es, categories, ty, name);
    KeySetIff(ofType, TxCategory, name);
  }

  lemma ToDataNames(es: seq<Entry>, categories: seq<Category>, ty: TxType, name: string)
    ensures Named(ToData(es, categories, ty), name) <==> name in KeysOf(es)
  {
    var r := ToData(es, categories, ty);
    KeysOfIndex(es, name);
    if name in KeysOf(es) {
      var i :| 0 <= i < |es| && es[i].key == name;
      assert r[i].name == name;
    }
    if Named(r, name) {
      var i :| 0 <= i < |r| && r[i].name == name;
      assert es[i].key == name;
    }
  }

  /** The two kinds' entries add up to the month's income and expenses. */
  lemma CategoryDataTotals(month: seq<Transaction>, categories: seq<Category>)
    requires AllNumeric(month)
    ensures SumOf(GetCategoryData(month, Income, categories), DatumValue) == Summarize(month).income
    ensures SumOf(GetCategoryData(month, Expense, categories), DatumValue) == Summarize(month).expenses
  {
  }

  // ---------------------------------------------------------------------
  // Recent transactions

  /** `recentTransactions`: the month's transactions, latest first, cut to five. */
  function Recent(month: seq<Transaction>): (r: seq<Transaction>)
    ensures |r| == if |month| < 5 then |month| else 5
    ensures multiset(r) <= multiset(month)
    ensures SortedDesc(r, TxTime)
    ensures forall i, j :: 0 <= i < |r| && 0 <= j < |month| && month[j] !in r ==> TxTime(month[j]) <= TxTime(r[i])
  {
    SortLength(month, TxTime);
    var k := if |month| < 5 then |month| else 5;
    SortedPrefix(month, TxTime, k);
    SortDesc(month, TxTime)[..k]
  }

  /** The recent list of the shown month runs from the latest date backwards. */
  lemma RecentChronological(ts: seq<Transaction>, ym: YearMonth, i: int, j: int)
    requires ValidMonth(ym)
    requires 0 <= i < j < |Recent(MonthTransactions(ts, ym))|
    ensures var r := Recent(MonthTransactions(ts, ym));
            ParseIso(r[i].date).Some? && ParseIso(r[j].date).Some?
            && NotAfter(ParseIso(r[j].date).value, ParseIso(r[i].date).value)
  {
    var month := MonthTransactions(ts, ym);
    var r := Recent(month);
    assert r[i] in multiset(month) && r[j] in multiset(month);
    assert r[i] in month && r[j] in month;
    DateKeyMonotone(ParseIso(r[j].date).value, ParseIso(r[i].date).value);
  }

  // ---------------------------------------------------------------------
  // The balance colour

  const Positive: string := "text-accent-500 dark:text-accent-400"
  const Negative: string := "text-error-500 dark:text-error-400"
  const Zero: string := "text-neutral-700 dark:text-neutral-300"

  /** `getBalanceColor`. */
  function BalanceColor(balance: real): (c: string)
    ensures c == Positive <==> balance > 0.0
    ensures c == Negative <==> balance < 0.0
    ensures c == Zero <==> balance == 0.0
  {
    if balance > 0.0 then Positive else if balance < 0.0 then Negative else Zero
  }

  // ---------------------------------------------------------------------
  // Daily expenses

  predicate StartsWith(s: string, prefix: string) {
    |prefix| <= |s| && s[..|prefix|] == prefix
  }

  /** `dayStr`: the year as `String` prints it, then the month and the day
      padded to two digits. */
  function DayStr(ym: YearMonth, day: nat): string
    requires ValidMonth(ym)
  {
    IntText(ym.year) + "-" + PadStart2(ym.month) + "-" + PadStart2(day)
  }

  /** For a four-digit year, `dayStr` is the ISO text of that day. */
  lemma DayStrIsIso(ym: YearMonth, day: nat)
    requires 1000 <= ym.year <= 9999 && ValidMonth(ym) && 1 <= day <= DaysInMonth(ym.year, ym.month)
    ensures DayStr(ym, day) == FormatIso(Date(ym.year, ym.month, day))
  {
    assert Pow10(3) == 1000 && Pow10(4) == 10000;
    DecimalIsPad(ym.year, 4);
    PadStart2IsPad(ym.month);
    PadStart2IsPad(day);
  }

  function OnDay(ds: string): Transaction -> bool {
    (t: Transaction) => t.txType == Expense && StartsWith(t.date, ds)
  }

  /** `dayTotal`: the sum of the expenses whose date starts with `ds`. */
  function DayTotal(month: seq<Transaction>, ds: string): real {
    SumOf(Filter(month, OnDay(ds)), NumericAmount)
  }

  datatype DayExpense = DayExpense(day: string, amount: real)

  function DayAmount(e: DayExpense): real {
    e.amount
  }

  /** `dailyExpenseData`: one bar per day of the shown month, labelled with
      the day's number. */
  function DailyExpenseData(month: seq<Transaction>, ym: YearMonth): (r: seq<DayExpense>)
    requires ValidMonth(ym) && AllNumeric(month)
    ensures |r| == DaysInMonth(ym.year, ym.month)
    ensures forall i :: 0 <= i < |r| ==>
              r[i].day == DecimalString(i + 1) && r[i].amount == DayTotal(month, DayStr(ym, i + 1))
  {
    seq(DaysInMonth(ym.year, ym.month), (i: int) requires 0 <= i => DayBar(month, ym, i + 1))
  }

  /** The bar of one day. */
  function DayBar(month: seq<Transaction>, ym: YearMonth, day: nat): DayExpense
    requires ValidMonth(ym)
  {
    DayExpense(DecimalString(day), DayTotal(month, DayStr(ym, day)))
  }

  /** A day with no expense on it has an empty bar. */
  lemma DayWithoutExpenses(month: seq<Transaction>, ds: string)
    requires forall t :: t in month && t.txType == Expense ==> !StartsWith(t.date, ds)
    ensures DayTotal(month, ds) == 0.0
  {
    FilterNone(month, OnDay(ds));
  }

  function TxDate(t: Transaction): string {
    t.date
  }

  /** What a transaction adds to the expense bar of its day. */
  function ExpenseAmount(t: Transaction): real {
    if t.txType == Expense then NumericAmount(t) else 0.0
  }

  /** `ExpenseAmount` on the transactions dated `ds`, zero elsewhere. */
  function DayMask(ds: string): Transaction -> real {
    (t: Transaction) => if t.date == ds then ExpenseAmount(t) else 0.0
  }

  /** The ISO text of every day of the month, in order. */
  function DaysOf(ym: YearMonth): (ks: seq<string>)
    requires 0 <= ym.year <= 9999 && ValidMonth(ym)
    ensures |ks| == DaysInMonth(ym.year, ym.month)
    ensures forall i :: 0 <= i < |ks| ==> ks[i] == FormatIso(Date(ym.year, ym.month, i + 1))
  {
    seq(DaysInMonth(ym.year, ym.month), (i: int) requires 0 <= i < DaysInMonth(ym.year, ym.month) =>
      FormatIso(Date(ym.year, ym.month, i + 1)))
  }

  /** A parsable date starts with a ten-character text exactly when it is that text. */
  lemma OnDayIsDate(x: Transaction, ds: string)
    requires ParseIso(x.date).Some? && |ds| == 10
    ensures StartsWith(x.date, ds) <==> x.date == ds
  {
    FormatParse(x.date);
  }

  /** For a four-digit year, each bar of the shown month is the expense total
      of the transactions dated that very day. */
  lemma DailyBar(ts: seq<Transaction>, ym: YearMonth, i: int)
    requires 1000 <= ym.year <= 9999 && ValidMonth(ym) && AllNumeric(MonthTransactions(ts, ym))
    requires 0 <= i < DaysInMonth(ym.year, ym.month)
    ensures DailyExpenseData(MonthTransactions(ts, ym), ym)[i].amount
         == BucketSum(MonthTransactions(ts, ym), TxDate, FormatIso(Date(ym.year, ym.month, i + 1)), ExpenseAmount)
  {
    var month := MonthTransactions(ts, ym);
    var ds := DayStr(ym, i + 1);
    DayStrIsIso(ym, i + 1);
    forall x | x in month
      ensures DayMask(ds)(x) == (if OnDay(ds)(x) then NumericAmount(x) else 0.0)
    {
      OnDayIsDate(x, ds);
    }
    FilterSum(month, OnDay(ds), NumericAmount, DayMask(ds));
    BucketSumAsSum(month, TxDate, ds, ExpenseAmount, DayMask(ds));
  }

  /** For a four-digit year, the daily bars add up to the month's expenses. */
  lemma DailyTotals(ts: seq<Transaction>, ym: YearMonth)
    requires 1000 <= ym.year <= 9999 && ValidMonth(ym) && AllNumeric(MonthTransactions(ts, ym))
    ensures SumOf(DailyExpenseData(MonthTransactions(ts, ym), ym), DayAmount)
         == Summarize(MonthTransactions(ts, ym)).expenses
  {
    var month := MonthTransactions(ts, ym);
    var r := DailyExpenseData(month, ym);
    var ks := DaysOf(ym);
    forall i | 0 <= i < |r|
      ensures DayAmount(r[i]) == BucketSum(month, TxDate, ks[i], ExpenseAmount)
    {
      DailyBar(ts, ym, i);
    }
    SumOfBucketRecords(r, DayAmount, month, TxDate, ks, ExpenseAmount);
    assert Distinct(ks) by {
      forall i, j | 0 <= i < j < |ks| ensures ks[i] != ks[j] {
        ParseFormat(Date(ym.year, ym.month, i + 1));
        ParseFormat(Date(ym.year, ym.month, j + 1));
      }
    }
    forall x | x in month ensures TxDate(x) in ks {
      var d := ParseIso(x.date).value;
      InMonthWindow(d, ym);
      FormatParse(x.date);
      assert ks[d.day - 1] == x.date;
    }
    Partition(month, TxDate, ks, ExpenseAmount);
    FilterSum(month, IsOfType(Expense), NumericAmount, ExpenseAmount);
  }
}
