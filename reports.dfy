/** The reports page: a look-back window of whole months ending with the
    current one, the transactions dated inside it, their totals and savings
    rate (string amounts read as numbers, unparsable ones as 0), the expense
    pie sorted by value, and the zero-filled month-by-month trend. */
module ReportsPage {
  import opened Common
  import opened Dates
  import opened Amounts
  import opened Records
  import opened Folds
  import opened Sorting
  import opened Grouping

  datatype Period = Month | ThreeMonths | SixMonths | Year

  /** How many months before the current one the window starts. */
  function Lookback(p: Period): nat {
    match p
    case Month => 0
    case ThreeMonths => 2
    case SixMonths => 5
    case Year => 11
  }

  /** `getDateRange`, with `today` the clock's current date: from the start of
      the month `Lookback(p)` months back to the end of the current month. */
  function GetDateRange(p: Period, today: Date): (w: Window)
    requires 1 <= today.month <= 12
    ensures w.end == LastDay(MonthOf(today))
    ensures w.start == FirstDay(MonthOf(w.start)) && ValidMonth(MonthOf(w.start))
    ensures MonthIndex(MonthOf(w.start)) == MonthIndex(MonthOf(today)) - Lookback(p)
  {
    Window(FirstDay(AddMonths(MonthOf(today), -(Lookback(p) as int))), LastDay(MonthOf(today)))
  }

  /** A valid date is in the window exactly when its month is one of the
      `Lookback(p) + 1` months ending with the current one. */
  lemma InDateRange(p: Period, today: Date, d: Date)
    requires 1 <= today.month <= 12 && ValidDate(d)
    ensures InWindow(d, GetDateRange(p, today))
        <==> MonthIndex(MonthOf(today)) - Lookback(p) <= MonthIndex(MonthOf(d)) <= MonthIndex(MonthOf(today))
  {
    var w := GetDateRange(p, today);
    InMonthSpan(d, MonthOf(w.start), MonthOf(today));
  }

  /** `typeof amount === 'string' ? parseFloat(amount) || 0 : amount`. */
  function Coerce(t: Transaction): real {
    match t.amount
    case Num(v) => v
    case Text(s) => ParseFloat(s).GetOr(0.0)
  }

  /** Text that is a decimal numeral counts as the number it spells, with or
      without a minus sign and with or without a fractional part. */
  lemma CoerceText(t: Transaction, whole: string, frac: string)
    requires AllDigits(whole) && AllDigits(frac)
    ensures |whole| > 0 && t.amount == Text(whole) ==> Coerce(t) == DigitsValue(whole) as real
    ensures |whole| > 0 && t.amount == Text("-" + whole) ==> Coerce(t) == -(DigitsValue(whole) as real)
    ensures |whole| + |frac| > 0 && t.amount == Text(whole + "." + frac) ==> Coerce(t) == NumeralValue(whole, frac)
    ensures |whole| + |frac| > 0 && t.amount == Text("-" + (whole + "." + frac)) ==> Coerce(t) == -NumeralValue(whole, frac)
  {
    if |whole| > 0 {
      ParseFloatDigits(whole);
      ParseUnsignedWhole(whole);
      ParseFloatMinus(whole);
    }
    if |whole| + |frac| > 0 {
      ParseFloatPoint(whole, frac);
      ParseUnsignedPoint(whole, frac);
      ParseFloatMinus(whole + "." + frac);
    }
  }

  /** Text that is not a numeral counts as 0. */
  lemma CoerceUnparsable(t: Transaction)
    requires t.amount.Text? && ParseFloat(t.amount.text).None?
    ensures Coerce(t) == 0.0
  {
  }

  datatype Summary = Summary(income: real, expense: real, balance: real, savingsRate: real)

  /** `summaryData`, with `savingsRate` filled in afterwards. */
  function Summarize(filtered: seq<Transaction>): (r: Summary)
    ensures r.income == SumOf(OfType(filtered, Income), Coerce)
    ensures r.expense == SumOf(OfType(filtered, Expense), Coerce)
    ensures r.balance == r.income - r.expense
    ensures r.income + r.expense == SumOf(filtered, Coerce)
    ensures r.savingsRate == (if r.income > 0.0 then r.balance / r.income * 100.0 else 0.0)
  {
    var income := SumOf(OfType(filtered, Income), Coerce);
    var expense := SumOf(OfType(filtered, Expense), Coerce);
    IncomeExpenseSplit(filtered, Coerce);
    var balance := income - expense;
    Summary(income, expense, balance, if income > 0.0 then balance / income * 100.0 else 0.0)
  }

  // ---------------------------------------------------------------------
  // The expense pie

  /** `expensesByCategory`: the expense total per category name, in order of
      first appearance. */
  function ExpensesByCategory(filtered: seq<Transaction>): (r: seq<Entry>)
    ensures DistinctKeys(r)
    ensures KeysOf(r) == KeySet(OfType(filtered, Expense), TxCategory)
    ensures forall k :: Lookup(r, k) == BucketSum(OfType(filtered, Expense), TxCategory, k, Coerce)
  {
    GroupSum(OfType(filtered, Expense), TxCategory, Coerce)
  }

  datatype Slice = Slice(name: string, value: real, color: string)

  function SliceName(s: Slice): string {
    s.name
  }

  function SliceValue(s: Slice): real {
    s.value
  }

  const FallbackColor: string := "#FF5630"

  /** The colour of the category with that name, else the fallback. */
  function SliceColor(categories: seq<Category>, name: string): string {
    match FindCategory(categories, name)
    case Some(c) => c.color
    case None => FallbackColor
  }

  /** The entries as pie slices, before sorting. */
  function Slices(es: seq<Entry>, categories: seq<Category>): (r: seq<Slice>)
    ensures |r| == |es|
    ensures forall i :: 0 <= i < |es| ==>
              r[i] == Slice(es[i].key, es[i].total, SliceColor(categories, es[i].key))
  {
    if es == [] then []
    else Slices(es[..|es| - 1], categories) + [Slice(es[|es| - 1].key, es[|es| - 1].total, SliceColor(categories, es[|es| - 1].key))]
  }

  lemma {:induction false} SlicesTotal(es: seq<Entry>, categories: seq<Category>)
    ensures SumOf(Slices(es, categories), SliceValue) == SumOf(es, EntryTotal)
  {
    if es != [] {
      var r := Slices(es, categories);
      assert r[..|r| - 1] == Slices(es[..|es| - 1], categories);
      SlicesTotal(es[..|es| - 1], categories);
    }
  }

  /** `expensePieData`. */
  function ExpensePieData(filtered: seq<Transaction>, categories: seq<Category>): (r: seq<Slice>)
    ensures SortedDesc(r, SliceValue)
    ensures DistinctBy(r, SliceName)
    ensures multiset(r) == multiset(Slices(ExpensesByCategory(filtered), categories))
    ensures SumOf(r, SliceValue) == Summarize(filtered).expense
  {
    var es := ExpensesByCategory(filtered);
    var slices := Slices(es, categories);
    assert DistinctBy(slices, SliceName) by {
      forall i, j | 0 <= i < j < |slices| ensures slices[i].name != slices[j].name {
        assert slices[i].name == es[i].key && slices[j].name == es[j].key;
      }
    }
    SortKeepsDistinct(slices, SliceValue, SliceName);
    SortKeepsSum(slices, SliceValue, SliceValue);
    SlicesTotal(es, categories);
    GroupSumTotal(OfType(filtered, Expense), TxCategory, Coerce);
    SortDesc(slices, SliceValue)
  }

  /** Every slice is the expense total of its category and carries that
      category's colour (or the fallback). */
  lemma PieSlice(filtered: seq<Transaction>, categories: seq<Category>, s: Slice)
    requires s in ExpensePieData(filtered, categories)
    ensures s.value == BucketSum(OfType(filtered, Expense), TxCategory, s.name, Coerce)
    ensures s.color == SliceColor(categories, s.name)
  {
    var es := ExpensesByCategory(filtered);
    var slices := Slices(es, categories);
    assert s in multiset(slices);
    var j :| 0 <= j < |slices| && slices[j] == s;
    LookupAt(es, j);
  }

  /** There is a slice for a name exactly when some expense in the window
      carries that category. */
  lemma PieNames(filtered: seq<Transaction>, categories: seq<Category>, name: string)
    ensures (exists s :: s in ExpensePieData(filtered, categories) && s.name == name)
        <==> (exists t :: t in filtered && t.txType == Expense && t.category == name)
  {
    if exists s :: s in ExpensePieData(filtered, categories) && s.name == name {
      var s :| s in ExpensePieData(filtered, categories) && s.name == name;
      PieSliceCarried(filtered, categories, s);
    }
    if exists t :: t in filtered && t.txType == Expense && t.category == name {
      var t :| t in filtered && t.txType == Expense && t.category == name;
      PieSliceFor(filtered, categories, t);
    }
  }

  /** A slice's name is the category of some expense in the window. */
  lemma PieSliceCarried(filtered: seq<Transaction>, categories: seq<Category>, s: Slice)
    requires s in ExpensePieData(filtered, categories)
    ensures exists t :: t in filtered && t.txType == Expense && t.category == s.name
  {
    var es := ExpensesByCategory(filtered);
    var slices := Slices(es, categories);
    assert s in multiset(slices);
    var j :| 0 <= j < |slices| && slices[j] == s;
    KeysOfIndex(es, s.name);
    KeySetWitness(OfType(filtered, Expense), TxCategory, s.name);
  }

  /** Every expense in the window has a slice named after its category. */
  lemma PieSliceFor(filtered: seq<Transaction>, categories: seq<Category>, t: Transaction)
    requires t in filtered && t.txType == Expense
    ensures exists s :: s in ExpensePieData(filtered, categories) && s.name == t.category
  {
    var es := ExpensesByCategory(filtered);
    var slices := Slices(es, categories);
    KeysOfIndex(es, t.category);
    assert t in OfType(filtered, Expense);
    var j :| 0 <= j < |es| && es[j].key == t.category;
    assert slices[j] in multiset(ExpensePieData(filtered, categories));
  }

  // ---------------------------------------------------------------------
  // The month-by-month trend

  /** One bar of the trend chart; `month` is the month its `MMM yyyy` label
      names. */
  datatype MonthlyData = MonthlyData(month: YearMonth, monthKey: string, income: real, expense: real)

  function MonthIncome(m: MonthlyData): real {
    m.income
  }

  function MonthExpense(m: MonthlyData): real {
    m.expense
  }

  /** The month key of a transaction's date; `None` for an unparsable date,
      whose key ("NaN-NaN") matches no month. */
  function TxMonthKey(t: Transaction): Option<string> {
    match ParseIso(t.date)
    case Some(d) => Some(MonthKey(MonthOf(d)))
    case None => None
  }

  /** What a transaction adds to its month's income bar. */
  function IncomePart(t: Transaction): real {
    if t.txType == Income then Coerce(t) else 0.0
  }

  /** What a transaction adds to its month's expense bar. */
  function ExpensePart(t: Transaction): real {
    if t.txType == Income then 0.0 else Coerce(t)
  }

  /** `monthsData.find(m => m.monthKey === key)`, as a position. */
  function FindMonth(data: seq<MonthlyData>, key: Option<string>): (r: Option<nat>)
    ensures r.Some? ==> r.value < |data| && Some(data[r.value].monthKey) == key
    ensures r.None? ==> forall j :: 0 <= j < |data| ==> Some(data[j].monthKey) != key
  {
    if data == [] then None
    else if Some(data[0].monthKey) == key then Some(0)
    else
      match FindMonth(data[1..], key)
      case Some(j) => Some(j + 1)
      case None => None
  }

  /** The shape of the trend: one bar per month of the window, oldest
      first, each keyed by its month. */
  predicate MonthSlots(data: seq<MonthlyData>, first: YearMonth, n: nat)
    requires ValidMonth(first)
  {
    |data| == n
    && forall i :: 0 <= i < n ==>
         data[i].month == AddMonths(first, i) && data[i].monthKey == MonthKey(data[i].month)
  }

  lemma DistinctMonthKeys(data: seq<MonthlyData>, first: YearMonth, n: nat)
    requires ValidMonth(first) && MonthSlots(data, first, n)
    ensures forall i, j :: 0 <= i < j < n ==> data[i].monthKey != data[j].monthKey
  {
    forall i, j | 0 <= i < j < n ensures data[i].monthKey != data[j].monthKey {
      MonthKeyInjective(data[i].month, data[j].month);
    }
  }

  /** The bars after `k` transactions: bar `i` holds the income and expense
      parts of those in its month. */
  predicate BarsAfter(filtered: seq<Transaction>, k: nat, data: seq<MonthlyData>)
    requires k <= |filtered|
  {
    forall i :: 0 <= i < |data| ==>
      data[i].income == BucketSum(filtered[..k], TxMonthKey, Some(data[i].monthKey), IncomePart)
      && data[i].expense == BucketSum(filtered[..k], TxMonthKey, Some(data[i].monthKey), ExpensePart)
  }

  /** One more transaction adds its parts to the bar of its own month only. */
  lemma BucketSnoc(filtered: seq<Transaction>, k: nat, key: Option<string>)
    requires k < |filtered|
    ensures BucketSum(filtered[..k + 1], TxMonthKey, key, IncomePart)
         == BucketSum(filtered[..k], TxMonthKey, key, IncomePart)
            + (if TxMonthKey(filtered[k]) == key then IncomePart(filtered[k]) else 0.0)
    ensures BucketSum(filtered[..k + 1], TxMonthKey, key, ExpensePart)
         == BucketSum(filtered[..k], TxMonthKey, key, ExpensePart)
            + (if TxMonthKey(filtered[k]) == key then ExpensePart(filtered[k]) else 0.0)
  {
    var post := filtered[..k + 1];
    assert post[..|post| - 1] == filtered[..k];
    assert post[|post| - 1] == filtered[k];
  }

  /** The bars after `t` is added to bar `j`, when it found one. */
  function Credit(data: seq<MonthlyData>, j: Option<nat>, t: Transaction): (r: seq<MonthlyData>)
    requires j.Some? ==> j.value < |data|
    ensures |r| == |data|
    ensures forall i :: 0 <= i < |data| ==> r[i].month == data[i].month && r[i].monthKey == data[i].monthKey
    ensures forall i :: 0 <= i < |data| && j != Some(i) ==> r[i] == data[i]
    ensures j.Some? ==> r[j.value].income == data[j.value].income + IncomePart(t)
                        && r[j.value].expense == data[j.value].expense + ExpensePart(t)
  {
    match j
    case None => data
    case Some(i) =>
      if t.txType == Income then data[i := data[i].(income := data[i].income + Coerce(t))]
      else data[i := data[i].(expense := data[i].expense + Coerce(t))]
  }

  /** Adding one more transaction to the bars. */
  lemma BucketStep(filtered: seq<Transaction>, k: nat, data: seq<MonthlyData>, first: YearMonth, n: nat)
    requires ValidMonth(first) && MonthSlots(data, first, n) && k < |filtered|
    requires BarsAfter(filtered, k, data)
    ensures var next := Credit(data, FindMonth(data, TxMonthKey(filtered[k])), filtered[k]);
            MonthSlots(next, first, n) && BarsAfter(filtered, k + 1, next)
  {
    var t := filtered[k];
    var j := FindMonth(data, TxMonthKey(t));
    var next := Credit(data, j, t);
    DistinctMonthKeys(data, first, n);
    assert |next| == n;
    forall i | 0 <= i < n
      ensures next[i].income == BucketSum(filtered[..k + 1], TxMonthKey, Some(next[i].monthKey), IncomePart)
      ensures next[i].expense == BucketSum(filtered[..k + 1], TxMonthKey, Some(next[i].monthKey), ExpensePart)
    {
      BucketSnoc(filtered, k, Some(data[i].monthKey));
      if j.Some? && i != j.value {
        assert data[i].monthKey != data[j.value].monthKey;
      }
    }
  }

  /** Appending the next month keeps the slots in shape. */
  lemma SlotsSnoc(data: seq<MonthlyData>, first: YearMonth, m: YearMonth)
    requires ValidMonth(first) && ValidMonth(m) && MonthSlots(data, first, |data|)
    requires MonthIndex(m) == MonthIndex(first) + |data|
    ensures MonthSlots(data + [MonthlyData(m, MonthKey(m), 0.0, 0.0)], first, |data| + 1)
  {
    MonthIndexInjective(AddMonths(first, |data|), m);
  }

  /** `getMonthlyData`, for the window of period `p` around `today`. */
  method GetMonthlyData(p: Period, today: Date, filtered: seq<Transaction>) returns (data: seq<MonthlyData>)
    requires 1 <= today.month <= 12
    ensures MonthSlots(data, AddMonths(MonthOf(today), -(Lookback(p) as int)), Lookback(p) + 1)
    ensures forall i, j :: 0 <= i < j < |data| ==> data[i].monthKey != data[j].monthKey
    ensures forall i :: 0 <= i < |data| ==>
              data[i].income == BucketSum(filtered, TxMonthKey, Some(data[i].monthKey), IncomePart)
              && data[i].expense == BucketSum(filtered, TxMonthKey, Some(data[i].monthKey), ExpensePart)
  {
    var w := GetDateRange(p, today);
    var first := MonthOf(w.start);
    var last := MonthOf(today);
    var n := Lookback(p) + 1;
    var m := first;
    data := [];
    MonthStartNotAfter(m, last);
    while NotAfter(FirstDay(m), w.end)
      invariant ValidMonth(m) && MonthIndex(m) == MonthIndex(first) + |data| && |data| <= n
      invariant NotAfter(FirstDay(m), w.end) <==> MonthIndex(m) <= MonthIndex(last)
      invariant MonthSlots(data, first, |data|)
      invariant forall i :: 0 <= i < |data| ==> data[i].income == 0.0 && data[i].expense == 0.0
      decreases MonthIndex(last) - MonthIndex(m)
    {
      SlotsSnoc(data, first, m);
      data := data + [MonthlyData(m, MonthKey(m), 0.0, 0.0)];
      m := AddMonths(m, 1);
      MonthStartNotAfter(m, last);
    }
    assert |data| == n;
    var k := 0;
    assert BarsAfter(filtered, 0, data) by {
      assert filtered[..0] == [];
    }
    while k < |filtered|
      invariant 0 <= k <= |filtered|
      invariant MonthSlots(data, first, n)
      invariant BarsAfter(filtered, k, data)
    {
      var t := filtered[k];
      var found := FindMonth(data, TxMonthKey(t));
      BucketStep(filtered, k, data, first, n);
      data := Credit(data, found, t);
      k := k + 1;
    }
    assert filtered[..k] == filtered;
    DistinctMonthKeys(data, first, n);
  }

  /** When every transaction lies in the window, each lands in exactly one
      bar, so the bars add up to the summary totals. */
  lemma {:induction false} MonthlyTotals(p: Period, today: Date, filtered: seq<Transaction>, data: seq<MonthlyData>)
    requires 1 <= today.month <= 12
    requires forall t :: t in filtered ==> DatedIn(t, GetDateRange(p, today))
    requires MonthSlots(data, AddMonths(MonthOf(today), -(Lookback(p) as int)), Lookback(p) + 1)
    requires forall i :: 0 <= i < |data| ==>
               data[i].income == BucketSum(filtered, TxMonthKey, Some(data[i].monthKey), IncomePart)
               && data[i].expense == BucketSum(filtered, TxMonthKey, Some(data[i].monthKey), ExpensePart)
    ensures SumOf(data, MonthIncome) == Summarize(filtered).income
    ensures SumOf(data, MonthExpense) == Summarize(filtered).expense
  {
    var first := AddMonths(MonthOf(today), -(Lookback(p) as int));
    var n := Lookback(p) + 1;
    var ks := seq(n, i requires 0 <= i < n => Some(data[i].monthKey));
    WindowKeys(p, today, filtered, data, ks);
    SumOfBucketRecords(data, MonthIncome, filtered, TxMonthKey, ks, IncomePart);
    SumOfBucketRecords(data, MonthExpense, filtered, TxMonthKey, ks, ExpensePart);
    Partition(filtered, TxMonthKey, ks, IncomePart);
    Partition(filtered, TxMonthKey, ks, ExpensePart);
    FilterSum(filtered, IsOfType(Income), Coerce, IncomePart);
    FilterSum(filtered, IsOfType(Expense), Coerce, ExpensePart);
  }

  /** The bars' month keys are distinct and cover every transaction dated
      inside the window. */
  lemma WindowKeys(p: Period, today: Date, filtered: seq<Transaction>, data: seq<MonthlyData>, ks: seq<Option<string>>)
    requires 1 <= today.month <= 12
    requires forall t :: t in filtered ==> DatedIn(t, GetDateRange(p, today))
    requires MonthSlots(data, AddMonths(MonthOf(today), -(Lookback(p) as int)), Lookback(p) + 1)
    requires |ks| == |data| && forall i :: 0 <= i < |data| ==> ks[i] == Some(data[i].monthKey)
    ensures Distinct(ks)
    ensures forall t :: t in filtered ==> TxMonthKey(t) in ks
  {
    var first := AddMonths(MonthOf(today), -(Lookback(p) as int));
    var n := Lookback(p) + 1;
    DistinctMonthKeys(data, first, n);
    forall t | t in filtered ensures TxMonthKey(t) in ks {
      var d := ParseIso(t.date).value;
      InDateRange(p, today, d);
      var i := MonthIndex(MonthOf(d)) - MonthIndex(first);
      MonthIndexInjective(AddMonths(first, i), MonthOf(d));
      assert ks[i] == TxMonthKey(t);
    }
  }

  /** The page's own call: the trend over the window's transactions adds up
      to the summary. */
  lemma PageMonthlyTotals(ts: seq<Transaction>, p: Period, today: Date, data: seq<MonthlyData>)
    requires 1 <= today.month <= 12
    requires var filtered := DatedWithin(ts, GetDateRange(p, today));
             MonthSlots(data, AddMonths(MonthOf(today), -(Lookback(p) as int)), Lookback(p) + 1)
             && forall i :: 0 <= i < |data| ==>
                  data[i].income == BucketSum(filtered, TxMonthKey, Some(data[i].monthKey), IncomePart)
                  && data[i].expense == BucketSum(filtered, TxMonthKey, Some(data[i].monthKey), ExpensePart)
    ensures var s := Summarize(DatedWithin(ts, GetDateRange(p, today)));
            SumOf(data, MonthIncome) == s.income && SumOf(data, MonthExpense) == s.expense
  {
    MonthlyTotals(p, today, DatedWithin(ts, GetDateRange(p, today)), data);
  }
}
