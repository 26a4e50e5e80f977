/** The budget page: per-category spending limits kept in the browser's
    key-value store under `budgets`, the shown month's expenses per category,
    each budget's fill percentage, status colour and remaining or exceeded
    amount, the expenses no budget covers, and the suggested limit offered
    for them. Amounts are added with `+`, so sums are modelled on lists whose
    amounts are all numbers. */
module BudgetPage {
  import opened Common
  import opened Dates
  import opened Amounts
  import opened Records
  import opened Folds
  import opened Grouping
  import MonthCursor

  datatype Budget = Budget(id: string, category: string, amount: real, color: string, icon: string)

  /** The add form (`Omit<Budget, 'id'>`). */
  datatype BudgetDraft = BudgetDraft(category: string, amount: real, color: string, icon: string)

  const FallbackColor: string := "#FF5630"
  const FallbackIcon: string := "dollar-sign"
  const BlankDraft: BudgetDraft := BudgetDraft("", 0.0, FallbackColor, FallbackIcon)

  // ---------------------------------------------------------------------
  // Spending in the shown month

  function IsMonthExpense(w: Window): Transaction -> bool {
    (t: Transaction) => DatedIn(t, w) && t.txType == Expense
  }

  /** `monthTransactions`: the expenses dated inside the shown month. */
  function MonthExpenses(ts: seq<Transaction>, ym: YearMonth): (r: seq<Transaction>)
    requires ValidMonth(ym)
    ensures forall t :: t in r <==> t in ts && DatedIn(t, MonthWindow(ym)) && t.txType == Expense
    ensures forall t :: multiset(r)[t] == if DatedIn(t, MonthWindow(ym)) && t.txType == Expense then multiset(ts)[t] else 0
    ensures IsSubsequence(r, ts)
  {
    var p := IsMonthExpense(MonthWindow(ym));
    assert forall t :: multiset(Filter(ts, p))[t] == if p(t) then multiset(ts)[t] else 0 by {
      forall t {
        FilterCount(ts, p, t);
      }
    }
    assert forall t :: t in Filter(ts, p) <==> t in ts && p(t) by {
      forall t {
        FilterElement(ts, p, t);
      }
    }
    FilterSubsequence(ts, p);
    Filter(ts, p)
  }

  /** `expensesByCategory`: the month's expense total per category name, in
      order of first appearance. */
  function ExpensesByCategory(month: seq<Transaction>): (r: seq<Entry>)
    requires AllNumeric(month)
    ensures DistinctKeys(r)
    ensures KeysOf(r) == KeySet(month, TxCategory)
    ensures forall k :: Lookup(r, k) == BucketSum(month, TxCategory, k, NumericAmount)
    ensures SumOf(r, EntryTotal) == SumOf(month, NumericAmount)
  {
    GroupSumTotal(month, TxCategory, NumericAmount);
    GroupSum(month, TxCategory, NumericAmount)
  }

  // ---------------------------------------------------------------------
  // One budget's row

  /** A JavaScript number that `Math.min(x, 100)` can produce from a
      quotient: a finite value, minus infinity, or NaN. */
  datatype Percent = Finite(value: real) | MinusInfinity | NaN

  /** `Math.min((spent / amount) * 100, 100)` with IEEE division: a zero
      limit gives +Infinity (capped to 100), -Infinity, or NaN for 0 / 0. */
  function Percentage(spent: real, amount: real): (p: Percent)
    ensures p.Finite? ==> p.value <= 100.0
    ensures amount != 0.0 ==> p.Finite?
    ensures amount > 0.0 && spent >= 0.0 ==> 0.0 <= p.value
    ensures amount == 0.0 ==> (p == NaN <==> spent == 0.0)
                              && (spent > 0.0 ==> p == Finite(100.0))
                              && (spent < 0.0 ==> p == MinusInfinity)
  {
    if amount == 0.0 then
      if spent > 0.0 then Finite(100.0) else if spent < 0.0 then MinusInfinity else NaN
    else
      var q := spent / amount * 100.0;
      Finite(if q < 100.0 then q else 100.0)
  }

  const OverClass: string := "bg-error-500"
  const WarningClass: string := "bg-warning-500"
  const OnTrackClass: string := "bg-accent-500"

  /** `statusColor`: error from 90 per cent, warning from 70; NaN and minus
      infinity fail both comparisons. */
  function StatusColor(p: Percent): (c: string)
    ensures c == OverClass <==> p.Finite? && p.value >= 90.0
    ensures c == WarningClass <==> p.Finite? && 70.0 <= p.value < 90.0
    ensures c == OnTrackClass <==> !p.Finite? || p.value < 70.0
  {
    if p.Finite? && p.value >= 90.0 then OverClass
    else if p.Finite? && p.value >= 70.0 then WarningClass
    else OnTrackClass
  }

  /** With a positive limit the colour depends on the share of the limit
      spent: error from 90 per cent of it, warning from 70. */
  lemma StatusThresholds(spent: real, amount: real)
    requires amount > 0.0
    ensures StatusColor(Percentage(spent, amount)) == OverClass <==> spent >= 0.9 * amount
    ensures StatusColor(Percentage(spent, amount)) == WarningClass <==> 0.7 * amount <= spent < 0.9 * amount
    ensures StatusColor(Percentage(spent, amount)) == OnTrackClass <==> spent < 0.7 * amount
  {
    var q := spent / amount * 100.0;
    assert q * amount == spent * 100.0;
    ShareAtLeast(q, amount, spent, 90.0);
    ShareAtLeast(q, amount, spent, 70.0);
  }

  lemma ShareAtLeast(q: real, amount: real, spent: real, bound: real)
    requires amount > 0.0 && q * amount == spent * 100.0
    ensures q >= bound <==> spent * 100.0 >= bound * amount
  {
    if q >= bound {
      assert q * amount >= bound * amount;
    } else {
      assert q * amount < bound * amount;
    }
  }

  datatype Standing = Exceeded(over: real) | Remaining(left: real)

  /** The line under the bar: how far over the limit, or how much is left. */
  function StandingOf(spent: real, amount: real): (r: Standing)
    ensures r.Exceeded? <==> spent > amount
    ensures r.Exceeded? ==> r.over > 0.0 && amount + r.over == spent
    ensures r.Remaining? ==> r.left >= 0.0 && spent + r.left == amount
  {
    if spent > amount then Exceeded(spent - amount) else Remaining(amount - spent)
  }

  /** Over a positive limit, the bar is full and shows the error colour. */
  lemma ExceededIsFull(spent: real, amount: real)
    requires amount > 0.0 && StandingOf(spent, amount).Exceeded?
    ensures Percentage(spent, amount) == Finite(100.0)
    ensures StatusColor(Percentage(spent, amount)) == OverClass
  {
    var q := spent / amount * 100.0;
    assert q * amount == spent * 100.0;
    ShareAtLeast(q, amount, spent, 100.0);
  }

  /** `currentSpending`: `expensesByCategory[category] || 0`. */
  function Spending(es: seq<Entry>, category: string): real {
    Lookup(es, category)
  }

  /** A budget's spending is the month's expense total in its category, and
      0 when the month has no expense in it. */
  lemma SpendingOfBudget(month: seq<Transaction>, b: Budget)
    requires AllNumeric(month)
    ensures Spending(ExpensesByCategory(month), b.category) == BucketSum(month, TxCategory, b.category, NumericAmount)
    ensures (forall t :: t in month ==> t.category != b.category) ==>
              Spending(ExpensesByCategory(month), b.category) == 0.0
  {
    if forall t :: t in month ==> t.category != b.category {
      NoBucket(month, b.category);
    }
  }

  lemma {:induction false} NoBucket(s: seq<Transaction>, k: string)
    requires forall t :: t in s ==> t.category != k
    ensures BucketSum(s, TxCategory, k, NumericAmount) == 0.0
  {
    if s != [] {
      assert s[|s| - 1] in s;
      assert forall t :: t in s[..|s| - 1] ==> t in s;
      NoBucket(s[..|s| - 1], k);
    }
  }

  // ---------------------------------------------------------------------
  // Unbudgeted expenses

  /** `budgets.some(b => b.category === category)`. */
  predicate Budgeted(budgets: seq<Budget>, category: string) {
    exists b :: b in budgets && b.category == category
  }

  function IsUnbudgeted(budgets: seq<Budget>): Entry -> bool {
    (e: Entry) => !Budgeted(budgets, e.key)
  }

  /** The entries of categories no budget names, in their order. */
  function Unbudgeted(es: seq<Entry>, budgets: seq<Budget>): (r: seq<Entry>)
    ensures forall e :: e in r <==> e in es && !Budgeted(budgets, e.key)
    ensures IsSubsequence(r, es)
  {
    var p := IsUnbudgeted(budgets);
    assert forall e :: e in Filter(es, p) <==> e in es && p(e) by {
      forall e {
        FilterElement(es, p, e);
      }
    }
    FilterSubsequence(es, p);
    Filter(es, p)
  }

  /** Every category spent in during the month is either named by a budget
      or listed as unbudgeted with its month total. */
  lemma UnbudgetedCovers(month: seq<Transaction>, budgets: seq<Budget>, t: Transaction)
    requires AllNumeric(month) && t in month && !Budgeted(budgets, t.category)
    ensures exists e :: e in Unbudgeted(ExpensesByCategory(month), budgets)
                        && e.key == t.category
                        && e.total == BucketSum(month, TxCategory, t.category, NumericAmount)
  {
    var es := ExpensesByCategory(month);
    assert t.category in KeysOf(es);
    KeysOfIndex(es, t.category);
    var i :| 0 <= i < |es| && es[i].key == t.category;
    LookupAt(es, i);
    assert es[i] in es;
    assert es[i] in Unbudgeted(es, budgets);
  }

  /** The smallest integer not below `x`. */
  function Ceil(x: real): (n: int)
    ensures x <= n as real < x + 1.0
  {
    if x.Floor as real == x then x.Floor else x.Floor + 1
  }

  /** `Math.ceil(amount / 100) * 100`: the amount rounded up to a whole
      hundred. */
  function SuggestedCap(amount: real): (r: real)
    ensures amount <= r < amount + 100.0
    ensures r == (Ceil(amount / 100.0) as real) * 100.0
  {
    Ceil(amount / 100.0) as real * 100.0
  }

  /** A whole hundred is suggested as itself; anything else as the next
      whole hundred above it. */
  lemma SuggestedCapHundreds(k: int, amount: real)
    ensures SuggestedCap(k as real * 100.0) == k as real * 100.0
    ensures (k - 1) as real * 100.0 < amount <= k as real * 100.0 ==> SuggestedCap(amount) == k as real * 100.0
  {
    assert k as real * 100.0 / 100.0 == k as real;
    CeilUnique(k as real, k);
    if (k - 1) as real * 100.0 < amount <= k as real * 100.0 {
      var x := amount / 100.0;
      assert x * 100.0 == amount;
      CeilUnique(x, k);
    }
  }

  lemma CeilUnique(x: real, n: int)
    requires (n - 1) as real < x <= n as real
    ensures Ceil(x) == n
  {
  }

  // ---------------------------------------------------------------------
  // Editing the list

  /** `parseFloat(value) || 0`, as the amount inputs read their text. */
  function AmountInput(text: string): (r: real)
    ensures ParseFloat(text).None? ==> r == 0.0
    ensures ParseFloat(text).Some? ==> r == ParseFloat(text).value
  {
    ParseFloat(text).GetOr(0.0)
  }

  /** The field's text with a fraction reads as that fraction: ".5" is 0.5
      and "12.50" is 12.5. */
  lemma AmountInputFractions()
    ensures AmountInput(".5") == 0.5
    ensures AmountInput("12.50") == 12.5
  {
    ParseFloatLeadingPoint();
    ParseFloatCents();
  }

  /** The add button is enabled, and `handleAddBudget` acts, when a category
      is chosen and the amount is positive. */
  predicate CanAdd(d: BudgetDraft) {
    d.category != "" && d.amount > 0.0
  }

  /** The budget `handleAddBudget` creates: the category's colour and icon
      when it has non-empty ones, else the fallbacks. */
  function NewBudget(d: BudgetDraft, categories: seq<Category>, id: string): (b: Budget)
    ensures b.id == id && b.category == d.category && b.amount == d.amount
    ensures var c := FindCategory(categories, d.category);
            b.color == (if c.Some? && c.value.color != "" then c.value.color else FallbackColor)
            && b.icon == (if c.Some? && c.value.icon != "" then c.value.icon else FallbackIcon)
  {
    var c := FindCategory(categories, d.category);
    Budget(id, d.category, d.amount,
           if c.Some? && c.value.color != "" then c.value.color else FallbackColor,
           if c.Some? && c.value.icon != "" then c.value.icon else FallbackIcon)
  }

  /** `Partial<Budget>`: the fields an edit overrides. */
  datatype BudgetPatch = BudgetPatch(id: Option<string>, category: Option<string>, amount: Option<real>,
                                     color: Option<string>, icon: Option<string>)

  /** `{ ...budget, ...patch }`. */
  function Merge(b: Budget, patch: BudgetPatch): (r: Budget)
    ensures r.id == patch.id.GetOr(b.id) && r.category == patch.category.GetOr(b.category)
    ensures r.amount == patch.amount.GetOr(b.amount)
    ensures r.color == patch.color.GetOr(b.color) && r.icon == patch.icon.GetOr(b.icon)
  {
    Budget(patch.id.GetOr(b.id), patch.category.GetOr(b.category), patch.amount.GetOr(b.amount),
           patch.color.GetOr(b.color), patch.icon.GetOr(b.icon))
  }

  /** The patch `handleUpdateBudget` gets from the category select. */
  function CategoryPatch(category: string): BudgetPatch {
    BudgetPatch(None, Some(category), None, None, None)
  }

  /** The patch `handleUpdateBudget` gets from the amount input. */
  function AmountPatch(text: string): BudgetPatch {
    BudgetPatch(None, None, Some(AmountInput(text)), None, None)
  }

  /** `budgets.map(b => b.id === id ? { ...b, ...patch } : b)`. */
  function UpdateById(bs: seq<Budget>, id: string, patch: BudgetPatch): (r: seq<Budget>)
    ensures |r| == |bs|
    ensures forall i :: 0 <= i < |bs| ==> r[i] == if bs[i].id == id then Merge(bs[i], patch) else bs[i]
  {
    if bs == [] then []
    else [if bs[0].id == id then Merge(bs[0], patch) else bs[0]] + UpdateById(bs[1..], id, patch)
  }

  function KeepsOtherId(id: string): Budget -> bool {
    (b: Budget) => b.id != id
  }

  /** `budgets.filter(b => b.id !== id)`. */
  function DeleteById(bs: seq<Budget>, id: string): (r: seq<Budget>)
    ensures forall b :: b in r <==> b in bs && b.id != id
    ensures forall b :: multiset(r)[b] == if b.id != id then multiset(bs)[b] else 0
    ensures IsSubsequence(r, bs)
  {
    var p := KeepsOtherId(id);
    assert forall b :: multiset(Filter(bs, p))[b] == if p(b) then multiset(bs)[b] else 0 by {
      forall b {
        FilterCount(bs, p, b);
      }
    }
    assert forall b :: b in Filter(bs, p) <==> b in bs && p(b) by {
      forall b {
        FilterElement(bs, p, b);
      }
    }
    FilterSubsequence(bs, p);
    Filter(bs, p)
  }

  /** Deleting a budget just added with a fresh id gives the list back. */
  lemma AddThenDelete(bs: seq<Budget>, d: BudgetDraft, categories: seq<Category>, id: string)
    requires forall b :: b in bs ==> b.id != id
    ensures DeleteById(bs + [NewBudget(d, categories, id)], id) == bs
  {
    var p := KeepsOtherId(id);
    FilterConcat(bs, [NewBudget(d, categories, id)], p);
    FilterKeepsAll(bs, p);
    assert [NewBudget(d, categories, id)][1..] == [];
  }

  /** An edit that keeps the id, followed by deleting that id, leaves what
      deleting alone leaves. */
  lemma {:induction false} UpdateThenDelete(bs: seq<Budget>, id: string, patch: BudgetPatch)
    requires patch.id.None?
    ensures DeleteById(UpdateById(bs, id, patch), id) == DeleteById(bs, id)
  {
    if bs != [] {
      UpdateThenDelete(bs[1..], id, patch);
      var u := UpdateById(bs, id, patch);
      assert u[1..] == UpdateById(bs[1..], id, patch);
      assert Filter(u, KeepsOtherId(id)) == Filter(bs, KeepsOtherId(id));
    }
  }

  // ---------------------------------------------------------------------
  // The page state

  /** What the page reads from the `budgets` key: the stored list, or none
      when the key is absent. */
  function InitialBudgets(stored: Stored<seq<Budget>>): (r: seq<Budget>)
    requires !stored.Corrupt?
    ensures stored.Parsed? ==> r == stored.value
    ensures stored.Missing? ==> r == []
  {
    match stored
    case Parsed(bs) => bs
    case Missing => []
  }

  class BudgetPlanner {
    /** `currentMonth`: a full date, initially today, whose month is the one
        shown. */
    var cursor: Date
    var budgets: seq<Budget>
    /** The `budgets` key. */
    var stored: Stored<seq<Budget>>
    var draft: BudgetDraft
    var isAdding: bool
    var editingId: Option<string>

    /** The list on screen is the one stored, or empty when nothing is. */
    predicate Valid()
      reads this
    {
      1 <= cursor.month <= 12 && 1 <= cursor.day <= 31 && !stored.Corrupt?
      && (if stored.Parsed? then stored.value == budgets else budgets == [])
    }

    constructor (today: Date, stored: Stored<seq<Budget>>)
      requires ValidDate(today) && !stored.Corrupt?
      ensures Valid()
      ensures cursor == today && budgets == InitialBudgets(stored) && this.stored == stored
      ensures draft == BlankDraft && !isAdding && editingId.None?
    {
      cursor := today;
      budgets := InitialBudgets(stored);
      this.stored := stored;
      draft := BlankDraft;
      isAdding := false;
      editingId := None;
    }

    /** `changeMonth` as written: `setMonth` on a copy of the cursor date,
        which moves exactly one month from the 28th or earlier and may skip
        or stay on a month from the 29th on. */
    method ChangeMonth(dir: MonthCursor.Direction)
      requires Valid()
      modifies this
      ensures Valid()
      ensures cursor == MonthCursor.ChangeMonthAsWritten(old(cursor), dir)
      ensures old(cursor).day <= 28 ==> MonthOf(cursor) == MonthCursor.ChangeMonth(MonthOf(old(cursor)), dir)
      ensures budgets == old(budgets) && stored == old(stored) && draft == old(draft)
      ensures isAdding == old(isAdding) && editingId == old(editingId)
    {
      if cursor.day <= 28 {
        MonthCursor.ChangeMonthEarlyDays(cursor, dir);
        MonthIndexInjective(AddMonths(MonthOf(cursor), MonthCursor.Step(dir)), MonthCursor.ChangeMonth(MonthOf(cursor), dir));
      }
      cursor := MonthCursor.ChangeMonthAsWritten(cursor, dir);
    }

    /** The category select of the add form. */
    method ChooseCategory(category: string)
      modifies this
      ensures draft == old(draft).(category := category)
      ensures cursor == old(cursor) && budgets == old(budgets) && stored == old(stored)
      ensures isAdding == old(isAdding) && editingId == old(editingId)
    {
      draft := draft.(category := category);
    }

    /** The amount input of the add form. */
    method EnterAmount(text: string)
      modifies this
      ensures draft == old(draft).(amount := AmountInput(text))
      ensures cursor == old(cursor) && budgets == old(budgets) && stored == old(stored)
      ensures isAdding == old(isAdding) && editingId == old(editingId)
    {
      draft := draft.(amount := AmountInput(text));
    }

    /** `handleAddBudget`, with `id` the clock reading that becomes the id. */
    method AddBudget(categories: seq<Category>, id: string)
      requires Valid()
      modifies this
      ensures Valid()
      ensures CanAdd(old(draft)) ==>
                budgets == old(budgets) + [NewBudget(old(draft), categories, id)]
                && stored == Parsed(budgets) && draft == BlankDraft && !isAdding
      ensures !CanAdd(old(draft)) ==>
                budgets == old(budgets) && stored == old(stored) && draft == old(draft) && isAdding == old(isAdding)
      ensures cursor == old(cursor) && editingId == old(editingId)
    {
      if CanAdd(draft) {
        budgets := budgets + [NewBudget(draft, categories, id)];
        stored := Parsed(budgets);
        draft := BlankDraft;
        isAdding := false;
      }
    }

    /** The header button that shows or hides the add form. */
    method ToggleAdding()
      modifies this
      ensures isAdding == !old(isAdding)
      ensures cursor == old(cursor) && budgets == old(budgets) && stored == old(stored)
      ensures draft == old(draft) && editingId == old(editingId)
    {
      isAdding := !isAdding;
    }

    /** The edit button and the close buttons of the edit form. */
    method SetEditing(id: Option<string>)
      modifies this
      ensures editingId == id
      ensures cursor == old(cursor) && budgets == old(budgets) && stored == old(stored)
      ensures draft == old(draft) && isAdding == old(isAdding)
    {
      editingId := id;
    }

    /** `handleUpdateBudget`. */
    method UpdateBudget(id: string, patch: BudgetPatch)
      requires Valid()
      modifies this
      ensures Valid()
      ensures budgets == UpdateById(old(budgets), id, patch) && stored == Parsed(budgets)
      ensures editingId.None?
      ensures cursor == old(cursor) && draft == old(draft) && isAdding == old(isAdding)
    {
      budgets := UpdateById(budgets, id, patch);
      stored := Parsed(budgets);
      editingId := None;
    }

    /** `handleDeleteBudget`, with `confirmed` the answer to the prompt. */
    method DeleteBudget(id: string, confirmed: bool)
      requires Valid()
      modifies this
      ensures Valid()
      ensures confirmed ==> budgets == DeleteById(old(budgets), id) && stored == Parsed(budgets)
      ensures !confirmed ==> budgets == old(budgets) && stored == old(stored)
      ensures cursor == old(cursor) && draft == old(draft) && isAdding == old(isAdding) && editingId == old(editingId)
    {
      if confirmed {
        budgets := DeleteById(budgets, id);
        stored := Parsed(budgets);
      }
    }

    /** The "Create Budget" button of an unbudgeted category: the add form
        opens, filled with the category and the suggested limit. */
    method Suggest(e: Entry)
      modifies this
      ensures draft == BudgetDraft(e.key, SuggestedCap(e.total), FallbackColor, FallbackIcon) && isAdding
      ensures cursor == old(cursor) && budgets == old(budgets) && stored == old(stored) && editingId == old(editingId)
    {
      draft := BudgetDraft(e.key, SuggestedCap(e.total), FallbackColor, FallbackIcon);
      isAdding := true;
    }
  }
}
