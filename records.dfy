/** The records the stores hold: transactions and categories. */
module Records {
  import opened Common
  import opened Dates
  import opened Amounts
  import opened Folds

  datatype TxType = Income | Expense

  /** The transaction types a category may be chosen for. */
  datatype CategoryType = IncomeOnly | ExpenseOnly | Both

  /** `date` is the text the form stored, normally YYYY-MM-DD. */
  datatype Transaction = Transaction(
    id: string,
    amount: Amount,
    description: string,
    category: string,
    date: string,
    txType: TxType)

  /** A transaction before the store assigns it an id (`Omit<Transaction, 'id'>`). */
  datatype TransactionDraft = TransactionDraft(
    amount: Amount,
    description: string,
    category: string,
    date: string,
    txType: TxType)
  {
    function WithId(id: string): (t: Transaction)
      ensures t.id == id && DraftOf(t) == this
    {
      Transaction(id, amount, description, category, date, txType)
    }
  }

  datatype Category = Category(id: string, name: string, color: string, icon: string, catType: CategoryType)

  /** A category before the store assigns it an id (`Omit<Category, 'id'>`). */
  datatype CategoryDraft = CategoryDraft(name: string, color: string, icon: string, catType: CategoryType)
  {
    function WithId(id: string): (c: Category)
      ensures c.id == id && c.name == name && c.color == color && c.icon == icon && c.catType == catType
    {
      Category(id, name, color, icon, catType)
    }
  }

  /** The fields of a transaction other than its id. */
  function DraftOf(t: Transaction): TransactionDraft {
    TransactionDraft(t.amount, t.description, t.category, t.date, t.txType)
  }

  function TxCategory(t: Transaction): string {
    t.category
  }

  function IsOfType(ty: TxType): Transaction -> bool {
    (t: Transaction) => t.txType == ty
  }

  /** `transactions.filter(t => t.type === ty)`. */
  function OfType(ts: seq<Transaction>, ty: TxType): (r: seq<Transaction>)
    ensures |r| <= |ts|
    ensures forall t :: t in r <==> t in ts && t.txType == ty
    ensures forall t :: multiset(r)[t] == if t.txType == ty then multiset(ts)[t] else 0
  {
    var r := Filter(ts, IsOfType(ty));
    assert forall t :: multiset(r)[t] == if t.txType == ty then multiset(ts)[t] else 0 by {
      forall t {
        FilterCount(ts, IsOfType(ty), t);
      }
    }
    assert forall t :: t in r <==> t in ts && t.txType == ty by {
      forall t {
        FilterElement(ts, IsOfType(ty), t);
      }
    }
    r
  }

  /** Every transaction is income or expense, so the two kinds split any sum. */
  lemma IncomeExpenseSplit(ts: seq<Transaction>, f: Transaction -> real)
    ensures SumOf(OfType(ts, Income), f) + SumOf(OfType(ts, Expense), f) == SumOf(ts, f)
  {
    FilterSplit(ts, IsOfType(Income), IsOfType(Expense), f);
  }

  /** The transaction's date text parses to a date inside `w` (an
      unparsable date is never inside a window). */
  predicate DatedIn(t: Transaction, w: Window) {
    ParseIso(t.date).Some? && InWindow(ParseIso(t.date).value, w)
  }

  function DatedInFn(w: Window): Transaction -> bool {
    (t: Transaction) => DatedIn(t, w)
  }

  /** `transactions.filter(t => isWithinInterval(parseISO(t.date), w))`. */
  function DatedWithin(ts: seq<Transaction>, w: Window): (r: seq<Transaction>)
    ensures forall t :: t in r <==> t in ts && DatedIn(t, w)
    ensures forall t :: multiset(r)[t] == if DatedIn(t, w) then multiset(ts)[t] else 0
    ensures IsSubsequence(r, ts)
  {
    var r := Filter(ts, DatedInFn(w));
    assert forall t :: multiset(r)[t] == if DatedIn(t, w) then multiset(ts)[t] else 0 by {
      forall t {
        FilterCount(ts, DatedInFn(w), t);
      }
    }
    assert forall t :: t in r <==> t in ts && DatedIn(t, w) by {
      forall t {
        FilterElement(ts, DatedInFn(w), t);
      }
    }
    FilterSubsequence(ts, DatedInFn(w));
    r
  }

  /** `new Date(t.date).getTime()` as an order key; an unparsable date (NaN
      in the source) is given a key below every date's. */
  function TxTime(t: Transaction): real {
    match ParseIso(t.date)
    case Some(d) => DateKey(d) as real
    case None => -1.0
  }

  /** Every amount is already a number (the shape the pages that add with
      `+` rely on). */
  predicate AllNumeric(ts: seq<Transaction>) {
    forall i :: 0 <= i < |ts| ==> ts[i].amount.Num?
  }

  /** A list drawn from an all-numeric list is all-numeric. */
  lemma AllNumericWithin(r: seq<Transaction>, ts: seq<Transaction>)
    requires AllNumeric(ts)
    requires forall t :: t in r ==> t in ts
    ensures AllNumeric(r)
  {
    forall i | 0 <= i < |r| ensures r[i].amount.Num? {
      assert r[i] in ts;
      var k :| 0 <= k < |ts| && ts[k] == r[i];
    }
  }

  /** The number the pages that add with `+` see; only meaningful on lists
      where `AllNumeric` holds, which those pages require. */
  function NumericAmount(t: Transaction): real {
    match t.amount
    case Num(v) => v
    case Text(_) => 0.0
  }

  /** A category of this type may be chosen for a transaction of that kind. */
  predicate Allows(ct: CategoryType, ty: TxType) {
    ct == Both || (ct == IncomeOnly && ty == Income) || (ct == ExpenseOnly && ty == Expense)
  }

  function AllowsFn(ty: TxType): Category -> bool {
    (c: Category) => Allows(c.catType, ty)
  }

  /** `categories.filter(c => c.type === 'both' || c.type === ty)`. */
  function CategoriesFor(cs: seq<Category>, ty: TxType): (r: seq<Category>)
    ensures forall c :: c in r <==> c in cs && Allows(c.catType, ty)
    ensures forall c :: multiset(r)[c] == if Allows(c.catType, ty) then multiset(cs)[c] else 0
    ensures IsSubsequence(r, cs)
  {
    var p := AllowsFn(ty);
    assert forall c :: multiset(Filter(cs, p))[c] == if p(c) then multiset(cs)[c] else 0 by {
      forall c {
        FilterCount(cs, p, c);
      }
    }
    assert forall c :: c in Filter(cs, p) <==> c in cs && p(c) by {
      forall c {
        FilterElement(cs, p, c);
      }
    }
    FilterSubsequence(cs, p);
    Filter(cs, p)
  }

  /** `categories.find(c => c.name === name)`. */
  function FindCategory(cs: seq<Category>, name: string): (r: Option<Category>)
    ensures r.Some? ==> r.value in cs && r.value.name == name
    ensures r.None? <==> forall c :: c in cs ==> c.name != name
    ensures r.Some? ==> exists i :: 0 <= i < |cs| && cs[i] == r.value && forall j :: 0 <= j < i ==> cs[j].name != name
  {
    if cs == [] then None
    else if cs[0].name == name then Some(cs[0])
    else
      var r := FindCategory(cs[1..], name);
      if r.Some? then
        var i :| 0 <= i < |cs[1..]| && cs[1..][i] == r.value && forall j :: 0 <= j < i ==> cs[1..][j].name != name;
        assert cs[i + 1] == r.value && forall j :: 0 <= j < i + 1 ==> cs[j].name != name;
        r
      else r
  }
}
