/** The category section of the settings page: adding a category through
    the store, and the two lists that show the expense and the income
    categories. */
module SettingsPage {
  import opened Common
  import opened Records
  import opened Folds

  const BlankCategory: CategoryDraft := CategoryDraft("", "#3366FF", "tag", ExpenseOnly)

  /** The category form: the draft and whether it is open. */
  datatype CategoryForm = CategoryForm(draft: CategoryDraft, isAdding: bool)

  /** What `handleAddCategory` does: the draft it passes to `addCategory`, if
      any, and the form afterwards. */
  datatype AddStep = AddStep(call: Option<CategoryDraft>, form: CategoryForm)

  /** `handleAddCategory`: with a name, the draft goes to the store and the
      form resets and closes; without one, nothing happens. */
  function HandleAddCategory(f: CategoryForm): (r: AddStep)
    ensures r.call.Some? <==> f.draft.name != ""
    ensures r.call.Some? ==> r.call.value == f.draft && r.form == CategoryForm(BlankCategory, false)
    ensures r.call.None? ==> r.form == f
  {
    if f.draft.name != "" then AddStep(Some(f.draft), CategoryForm(BlankCategory, false))
    else AddStep(None, f)
  }

  /** The expense list. */
  function ExpenseList(cs: seq<Category>): (r: seq<Category>)
    ensures forall c :: c in r <==> c in cs && (c.catType == ExpenseOnly || c.catType == Both)
    ensures forall c :: multiset(r)[c] == if c.catType == ExpenseOnly || c.catType == Both then multiset(cs)[c] else 0
    ensures IsSubsequence(r, cs)
  {
    CategoriesFor(cs, Expense)
  }

  /** The income list. */
  function IncomeList(cs: seq<Category>): (r: seq<Category>)
    ensures forall c :: c in r <==> c in cs && (c.catType == IncomeOnly || c.catType == Both)
    ensures forall c :: multiset(r)[c] == if c.catType == IncomeOnly || c.catType == Both then multiset(cs)[c] else 0
    ensures IsSubsequence(r, cs)
  {
    CategoriesFor(cs, Income)
  }

  /** Every category shows in at least one list; exactly the 'both'
      categories show in both. */
  lemma ListsCover(cs: seq<Category>, c: Category)
    requires c in cs
    ensures c in ExpenseList(cs) || c in IncomeList(cs)
    ensures c in ExpenseList(cs) && c in IncomeList(cs) <==> c.catType == Both
  {
  }

  function IsBoth(c: Category): bool {
    c.catType == Both
  }

  /** The two lists together hold every category once, and the 'both'
      categories twice. */
  lemma {:induction false} ListSizes(cs: seq<Category>)
    ensures |ExpenseList(cs)| + |IncomeList(cs)| == |cs| + |Filter(cs, IsBoth)|
  {
    if cs != [] {
      ListSizes(cs[1..]);
    }
  }

  /** A category added from the form shows in the expense list unless it is
      for income only, and in the income list unless it is for expenses only. */
  lemma AddedCategoryListed(f: CategoryForm, cs: seq<Category>, id: string)
    requires HandleAddCategory(f).call.Some?
    ensures var c := HandleAddCategory(f).call.value.WithId(id);
            (c in ExpenseList(cs + [c]) <==> c.catType != IncomeOnly)
            && (c in IncomeList(cs + [c]) <==> c.catType != ExpenseOnly)
  {
    var c := HandleAddCategory(f).call.value.WithId(id);
    assert c in cs + [c];
  }
}
