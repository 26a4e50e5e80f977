/** The transaction list: the search, category and type filters, the
    newest-first order, the reset of the filters, and whether the modal
    edits a held transaction or adds a new one. */
module TransactionList {
  import opened Common
  import opened Dates
  import opened Records
  import opened Folds
  import opened Sorting

  // ---------------------------------------------------------------------
  // Search text

  /** `toLowerCase` on one character, for the ASCII letters. */
  function LowerChar(c: char): (r: char)
    ensures 'A' <= c <= 'Z' ==> r as int == c as int + 32
    ensures !('A' <= c <= 'Z') ==> r == c
  {
    if 'A' <= c <= 'Z' then (c as int + 32) as char else c
  }

  function Lower(s: string): (r: string)
    ensures |r| == |s|
    ensures forall i :: 0 <= i < |s| ==> r[i] == LowerChar(s[i])
  {
    seq(|s|, (i: int) requires 0 <= i < |s| => LowerChar(s[i]))
  }

  /** Lowering twice is lowering once. */
  lemma LowerIdempotent(s: string)
    ensures Lower(Lower(s)) == Lower(s)
  {
  }

  /** `sub` occurs in `s` starting at position `i`. */
  predicate OccursAt(s: string, sub: string, i: int) {
    0 <= i && i + |sub| <= |s| && s[i..i + |sub|] == sub
  }

  /** `s.includes(sub)`. */
  predicate Includes(s: string, sub: string) {
    exists i :: 0 <= i <= |s| && OccursAt(s, sub, i)
  }

  lemma IncludesEmpty(s: string)
    ensures Includes(s, "")
  {
    assert OccursAt(s, "", 0);
  }

  // ---------------------------------------------------------------------
  // Filters

  /** `typeFilter`: 'all', or one kind. */
  datatype TypeFilter = AllTypes | OfKind(kind: TxType)

  datatype Filters = Filters(search: string, category: string, typeFilter: TypeFilter)

  const DefaultFilters: Filters := Filters("", "", AllTypes)

  /** The filter callback: the description contains the search term, ignoring
      case; the category filter is empty or names the category; the type
      filter is 'all' or the transaction's kind. */
  predicate Matches(t: Transaction, f: Filters) {
    Includes(Lower(t.description), Lower(f.search))
    && (f.category == "" || t.category == f.category)
    && (f.typeFilter == AllTypes || t.txType == f.typeFilter.kind)
  }

  function MatchesFn(f: Filters): Transaction -> bool {
    (t: Transaction) => Matches(t, f)
  }

  /** `filteredTransactions`: the matching transactions, newest first. */
  function Listed(ts: seq<Transaction>, f: Filters): (r: seq<Transaction>)
    ensures forall t :: t in r <==> t in ts && Matches(t, f)
    ensures multiset(r) <= multiset(ts)
    ensures forall t :: multiset(r)[t] == if Matches(t, f) then multiset(ts)[t] else 0
    ensures SortedDesc(r, TxTime)
  {
    var kept := Filter(ts, MatchesFn(f));
    forall t ensures multiset(kept)[t] == if Matches(t, f) then multiset(ts)[t] else 0 {
      FilterCount(ts, MatchesFn(f), t);
    }
    forall t ensures t in kept <==> t in ts && Matches(t, f) {
      FilterElement(ts, MatchesFn(f), t);
    }
    forall t ensures t in SortDesc(kept, TxTime) <==> t in kept {
      SortElement(kept, TxTime, t);
    }
    SortDesc(kept, TxTime)
  }

  /** The search ignores the case of the term as well as of the description. */
  lemma SearchIgnoresCase(t: Transaction, f: Filters)
    ensures Matches(t, f.(search := Lower(f.search))) == Matches(t, f)
  {
    LowerIdempotent(f.search);
  }

  /** With the default filters every transaction is listed, each as often as
      it occurs. */
  lemma DefaultListsAll(ts: seq<Transaction>)
    ensures multiset(Listed(ts, DefaultFilters)) == multiset(ts)
  {
    forall t | t in ts ensures MatchesFn(DefaultFilters)(t) {
      IncludesEmpty(Lower(t.description));
      assert Lower("") == "";
    }
    FilterKeepsAll(ts, MatchesFn(DefaultFilters));
  }

  /** When every date is a YYYY-MM-DD date, the list runs from the latest
      date backwards. */
  lemma ListedChronological(ts: seq<Transaction>, f: Filters, i: int, j: int)
    requires forall t :: t in ts ==> ParseIso(t.date).Some?
    requires 0 <= i < j < |Listed(ts, f)|
    ensures var r := Listed(ts, f);
            NotAfter(ParseIso(r[j].date).value, ParseIso(r[i].date).value)
  {
    var r := Listed(ts, f);
    assert r[i] in r && r[j] in r;
    DateKeyMonotone(ParseIso(r[j].date).value, ParseIso(r[i].date).value);
  }

  // ---------------------------------------------------------------------
  // The modal

  /** `editingTransaction` while the modal is open: the empty object the add
      button holds, or the transaction being edited. */
  datatype Held = Blank | Existing(t: Transaction)

  /** `Object.keys(held).length`: a transaction has its six fields. */
  function KeyCount(h: Held): nat {
    match h
    case Blank => 0
    case Existing(_) => 6
  }

  /** The `transaction` prop the form gets: the held transaction when the
      held object has more than one key. */
  function FormTransaction(h: Held): (r: Option<Transaction>)
    ensures r.Some? <==> KeyCount(h) > 1
    ensures r.Some? <==> h.Existing?
    ensures h.Existing? ==> r == Some(h.t)
  {
    match h
    case Existing(t) => if KeyCount(h) > 1 then Some(t) else None
    case Blank => None
  }

  /** The modal's title word. */
  function Title(h: Held): (s: string)
    ensures s == "Edit" <==> FormTransaction(h).Some?
    ensures s == "Add" <==> FormTransaction(h).None?
  {
    if KeyCount(h) > 1 then "Edit" else "Add"
  }

  /** Whether the modal is on screen, as written: with no transactions the
      component returns the empty state early, and that branch renders no
      modal, so a held object shows nothing. */
  function ModalShownAsWritten(count: nat, held: Option<Held>): bool {
    count > 0 && held.Some?
  }

  /** As written, the empty state's "Add Transaction" button opens nothing:
      the held object becomes the empty one, but the modal is on screen only
      once there is a transaction. */
  lemma EmptyStateAddAsWritten(count: nat)
    ensures ModalShownAsWritten(count, Some(Blank)) <==> count > 0
    ensures !ModalShownAsWritten(0, Some(Blank))
  {
  }

  /** The modal rendered in both branches: on screen whenever an object is
      held. */
  function ModalShown(held: Option<Held>): bool {
    held.Some?
  }

  /** Intended: the empty state's button opens the add form whatever the
      number of transactions. */
  lemma EmptyStateAdd(count: nat)
    ensures ModalShown(Some(Blank)) && Title(Blank) == "Add" && FormTransaction(Blank).None?
    ensures ModalShown(Some(Blank)) != ModalShownAsWritten(count, Some(Blank)) <==> count == 0
  {
  }

  class TransactionListView {
    var filters: Filters
    /** `editingTransaction`: `None` while the modal is closed. */
    var held: Option<Held>

    constructor ()
      ensures filters == DefaultFilters && held.None?
    {
      filters := DefaultFilters;
      held := None;
    }

    method SetSearch(term: string)
      modifies this
      ensures filters == old(filters).(search := term) && held == old(held)
    {
      filters := filters.(search := term);
    }

    method SetCategoryFilter(category: string)
      modifies this
      ensures filters == old(filters).(category := category) && held == old(held)
    {
      filters := filters.(category := category);
    }

    method SetTypeFilter(tf: TypeFilter)
      modifies this
      ensures filters == old(filters).(typeFilter := tf) && held == old(held)
    {
      filters := filters.(typeFilter := tf);
    }

    /** `resetFilters`. */
    method ResetFilters()
      modifies this
      ensures filters == DefaultFilters && held == old(held)
    {
      filters := DefaultFilters;
    }

    /** `openTransactionForm`: the held object becomes the empty one (add
        mode). Whether the modal is then on screen depends on the number of
        transactions: see `ModalShownAsWritten`. */
    method OpenForm()
      modifies this
      ensures held == Some(Blank) && filters == old(filters)
      ensures FormTransaction(held.value).None? && Title(held.value) == "Add"
      ensures ModalShown(held) && !ModalShownAsWritten(0, held)
    {
      held := Some(Blank);
    }

    /** `handleEdit`. */
    method Edit(t: Transaction)
      modifies this
      ensures held == Some(Existing(t)) && filters == old(filters)
      ensures FormTransaction(held.value) == Some(t)
    {
      held := Some(Existing(t));
    }

    /** The modal's close button and the form's `onClose`. */
    method CloseForm()
      modifies this
      ensures held.None? && filters == old(filters)
    {
      held := None;
    }
  }
}
