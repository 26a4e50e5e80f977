/** The transaction and category store: `transactionsReducer`, the load
    effect that reads a signed-in user's data from the browser's key-value
    store (with the one-time seeding of the default categories), the effects
    that write the lists back, and the provider's add/update/delete helpers. */
module TransactionsContext {
  import opened Common
  import opened Dates
  import opened Records

  datatype State = State(
    transactions: seq<Transaction>,
    categories: seq<Category>,
    isLoading: bool,
    error: Option<string>)

  const InitialState: State := State([], [], false, None)

  const LoadFailed: string := "Failed to load transactions. Please try again."

  /** The reducer's actions, one constructor per action type; `Other` is an
      action with any other type tag. */
  datatype Action =
    | Fetched(transactions: seq<Transaction>)
    | Added(transaction: Transaction)
    | Updated(transaction: Transaction)
    | Deleted(id: string)
    | CategoriesFetched(categories: seq<Category>)
    | CategoryAdded(category: Category)
    | LoadingSet(loading: bool)
    | ErrorSet(error: Option<string>)
    | Other(tag: string)

  predicate IsTransactionAction(a: Action) {
    a.Fetched? || a.Added? || a.Updated? || a.Deleted?
  }

  predicate IsCategoryAction(a: Action) {
    a.CategoriesFetched? || a.CategoryAdded?
  }

  /** `transactions.map(x => x.id === t.id ? t : x)`. */
  function ReplaceById(ts: seq<Transaction>, t: Transaction): (r: seq<Transaction>)
    ensures |r| == |ts|
    ensures forall i :: 0 <= i < |ts| ==> r[i] == (if ts[i].id == t.id then t else ts[i])
    ensures (forall x :: x in ts ==> x.id != t.id) ==> r == ts
  {
    if ts == [] then []
    else [if ts[0].id == t.id then t else ts[0]] + ReplaceById(ts[1..], t)
  }

  /** How many entries carry `id`. */
  function CountId(ts: seq<Transaction>, id: string): nat {
    if ts == [] then 0 else (if ts[0].id == id then 1 else 0) + CountId(ts[1..], id)
  }

  /** `transactions.filter(x => x.id !== id)`: a subsequence that drops
      exactly the entries carrying `id`. */
  function RemoveById(ts: seq<Transaction>, id: string): (r: seq<Transaction>)
    ensures IsSubsequence(r, ts)
    ensures |r| + CountId(ts, id) == |ts|
    ensures forall x :: x in r <==> x in ts && x.id != id
    ensures (forall x :: x in ts ==> x.id != id) ==> r == ts
  {
    if ts == [] then []
    else
      var rest := RemoveById(ts[1..], id);
      assert forall x :: x in ts <==> x == ts[0] || x in ts[1..];
      if ts[0].id == id then rest
      else
        assert ([ts[0]] + rest)[1..] == rest;
        [ts[0]] + rest
  }

  /** `transactionsReducer`. */
  function Reduce(s: State, a: Action): (r: State)
    ensures IsTransactionAction(a) ==> r.categories == s.categories && r.error == s.error
    ensures IsCategoryAction(a) ==> r.transactions == s.transactions && r.isLoading == s.isLoading && r.error == s.error
    ensures a.Fetched? ==> r.transactions == a.transactions && !r.isLoading
    ensures a.Added? ==> |r.transactions| == |s.transactions| + 1
                         && r.transactions[0] == a.transaction && r.transactions[1..] == s.transactions
                         && r.isLoading == s.isLoading
    ensures a.Updated? ==> r.transactions == ReplaceById(s.transactions, a.transaction) && r.isLoading == s.isLoading
    ensures a.Deleted? ==> r.transactions == RemoveById(s.transactions, a.id) && r.isLoading == s.isLoading
    ensures a.CategoriesFetched? ==> r.categories == a.categories
    ensures a.CategoryAdded? ==> |r.categories| == |s.categories| + 1
                                 && r.categories[..|s.categories|] == s.categories
                                 && r.categories[|s.categories|] == a.category
    ensures a.LoadingSet? ==> r == s.(isLoading := a.loading)
    ensures a.ErrorSet? ==> r == s.(error := a.error, isLoading := false)
    ensures a.Other? ==> r == s
  {
    match a
    case Fetched(ts) => s.(transactions := ts, isLoading := false)
    case Added(t) => s.(transactions := [t] + s.transactions)
    case Updated(t) => s.(transactions := ReplaceById(s.transactions, t))
    case Deleted(id) => s.(transactions := RemoveById(s.transactions, id))
    case CategoriesFetched(cs) => s.(categories := cs)
    case CategoryAdded(c) => s.(categories := s.categories + [c])
    case LoadingSet(b) => s.(isLoading := b)
    case ErrorSet(e) => s.(error := e, isLoading := false)
    case Other(_) => s
  }

  /** Dispatching several actions in order. */
  function ReduceAll(s: State, acts: seq<Action>): State
    decreases |acts|
  {
    if acts == [] then s else ReduceAll(Reduce(s, acts[0]), acts[1..])
  }

  lemma ReduceAllShort(s: State, acts: seq<Action>)
    ensures |acts| == 1 ==> ReduceAll(s, acts) == Reduce(s, acts[0])
    ensures |acts| == 2 ==> ReduceAll(s, acts) == Reduce(Reduce(s, acts[0]), acts[1])
  {
    if |acts| == 2 {
      var rest := acts[1..];
      assert rest[0] == acts[1] && rest[1..] == [];
      assert ReduceAll(Reduce(s, acts[0]), rest) == ReduceAll(Reduce(Reduce(s, acts[0]), acts[1]), []);
    }
  }

  /** With a fresh id, adding a transaction and then deleting that id gives
      back the state before the add. */
  lemma AddThenDelete(s: State, draft: TransactionDraft, id: string)
    requires forall t :: t in s.transactions ==> t.id != id
    ensures Reduce(Reduce(s, Added(draft.WithId(id))), Deleted(id)) == s
  {
    var t := draft.WithId(id);
    var added := Reduce(s, Added(t));
    assert added.transactions == [t] + s.transactions;
  }

  // ---------------------------------------------------------------------
  // The default categories

  const DefaultCategories: seq<Category> := [
    Category("1", "Food & Dining", "#FF5630", "utensils", ExpenseOnly),
    Category("2", "Transportation", "#FFAB00", "car", ExpenseOnly),
    Category("3", "Housing", "#36B37E", "home", ExpenseOnly),
    Category("4", "Entertainment", "#6554C0", "film", ExpenseOnly),
    Category("5", "Shopping", "#00B8D9", "shopping-bag", ExpenseOnly),
    Category("6", "Health", "#FF8B00", "heartbeat", ExpenseOnly),
    Category("7", "Utilities", "#6B778C", "bolt", ExpenseOnly),
    Category("8", "Salary", "#36B37E", "wallet", IncomeOnly),
    Category("9", "Investments", "#00B8D9", "chart-line", IncomeOnly),
    Category("10", "Gifts", "#6554C0", "gift", IncomeOnly),
    Category("11", "Other Income", "#FF8B00", "money-bill", IncomeOnly)
  ]

  /** Eleven defaults with ids "1".."11": the first seven for expenses, the
      last four for income, no name used twice. */
  lemma DefaultCategoriesShape()
    ensures |DefaultCategories| == 11
    ensures forall i :: 0 <= i < 11 ==> DefaultCategories[i].id == DecimalString(i + 1)
    ensures forall i :: 0 <= i < 7 ==> DefaultCategories[i].catType == ExpenseOnly
    ensures forall i :: 7 <= i < 11 ==> DefaultCategories[i].catType == IncomeOnly
    ensures forall i, j :: 0 <= i < j < 11 ==> DefaultCategories[i].name != DefaultCategories[j].name
  {
    assert DecimalString(10) == "10" by {
      assert DecimalString(1) == "1";
      assert DecimalString(0) == "0";
    }
    assert DecimalString(11) == "11" by {
      assert DecimalString(1) == "1";
    }
    DefaultNamesDistinct();
  }

  /** The default names differ pairwise: by first letter, and by length
      where two share a first letter. */
  lemma DefaultNamesDistinct()
    ensures forall i, j :: 0 <= i < j < 11 ==> DefaultCategories[i].name != DefaultCategories[j].name
  {
    var names := seq(11, i requires 0 <= i < 11 => DefaultCategories[i].name);
    assert forall i :: 0 <= i < 11 ==> |names[i]| > 0;
    forall i, j | 0 <= i < j < 11
      ensures names[i] != names[j]
    {
      if names[i][0] == names[j][0] {
        assert |names[i]| != |names[j]|;
      }
    }
  }

  // ---------------------------------------------------------------------
  // Loading and saving

  /** The browser's key-value store as far as this store uses it: the
      `transactions_<id>` key of each user, and the shared `categories` key. */
  datatype Storage = Storage(transactions: map<string, Stored<seq<Transaction>>>, categories: Stored<seq<Category>>)

  function StoredFor(st: Storage, uid: string): Stored<seq<Transaction>> {
    if uid in st.transactions then st.transactions[uid] else Missing
  }

  /** The actions the load effect dispatches when the signed-in user becomes
      `user`. Unparsable stored text throws, and the handler reports
      `LoadFailed` after whatever was dispatched before the throw. */
  function LoadActions(user: Option<string>, st: Storage): seq<Action> {
    if user.None? then [Fetched([])]
    else
      match StoredFor(st, user.value)
      case Corrupt => [ErrorSet(Some(LoadFailed))]
      case stored =>
        var first := if stored.Parsed? then [Fetched(stored.value)] else [];
        match st.categories
        case Corrupt => first + [ErrorSet(Some(LoadFailed))]
        case Parsed(cs) => first + [CategoriesFetched(cs)]
        case Missing => first + [CategoriesFetched(DefaultCategories)]
  }

  /** The state after the load effect for `user`. */
  function Load(s: State, user: Option<string>, st: Storage): (r: State)
    ensures user.None? ==> r == s.(transactions := [], isLoading := false)
    ensures user.Some? && StoredFor(st, user.value).Corrupt? ==>
              r == s.(error := Some(LoadFailed), isLoading := false)
    ensures user.Some? && StoredFor(st, user.value).Parsed? ==>
              r.transactions == StoredFor(st, user.value).value && !r.isLoading
    ensures user.Some? && StoredFor(st, user.value).Missing? ==>
              r.transactions == s.transactions
    ensures user.Some? && !StoredFor(st, user.value).Corrupt? ==>
              match st.categories
              case Parsed(cs) => r.categories == cs && r.error == s.error
              case Missing => r.categories == DefaultCategories && r.error == s.error
              case Corrupt => r.categories == s.categories && r.error == Some(LoadFailed) && !r.isLoading
  {
    var acts := LoadActions(user, st);
    ReduceAllShort(s, acts);
    ReduceAll(s, acts)
  }

  /** What the load effect writes itself: the default categories, when a
      user's load reaches an empty `categories` key. */
  function SeedStorage(user: Option<string>, st: Storage): (r: Storage)
    ensures r.transactions == st.transactions
    ensures r.categories == st.categories || (st.categories.Missing? && r.categories == Parsed(DefaultCategories))
    ensures user.Some? && !StoredFor(st, user.value).Corrupt? && !st.categories.Corrupt? ==>
              r.categories.Parsed? && r.categories.value == Load(InitialState, user, st).categories
  {
    if user.Some? && !StoredFor(st, user.value).Corrupt? && st.categories.Missing? then
      st.(categories := Parsed(DefaultCategories))
    else st
  }

  /** The two save effects as written: the signed-in user's transactions,
      and the categories whether or not anyone is signed in. */
  function PersistAsWritten(st: Storage, user: Option<string>, s: State): (r: Storage)
    ensures r.categories == Parsed(s.categories)
    ensures user.Some? ==> StoredFor(r, user.value) == Parsed(s.transactions)
    ensures user.None? ==> r.transactions == st.transactions
    ensures forall v :: user != Some(v) ==> StoredFor(r, v) == StoredFor(st, v)
  {
    var txs := if user.Some? then st.transactions[user.value := Parsed(s.transactions)] else st.transactions;
    Storage(txs, Parsed(s.categories))
  }

  /** The save effects with the categories guarded like the transactions:
      nothing is written while no user is signed in. */
  function Persist(st: Storage, user: Option<string>, s: State): (r: Storage)
    ensures user.None? ==> r == st
    ensures user.Some? ==> (r.categories == Parsed(s.categories)
                            && StoredFor(r, user.value) == Parsed(s.transactions)
                            && forall u :: u != user.value ==> StoredFor(r, u) == StoredFor(st, u))
  {
    if user.Some? then Storage(st.transactions[user.value := Parsed(s.transactions)], Parsed(s.categories))
    else st
  }

  /** As written, mounting with no user stores the empty initial category
      list, so the next sign-in reads back an empty list: neither the stored
      categories nor the defaults ever reach the state. */
  lemma {:induction false} MountThenSignInAsWritten(st: Storage, uid: string)
    requires !StoredFor(st, uid).Corrupt?
    ensures var s0 := Load(InitialState, None, st);
            var mounted := PersistAsWritten(SeedStorage(None, st), None, s0);
            Load(s0, Some(uid), mounted).categories == []
  {
    var s0 := Load(InitialState, None, st);
    var mounted := PersistAsWritten(SeedStorage(None, st), None, s0);
    assert s0 == InitialState;
    assert StoredFor(mounted, uid) == StoredFor(st, uid);
  }

  /** On a first visit (nothing stored) the defaults are never seeded. */
  lemma FirstVisitHasNoCategories(uid: string)
    ensures var st := Storage(map[], Missing);
            var s0 := Load(InitialState, None, st);
            var mounted := PersistAsWritten(SeedStorage(None, st), None, s0);
            Load(s0, Some(uid), mounted).categories != DefaultCategories
  {
    MountThenSignInAsWritten(Storage(map[], Missing), uid);
    DefaultCategoriesShape();
  }

  /** With the guarded save effects, mounting leaves the store alone, and
      signing in reads the user's transactions and the stored categories,
      or seeds the defaults when none are stored. */
  lemma {:induction false} MountThenSignIn(st: Storage, uid: string)
    requires !StoredFor(st, uid).Corrupt? && !st.categories.Corrupt?
    ensures var s0 := Load(InitialState, None, st);
            var mounted := Persist(SeedStorage(None, st), None, s0);
            var s1 := Load(s0, Some(uid), mounted);
            mounted == st
            && s1.transactions == (if StoredFor(st, uid).Parsed? then StoredFor(st, uid).value else [])
            && s1.categories == (if st.categories.Parsed? then st.categories.value else DefaultCategories)
            && s1.error == None
  {
    var s0 := Load(InitialState, None, st);
    assert s0 == InitialState;
  }

  /** Signing out and then in as `uid` shows exactly `uid`'s stored list (or
      nothing), whatever was on screen before. */
  lemma {:induction false} SignOutThenInIsolated(s: State, st: Storage, st2: Storage, uid: string)
    requires !StoredFor(st2, uid).Corrupt?
    ensures var out := Load(s, None, st);
            Load(out, Some(uid), st2).transactions
              == (if StoredFor(st2, uid).Parsed? then StoredFor(st2, uid).value else [])
  {
    var out := Load(s, None, st);
    assert out.transactions == [];
  }

  // ---------------------------------------------------------------------
  // The provider

  class TransactionsProvider {
    var state: State
    /** The id of the signed-in user, if any. */
    var user: Option<string>
    var storage: Storage

    /** What the save effects as written keep true: the store holds the
        categories on screen, and, while a user is signed in, that user's
        list on screen. */
    predicate Synced()
      reads this
    {
      storage.categories == Parsed(state.categories)
      && (user.Some? ==> StoredFor(storage, user.value) == Parsed(state.transactions))
    }

    /** Mounting with no user signed in: the load effect empties the list,
        and the unguarded categories effect stores the empty initial list
        over whatever categories were stored. */
    constructor (st: Storage)
      ensures state == InitialState && user == None
      ensures storage.transactions == st.transactions && storage.categories == Parsed([])
      ensures Synced()
    {
      var s := Load(InitialState, None, st);
      state := s;
      user := None;
      storage := PersistAsWritten(SeedStorage(None, st), None, s);
    }

    /** The signed-in user changes to `u`: the load effect, then the save
        effects. */
    method SetUser(u: Option<string>)
      modifies this
      ensures user == u
      ensures state == Load(old(state), u, old(storage))
      ensures storage == PersistAsWritten(SeedStorage(u, old(storage)), u, state)
      ensures forall v :: u != Some(v) ==> StoredFor(storage, v) == StoredFor(old(storage), v)
      ensures Synced()
    {
      var s := Load(state, u, storage);
      var seeded := SeedStorage(u, storage);
      state := s;
      user := u;
      storage := PersistAsWritten(seeded, u, s);
    }

    /** `addTransaction`: the draft with the new id goes first. */
    method AddTransaction(draft: TransactionDraft, id: string)
      modifies this
      ensures state == Reduce(old(state), Added(draft.WithId(id)))
      ensures user == old(user) && storage == PersistAsWritten(old(storage), user, state)
      ensures forall v :: user != Some(v) ==> StoredFor(storage, v) == StoredFor(old(storage), v)
      ensures Synced()
    {
      state := Reduce(state, Added(draft.WithId(id)));
      storage := PersistAsWritten(storage, user, state);
    }

    /** `updateTransaction`. */
    method UpdateTransaction(t: Transaction)
      modifies this
      ensures state == Reduce(old(state), Updated(t))
      ensures user == old(user) && storage == PersistAsWritten(old(storage), user, state)
      ensures forall v :: user != Some(v) ==> StoredFor(storage, v) == StoredFor(old(storage), v)
      ensures Synced()
    {
      state := Reduce(state, Updated(t));
      storage := PersistAsWritten(storage, user, state);
    }

    /** `deleteTransaction`. */
    method DeleteTransaction(id: string)
      modifies this
      ensures state == Reduce(old(state), Deleted(id))
      ensures user == old(user) && storage == PersistAsWritten(old(storage), user, state)
      ensures forall v :: user != Some(v) ==> StoredFor(storage, v) == StoredFor(old(storage), v)
      ensures Synced()
    {
      state := Reduce(state, Deleted(id));
      storage := PersistAsWritten(storage, user, state);
    }

    /** `addCategory`: the draft with the new id goes last. */
    method AddCategory(draft: CategoryDraft, id: string)
      modifies this
      ensures state == Reduce(old(state), CategoryAdded(draft.WithId(id)))
      ensures user == old(user) && storage == PersistAsWritten(old(storage), user, state)
      ensures forall v :: user != Some(v) ==> StoredFor(storage, v) == StoredFor(old(storage), v)
      ensures Synced()
    {
      state := Reduce(state, CategoryAdded(draft.WithId(id)));
      storage := PersistAsWritten(storage, user, state);
    }
  }
}
