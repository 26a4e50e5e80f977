/** The add/edit form for a transaction: its initial values, the category
    choices for the selected kind, the field rules checked before submit,
    and the choice between updating the edited transaction and adding a new
    one. */
module TransactionForm {
  import opened Common
  import opened Dates
  import opened Amounts
  import opened Records
  import TransactionsContext

  /** `transaction?.type || 'expense'`. */
  function InitialType(original: Option<Transaction>): (ty: TxType)
    ensures original.Some? ==> ty == original.value.txType
    ensures original.None? ==> ty == Expense
  {
    match original
    case Some(t) => t.txType
    case None => Expense
  }

  /** `defaultValues`: the edited transaction's fields, or an empty form dated
      `todayUtc`, the clock's date in UTC (`toISOString().split('T')[0]`). */
  function Defaults(original: Option<Transaction>, todayUtc: Date): (d: TransactionDraft)
    requires ValidDate(todayUtc)
    ensures original.Some? ==> d == DraftOf(original.value)
    ensures original.None? ==> d.amount == Num(0.0) && d.description == "" && d.category == ""
                               && d.txType == Expense && ParseIso(d.date) == Some(todayUtc)
  {
    match original
    case Some(t) => DraftOf(t)
    case None =>
      ParseFormat(todayUtc);
      TransactionDraft(Num(0.0), "", "", FormatIso(todayUtc), Expense)
  }

  // ---------------------------------------------------------------------
  // Field rules

  const AmountRequired: string := "Amount is required"
  const AmountTooSmall: string := "Amount must be greater than 0"
  const DescriptionRequired: string := "Description is required"
  const DescriptionTooLong: string := "Description is too long"
  const CategoryRequired: string := "Category is required"
  const DateRequired: string := "Date is required"

  /** The amount rules: required, and at least 0.01. The text of the number
      input is compared as a number; text that is not one (NaN) fails no
      comparison. */
  function AmountError(a: Amount): (e: Option<string>)
    ensures a == Text("") ==> e == Some(AmountRequired)
    ensures a.Num? ==> (e.Some? <==> a.value < 0.01) && (e.Some? ==> e == Some(AmountTooSmall))
    ensures a.Text? && a.text != "" ==>
              (e.Some? <==> ParseFloat(a.text).Some? && ParseFloat(a.text).value < 0.01)
              && (e.Some? ==> e == Some(AmountTooSmall))
  {
    match a
    case Num(v) => if v < 0.01 then Some(AmountTooSmall) else None
    case Text(s) =>
      if s == "" then Some(AmountRequired)
      else
        match ParseFloat(s)
        case Some(v) => if v < 0.01 then Some(AmountTooSmall) else None
        case None => None
  }

  /** The minimum applies to fractions without a whole part too: ".001" is
      refused, "12.50" passes. */
  lemma AmountFractions()
    ensures AmountError(Text(".001")) == Some(AmountTooSmall)
    ensures AmountError(Text("12.50")) == None
  {
    ParseFloatThousandth();
    ParseFloatCents();
  }

  /** The number input's `step="0.01"`. It has no `min` attribute, so the
      step base is 0 and a value must be a whole number of hundredths. */
  predicate OnCentStep(v: real) {
    (v * 100.0).Floor as real == v * 100.0
  }

  /** The browser's own check of the number input, made before the submit
      event reaches `handleSubmit`: non-empty text that is not a number
      (bad input), or a number off the 0.01 step, stops the submission. The
      rules of `register` are not attributes, so the browser checks nothing
      else. */
  function InputBlocked(a: Amount): (b: bool)
    ensures a == Text("") ==> !b
    ensures a.Num? ==> (b <==> !OnCentStep(a.value))
    ensures a.Text? && a.text != "" ==> (b <==> ParseFloat(a.text).None? || !OnCentStep(ParseFloat(a.text).value))
  {
    match a
    case Num(v) => !OnCentStep(v)
    case Text(t) =>
      if t == "" then false
      else
        match ParseFloat(t)
        case Some(v) => !OnCentStep(v)
        case None => true
  }

  /** A decimal numeral with at most two fraction digits is on the step. */
  lemma CentNumeralOnStep(whole: string, frac: string)
    requires AllDigits(whole) && AllDigits(frac) && |frac| <= 2
    ensures OnCentStep(NumeralValue(whole, frac))
  {
    ScaledOnStep(DigitsValue(whole), DigitsValue(frac), |frac|);
  }

  /** `w` plus `f` over 10^k is a whole number of hundredths when k <= 2. */
  lemma ScaledOnStep(w: nat, f: nat, k: nat)
    requires k <= 2
    ensures OnCentStep(w as real + f as real / Pow10(k) as real)
  {
    var p := Pow10(k) as real;
    var n: int;
    if k == 0 {
      assert p == 1.0;
      n := w * 100 + f * 100;
    } else if k == 1 {
      assert p == 10.0;
      n := w * 100 + f * 10;
    } else {
      assert Pow10(k) == 10 * Pow10(1) == 100;
      assert p == 100.0;
      n := w * 100 + f;
    }
    CentsOf(w as real, f as real, p, n);
  }

  lemma CentsOf(w: real, f: real, p: real, n: int)
    requires (p == 1.0 && n as real == w * 100.0 + f * 100.0)
          || (p == 10.0 && n as real == w * 100.0 + f * 10.0)
          || (p == 100.0 && n as real == w * 100.0 + f)
    ensures OnCentStep(w + f / p)
  {
    assert (w + f / p) * 100.0 == n as real;
  }

  /** The browser stops ".001" before any rule of the form runs, so the
      minimum's message never shows for it. */
  lemma ThousandthBlocked()
    ensures InputBlocked(Text(".001"))
  {
    ParseFloatThousandth();
    assert (0.001 * 100.0).Floor == 0;
  }

  /** A third fraction digit puts "12.555" off the step. */
  lemma HalfCentBlocked()
    ensures InputBlocked(Text("12.555"))
  {
    ParseFloatThreeDigits();
    assert (12.555 * 100.0).Floor == 1255;
  }

  /** Text that is not a number is bad input. */
  lemma BadInputBlocked()
    ensures InputBlocked(Text("abc"))
  {
    assert DotIndex("abc") == 3;
  }

  /** Whole cents pass the browser: "12.50" and ".5" reach the rules. */
  lemma CentsPass()
    ensures !InputBlocked(Text("12.50")) && !InputBlocked(Text(".5"))
  {
    ParseFloatCents();
    assert (12.5 * 100.0).Floor == 1250;
    ParseFloatLeadingPoint();
    assert (0.5 * 100.0).Floor == 50;
  }

  /** The description rules: required, at most 100 characters. */
  function DescriptionError(s: string): (e: Option<string>)
    ensures e.None? <==> 0 < |s| <= 100
    ensures s == "" ==> e == Some(DescriptionRequired)
    ensures |s| > 100 ==> e == Some(DescriptionTooLong)
  {
    if s == "" then Some(DescriptionRequired)
    else if |s| > 100 then Some(DescriptionTooLong)
    else None
  }

  /** A rule that only asks for a value. */
  function RequiredError(s: string, message: string): (e: Option<string>)
    ensures e.None? <==> s != ""
    ensures e.Some? ==> e.value == message
  {
    if s == "" then Some(message) else None
  }

  function Messages(es: seq<Option<string>>): (r: seq<string>)
    ensures |r| <= |es|
    ensures r == [] <==> forall i :: 0 <= i < |es| ==> es[i].None?
  {
    if es == [] then []
    else (if es[0].Some? then [es[0].value] else []) + Messages(es[1..])
  }

  /** The messages shown, field by field, when the form is submitted. */
  function Errors(d: TransactionDraft): seq<string> {
    Messages([AmountError(d.amount), DescriptionError(d.description),
              RequiredError(d.category, CategoryRequired), RequiredError(d.date, DateRequired)])
  }

  /** A form passes the rules exactly when the amount is at least 0.01 (or
      is text that is not a number), the description has 1 to 100
      characters, and a category and a date are chosen. */
  lemma ErrorsIff(d: TransactionDraft)
    ensures Errors(d) == [] <==>
              AmountError(d.amount).None? && 0 < |d.description| <= 100 && d.category != "" && d.date != ""
  {
    var es := [AmountError(d.amount), DescriptionError(d.description),
               RequiredError(d.category, CategoryRequired), RequiredError(d.date, DateRequired)];
    assert es[0] == AmountError(d.amount) && es[1] == DescriptionError(d.description);
    assert es[2] == RequiredError(d.category, CategoryRequired) && es[3] == RequiredError(d.date, DateRequired);
  }

  // ---------------------------------------------------------------------
  // Submitting

  /** What `onSubmit` calls on the store. */
  datatype Call = UpdateCall(transaction: Transaction) | AddCall(draft: TransactionDraft)

  /** What a press of the submit button leads to: the browser stops it
      (`Blocked`), `handleSubmit(onSubmit)` shows the errors when a rule
      fails, otherwise the store call and whether `onClose` runs. */
  datatype Submission = Blocked | Rejected(errors: seq<string>) | Submitted(call: Call, closes: bool)

  /** The form's values `data` are sent with the kind from the toggle, `ty`,
      in place of the form's own; an edit keeps the original id. */
  function Submit(original: Option<Transaction>, data: TransactionDraft, ty: TxType): (r: Submission)
    ensures r.Blocked? <==> InputBlocked(data.amount)
    ensures r.Rejected? <==> !InputBlocked(data.amount) && Errors(data) != []
    ensures r.Rejected? ==> r.errors == Errors(data)
    ensures r.Submitted? ==> r.closes
    ensures r.Submitted? && original.Some? ==>
              r.call.UpdateCall? && r.call.transaction.id == original.value.id
              && DraftOf(r.call.transaction) == data.(txType := ty)
    ensures r.Submitted? && original.None? ==> r.call == AddCall(data.(txType := ty))
  {
    if InputBlocked(data.amount) then Blocked
    else if Errors(data) != [] then Rejected(Errors(data))
    else
      var sent := data.(txType := ty);
      match original
      case Some(t) => Submitted(UpdateCall(sent.WithId(t.id)), true)
      case None => Submitted(AddCall(sent), true)
  }

  /** Opening an existing transaction and submitting it untouched sends it
      back as it was, unless its amount is off the input's step. */
  lemma ResubmitUnchanged(t: Transaction, todayUtc: Date)
    requires ValidDate(todayUtc) && Errors(DraftOf(t)) == []
    ensures Submit(Some(t), Defaults(Some(t), todayUtc), InitialType(Some(t)))
         == if InputBlocked(t.amount) then Blocked else Submitted(UpdateCall(t), true)
  {
    assert DraftOf(t).(txType := t.txType) == DraftOf(t);
  }

  /** An untouched new form is refused: its amount is 0 and its description
      and category are empty. */
  lemma BlankFormRejected(todayUtc: Date, ty: TxType)
    requires ValidDate(todayUtc)
    ensures Submit(None, Defaults(None, todayUtc), ty)
         == Rejected([AmountTooSmall, DescriptionRequired, CategoryRequired])
  {
    var d := Defaults(None, todayUtc);
    assert d.date != "";
    assert OnCentStep(0.0);
    var es := [AmountError(d.amount), DescriptionError(d.description),
               RequiredError(d.category, CategoryRequired), RequiredError(d.date, DateRequired)];
    assert es == [Some(AmountTooSmall), Some(DescriptionRequired), Some(CategoryRequired), None];
    assert es[3..][1..] == [];
    assert Messages(es[3..]) == [];
    assert es[2..][1..] == es[3..];
    assert Messages(es[2..]) == [CategoryRequired];
    assert es[1..][1..] == es[2..];
    assert Messages(es[1..]) == [DescriptionRequired, CategoryRequired];
    assert es[0..][1..] == es[1..];
    assert Messages(es) == [AmountTooSmall, DescriptionRequired, CategoryRequired];
  }

  /** An edit lands in place: in the store, every entry carrying the edited
      id becomes the submitted transaction, of the toggled kind, and nothing
      else moves. */
  lemma EditLandsInPlace(s: TransactionsContext.State, original: Transaction, data: TransactionDraft, ty: TxType, i: int)
    requires Submit(Some(original), data, ty).Submitted?
    requires 0 <= i < |s.transactions|
    ensures var t := Submit(Some(original), data, ty).call.transaction;
            var r := TransactionsContext.Reduce(s, TransactionsContext.Updated(t));
            |r.transactions| == |s.transactions|
            && (s.transactions[i].id == original.id ==> r.transactions[i] == t && r.transactions[i].txType == ty)
            && (s.transactions[i].id != original.id ==> r.transactions[i] == s.transactions[i])
  {
    var t := Submit(Some(original), data, ty).call.transaction;
    assert t.txType == DraftOf(t).txType;
  }
}
