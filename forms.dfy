/**
 * Server-side form validation: the `errors` objects that `createTransaction`
 * and `updateTransaction` (actions/transaction.js) and `CreateAccount`
 * (actions/dashboard.js) fill before touching the store.
 */
module Forms {
  import opened Wrappers
  import opened Calendar
  import opened Records
  import Recurrence

  /** The form fields an error can be reported on. */
  datatype Field = KindField | AmountField | AccountField | CategoryField | DateField | IntervalField | NameField | BalanceField

  /** The key under which the `errors` object reports each field. */
  function Key(f: Field): string {
    match f
    case KindField => "type"
    case AmountField => "amount"
    case AccountField => "accountId"
    case CategoryField => "category"
    case DateField => "date"
    case IntervalField => "recurringInterval"
    case NameField => "name"
    case BalanceField => "balance"
  }

  /** A field/message map, as the `errors` object (keyed by `Key`). */
  type Errors = map<Field, string>

  /**
   * The transaction form. A field is `None` when the form lacks it or holds
   * the empty string; `amount` is what `parseFloat` reads in cents (`None`
   * for NaN); `isRecurring` is the raw checkbox value. `dateGiven` says
   * whether the raw date field is present and non-empty, and `date` is what
   * `new Date(...)` reads from it (`None` for an invalid date).
   */
  datatype TxnForm = TxnForm(
    kind: Option<TxnType>,
    amount: Option<int>,
    accountId: Option<AccountId>,
    category: string,
    dateGiven: bool,
    date: Option<Instant>,
    description: string,
    isRecurring: Option<string>,
    recurringInterval: Option<Interval>)

  /** `if (cond) errors[key] = message`. */
  function AddIf(e: Errors, cond: bool, key: Field, message: string): (r: Errors)
    ensures r.Keys == if cond then e.Keys + {key} else e.Keys
    ensures cond ==> r[key] == message
  {
    if cond then e[key := message] else e
  }

  /** `isRecurring === "true" || isRecurring === "on"`. */
  predicate RecurringOnCreate(v: Option<string>) {
    v == Some("true") || v == Some("on")
  }

  /** The fields `createTransaction` checks. */
  const CreateFields: set<Field> := {KindField, AmountField, AccountField, CategoryField, DateField, IntervalField}

  /** Whether `createTransaction` reports an error on field `k`. */
  predicate CreateFails(f: TxnForm, k: Field) {
    match k
    case KindField => f.kind.None?
    case AmountField => f.amount.None? || f.amount.value <= 0
    case AccountField => f.accountId.None?
    case CategoryField => f.category == ""
    case DateField => !f.dateGiven
    case IntervalField => RecurringOnCreate(f.isRecurring) && f.recurringInterval.None?
    case _ => false
  }

  /** The message `createTransaction` reports on field `k`. */
  function CreateMessage(k: Field): string {
    match k
    case KindField => "Type is required."
    case AmountField => "Amount must be a positive number."
    case AccountField => "Account is required."
    case CategoryField => "Category is required."
    case DateField => "Date is required."
    case _ => "Recurring interval is required."
  }

  /**
   * The errors of `createTransaction`: one entry per failed check. The
   * checks are independent, so the order in which the source adds the
   * entries does not matter.
   */
  function CreateErrors(f: TxnForm): (r: Errors)
    ensures KindField in r <==> f.kind.None?
    ensures AmountField in r <==> f.amount.None? || f.amount.value <= 0
    ensures AccountField in r <==> f.accountId.None?
    ensures CategoryField in r <==> f.category == ""
    ensures DateField in r <==> !f.dateGiven
    ensures IntervalField in r <==> RecurringOnCreate(f.isRecurring) && f.recurringInterval.None?
    ensures r.Keys <= CreateFields
    ensures forall k :: k in r ==> r[k] == CreateMessage(k)
  {
    map k | k in CreateFields && CreateFails(f, k) :: CreateMessage(k)
  }

  /** Every field a stored row needs is present and the amount is positive. */
  predicate CreateFormComplete(f: TxnForm) {
    && f.kind.Some? && f.amount.Some? && f.amount.value > 0 && f.accountId.Some?
    && f.category != "" && f.dateGiven
    && (RecurringOnCreate(f.isRecurring) ==> f.recurringInterval.Some?)
  }

  /** Validation passes exactly on complete forms. */
  lemma CreateErrorsEmptyIffComplete(f: TxnForm)
    ensures CreateErrors(f) == map[] <==> CreateFormComplete(f)
  {
    var r := CreateErrors(f);
    if !CreateFormComplete(f) {
      assert KindField in r || AmountField in r || AccountField in r || CategoryField in r || DateField in r || IntervalField in r;
    }
  }

  /**
   * A date field that is present but does not parse passes validation: the
   * check looks only at the raw field, and only the store's insert refuses it.
   */
  lemma InvalidDatePassesCreateValidation(f: TxnForm)
    requires CreateFormComplete(f) && f.date.None?
    ensures CreateErrors(f) == map[]
  {
    CreateErrorsEmptyIffComplete(f);
  }

  /** `nextRecurringDate: isRecurring && recurringInterval ? calculateNextRecurringDate(date, interval) : null`. */
  function FirstNextDate(isRecurring: bool, interval: Option<Interval>, date: Instant): (r: Option<Instant>)
    ensures r.Some? <==> isRecurring && interval.Some?
    ensures r.Some? ==> r.value == Recurrence.NextRecurringDate(date, interval) && Before(date, r.value)
  {
    if isRecurring && interval.Some? then Some(Recurrence.NextRecurringDate(date, interval)) else None
  }

  /** The row `createTransaction` inserts for a valid form. */
  function NewRow(f: TxnForm, id: TxnId, u: UserId): (r: Txn)
    requires CreateFormComplete(f) && f.date.Some?
    ensures r.id == id && r.userId == u && r.accountId == f.accountId.value
    ensures r.kind == f.kind.value && r.amount == f.amount.value > 0
    ensures r.category == f.category && r.date == f.date.value && r.description == f.description
    ensures r.recurringInterval == f.recurringInterval
    ensures r.nextRecurringDate == FirstNextDate(r.isRecurring, r.recurringInterval, r.date)
    ensures r.isRecurring == RecurringOnCreate(f.isRecurring)
    ensures r.isRecurring ==> r.nextRecurringDate.Some? && Before(r.date, r.nextRecurringDate.value)
    ensures !r.isRecurring ==> r.nextRecurringDate.None?
    ensures r.lastProcessed.None? && r.status == Completed
  {
    var rec := RecurringOnCreate(f.isRecurring);
    Txn(id, u, f.accountId.value, f.kind.value, f.amount.value, f.category, f.date.value, f.description,
        rec, f.recurringInterval, None, FirstNextDate(rec, f.recurringInterval, f.date.value), Completed)
  }

  /** A value of the update input: missing, a form string, or a boolean of a plain object. */
  datatype FormValue = Absent | Text(s: string) | Flag(b: bool)

  /** `isRecurring === "on" || isRecurring === true || isRecurring === "true"`. */
  predicate RecurringOnUpdate(v: FormValue) {
    v == Text("on") || v == Flag(true) || v == Text("true")
  }

  /** The two readings agree on form strings; only the update also takes a boolean `true`. */
  lemma RecurringReadingsAgreeOnText(s: string)
    ensures RecurringOnUpdate(Text(s)) <==> RecurringOnCreate(Some(s))
  {
  }

  /**
   * The update input. `date` is `None` when `new Date(data.date)` is an
   * invalid date; `description` is `None` when the input has none, and the
   * stored one then stays.
   */
  datatype UpdateForm = UpdateForm(
    kind: Option<TxnType>,
    amount: Option<int>,
    accountId: Option<AccountId>,
    category: string,
    date: Option<Instant>,
    description: Option<string>,
    isRecurring: FormValue,
    recurringInterval: Option<Interval>)

  /** The normalised input: the recurring flag read and, when off, the interval dropped. */
  datatype Normalised = Normalised(form: UpdateForm, recurring: bool)

  /** A non-recurring input carries no interval. */
  predicate IsNormalised(n: Normalised) {
    !n.recurring ==> n.form.recurringInterval.None?
  }

  function Normalise(f: UpdateForm): (r: Normalised)
    ensures r.recurring <==> RecurringOnUpdate(f.isRecurring)
    ensures IsNormalised(r)
    ensures r.form == f.(recurringInterval := r.form.recurringInterval)
    ensures r.recurring ==> r.form == f
  {
    var rec := RecurringOnUpdate(f.isRecurring);
    Normalised(if rec then f else f.(recurringInterval := None), rec)
  }

  /**
   * The errors of `updateTransaction`. No `date` error arises: the
   * normalised date is always a Date object, and a Date object is truthy.
   */
  function UpdateErrors(n: Normalised): (r: Errors)
    ensures AmountField in r <==> n.form.amount.None? || n.form.amount.value <= 0
    ensures AccountField in r <==> n.form.accountId.None?
    ensures KindField in r <==> n.form.kind.None?
    ensures CategoryField in r <==> n.form.category == ""
    ensures IntervalField in r <==> n.recurring && n.form.recurringInterval.None?
    ensures r.Keys <= UpdateFields
    ensures forall k :: k in r ==> r[k] == UpdateMessage(k)
  {
    map k | k in UpdateFields && UpdateFails(n, k) :: UpdateMessage(k)
  }

  /** The fields `updateTransaction` checks: all but the date. */
  const UpdateFields: set<Field> := {AmountField, AccountField, KindField, CategoryField, IntervalField}

  /** Whether `updateTransaction` reports an error on field `k`. */
  predicate UpdateFails(n: Normalised, k: Field) {
    match k
    case AmountField => n.form.amount.None? || n.form.amount.value <= 0
    case AccountField => n.form.accountId.None?
    case KindField => n.form.kind.None?
    case CategoryField => n.form.category == ""
    case IntervalField => n.recurring && n.form.recurringInterval.None?
    case _ => false
  }

  /** The message `updateTransaction` reports on field `k`. */
  function UpdateMessage(k: Field): string {
    match k
    case AmountField => "Amount is required and must be greater than 0"
    case AccountField => "Account is required"
    case KindField => "Type is required"
    case CategoryField => "Category is required."
    case _ => "Recurring interval is required"
  }

  /** An update that passes validation, whatever its date. */
  predicate UpdateFormComplete(n: Normalised) {
    && n.form.amount.Some? && n.form.amount.value > 0 && n.form.accountId.Some?
    && n.form.kind.Some? && n.form.category != ""
    && (n.recurring ==> n.form.recurringInterval.Some?)
  }

  lemma UpdateErrorsEmptyIffComplete(n: Normalised)
    ensures UpdateErrors(n) == map[] <==> UpdateFormComplete(n)
  {
    var r := UpdateErrors(n);
    if !UpdateFormComplete(n) {
      assert AmountField in r || AccountField in r || KindField in r || CategoryField in r || IntervalField in r;
    }
  }

  /** An invalid date passes validation: only the store's write would refuse it. */
  lemma InvalidDatePassesUpdateValidation(n: Normalised)
    requires UpdateFormComplete(n) && n.form.date.None?
    ensures UpdateErrors(n) == map[]
  {
    UpdateErrorsEmptyIffComplete(n);
  }

  /**
   * The row after `transaction.update({ data: { ...data, nextRecurringDate } })`:
   * every field of the input replaces the stored one.
   */
  function UpdatedRow(orig: Txn, n: Normalised): (r: Txn)
    requires IsNormalised(n) && UpdateFormComplete(n) && n.form.date.Some?
    ensures r.id == orig.id && r.userId == orig.userId
    ensures r.lastProcessed == orig.lastProcessed && r.status == orig.status
    ensures r.accountId == n.form.accountId.value && r.kind == n.form.kind.value && r.amount == n.form.amount.value
    ensures r.category == n.form.category && r.date == n.form.date.value
    ensures r.recurringInterval == n.form.recurringInterval
    ensures r.nextRecurringDate == FirstNextDate(n.recurring, n.form.recurringInterval, n.form.date.value)
    ensures r.isRecurring == n.recurring && (!r.isRecurring ==> r.recurringInterval.None?)
    ensures r.nextRecurringDate.Some? <==> r.isRecurring
    ensures r.isRecurring ==> Before(r.date, r.nextRecurringDate.value)
    ensures r.description == (if n.form.description.Some? then n.form.description.value else orig.description)
  {
    var f := n.form;
    orig.(accountId := f.accountId.value, kind := f.kind.value, amount := f.amount.value,
          category := f.category, date := f.date.value,
          description := if f.description.Some? then f.description.value else orig.description,
          isRecurring := n.recurring, recurringInterval := f.recurringInterval,
          nextRecurringDate := FirstNextDate(n.recurring, f.recurringInterval, f.date.value))
  }

  /** String.prototype.trim's white space and line terminators. */
  predicate IsJsSpace(c: char) {
    || c == ' ' || c == '\t' || c == '\n' || c == '\r' || c == '\U{B}' || c == '\U{C}'
    || c == '\U{A0}' || c == '\U{1680}' || ('\U{2000}' <= c <= '\U{200A}')
    || c == '\U{2028}' || c == '\U{2029}' || c == '\U{202F}' || c == '\U{205F}'
    || c == '\U{3000}' || c == '\U{FEFF}'
  }

  predicate AllSpace(s: string) {
    forall i :: 0 <= i < |s| ==> IsJsSpace(s[i])
  }

  /** `trimStart`: leading white space dropped. */
  function TrimStart(s: string): (r: string)
    ensures |r| <= |s|
  {
    if s != [] && IsJsSpace(s[0]) then TrimStart(s[1..]) else s
  }

  /** `trimEnd`: trailing white space dropped. */
  function TrimEnd(s: string): (r: string)
    ensures |r| <= |s|
  {
    if s != [] && IsJsSpace(s[|s| - 1]) then TrimEnd(s[..|s| - 1]) else s
  }

  function Trim(s: string): string {
    TrimEnd(TrimStart(s))
  }

  /** TrimStart cuts off a white-space prefix and stops at the first other character. */
  lemma {:induction false} TrimStartShape(s: string)
    ensures var r := TrimStart(s);
            && |r| <= |s| && r == s[|s| - |r|..]
            && AllSpace(s[..|s| - |r|])
            && (r == [] || !IsJsSpace(r[0]))
  {
    if s != [] && IsJsSpace(s[0]) {
      var s' := s[1..];
      TrimStartShape(s');
      var r := TrimStart(s');
      var k := |s| - |r|;
      assert s'[|s'| - |r|..] == s[k..];
      assert s[..k] == [s[0]] + s'[..|s'| - |r|];
    }
  }

  /** TrimEnd cuts off a white-space suffix and stops at the last other character. */
  lemma {:induction false} TrimEndShape(s: string)
    ensures var r := TrimEnd(s);
            && |r| <= |s| && r == s[..|r|]
            && AllSpace(s[|r|..])
            && (r == [] || !IsJsSpace(r[|r| - 1]))
  {
    if s != [] && IsJsSpace(s[|s| - 1]) {
      var s' := s[..|s| - 1];
      TrimEndShape(s');
      var r := TrimEnd(s');
      assert s'[..|r|] == s[..|r|];
      assert s[|r|..] == s'[|r|..] + [s[|s| - 1]];
    }
  }

  lemma {:induction false} TrimStartOfSpace(s: string)
    requires AllSpace(s)
    ensures TrimStart(s) == []
  {
    if s != [] {
      TrimStartOfSpace(s[1..]);
    }
  }

  lemma AllSpaceConcat(a: string, b: string)
    requires AllSpace(a) && AllSpace(b)
    ensures AllSpace(a + b)
  {
  }

  /** A value trims to the empty string exactly when it is all white space. */
  lemma TrimEmptyIffAllSpace(s: string)
    ensures Trim(s) == "" <==> AllSpace(s)
  {
    var t := TrimStart(s);
    if AllSpace(s) {
      TrimStartOfSpace(s);
    }
    if Trim(s) == "" {
      TrimStartShape(s);
      TrimEndShape(t);
      var k := |s| - |t|;
      assert t[0..] == t;
      AllSpaceConcat(s[..k], t);
      assert s == s[..k] + t;
    }
  }

  /** The trimmed value has no white space at either end. */
  lemma TrimHasNoOuterSpace(s: string)
    ensures var r := Trim(s);
            r == [] || (!IsJsSpace(r[0]) && !IsJsSpace(r[|r| - 1]))
  {
    var t := TrimStart(s);
    var r := TrimEnd(t);
    TrimStartShape(s);
    TrimEndShape(t);
    if r != [] {
      FirstOfPrefix(t, r);
    }
  }

  /** The trimmed value is the original with a white-space prefix and suffix cut off. */
  lemma TrimIsInfix(s: string)
    ensures var r := Trim(s);
            var i := |s| - |TrimStart(s)|;
            && i + |r| <= |s| && r == s[i..i + |r|]
            && AllSpace(s[..i]) && AllSpace(s[i + |r|..])
  {
    var t := TrimStart(s);
    var r := TrimEnd(t);
    TrimStartShape(s);
    TrimEndShape(t);
    InfixOfSuffix(s, t, r);
  }

  lemma FirstOfPrefix<T>(t: seq<T>, r: seq<T>)
    requires |r| <= |t| && r == t[..|r|] && r != []
    ensures r[0] == t[0]
  {
  }

  lemma InfixOfSuffix<T>(s: seq<T>, t: seq<T>, r: seq<T>)
    requires |t| <= |s| && t == s[|s| - |t|..]
    requires |r| <= |t| && r == t[..|r|]
    ensures var i := |s| - |t|;
            && i + |r| <= |s| && r == s[i..i + |r|] && s[i + |r|..] == t[|r|..]
  {
  }

  /**
   * The account form: `name` and `type` as sent (`None` when missing),
   * `balance` the raw string and `balanceReading` what `parseFloat` reads
   * from it in cents (`None` for NaN), `isDefault` the raw switch value.
   */
  datatype AccountForm = AccountForm(
    name: Option<string>,
    kind: Option<string>,
    balance: Option<string>,
    balanceReading: Option<int>,
    isDefault: Option<string>)

  /** `formData.get(field)?.trim()` is falsy. */
  predicate Blank(v: Option<string>) {
    v.None? || Trim(v.value) == ""
  }

  /** The errors of `CreateAccount`; a missing balance is reported before a non-numeric one. */
  function AccountErrors(f: AccountForm): (r: Errors)
    ensures NameField in r <==> Blank(f.name)
    ensures KindField in r <==> Blank(f.kind)
    ensures BalanceField in r <==> f.balance.None? || f.balance.value == "" || f.balanceReading.None?
    ensures BalanceField in r ==> r[BalanceField] == (if f.balance.None? || f.balance.value == ""
                                                then "Initial balance is required"
                                                else "Initial balance must be a valid number")
    ensures r.Keys <= {NameField, KindField, BalanceField}
  {
    var e1 := AddIf(map[], Blank(f.name), NameField, "Account name is required");
    var e2 := AddIf(e1, Blank(f.kind), KindField, "Account type is required");
    if f.balance.None? || f.balance.value == "" then e2[BalanceField := "Initial balance is required"]
    else if f.balanceReading.None? then e2[BalanceField := "Initial balance must be a valid number"]
    else e2
  }

  /** A whitespace-only name is refused like a missing one. */
  lemma SpaceOnlyNameIsRefused(f: AccountForm)
    requires f.name.Some? && AllSpace(f.name.value)
    ensures NameField in AccountErrors(f)
  {
    TrimEmptyIffAllSpace(f.name.value);
  }

  /** The account `CreateAccount` stores for a valid form; its default flag is decided by the store. */
  function NewAccount(f: AccountForm, id: AccountId, u: UserId): (r: Account)
    requires AccountErrors(f) == map[]
    ensures r.id == id && r.userId == u && !r.isDefault
    ensures r.name == Trim(f.name.value) && r.kind == Trim(f.kind.value)
    ensures r.name != "" && r.kind != "" && f.balanceReading.Some? && r.balance == f.balanceReading.value
  {
    assert NameField !in AccountErrors(f) && KindField !in AccountErrors(f) && BalanceField !in AccountErrors(f);
    Account(id, u, Trim(f.name.value), Trim(f.kind.value), f.balanceReading.value, false)
  }

  /** `isDefault === "on"`. */
  predicate DefaultSwitchOn(f: AccountForm) {
    f.isDefault == Some("on")
  }
}
