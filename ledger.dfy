/**
 * The store the server actions and background functions work on: users,
 * accounts, transactions and budgets, with one method per action. Each
 * external call that can fail (the auth session, the store's lookups, the
 * email provider) is a parameter or an outcome.
 */
module Ledger {
  import opened Wrappers
  import opened Calendar
  import opened Records
  import opened Sums
  import opened Recurrence
  import opened Balance
  import opened Defaults
  import opened BudgetRule
  import opened MonthlyStats
  import opened Ordering
  import opened Forms
  import opened Store

  /** An action's result: its value, the validation errors, a thrown message, or a write the store refuses. */
  datatype Outcome<T> = Ok(value: T) | Invalid(errors: Errors) | Failure(message: string) | Rejected

  /** The payload of a `transaction.recurring.process` event as delivered. */
  datatype EventData = EventData(transactionId: Option<TxnId>, userId: Option<UserId>)

  /** What the worker did with an event. */
  datatype ProcessOutcome = MissingEventData | Skipped | Processed(id: TxnId)

  /** The account a user asked for, with its transactions. */
  datatype AccountView = AccountView(account: Account, transactions: seq<Txn>)

  /** `getCurrentBudget`'s answer. */
  datatype BudgetView = BudgetView(budget: Option<Budget>, currentExpenses: int)

  /** An account `a` of user `u`. */
  predicate Owns(accounts: map<AccountId, Account>, u: UserId, a: AccountId) {
    a in accounts && accounts[a].userId == u
  }

  function OwnedBy(u: UserId): Txn -> bool {
    (t: Txn) => t.userId == u
  }

  function OnAccount(a: AccountId): Txn -> bool {
    (t: Txn) => t.accountId == a
  }

  /** `where: { id: { in: ids }, userId }`. */
  function OwnedAmong(u: UserId, ids: set<TxnId>): Txn -> bool {
    (t: Txn) => t.userId == u && t.id in ids
  }

  /** The month-to-date expenses `checkBudgetAlerts` reads for user `u`: 0 without a default account. */
  ghost function AlertTotal(accounts: map<AccountId, Account>, txns: map<TxnId, Txn>, u: UserId, now: Instant): int {
    if HasDefault(accounts, u) then SumWhere(txns, CountsForAlert(u, DefaultAccount(accounts, u), now), Amount) else 0
  }

  /** One pass of the alert rule over budget `b`, against the store's accounts and rows. */
  ghost function Checked(accounts: map<AccountId, Account>, txns: map<TxnId, Txn>, b: Budget, now: Instant, sendOk: bool): Evaluation {
    EvaluateBudget(b, HasDefault(accounts, b.userId), AlertTotal(accounts, txns, b.userId, now), now, sendOk)
  }

  /** The balances after taking each listed row's effect off its account. */
  method DebitRows(accounts: map<AccountId, Account>, txns: map<TxnId, Txn>, ks: seq<TxnId>) returns (acc: map<AccountId, Account>)
    requires Distinct(ks)
    requires forall i :: 0 <= i < |ks| ==> ks[i] in txns && txns[ks[i]].accountId in accounts
    ensures acc == DebitEachAccount(accounts, txns, Elements(ks))
  {
    acc := accounts;
    var i := 0;
    DebitedByNone(accounts, txns, ks);
    while i < |ks|
      invariant 0 <= i <= |ks|
      invariant DebitedBy(accounts, acc, txns, ks[..i])
    {
      var row := txns[ks[i]];
      DebitedByNext(accounts, acc, txns, ks, i);
      acc := Credit(acc, row.accountId, -Signed(row));
      i := i + 1;
    }
    DebitedByAll(accounts, acc, txns, ks);
  }

  class Ledger {
    var users: set<UserId>
    var accounts: map<AccountId, Account>
    var txns: map<TxnId, Txn>
    var budgets: map<UserId, Budget>
    /** The next fresh id; the store's ids are modelled by this counter. */
    var nextId: nat
    /** Each account's balance when it was opened. */
    ghost var opening: map<AccountId, int>

    ghost predicate Valid()
      reads this
    {
      Consistent(accounts, txns, budgets, nextId, opening)
    }

    constructor (users: set<UserId>)
      ensures Valid()
      ensures this.users == users && accounts == map[] && txns == map[] && budgets == map[]
    {
      this.users := users;
      accounts := map[];
      txns := map[];
      budgets := map[];
      nextId := 0;
      opening := map[];
    }

    /** The signed-in user the store knows; `None` is a caller with no session. */
    predicate Known(caller: Option<UserId>)
      reads this
    {
      caller.Some? && caller.value in users
    }

    /** The ids of the rows a `where` clause selects, each once. */
    method Select(p: Txn -> bool) returns (ks: seq<TxnId>)
      ensures Distinct(ks)
      ensures forall i :: 0 <= i < |ks| ==> ks[i] in txns
      ensures Elements(ks) == Matching(txns, p)
    {
      ks := [];
      var rest := txns.Keys;
      while rest != {}
        invariant rest <= txns.Keys
        invariant Distinct(ks)
        invariant forall i :: 0 <= i < |ks| ==> ks[i] in txns
        invariant forall k :: k in ks <==> k in txns && p(txns[k]) && k !in rest
        decreases |rest|
      {
        var k :| k in rest;
        if p(txns[k]) {
          ks := ks + [k];
        }
        rest := rest - {k};
      }
      assert Elements(ks) == Matching(txns, p);
    }

    /** The sum of `f` over the listed rows. */
    method Total(ks: seq<TxnId>, f: Txn -> int) returns (sum: int)
      requires forall i :: 0 <= i < |ks| ==> ks[i] in txns
      ensures sum == SumKeys(txns, ks, f)
    {
      sum := 0;
      var i := 0;
      while i < |ks|
        invariant 0 <= i <= |ks|
        invariant sum == SumKeys(txns, ks[..i], f)
      {
        assert ks[..i + 1][..i] == ks[..i];
        sum := sum + f(txns[ks[i]]);
        i := i + 1;
      }
      assert ks[..i] == ks;
    }

    /** `aggregate({ where: p, _sum: f })`. */
    method SumOf(p: Txn -> bool, f: Txn -> int) returns (sum: int)
      ensures sum == SumWhere(txns, p, f)
    {
      var ks := Select(p);
      sum := Total(ks, f);
      SumKeysIsSumMap(txns, ks, f);
    }

    /** The listed rows, in order. */
    method Rows(ks: seq<TxnId>) returns (rows: seq<Txn>)
      requires forall i :: 0 <= i < |ks| ==> ks[i] in txns
      ensures |rows| == |ks| && forall i :: 0 <= i < |ks| ==> rows[i] == txns[ks[i]]
    {
      rows := [];
      var i := 0;
      while i < |ks|
        invariant 0 <= i <= |ks|
        invariant |rows| == i && forall j :: 0 <= j < i ==> rows[j] == txns[ks[j]]
      {
        rows := rows + [txns[ks[i]]];
        i := i + 1;
      }
    }

    /** `getTransaction`: the caller's own transaction, or an error. */
    method GetTransaction(caller: Option<UserId>, id: TxnId) returns (r: Outcome<Txn>)
      ensures caller.None? ==> r == Failure("Unauthorized")
      ensures caller.Some? && caller.value !in users ==> r == Failure("User not found")
      ensures Known(caller) && !(id in txns && txns[id].userId == caller.value) ==> r == Failure("Transaction not found")
      ensures r.Ok? <==> Known(caller) && id in txns && txns[id].userId == caller.value
      ensures r.Ok? ==> r.value == txns[id]
    {
      if caller.None? {
        return Failure("Unauthorized");
      }
      if caller.value !in users {
        return Failure("User not found");
      }
      if !(id in txns && txns[id].userId == caller.value) {
        return Failure("Transaction not found");
      }
      r := Ok(txns[id]);
    }

    /**
     * `createTransaction`: validate, look the user up, check the account is
     * theirs, then insert the row and credit its signed amount; the insert
     * refuses a date that does not parse. The balance
     * is read before the store's transaction opens; in this sequential model
     * the two steps are one.
     */
    method CreateTransaction(caller: Option<UserId>, f: TxnForm) returns (r: Outcome<TxnId>)
      requires Valid()
      modifies this`txns, this`accounts, this`nextId
      ensures Valid()
      ensures !r.Ok? ==> unchanged(this)
      ensures caller.None? ==> r == Failure("Unauthorized")
      ensures caller.Some? && CreateErrors(f) != map[] ==> r == Invalid(CreateErrors(f))
      ensures caller.Some? && CreateErrors(f) == map[] && caller.value !in users ==> r == Failure("User not found")
      ensures Known(caller) && CreateErrors(f) == map[] && !Owns(accounts, caller.value, f.accountId.value) ==>
                r == Failure("Account not found")
      ensures Known(caller) && CreateErrors(f) == map[] && Owns(accounts, caller.value, f.accountId.value) && f.date.None? ==>
                r == Rejected
      ensures r.Ok? <==> && Known(caller) && CreateFormComplete(f) && Owns(old(accounts), caller.value, f.accountId.value)
                         && f.date.Some?
      ensures r.Ok? ==>
                var row := NewRow(f, r.value, caller.value);
                && r.value == old(nextId) && nextId == old(nextId) + 1
                && txns == old(txns)[r.value := row]
                && accounts == Credit(old(accounts), row.accountId, Signed(row))
    {
      if caller.None? {
        return Failure("Unauthorized");
      }
      var errors := CreateErrors(f);
      CreateErrorsEmptyIffComplete(f);
      if errors != map[] {
        return Invalid(errors);
      }
      var u := caller.value;
      if u !in users {
        return Failure("User not found");
      }
      if !Owns(accounts, u, f.accountId.value) {
        return Failure("Account not found");
      }
      if f.date.None? {
        return Rejected;
      }
      var id := nextId;
      InsertRow(NewRow(f, id, u));
      r := Ok(id);
    }

    /** Insert a new row under the next id and credit its signed amount to its account. */
    method InsertRow(row: Txn)
      requires Valid()
      requires row.id == nextId && row.accountId in accounts && row.amount > 0
      modifies this`txns, this`accounts, this`nextId
      ensures Valid()
      ensures nextId == old(nextId) + 1
      ensures txns == old(txns)[row.id := row]
      ensures accounts == Credit(old(accounts), row.accountId, Signed(row))
    {
      CreateKeepsConsistent(accounts, txns, budgets, nextId, opening, row);
      var rows, acc := txns[row.id := row], Credit(accounts, row.accountId, Signed(row));
      txns, accounts, nextId := rows, acc, nextId + 1;
    }

    /**
     * `updateTransaction`: look the user up, normalise and validate the input,
     * fetch the caller's row, then write the new row and move its balance
     * effect. The store refuses an invalid date or an account that does not
     * exist; the new account is not checked to be the caller's.
     */
    method UpdateTransaction(caller: Option<UserId>, id: TxnId, f: UpdateForm) returns (r: Outcome<Txn>)
      requires Valid()
      modifies this`txns, this`accounts
      ensures Valid()
      ensures !r.Ok? ==> unchanged(this)
      ensures caller.None? ==> r == Failure("Unauthorized")
      ensures caller.Some? && caller.value !in users ==> r == Failure("User not found")
      ensures Known(caller) && UpdateErrors(Normalise(f)) != map[] ==> r == Invalid(UpdateErrors(Normalise(f)))
      ensures Known(caller) && UpdateErrors(Normalise(f)) == map[] && !(id in old(txns) && old(txns)[id].userId == caller.value) ==>
                r == Failure("Transaction not found")
      ensures r.Ok? <==> && Known(caller) && UpdateFormComplete(Normalise(f))
                         && id in old(txns) && old(txns)[id].userId == caller.value
                         && f.date.Some? && f.accountId.value in old(accounts)
      ensures r.Ok? ==>
                var row := UpdatedRow(old(txns)[id], Normalise(f));
                && r.value == row && txns == old(txns)[id := row]
                && accounts == MoveCredit(old(accounts), old(txns)[id], row)
    {
      if caller.None? {
        return Failure("Unauthorized");
      }
      var u := caller.value;
      if u !in users {
        return Failure("User not found");
      }
      var n := Normalise(f);
      var errors := UpdateErrors(n);
      UpdateErrorsEmptyIffComplete(n);
      if errors != map[] {
        return Invalid(errors);
      }
      if !(id in txns && txns[id].userId == u) {
        return Failure("Transaction not found");
      }
      if n.form.date.None? || n.form.accountId.value !in accounts {
        return Rejected;
      }
      var row := UpdatedRow(txns[id], n);
      ReplaceRow(id, row);
      r := Ok(row);
    }

    /** Replace a row and move its balance effect from the old row's account to the new row's. */
    method ReplaceRow(k: TxnId, row: Txn)
      requires Valid()
      requires k in txns && row.id == k && row.accountId in accounts && row.amount > 0
      modifies this`txns, this`accounts
      ensures Valid()
      ensures txns == old(txns)[k := row]
      ensures accounts == MoveCredit(old(accounts), old(txns)[k], row)
    {
      UpdateKeepsConsistent(accounts, txns, budgets, nextId, opening, k, row);
      var acc := MoveCredit(accounts, txns[k], row);
      var rows := txns[k := row];
      accounts, txns := acc, rows;
    }

    /**
     * `bulkDeleteTransactions`: delete the requested rows the caller owns and
     * take their effects off the balances. Each row's effect is taken off
     * its own account; on rows of one account this is the lone increment the
     * action applies to the first row's account.
     */
    method BulkDeleteTransactions(caller: Option<UserId>, requested: set<TxnId>) returns (r: Outcome<()>)
      requires Valid()
      modifies this`txns, this`accounts
      ensures Valid()
      ensures !r.Ok? ==> unchanged(this)
      ensures caller.None? ==> r == Failure("Unauthorized")
      ensures caller.Some? && caller.value !in users ==> r == Failure("User not found")
      ensures Known(caller) && Matching(old(txns), OwnedAmong(caller.value, requested)) == {} ==>
                r == Failure("No transactions found")
      ensures r.Ok? <==> Known(caller) && Matching(old(txns), OwnedAmong(caller.value, requested)) != {}
      ensures r.Ok? ==>
                var gone := Matching(old(txns), OwnedAmong(caller.value, requested));
                && txns == old(txns) - gone
                && accounts == DebitEachAccount(old(accounts), old(txns), gone)
    {
      if caller.None? {
        return Failure("Unauthorized");
      }
      var u := caller.value;
      if u !in users {
        return Failure("User not found");
      }
      var ks := Select(OwnedAmong(u, requested));
      if ks == [] {
        assert Elements(ks) == {};
        return Failure("No transactions found");
      }
      assert ks[0] in Elements(ks);
      DeleteRows(ks);
      r := Ok(());
    }

    /** Removes the listed rows, taking each one's effect off its own account. */
    method DeleteRows(ks: seq<TxnId>)
      requires Valid()
      requires Distinct(ks)
      requires forall i :: 0 <= i < |ks| ==> ks[i] in txns
      modifies this`txns, this`accounts
      ensures Valid()
      ensures txns == old(txns) - Elements(ks)
      ensures accounts == DebitEachAccount(old(accounts), old(txns), Elements(ks))
    {
      RowsHaveAccounts(accounts, txns, nextId, ks);
      var gone := Elements(ks);
      var acc := DebitRows(accounts, txns, ks);
      BulkDeleteKeepsConsistent(accounts, txns, budgets, nextId, opening, gone);
      var rows := txns - gone;
      accounts, txns := acc, rows;
    }

    /**
     * `updateDefaultAccount`: unset the caller's defaults, then set the
     * target. The two writes are not one transaction: when the target is not
     * the caller's, the second write fails and the caller is left with no
     * default.
     */
    method UpdateDefaultAccount(caller: Option<UserId>, a: AccountId) returns (r: Outcome<Account>)
      requires Valid()
      modifies this`accounts
      ensures Valid()
      ensures !Known(caller) ==> unchanged(this)
      ensures caller.None? ==> r == Failure("Unauthorized")
      ensures caller.Some? && caller.value !in users ==> r == Failure("User not found")
      ensures Known(caller) && Owns(old(accounts), caller.value, a) ==>
                && accounts == MakeDefault(old(accounts), caller.value, a)
                && IsOnlyDefault(accounts, caller.value, a) && r == Ok(accounts[a])
      ensures Known(caller) && !Owns(old(accounts), caller.value, a) ==>
                && accounts == UnsetDefaults(old(accounts), caller.value)
                && !HasDefault(accounts, caller.value) && r == Rejected
    {
      if caller.None? {
        return Failure("Unauthorized");
      }
      var u := caller.value;
      if u !in users {
        return Failure("User not found");
      }
      var cleared := UnsetDefaults(accounts, u);
      FlagsKeepConsistent(accounts, cleared, txns, budgets, nextId, opening);
      var owned := Owns(accounts, u, a);
      accounts := cleared;
      if !owned {
        return Rejected;
      }
      var updated := accounts[a := accounts[a].(isDefault := true)];
      assert updated == MakeDefault(old(accounts), u, a);
      FlagsKeepConsistent(accounts, updated, txns, budgets, nextId, opening);
      accounts := updated;
      r := Ok(accounts[a]);
    }

    /**
     * `CreateAccount`: validate, look the user up, then store the account,
     * default when it is the user's first or the switch is on.
     */
    method CreateAccount(caller: Option<UserId>, f: AccountForm) returns (r: Outcome<AccountId>)
      requires Valid()
      modifies this
      ensures Valid()
      ensures !r.Ok? ==> unchanged(this)
      ensures caller.None? ==> r == Failure("User not authenticated")
      ensures caller.Some? && AccountErrors(f) != map[] ==> r == Invalid(AccountErrors(f))
      ensures caller.Some? && AccountErrors(f) == map[] && caller.value !in users ==> r == Failure("User not found in DB")
      ensures r.Ok? <==> Known(caller) && AccountErrors(f) == map[]
      ensures r.Ok? ==>
                var acct := NewAccount(f, r.value, caller.value);
                && r.value == old(nextId) && nextId == old(nextId) + 1
                && accounts == AddAccount(old(accounts), acct, DefaultSwitchOn(f))
                && opening == old(opening)[r.value := acct.balance]
                && txns == old(txns) && budgets == old(budgets) && users == old(users)
    {
      if caller.None? {
        return Failure("User not authenticated");
      }
      var errors := AccountErrors(f);
      if errors != map[] {
        return Invalid(errors);
      }
      var u := caller.value;
      if u !in users {
        return Failure("User not found in DB");
      }
      var id := nextId;
      OpenAccount(NewAccount(f, id, u), DefaultSwitchOn(f));
      r := Ok(id);
    }

    /** Store a new account under the next id with its opening balance. */
    method OpenAccount(acct: Account, wantsDefault: bool)
      requires Valid() && acct.id == nextId
      modifies this
      ensures Valid()
      ensures nextId == old(nextId) + 1
      ensures accounts == AddAccount(old(accounts), acct, wantsDefault)
      ensures opening == old(opening)[acct.id := acct.balance]
      ensures txns == old(txns) && budgets == old(budgets) && users == old(users)
    {
      AddAccountKeepsConsistent(accounts, txns, budgets, nextId, opening, acct, wantsDefault);
      var acc := AddAccount(accounts, acct, wantsDefault);
      ghost var open := opening[acct.id := acct.balance];
      accounts, nextId := acc, nextId + 1;
      opening := open;
    }
    /** `findMany({ where: p, orderBy: { date: "desc" } })`: the rows `p` accepts, newest first. */
    method FindNewestFirst(p: Txn -> bool) returns (rows: seq<Txn>)
      ensures NewestFirst(rows)
      ensures forall t :: t in rows <==> t in txns.Values && p(t)
      ensures |rows| == |Matching(txns, p)|
    {
      var ks := Select(p);
      var found := Rows(ks);
      RowsAreMatching(txns, ks, found, p);
      DistinctCardinality(ks);
      rows := SortNewestFirst(found);
      forall t
        ensures t in rows <==> t in found
      {
        SortKeepsRows(found, t);
      }
    }

    /** `getDashboardData`: all of the caller's transactions, newest first. */
    method GetDashboardData(caller: Option<UserId>) returns (r: Outcome<seq<Txn>>)
      ensures caller.None? ==> r == Failure("Unauthorized")
      ensures caller.Some? && caller.value !in users ==> r == Failure("User not found")
      ensures r.Ok? <==> Known(caller)
      ensures r.Ok? ==>
                && NewestFirst(r.value)
                && (forall t :: t in r.value <==> t in txns.Values && t.userId == caller.value)
                && |r.value| == |Matching(txns, OwnedBy(caller.value))|
    {
      if caller.None? {
        return Failure("Unauthorized");
      }
      if caller.value !in users {
        return Failure("User not found");
      }
      var rows := FindNewestFirst(OwnedBy(caller.value));
      r := Ok(rows);
    }

    /**
     * `getAccountWithTransaction`: the caller's account with its rows, newest
     * first, or nothing when the account is not the caller's. Thrown errors
     * are rethrown with a prefix.
     */
    method GetAccountWithTransactions(caller: Option<UserId>, a: AccountId) returns (r: Outcome<Option<AccountView>>)
      ensures caller.None? ==> r == Failure("Failed to fetch account: Unauthorized")
      ensures caller.Some? && caller.value !in users ==> r == Failure("Failed to fetch account: User not found")
      ensures r.Ok? <==> Known(caller)
      ensures r.Ok? ==> (r.value.Some? <==> Owns(accounts, caller.value, a))
      ensures r.Ok? && r.value.Some? ==>
                var view := r.value.value;
                && view.account == accounts[a]
                && NewestFirst(view.transactions)
                && (forall t :: t in view.transactions <==> t in txns.Values && t.accountId == a)
                && |view.transactions| == |Matching(txns, OnAccount(a))|
    {
      if caller.None? {
        return Failure("Failed to fetch account: Unauthorized");
      }
      if caller.value !in users {
        return Failure("Failed to fetch account: User not found");
      }
      if !Owns(accounts, caller.value, a) {
        return Ok(None);
      }
      var rows := FindNewestFirst(OnAccount(a));
      r := Ok(Some(AccountView(accounts[a], rows)));
    }

    /**
     * `getCurrentBudget`: the caller's budget, if any, and the sum of the
     * caller's expenses this month, on `accountId` when one is given.
     */
    method GetCurrentBudget(caller: Option<UserId>, accountId: Option<AccountId>, now: Instant) returns (r: Outcome<BudgetView>)
      requires Valid()
      ensures caller.None? ==> r == Failure("Unauthorized")
      ensures caller.Some? && caller.value !in users ==> r == Failure("User not found")
      ensures r.Ok? <==> Known(caller)
      ensures r.Ok? ==>
                && (r.value.budget.Some? <==> caller.value in budgets)
                && (r.value.budget.Some? ==> r.value.budget.value == budgets[caller.value])
                && r.value.currentExpenses == SumWhere(txns, CountsForBudget(caller.value, accountId, now), Amount)
                && r.value.currentExpenses >= 0
    {
      if caller.None? {
        return Failure("Unauthorized");
      }
      var u := caller.value;
      if u !in users {
        return Failure("User not found");
      }
      var budget := if u in budgets then Some(budgets[u]) else None;
      var spent := SumOf(CountsForBudget(u, accountId, now), Amount);
      SumWhereNonNegative(txns, CountsForBudget(u, accountId, now), Amount);
      r := Ok(BudgetView(budget, spent));
    }

    /** `updateBudget`: the upsert keyed by the caller. */
    method UpdateBudget(caller: Option<UserId>, amount: int) returns (r: Outcome<Budget>)
      requires Valid()
      modifies this`budgets
      ensures Valid()
      ensures !r.Ok? ==> unchanged(this)
      ensures caller.None? ==> r == Failure("Unauthorized")
      ensures caller.Some? && caller.value !in users ==> r == Failure("User not found")
      ensures r.Ok? <==> Known(caller)
      ensures r.Ok? ==>
                && budgets == Upsert(old(budgets), caller.value, amount)
                && r.value == budgets[caller.value] && r.value.amount == amount
    {
      if caller.None? {
        return Failure("Unauthorized");
      }
      var u := caller.value;
      if u !in users {
        return Failure("User not found");
      }
      var updated := Upsert(budgets, u, amount);
      BudgetsKeepConsistent(accounts, txns, budgets, updated, nextId, opening);
      budgets := updated;
      r := Ok(budgets[u]);
    }

    /** `user.accounts` filtered on `isDefault: true`, first element. */
    method FindDefault(u: UserId) returns (d: Option<AccountId>)
      requires Valid()
      ensures d.Some? <==> HasDefault(accounts, u)
      ensures d.Some? ==> d.value == DefaultAccount(accounts, u)
    {
      if !HasDefault(accounts, u) {
        return None;
      }
      var a :| a in accounts && accounts[a].userId == u && accounts[a].isDefault;
      DefaultIsUnique(accounts, u, a);
      d := Some(a);
    }

    /**
     * One `check-budget` step: skip a user without a default account, else
     * sum the month's expenses on it and apply the alert rule. `sendOk` is
     * whether `sendEmail` returned.
     */
    method CheckBudget(u: UserId, now: Instant, sendOk: bool) returns (ev: Evaluation)
      requires Valid() && u in budgets
      modifies this
      ensures Valid()
      ensures ev == Checked(old(accounts), old(txns), old(budgets)[u], now, sendOk)
      ensures budgets == old(budgets)[u := ev.budget]
      ensures accounts == old(accounts) && txns == old(txns) && users == old(users)
      ensures nextId == old(nextId) && opening == old(opening)
    {
      var b := budgets[u];
      var d := FindDefault(b.userId);
      if d.None? {
        assert budgets[u := b] == budgets;
        return Evaluation(false, b);
      }
      var total := SumOf(CountsForAlert(b.userId, d.value, now), Amount);
      ev := EvaluateBudget(b, true, total, now, sendOk);
      var updated := budgets[u := ev.budget];
      BudgetsKeepConsistent(accounts, txns, budgets, updated, nextId, opening);
      budgets := updated;
    }

    /** `checkBudgetAlerts`: one step per budget; returns the users an alert email went to. */
    method CheckBudgetAlerts(now: Instant, sendOk: UserId -> bool) returns (alerted: set<UserId>)
      requires Valid()
      modifies this
      ensures Valid()
      ensures budgets.Keys == old(budgets).Keys
      ensures forall u :: u in old(budgets) ==>
                budgets[u] == Checked(old(accounts), old(txns), old(budgets)[u], now, sendOk(u)).budget
      ensures forall u :: u in alerted <==>
                u in old(budgets) && Checked(old(accounts), old(txns), old(budgets)[u], now, sendOk(u)).emailAttempted
      ensures accounts == old(accounts) && txns == old(txns) && users == old(users)
      ensures nextId == old(nextId) && opening == old(opening)
    {
      var results := CheckEach(now, sendOk);
      alerted := set u | u in results && results[u].emailAttempted;
    }

    /** The loop of `checkBudgetAlerts`: every budget checked once, each evaluation kept by user. */
    method CheckEach(now: Instant, sendOk: UserId -> bool) returns (results: map<UserId, Evaluation>)
      requires Valid()
      modifies this
      ensures Valid()
      ensures results.Keys == old(budgets).Keys && budgets.Keys == old(budgets).Keys
      ensures forall u :: u in results ==> results[u] == Checked(old(accounts), old(txns), old(budgets)[u], now, sendOk(u))
      ensures forall u :: u in old(budgets) ==> budgets[u] == results[u].budget
      ensures accounts == old(accounts) && txns == old(txns) && users == old(users)
      ensures nextId == old(nextId) && opening == old(opening)
    {
      results := map[];
      var rest := budgets.Keys;
      while rest != {}
        invariant Valid()
        invariant rest <= old(budgets).Keys && budgets.Keys == old(budgets).Keys
        invariant accounts == old(accounts) && txns == old(txns) && users == old(users)
        invariant nextId == old(nextId) && opening == old(opening)
        invariant forall u :: u in results <==> u in old(budgets) && u !in rest
        invariant forall u :: u in results ==> results[u] == Checked(accounts, txns, old(budgets)[u], now, sendOk(u))
        invariant forall u :: u in rest ==> budgets[u] == old(budgets)[u]
        invariant forall u :: u in results ==> budgets[u] == results[u].budget
        decreases |rest|
      {
        var u :| u in rest;
        var ev := CheckBudget(u, now, sendOk(u));
        results := results[u := ev];
        rest := rest - {u};
      }
    }

    /**
     * `triggerRecurringTransactions`: one `transaction.recurring.process`
     * event per row the scan selects, carrying its id and owner.
     */
    method TriggerRecurringTransactions(now: Instant) returns (events: seq<EventData>)
      ensures |events| == |Matching(txns, Scanned(now))|
      ensures forall i :: 0 <= i < |events| ==>
                && events[i].transactionId.Some? && events[i].transactionId.value in txns
                && ScanSelects(txns[events[i].transactionId.value], now)
                && events[i].userId == Some(txns[events[i].transactionId.value].userId)
      ensures forall k :: k in txns && ScanSelects(txns[k], now) ==> EventData(Some(k), Some(txns[k].userId)) in events
      ensures forall i, j :: 0 <= i < j < |events| ==> events[i].transactionId != events[j].transactionId
    {
      var ks := Select(Scanned(now));
      var m := txns;
      events := seq(|ks|, i requires 0 <= i < |ks| => EventData(Some(ks[i]), Some(m[ks[i]].userId)));
      DistinctCardinality(ks);
      forall i | 0 <= i < |events|
        ensures ScanSelects(txns[ks[i]], now)
      {
        assert ks[i] in Elements(ks);
      }
      forall k | k in txns && ScanSelects(txns[k], now)
        ensures EventData(Some(k), Some(txns[k].userId)) in events
      {
        assert k in Matching(txns, Scanned(now));
        var i :| 0 <= i < |ks| && ks[i] == k;
        assert events[i] == EventData(Some(k), Some(txns[k].userId));
      }
    }

    /**
     * `processRecurringTransaction`: with both ids present, fetch the
     * owner's row; when it is due, insert its non-recurring copy dated now,
     * credit its signed amount to its account and advance its dates. The due
     * check runs before the store's transaction opens; in this sequential
     * model the two steps are one, and every `new Date()` of the step is `now`.
     */
    method ProcessRecurringTransaction(ev: EventData, now: Instant) returns (r: ProcessOutcome)
      requires Valid()
      modifies this`txns, this`accounts, this`nextId
      ensures Valid()
      ensures !r.Processed? ==> unchanged(this)
      ensures ev.transactionId.None? || ev.userId.None? ==> r == MissingEventData
      ensures r.Processed? <==>
                && ev.transactionId.Some? && ev.userId.Some?
                && ev.transactionId.value in old(txns) && old(txns)[ev.transactionId.value].userId == ev.userId.value
                && IsTransactionDue(old(txns)[ev.transactionId.value], now)
      ensures r.Processed? ==>
                var k := ev.transactionId.value;
                var orig := old(txns)[k];
                && r.id == old(nextId) && nextId == old(nextId) + 1
                && txns == old(txns)[k := Advanced(orig, now)][r.id := Materialized(orig, r.id, now)]
                && orig.accountId in old(accounts)
                && accounts == Credit(old(accounts), orig.accountId, Signed(orig))
                && (IsTransactionDue(txns[k], now) <==> orig.recurringInterval.None?)
    {
      if ev.transactionId.None? || ev.userId.None? {
        return MissingEventData;
      }
      var k := ev.transactionId.value;
      if !(k in txns && txns[k].userId == ev.userId.value) || !IsTransactionDue(txns[k], now) {
        return Skipped;
      }
      var orig := txns[k];
      r := Processed(nextId);
      MaterializeRow(k, now);
      RedeliveryAtSameInstant(orig, now);
    }

    /** Insert the copy of row `k` under the next id, credit its account and advance row `k`. */
    method MaterializeRow(k: TxnId, now: Instant)
      requires Valid() && k in txns
      modifies this`txns, this`accounts, this`nextId
      ensures Valid()
      ensures nextId == old(nextId) + 1 && k != old(nextId)
      ensures old(txns)[k].accountId in old(accounts)
      ensures txns == old(txns)[k := Advanced(old(txns)[k], now)][old(nextId) := Materialized(old(txns)[k], old(nextId), now)]
      ensures accounts == Credit(old(accounts), old(txns)[k].accountId, Signed(old(txns)[k]))
    {
      var orig := txns[k];
      ProcessKeepsConsistent(accounts, txns, budgets, nextId, opening, k, now);
      var rows := txns[k := Advanced(orig, now)][nextId := Materialized(orig, nextId, now)];
      var acc := Credit(accounts, orig.accountId, Signed(orig));
      txns, accounts, nextId := rows, acc, nextId + 1;
    }

    /** `getMonthlyStats`: the reduce over the user's rows in the month window. */
    method GetMonthlyStats(u: UserId, month: Instant) returns (stats: Stats)
      ensures stats.totalIncome + stats.totalExpenses == SumWhere(txns, InStatsWindow(u, month), Amount)
      ensures stats.totalExpenses == SumMap(stats.byCategory, Id)
      ensures stats.transactionCount == |Matching(txns, InStatsWindow(u, month))|
      ensures forall c :: CategoryTotal(stats.byCategory, c) == SumWhere(txns, InStatsWindow(u, month), ExpenseIn(c))
    {
      var p := InStatsWindow(u, month);
      var ks := Select(p);
      var rows := Rows(ks);
      stats := FoldMonthlyStats(rows);
      StatsOfRows(rows);
      DistinctCardinality(ks);
      SumSeqOfRows(txns, ks, rows, Amount);
      SumKeysIsSumMap(txns, ks, Amount);
      forall c
        ensures CategoryTotal(stats.byCategory, c) == SumWhere(txns, p, ExpenseIn(c))
      {
        SumSeqOfRows(txns, ks, rows, ExpenseIn(c));
        SumKeysIsSumMap(txns, ks, ExpenseIn(c));
      }
    }
  }
}
