/**
 * The invariant the three tables keep together, stated on values, and one
 * lemma per kind of write showing that the write keeps it.
 */
module Store {
  import opened Calendar
  import opened Records
  import opened Sums
  import opened Balance
  import opened Defaults
  import opened BudgetRule
  import opened Recurrence

  /**
   * Rows are stored under their ids, which are below the id counter; every
   * transaction is on a stored account and has a positive amount.
   */
  ghost predicate Tables(accounts: map<AccountId, Account>, txns: map<TxnId, Txn>, nextId: nat) {
    && (forall a :: a in accounts ==> accounts[a].id == a && a < nextId)
    && (forall k :: k in txns ==> txns[k].id == k && k < nextId && txns[k].accountId in accounts && txns[k].amount > 0)
  }

  ghost predicate Consistent(accounts: map<AccountId, Account>, txns: map<TxnId, Txn>, budgets: map<UserId, Budget>,
                             nextId: nat, opening: map<AccountId, int>) {
    && Tables(accounts, txns, nextId)
    && KeyedByUser(budgets)
    && AtMostOneDefault(accounts)
    && Balanced(accounts, txns, opening)
  }

  /** Two account tables that differ only in balances have the same defaults. */
  lemma SameFlagsSameDefaults(accounts: map<AccountId, Account>, accounts': map<AccountId, Account>)
    requires AtMostOneDefault(accounts)
    requires accounts'.Keys == accounts.Keys
    requires forall a :: a in accounts ==>
               accounts'[a].isDefault == accounts[a].isDefault && accounts'[a].userId == accounts[a].userId
    ensures AtMostOneDefault(accounts')
  {
  }

  lemma CreateKeepsConsistent(accounts: map<AccountId, Account>, txns: map<TxnId, Txn>, budgets: map<UserId, Budget>,
                              nextId: nat, opening: map<AccountId, int>, t: Txn)
    requires Consistent(accounts, txns, budgets, nextId, opening)
    requires t.id == nextId && t.accountId in accounts && t.amount > 0
    ensures Consistent(Credit(accounts, t.accountId, Signed(t)), txns[t.id := t], budgets, nextId + 1, opening)
  {
    CreatePreservesBalance(accounts, txns, opening, t);
    SameFlagsSameDefaults(accounts, Credit(accounts, t.accountId, Signed(t)));
  }

  lemma ProcessKeepsConsistent(accounts: map<AccountId, Account>, txns: map<TxnId, Txn>, budgets: map<UserId, Budget>,
                               nextId: nat, opening: map<AccountId, int>, k: TxnId, now: Instant)
    requires Consistent(accounts, txns, budgets, nextId, opening)
    requires k in txns
    ensures Consistent(Credit(accounts, txns[k].accountId, Signed(txns[k])),
                       txns[k := Advanced(txns[k], now)][nextId := Materialized(txns[k], nextId, now)],
                       budgets, nextId + 1, opening)
  {
    ProcessPreservesBalance(accounts, txns, opening, k, nextId, now);
    SameFlagsSameDefaults(accounts, Credit(accounts, txns[k].accountId, Signed(txns[k])));
  }

  lemma UpdateKeepsTables(accounts: map<AccountId, Account>, txns: map<TxnId, Txn>, nextId: nat, k: TxnId, updated: Txn)
    requires Tables(accounts, txns, nextId)
    requires k in txns && updated.id == k && updated.accountId in accounts && updated.amount > 0
    ensures Tables(MoveCredit(accounts, txns[k], updated), txns[k := updated], nextId)
  {
    var r := MoveCredit(accounts, txns[k], updated);
    assert forall a :: a in r ==> r[a].id == accounts[a].id;
  }

  lemma UpdateKeepsDefaults(accounts: map<AccountId, Account>, orig: Txn, updated: Txn)
    requires AtMostOneDefault(accounts)
    requires orig.accountId in accounts && updated.accountId in accounts
    ensures AtMostOneDefault(MoveCredit(accounts, orig, updated))
  {
    var r := MoveCredit(accounts, orig, updated);
    assert forall a :: a in accounts ==> r[a].(balance := accounts[a].balance) == accounts[a];
    SameFlagsSameDefaults(accounts, r);
  }

  lemma UpdateKeepsConsistent(accounts: map<AccountId, Account>, txns: map<TxnId, Txn>, budgets: map<UserId, Budget>,
                              nextId: nat, opening: map<AccountId, int>, k: TxnId, updated: Txn)
    requires Consistent(accounts, txns, budgets, nextId, opening)
    requires k in txns && updated.id == k && updated.accountId in accounts && updated.amount > 0
    ensures Consistent(MoveCredit(accounts, txns[k], updated), txns[k := updated], budgets, nextId, opening)
  {
    MoveCreditPreservesBalance(accounts, txns, opening, k, updated);
    UpdateKeepsTables(accounts, txns, nextId, k, updated);
    UpdateKeepsDefaults(accounts, txns[k], updated);
  }

  /** Every listed row refers to an existing account. */
  lemma RowsHaveAccounts(accounts: map<AccountId, Account>, txns: map<TxnId, Txn>, nextId: nat, ks: seq<TxnId>)
    requires Tables(accounts, txns, nextId)
    requires forall i :: 0 <= i < |ks| ==> ks[i] in txns
    ensures forall i :: 0 <= i < |ks| ==> txns[ks[i]].accountId in accounts
  {
  }

  lemma BulkDeleteKeepsConsistent(accounts: map<AccountId, Account>, txns: map<TxnId, Txn>, budgets: map<UserId, Budget>,
                                  nextId: nat, opening: map<AccountId, int>, s: set<TxnId>)
    requires Consistent(accounts, txns, budgets, nextId, opening)
    ensures Consistent(DebitEachAccount(accounts, txns, s), txns - s, budgets, nextId, opening)
  {
    DebitEachAccountPreservesBalance(accounts, txns, opening, s);
    SameFlagsSameDefaults(accounts, DebitEachAccount(accounts, txns, s));
  }

  /** Writes to the default flags alone keep the invariant when one default per user remains. */
  lemma FlagsKeepConsistent(accounts: map<AccountId, Account>, accounts': map<AccountId, Account>, txns: map<TxnId, Txn>,
                            budgets: map<UserId, Budget>, nextId: nat, opening: map<AccountId, int>)
    requires Consistent(accounts, txns, budgets, nextId, opening)
    requires accounts'.Keys == accounts.Keys
    requires forall a :: a in accounts ==> accounts'[a].(isDefault := accounts[a].isDefault) == accounts[a]
    requires AtMostOneDefault(accounts')
    ensures Consistent(accounts', txns, budgets, nextId, opening)
  {
    FlagsPreserveBalance(accounts, accounts', txns, opening);
    assert forall a :: a in accounts ==> accounts'[a].id == accounts[a].id;
  }

  lemma AddAccountKeepsTables(accounts: map<AccountId, Account>, txns: map<TxnId, Txn>, nextId: nat,
                              acct: Account, wantsDefault: bool)
    requires Tables(accounts, txns, nextId) && acct.id == nextId
    ensures Tables(AddAccount(accounts, acct, wantsDefault), txns, nextId + 1)
  {
    var r := AddAccount(accounts, acct, wantsDefault);
    assert forall a :: a in accounts ==> r[a].id == accounts[a].id;
  }

  lemma AddAccountKeepsBalance(accounts: map<AccountId, Account>, txns: map<TxnId, Txn>, nextId: nat,
                               opening: map<AccountId, int>, acct: Account, wantsDefault: bool)
    requires Tables(accounts, txns, nextId) && Balanced(accounts, txns, opening) && acct.id == nextId
    ensures Balanced(AddAccount(accounts, acct, wantsDefault), txns, opening[acct.id := acct.balance])
  {
    var r := AddAccount(accounts, acct, wantsDefault);
    OpenAccountPreservesBalance(accounts, txns, opening, acct);
    FlagsPreserveBalance(accounts[acct.id := acct], r, txns, opening[acct.id := acct.balance]);
  }

  lemma AddAccountKeepsConsistent(accounts: map<AccountId, Account>, txns: map<TxnId, Txn>, budgets: map<UserId, Budget>,
                                  nextId: nat, opening: map<AccountId, int>, acct: Account, wantsDefault: bool)
    requires Consistent(accounts, txns, budgets, nextId, opening)
    requires acct.id == nextId
    ensures Consistent(AddAccount(accounts, acct, wantsDefault), txns, budgets, nextId + 1, opening[acct.id := acct.balance])
  {
    AddAccountKeepsAtMostOneDefault(accounts, acct, wantsDefault);
    AddAccountKeepsTables(accounts, txns, nextId, acct, wantsDefault);
    AddAccountKeepsBalance(accounts, txns, nextId, opening, acct, wantsDefault);
  }

  lemma BudgetsKeepConsistent(accounts: map<AccountId, Account>, txns: map<TxnId, Txn>, budgets: map<UserId, Budget>,
                              budgets': map<UserId, Budget>, nextId: nat, opening: map<AccountId, int>)
    requires Consistent(accounts, txns, budgets, nextId, opening)
    requires KeyedByUser(budgets')
    ensures Consistent(accounts, txns, budgets', nextId, opening)
  {
  }
}
