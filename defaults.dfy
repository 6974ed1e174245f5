/**
 * The default-account flags: `updateMany` unsetting a user's defaults, the
 * update that sets one (actions/account.js) and the default chosen when an
 * account is created (actions/dashboard.js).
 */
module Defaults {
  import opened Records

  /** No user has two default accounts. */
  ghost predicate AtMostOneDefault(accounts: map<AccountId, Account>) {
    forall a, b ::
      (a in accounts && b in accounts && accounts[a].isDefault && accounts[b].isDefault
       && accounts[a].userId == accounts[b].userId) ==> a == b
  }

  /** `a` is a default account of user `u` and no other account of `u` is. */
  ghost predicate IsOnlyDefault(accounts: map<AccountId, Account>, u: UserId, a: AccountId) {
    && a in accounts && accounts[a].userId == u && accounts[a].isDefault
    && forall b :: b in accounts && accounts[b].userId == u && accounts[b].isDefault ==> b == a
  }

  predicate HasAccount(accounts: map<AccountId, Account>, u: UserId) {
    exists a :: a in accounts && accounts[a].userId == u
  }

  predicate HasDefault(accounts: map<AccountId, Account>, u: UserId) {
    exists a :: a in accounts && accounts[a].userId == u && accounts[a].isDefault
  }

  /** The default account of `u`; under AtMostOneDefault it is the only one. */
  ghost function DefaultAccount(accounts: map<AccountId, Account>, u: UserId): (d: AccountId)
    requires HasDefault(accounts, u)
    ensures d in accounts && accounts[d].userId == u && accounts[d].isDefault
  {
    var d :| d in accounts && accounts[d].userId == u && accounts[d].isDefault; d
  }

  /** Any default account found for `u` is the default account. */
  lemma DefaultIsUnique(accounts: map<AccountId, Account>, u: UserId, d: AccountId)
    requires AtMostOneDefault(accounts)
    requires d in accounts && accounts[d].userId == u && accounts[d].isDefault
    ensures HasDefault(accounts, u) && DefaultAccount(accounts, u) == d
  {
  }

  /** `account.updateMany({ where: { userId: u, isDefault: true }, data: { isDefault: false } })`. */
  function UnsetDefaults(accounts: map<AccountId, Account>, u: UserId): (r: map<AccountId, Account>)
    ensures r.Keys == accounts.Keys
    ensures !HasDefault(r, u)
    ensures forall a :: a in accounts && accounts[a].userId != u ==> r[a] == accounts[a]
    ensures forall a :: a in accounts ==> r[a].(isDefault := accounts[a].isDefault) == accounts[a]
    ensures AtMostOneDefault(accounts) ==> AtMostOneDefault(r)
  {
    map a | a in accounts :: if accounts[a].userId == u then accounts[a].(isDefault := false) else accounts[a]
  }

  /** Unset the user's defaults, then set `a` (owned by `u`) as default. */
  function MakeDefault(accounts: map<AccountId, Account>, u: UserId, a: AccountId): (r: map<AccountId, Account>)
    requires a in accounts && accounts[a].userId == u
    ensures r.Keys == accounts.Keys
    ensures IsOnlyDefault(r, u, a)
    ensures forall b :: b in accounts && accounts[b].userId != u ==> r[b] == accounts[b]
    ensures forall b :: b in accounts ==> r[b].(isDefault := accounts[b].isDefault) == accounts[b]
    ensures AtMostOneDefault(accounts) ==> AtMostOneDefault(r)
  {
    var cleared := UnsetDefaults(accounts, u);
    cleared[a := cleared[a].(isDefault := true)]
  }

  /**
   * `CreateAccount`: the new account is default when it is the user's first or
   * the switch is on, and then every earlier default of the user is unset.
   */
  function AddAccount(accounts: map<AccountId, Account>, acct: Account, wantsDefault: bool): (r: map<AccountId, Account>)
    requires acct.id !in accounts
    ensures r.Keys == accounts.Keys + {acct.id}
    ensures r[acct.id] == acct.(isDefault := !HasAccount(accounts, acct.userId) || wantsDefault)
    ensures forall b :: b in accounts ==> r[b].(isDefault := accounts[b].isDefault) == accounts[b]
    ensures forall b :: b in accounts && accounts[b].userId != acct.userId ==> r[b] == accounts[b]
  {
    var isDefault := !HasAccount(accounts, acct.userId) || wantsDefault;
    var base := if isDefault then UnsetDefaults(accounts, acct.userId) else accounts;
    base[acct.id := acct.(isDefault := isDefault)]
  }

  /** A user's first account is default, whatever the switch says. */
  lemma FirstAccountIsDefault(accounts: map<AccountId, Account>, acct: Account, wantsDefault: bool)
    requires acct.id !in accounts && !HasAccount(accounts, acct.userId)
    ensures IsOnlyDefault(AddAccount(accounts, acct, wantsDefault), acct.userId, acct.id)
  {
  }

  /** A new default account is the user's only default. */
  lemma DefaultAccountIsOnlyDefault(accounts: map<AccountId, Account>, acct: Account)
    requires acct.id !in accounts
    ensures IsOnlyDefault(AddAccount(accounts, acct, true), acct.userId, acct.id)
  {
    var r := AddAccount(accounts, acct, true);
    var cleared := UnsetDefaults(accounts, acct.userId);
    assert r == cleared[acct.id := acct.(isDefault := true)];
  }

  /** A non-default account added beside existing ones changes no flag. */
  lemma NonDefaultAccountKeepsFlags(accounts: map<AccountId, Account>, acct: Account)
    requires acct.id !in accounts && HasAccount(accounts, acct.userId)
    ensures var r := AddAccount(accounts, acct, false);
            && !r[acct.id].isDefault
            && forall b :: b in accounts ==> r[b] == accounts[b]
  {
  }

  /** Creating an account keeps at most one default per user. */
  lemma AddAccountKeepsAtMostOneDefault(accounts: map<AccountId, Account>, acct: Account, wantsDefault: bool)
    requires acct.id !in accounts && AtMostOneDefault(accounts)
    ensures AtMostOneDefault(AddAccount(accounts, acct, wantsDefault))
  {
    var r := AddAccount(accounts, acct, wantsDefault);
    if !HasAccount(accounts, acct.userId) || wantsDefault {
      var cleared := UnsetDefaults(accounts, acct.userId);
      assert r == cleared[acct.id := acct.(isDefault := true)];
    }
  }

  /**
   * A user who had a default account and creates a non-default one still has
   * exactly that default.
   */
  lemma NonDefaultAccountKeepsTheDefault(accounts: map<AccountId, Account>, acct: Account, d: AccountId)
    requires acct.id !in accounts && HasAccount(accounts, acct.userId)
    requires IsOnlyDefault(accounts, acct.userId, d)
    ensures IsOnlyDefault(AddAccount(accounts, acct, false), acct.userId, d)
  {
  }
}
