/**
 * The balance engine's invariant: every account's balance is its opening
 * balance plus the signed effects of the transactions on it; and the balance
 * updates that creating, editing, deleting and materialising transactions
 * apply (actions/transaction.js, actions/account.js, lib/ingest/function.js).
 */
module Balance {
  import opened Wrappers
  import opened Calendar
  import opened Records
  import opened Sums
  import opened Recurrence

  /** `account.update({ data: { balance: { increment: delta } } })`. */
  function Credit(accounts: map<AccountId, Account>, a: AccountId, delta: int): (r: map<AccountId, Account>)
    requires a in accounts
    ensures r.Keys == accounts.Keys
    ensures r[a].balance == accounts[a].balance + delta
    ensures r[a].(balance := accounts[a].balance) == accounts[a]
    ensures forall b :: b in accounts && b != a ==> r[b] == accounts[b]
  {
    accounts[a := accounts[a].(balance := accounts[a].balance + delta)]
  }

  /** The signed effects of all transactions on account `a`. */
  ghost function SumEffects(txns: map<TxnId, Txn>, a: AccountId): int {
    SumMap(txns, EffectOn(a))
  }

  /** balance == opening balance + sum of signed effects, for every account. */
  ghost predicate Balanced(accounts: map<AccountId, Account>, txns: map<TxnId, Txn>, opening: map<AccountId, int>) {
    forall a {:trigger SumEffects(txns, a)} ::
      a in accounts ==> a in opening && accounts[a].balance == opening[a] + SumEffects(txns, a)
  }

  /** An account no transaction refers to has no effects on it. */
  lemma NoEffectsOnUnusedAccount(txns: map<TxnId, Txn>, a: AccountId)
    requires forall k :: k in txns ==> txns[k].accountId != a
    ensures SumEffects(txns, a) == 0
  {
    SumMapZero(txns, EffectOn(a));
  }

  /** Opening a new account with its opening balance keeps the invariant. */
  lemma OpenAccountPreservesBalance(accounts: map<AccountId, Account>, txns: map<TxnId, Txn>,
                                    opening: map<AccountId, int>, acct: Account)
    requires Balanced(accounts, txns, opening)
    requires forall k :: k in txns ==> txns[k].accountId != acct.id
    ensures Balanced(accounts[acct.id := acct], txns, opening[acct.id := acct.balance])
  {
    NoEffectsOnUnusedAccount(txns, acct.id);
    forall a | a in accounts
      ensures a in opening
    {
      var _ := SumEffects(txns, a);
    }
  }

  /** Changing only the default flags keeps the invariant. */
  lemma FlagsPreserveBalance(accounts: map<AccountId, Account>, accounts': map<AccountId, Account>,
                             txns: map<TxnId, Txn>, opening: map<AccountId, int>)
    requires Balanced(accounts, txns, opening)
    requires accounts'.Keys == accounts.Keys
    requires forall a :: a in accounts ==> accounts'[a].balance == accounts[a].balance
    ensures Balanced(accounts', txns, opening)
  {
    forall a | a in accounts'
      ensures a in opening && accounts'[a].balance == opening[a] + SumEffects(txns, a)
    {
      var e := SumEffects(txns, a);
      assert a in accounts'.Keys;
    }
  }

  /** Create: insert the row and add its signed effect to its account. */
  lemma {:induction false} CreatePreservesBalance(accounts: map<AccountId, Account>, txns: map<TxnId, Txn>,
                                                  opening: map<AccountId, int>, t: Txn)
    requires Balanced(accounts, txns, opening)
    requires t.id !in txns && t.accountId in accounts
    ensures Balanced(Credit(accounts, t.accountId, Signed(t)), txns[t.id := t], opening)
  {
    forall a | a in accounts
      ensures SumEffects(txns[t.id := t], a) == SumEffects(txns, a) + EffectOn(a)(t)
    {
      SumMapInsert(txns, EffectOn(a), t.id, t);
    }
  }

  /** Processing: the copy's effect is credited, and advancing the original changes no effect. */
  lemma {:induction false} ProcessPreservesBalance(accounts: map<AccountId, Account>, txns: map<TxnId, Txn>,
                                                   opening: map<AccountId, int>, k: TxnId, id: TxnId, now: Instant)
    requires Balanced(accounts, txns, opening)
    requires k in txns && txns[k].accountId in accounts && id !in txns
    ensures Balanced(Credit(accounts, txns[k].accountId, Signed(txns[k])),
                     txns[k := Advanced(txns[k], now)][id := Materialized(txns[k], id, now)], opening)
  {
    var orig := txns[k];
    var mid := txns[k := Advanced(orig, now)];
    forall a | a in accounts
      ensures SumEffects(mid, a) == SumEffects(txns, a)
    {
      SumMapUpdate(txns, EffectOn(a), k, Advanced(orig, now));
    }
    assert Balanced(accounts, mid, opening);
    CreatePreservesBalance(accounts, mid, opening, Materialized(orig, id, now));
  }

  /**
   * Update as written: the account named in the new data receives
   * newSigned - oldSigned, the old signed effect taken from the stored row.
   */
  function UpdateCredit(accounts: map<AccountId, Account>, orig: Txn, updated: Txn): (r: map<AccountId, Account>)
    requires updated.accountId in accounts
    ensures r.Keys == accounts.Keys
    ensures r[updated.accountId].balance == accounts[updated.accountId].balance + Signed(updated) - Signed(orig)
    ensures forall b :: b in accounts && b != updated.accountId ==> r[b] == accounts[b]
  {
    Credit(accounts, updated.accountId, Signed(updated) - Signed(orig))
  }

  lemma UpdateInPlacePreservesBalance(accounts: map<AccountId, Account>, txns: map<TxnId, Txn>,
                                      opening: map<AccountId, int>, k: TxnId, updated: Txn)
    requires Balanced(accounts, txns, opening)
    requires k in txns && updated.accountId == txns[k].accountId && updated.accountId in accounts
    ensures Balanced(UpdateCredit(accounts, txns[k], updated), txns[k := updated], opening)
  {
    MoveCreditPreservesBalance(accounts, txns, opening, k, updated);
  }

  /**
   * Moving a transaction to another account as written: the old account keeps
   * the old effect and the new one receives only the difference.
   */
  lemma UpdateMovingAccountBreaksBalance()
    ensures var t := Txn(5, 7, 0, Income, 1000, "salary", Epoch, "", false, None, None, None, Completed);
            var moved := t.(accountId := 1);
            var accounts := map[0 := Account(0, 7, "a", "CURRENT", 1000, true),
                                1 := Account(1, 7, "b", "SAVINGS", 0, false)];
            var opening := map[0 := 0, 1 := 0];
            && Balanced(accounts, map[5 := t], opening)
            && UpdateCredit(accounts, t, moved)[0].balance == 1000
            && UpdateCredit(accounts, t, moved)[1].balance == 0
            && !Balanced(UpdateCredit(accounts, t, moved), map[5 := moved], opening)
  {
    var t := Txn(5, 7, 0, Income, 1000, "salary", Epoch, "", false, None, None, None, Completed);
    var moved := t.(accountId := 1);
    var none: map<TxnId, Txn> := map[];
    SumMapEmpty(none, EffectOn(0));
    SumMapEmpty(none, EffectOn(1));
    SumMapInsert(none, EffectOn(0), 5, t);
    SumMapInsert(none, EffectOn(1), 5, t);
    SumMapInsert(none, EffectOn(0), 5, moved);
    assert none[5 := t] == map[5 := t];
    assert none[5 := moved] == map[5 := moved];
    assert SumEffects(map[5 := t], 0) == 1000 && SumEffects(map[5 := t], 1) == 0;
    assert SumEffects(map[5 := moved], 0) == 0;
  }

  /**
   * For every input: moving a row with a non-zero amount to another account
   * leaves the old account holding the moved row's effect.
   */
  lemma UpdateMovingAccountAlwaysBreaksBalance(accounts: map<AccountId, Account>, txns: map<TxnId, Txn>,
                                              opening: map<AccountId, int>, k: TxnId, updated: Txn)
    requires Balanced(accounts, txns, opening)
    requires k in txns && txns[k].accountId in accounts && updated.accountId in accounts
    requires updated.accountId != txns[k].accountId && txns[k].amount != 0
    ensures UpdateCredit(accounts, txns[k], updated)[txns[k].accountId] == accounts[txns[k].accountId]
    ensures !Balanced(UpdateCredit(accounts, txns[k], updated), txns[k := updated], opening)
  {
    var a := txns[k].accountId;
    SumMapUpdate(txns, EffectOn(a), k, updated);
    assert SumEffects(txns[k := updated], a) == SumEffects(txns, a) - Signed(txns[k]);
  }

  /** Corrected update: take the old effect off the old account, add the new one to the new account. */
  function MoveCredit(accounts: map<AccountId, Account>, orig: Txn, updated: Txn): (r: map<AccountId, Account>)
    requires orig.accountId in accounts && updated.accountId in accounts
    ensures r.Keys == accounts.Keys
    ensures forall a :: a in accounts ==>
              && r[a].balance == accounts[a].balance - EffectOn(a)(orig) + EffectOn(a)(updated)
              && r[a].(balance := accounts[a].balance) == accounts[a]
    ensures orig.accountId == updated.accountId ==> r == UpdateCredit(accounts, orig, updated)
  {
    Credit(Credit(accounts, orig.accountId, -Signed(orig)), updated.accountId, Signed(updated))
  }

  lemma MoveCreditPreservesBalance(accounts: map<AccountId, Account>, txns: map<TxnId, Txn>,
                                   opening: map<AccountId, int>, k: TxnId, updated: Txn)
    requires Balanced(accounts, txns, opening)
    requires k in txns && txns[k].accountId in accounts && updated.accountId in accounts
    ensures Balanced(MoveCredit(accounts, txns[k], updated), txns[k := updated], opening)
  {
    var r := MoveCredit(accounts, txns[k], updated);
    forall a | a in r
      ensures a in opening && r[a].balance == opening[a] + SumEffects(txns[k := updated], a)
    {
      MoveCreditOnAccount(accounts, txns, opening, k, updated, a);
    }
  }

  lemma MoveCreditOnAccount(accounts: map<AccountId, Account>, txns: map<TxnId, Txn>,
                            opening: map<AccountId, int>, k: TxnId, updated: Txn, a: AccountId)
    requires Balanced(accounts, txns, opening)
    requires k in txns && txns[k].accountId in accounts && updated.accountId in accounts
    requires a in accounts
    ensures a in opening
    ensures MoveCredit(accounts, txns[k], updated)[a].balance == opening[a] + SumEffects(txns[k := updated], a)
  {
    var e := SumEffects(txns, a);
    SumMapUpdate(txns, EffectOn(a), k, updated);
  }

  /** All rows with keys in `s` are on account `a`. */
  ghost predicate OnOneAccount(txns: map<TxnId, Txn>, s: set<TxnId>, a: AccountId) {
    forall k :: k in s && k in txns ==> txns[k].accountId == a
  }

  /**
   * Bulk delete as written: the account of the first fetched row receives
   * the sum of the EXPENSE amounts minus the sum of the INCOME amounts.
   */
  ghost function BulkCredit(accounts: map<AccountId, Account>, txns: map<TxnId, Txn>, s: set<TxnId>, first: TxnId): (r: map<AccountId, Account>)
    requires first in txns && txns[first].accountId in accounts
    ensures r.Keys == accounts.Keys
    ensures r[txns[first].accountId].balance == accounts[txns[first].accountId].balance - SumMap(Restrict(txns, s), Signed)
    ensures r[txns[first].accountId].(balance := accounts[txns[first].accountId].balance) == accounts[txns[first].accountId]
    ensures forall a :: a in accounts && a != txns[first].accountId ==> r[a] == accounts[a]
  {
    Credit(accounts, txns[first].accountId, -SumMap(Restrict(txns, s), Signed))
  }

  lemma {:induction false} BulkDeleteOneAccountPreservesBalance(accounts: map<AccountId, Account>, txns: map<TxnId, Txn>,
                                                                opening: map<AccountId, int>, s: set<TxnId>, first: TxnId)
    requires Balanced(accounts, txns, opening)
    requires first in s && first in txns && txns[first].accountId in accounts
    requires OnOneAccount(txns, s, txns[first].accountId)
    ensures Balanced(BulkCredit(accounts, txns, s, first), txns - s, opening)
  {
    DebitEachAccountOnOneAccount(accounts, txns, s, first);
    DebitEachAccountPreservesBalance(accounts, txns, opening, s);
  }

  /**
   * Rows on two accounts: an account other than the first row's, holding
   * one of the deleted rows, keeps a balance its remaining rows no longer add
   * up to.
   */
  lemma {:induction false} BulkDeleteAcrossAccountsBreaksBalance(accounts: map<AccountId, Account>, txns: map<TxnId, Txn>,
                                                                 opening: map<AccountId, int>, s: set<TxnId>, first: TxnId, k: TxnId)
    requires Balanced(accounts, txns, opening)
    requires first in s && first in txns && txns[first].accountId in accounts
    requires k in s && k in txns && txns[k].accountId in accounts && txns[k].amount > 0
    requires txns[k].accountId != txns[first].accountId
    requires forall j :: j in s && j in txns && j != k ==> txns[j].accountId != txns[k].accountId
    ensures !Balanced(BulkCredit(accounts, txns, s, first), txns - s, opening)
  {
    var b := txns[k].accountId;
    var f := EffectOn(b);
    var gone := Restrict(txns, s);
    forall j | j in gone && j != k
      ensures f(gone[j]) == 0
    {
      assert gone[j] == txns[j];
    }
    SumMapSingle(gone, f, k);
    SumMapSplit(txns, f, s);
    assert SumEffects(txns - s, b) == SumEffects(txns, b) - Signed(txns[k]);
    var after := BulkCredit(accounts, txns, s, first);
    assert after[b] == accounts[b];
    assert accounts[b].balance == opening[b] + SumEffects(txns, b);
    assert after[b].balance != opening[b] + SumEffects(txns - s, b);
  }

  /** The signed amount of a row not on any account of `aset`. */
  function OffAccounts(aset: set<AccountId>): Txn -> int {
    (t: Txn) => if t.accountId in aset then 0 else Signed(t)
  }

  /**
   * Rows whose accounts are all in `aset + rest`, where every account of
   * `rest` nets to zero: the rows off `aset` net to zero.
   */
  lemma {:induction false} OffAccountsNetZero(gone: map<TxnId, Txn>, aset: set<AccountId>, rest: set<AccountId>)
    requires forall k :: k in gone ==> gone[k].accountId in aset + rest
    requires forall b :: b in rest ==> SumMap(gone, EffectOn(b)) == 0
    ensures SumMap(gone, OffAccounts(aset)) == 0
    decreases |rest|
  {
    if rest == {} {
      OffAccountsOfNone(gone, aset);
    } else {
      var b :| b in rest;
      var rest' := rest - {b};
      assert |rest'| < |rest| by {
        assert rest == rest' + {b} && b !in rest';
      }
      assert forall k :: k in gone ==> gone[k].accountId in (aset + {b}) + rest' by {
        assert aset + rest == (aset + {b}) + rest';
      }
      OffAccountsNetZero(gone, aset + {b}, rest');
      OffAccountsStep(gone, aset, b);
    }
  }

  /** No row is off `aset`: nothing is left to add up. */
  lemma OffAccountsOfNone(gone: map<TxnId, Txn>, aset: set<AccountId>)
    requires forall k :: k in gone ==> gone[k].accountId in aset
    ensures SumMap(gone, OffAccounts(aset)) == 0
  {
    SumMapZero(gone, OffAccounts(aset));
  }

  /** The rows off `aset` are those off `aset + {b}` and those on `b`. */
  lemma OffAccountsStep(gone: map<TxnId, Txn>, aset: set<AccountId>, b: AccountId)
    ensures SumMap(gone, OffAccounts(aset))
         == SumMap(gone, OffAccounts(aset + {b})) + (if b in aset then 0 else SumMap(gone, EffectOn(b)))
  {
    if b in aset {
      assert aset + {b} == aset;
    } else {
      SumMapAdd(gone, OffAccounts(aset + {b}), EffectOn(b), OffAccounts(aset));
    }
  }

  /**
   * The as-written bulk delete keeps the invariant exactly when, on every
   * account other than the first row's, the deleted rows net to zero.
   */
  lemma {:induction false} BulkDeleteBalancedIffOthersNetZero(accounts: map<AccountId, Account>, txns: map<TxnId, Txn>,
                                                              opening: map<AccountId, int>, s: set<TxnId>, first: TxnId)
    requires Balanced(accounts, txns, opening)
    requires first in txns && txns[first].accountId in accounts
    requires forall k :: k in s && k in txns ==> txns[k].accountId in accounts
    ensures Balanced(BulkCredit(accounts, txns, s, first), txns - s, opening)
        <==> forall b :: b in accounts && b != txns[first].accountId ==> SumMap(Restrict(txns, s), EffectOn(b)) == 0
  {
    var a := txns[first].accountId;
    var gone := Restrict(txns, s);
    if forall b :: b in accounts && b != a ==> SumMap(gone, EffectOn(b)) == 0 {
      assert forall k :: k in gone ==> gone[k].accountId in {a} + (accounts.Keys - {a});
      OffAccountsNetZero(gone, {a}, accounts.Keys - {a});
      SumMapAdd(gone, EffectOn(a), OffAccounts({a}), Signed);
      BulkCreditWhenOthersNetZero(accounts, txns, opening, s, first);
    } else {
      var b :| b in accounts && b != a && SumMap(gone, EffectOn(b)) != 0;
      BulkCreditOffOnOther(accounts, txns, opening, s, first, b);
    }
  }

  /** Every other account nets to zero, and so the first one takes it all. */
  lemma BulkCreditWhenOthersNetZero(accounts: map<AccountId, Account>, txns: map<TxnId, Txn>,
                                    opening: map<AccountId, int>, s: set<TxnId>, first: TxnId)
    requires Balanced(accounts, txns, opening)
    requires first in txns && txns[first].accountId in accounts
    requires forall b :: b in accounts && b != txns[first].accountId ==> SumMap(Restrict(txns, s), EffectOn(b)) == 0
    requires SumMap(Restrict(txns, s), Signed) == SumMap(Restrict(txns, s), EffectOn(txns[first].accountId))
    ensures Balanced(BulkCredit(accounts, txns, s, first), txns - s, opening)
  {
    var after := BulkCredit(accounts, txns, s, first);
    forall b | b in after
      ensures b in opening && after[b].balance == opening[b] + SumEffects(txns - s, b)
    {
      BulkCreditOnAccount(accounts, txns, opening, s, first, b);
    }
  }

  /** One account after the as-written bulk delete, when its share is what it is credited. */
  lemma BulkCreditOnAccount(accounts: map<AccountId, Account>, txns: map<TxnId, Txn>,
                            opening: map<AccountId, int>, s: set<TxnId>, first: TxnId, b: AccountId)
    requires Balanced(accounts, txns, opening)
    requires first in txns && txns[first].accountId in accounts && b in accounts
    requires SumMap(Restrict(txns, s), EffectOn(b))
          == (if b == txns[first].accountId then SumMap(Restrict(txns, s), Signed) else 0)
    ensures b in opening
    ensures BulkCredit(accounts, txns, s, first)[b].balance == opening[b] + SumEffects(txns - s, b)
  {
    SumMapSplit(txns, EffectOn(b), s);
    assert SumEffects(txns - s, b) == SumEffects(txns, b) - SumMap(Restrict(txns, s), EffectOn(b));
    assert accounts[b].balance == opening[b] + SumEffects(txns, b);
  }

  /** An other account whose deleted rows do not net to zero is left unbalanced. */
  lemma BulkCreditOffOnOther(accounts: map<AccountId, Account>, txns: map<TxnId, Txn>,
                             opening: map<AccountId, int>, s: set<TxnId>, first: TxnId, b: AccountId)
    requires Balanced(accounts, txns, opening)
    requires first in txns && txns[first].accountId in accounts
    requires b in accounts && b != txns[first].accountId && SumMap(Restrict(txns, s), EffectOn(b)) != 0
    ensures !Balanced(BulkCredit(accounts, txns, s, first), txns - s, opening)
  {
    SumMapSplit(txns, EffectOn(b), s);
    assert SumEffects(txns - s, b) == SumEffects(txns, b) - SumMap(Restrict(txns, s), EffectOn(b));
    var after := BulkCredit(accounts, txns, s, first);
    assert after[b] == accounts[b];
    assert accounts[b].balance == opening[b] + SumEffects(txns, b);
    assert after[b].balance != opening[b] + SumEffects(txns - s, b);
  }

  /** Corrected bulk delete: every account loses the effects of its own deleted rows. */
  ghost function DebitEachAccount(accounts: map<AccountId, Account>, txns: map<TxnId, Txn>, s: set<TxnId>): (r: map<AccountId, Account>)
    ensures r.Keys == accounts.Keys
    ensures forall a :: a in accounts ==> r[a].(balance := accounts[a].balance) == accounts[a]
  {
    map a | a in accounts :: accounts[a].(balance := accounts[a].balance - SumMap(Restrict(txns, s), EffectOn(a)))
  }

  lemma {:induction false} DebitEachAccountPreservesBalance(accounts: map<AccountId, Account>, txns: map<TxnId, Txn>,
                                                            opening: map<AccountId, int>, s: set<TxnId>)
    requires Balanced(accounts, txns, opening)
    ensures Balanced(DebitEachAccount(accounts, txns, s), txns - s, opening)
  {
    forall b | b in accounts
      ensures SumEffects(txns - s, b) == SumEffects(txns, b) - SumMap(Restrict(txns, s), EffectOn(b))
    {
      SumMapSplit(txns, EffectOn(b), s);
    }
  }

  /** On a single account the corrected bulk delete is the one as written. */
  lemma {:induction false} DebitEachAccountOnOneAccount(accounts: map<AccountId, Account>, txns: map<TxnId, Txn>,
                                                        s: set<TxnId>, first: TxnId)
    requires first in s && first in txns && txns[first].accountId in accounts
    requires OnOneAccount(txns, s, txns[first].accountId)
    ensures DebitEachAccount(accounts, txns, s) == BulkCredit(accounts, txns, s, first)
  {
    var a := txns[first].accountId;
    var gone := Restrict(txns, s);
    forall b | b in accounts
      ensures SumMap(gone, EffectOn(b)) == (if b == a then SumMap(gone, Signed) else 0)
    {
      if b == a {
        SumMapAgree(gone, EffectOn(b), Signed);
      } else {
        SumMapZero(gone, EffectOn(b));
      }
    }
  }

  /** `acc` is `accounts` with the effects of the rows listed by `ks` taken off. */
  ghost predicate DebitedBy(accounts: map<AccountId, Account>, acc: map<AccountId, Account>,
                            txns: map<TxnId, Txn>, ks: seq<TxnId>) {
    && (forall i :: 0 <= i < |ks| ==> ks[i] in txns)
    && acc.Keys == accounts.Keys
    && forall a :: a in acc ==>
         acc[a] == accounts[a].(balance := accounts[a].balance - SumKeys(txns, ks, EffectOn(a)))
  }

  /** Taking one more row's effect off its account. */
  lemma DebitedByStep(accounts: map<AccountId, Account>, acc: map<AccountId, Account>,
                      txns: map<TxnId, Txn>, ks: seq<TxnId>, k: TxnId)
    requires DebitedBy(accounts, acc, txns, ks)
    requires k in txns && txns[k].accountId in acc
    ensures DebitedBy(accounts, Credit(acc, txns[k].accountId, -Signed(txns[k])), txns, ks + [k])
  {
    var ks' := ks + [k];
    assert ks'[..|ks'| - 1] == ks;
    var acc' := Credit(acc, txns[k].accountId, -Signed(txns[k]));
    forall a | a in acc'
      ensures acc'[a] == accounts[a].(balance := accounts[a].balance - SumKeys(txns, ks', EffectOn(a)))
    {
      assert SumKeys(txns, ks', EffectOn(a)) == SumKeys(txns, ks, EffectOn(a)) + EffectOn(a)(txns[k]);
    }
  }

  /** Before the first row nothing is taken off. */
  lemma DebitedByNone(accounts: map<AccountId, Account>, txns: map<TxnId, Txn>, ks: seq<TxnId>)
    ensures DebitedBy(accounts, accounts, txns, ks[..0])
  {
    assert ks[..0] == [];
  }

  /** The loop step: the row at position i of `ks` is taken off next. */
  lemma DebitedByNext(accounts: map<AccountId, Account>, acc: map<AccountId, Account>,
                      txns: map<TxnId, Txn>, ks: seq<TxnId>, i: nat)
    requires i < |ks| && DebitedBy(accounts, acc, txns, ks[..i])
    requires ks[i] in txns && txns[ks[i]].accountId in accounts
    ensures DebitedBy(accounts, Credit(acc, txns[ks[i]].accountId, -Signed(txns[ks[i]])), txns, ks[..i + 1])
  {
    DebitedByStep(accounts, acc, txns, ks[..i], ks[i]);
    assert ks[..i] + [ks[i]] == ks[..i + 1];
  }

  /** Once every listed row is taken off, the balances are the corrected bulk delete's. */
  lemma DebitedByAll(accounts: map<AccountId, Account>, acc: map<AccountId, Account>,
                     txns: map<TxnId, Txn>, ks: seq<TxnId>)
    requires DebitedBy(accounts, acc, txns, ks[..|ks|]) && Distinct(ks)
    ensures acc == DebitEachAccount(accounts, txns, Elements(ks))
  {
    assert ks[..|ks|] == ks;
    var r := DebitEachAccount(accounts, txns, Elements(ks));
    forall a | a in acc
      ensures acc[a] == r[a]
    {
      DebitedByAt(accounts, acc, txns, ks, a);
    }
    SameEntries(acc, r);
  }

  lemma DebitedByAt(accounts: map<AccountId, Account>, acc: map<AccountId, Account>,
                    txns: map<TxnId, Txn>, ks: seq<TxnId>, a: AccountId)
    requires DebitedBy(accounts, acc, txns, ks) && Distinct(ks) && a in acc
    ensures acc[a] == DebitEachAccount(accounts, txns, Elements(ks))[a]
  {
    SumKeysIsSumMap(txns, ks, EffectOn(a));
  }
}
