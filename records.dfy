/** The rows of the three tables the ledger keeps (Account, Transaction, Budget). */
module Records {
  import opened Wrappers
  import opened Calendar

  type UserId = nat
  type AccountId = nat
  type TxnId = nat

  datatype TxnType = Income | Expense

  datatype TxnStatus = Completed | Pending

  datatype Interval = Daily | Weekly | Monthly | Yearly

  /** A Transaction row; amounts are integer cents. */
  datatype Txn = Txn(
    id: TxnId,
    userId: UserId,
    accountId: AccountId,
    kind: TxnType,
    amount: int,
    category: string,
    date: Instant,
    description: string,
    isRecurring: bool,
    recurringInterval: Option<Interval>,
    lastProcessed: Option<Instant>,
    nextRecurringDate: Option<Instant>,
    status: TxnStatus)

  /** An Account row; `kind` is the account type as entered (CURRENT, SAVINGS). */
  datatype Account = Account(
    id: AccountId,
    userId: UserId,
    name: string,
    kind: string,
    balance: int,
    isDefault: bool)

  /** A Budget row; there is at most one per user. */
  datatype Budget = Budget(userId: UserId, amount: int, lastAlertSent: Option<Instant>)

  /** The signed effect of a transaction on its account's balance. */
  function Signed(t: Txn): (r: int)
    ensures t.kind == Expense ==> r == -t.amount
    ensures t.kind == Income ==> r == t.amount
  {
    if t.kind == Expense then -t.amount else t.amount
  }

  function Amount(t: Txn): int {
    t.amount
  }

  /** The effect of a transaction on the balance of account `a`. */
  function EffectOn(a: AccountId): Txn -> int {
    (t: Txn) => if t.accountId == a then Signed(t) else 0
  }
}
