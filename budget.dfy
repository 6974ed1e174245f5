/**
 * The budget-alert rule of `checkBudgetAlerts` (lib/ingest/function.js) and
 * the budget upsert of `updateBudget` (actions/budget.js). Amounts are integer
 * cents, so the percentage test is written without division.
 */
module BudgetRule {
  import opened Wrappers
  import opened Calendar
  import opened Records

  /**
   * `(total / budget) * 100 >= 80`. With a zero budget JS divides to
   * Infinity (total > 0), NaN (total == 0) or -Infinity (total < 0), and only
   * the first passes the test.
   */
  predicate ReachesThreshold(total: int, budget: int) {
    if budget > 0 then 100 * total >= 80 * budget
    else if budget < 0 then 100 * total <= 80 * budget
    else total > 0
  }

  lemma ScaleBy(x: real, y: real, c: real)
    requires c != 0.0
    ensures c > 0.0 ==> (x >= y <==> x * c >= y * c)
    ensures c < 0.0 ==> (x >= y <==> x * c <= y * c)
  {
  }

  /** With a positive budget, reaching 80 percent is 100 * total >= 80 * budget. */
  lemma PercentOfPositive(t: real, b: real)
    requires b > 0.0
    ensures (t / b) * 100.0 >= 80.0 <==> 100.0 * t >= 80.0 * b
  {
    var q := t / b;
    assert q * b == t;
    ScaleBy(q * 100.0, 80.0, b);
    assert q * 100.0 * b == 100.0 * t;
  }

  /** With a negative budget, multiplying through by it flips the comparison. */
  lemma PercentOfNegative(t: real, b: real)
    requires b < 0.0
    ensures (t / b) * 100.0 >= 80.0 <==> 100.0 * t <= 80.0 * b
  {
    var q := t / b;
    assert q * b == t;
    ScaleBy(q * 100.0, 80.0, b);
    assert q * 100.0 * b == 100.0 * t;
  }

  lemma CastScaled(total: int, budget: int)
    ensures 100 * total >= 80 * budget <==> 100.0 * total as real >= 80.0 * budget as real
    ensures 100 * total <= 80 * budget <==> 100.0 * total as real <= 80.0 * budget as real
  {
  }

  /** The integer test agrees with the percentage computed exactly. */
  lemma ThresholdIsPercentage(total: int, budget: int)
    requires budget != 0
    ensures ReachesThreshold(total, budget) <==> (total as real / budget as real) * 100.0 >= 80.0
  {
    CastScaled(total, budget);
    if budget > 0 {
      PercentOfPositive(total as real, budget as real);
    } else {
      PercentOfNegative(total as real, budget as real);
    }
  }

  /** `isNewMonth` holds exactly when the two dates fall in different calendar months. */
  lemma NewMonthIffOtherMonthStart(last: Instant, current: Instant)
    ensures IsNewMonth(last, current) <==> StartOfMonth(last) != StartOfMonth(current)
  {
  }

  /**
   * The `where` of the alert's expense aggregate: the user's EXPENSE rows on
   * the default account `a` dated on or after the 1st of the current month,
   * with no upper bound.
   */
  function CountsForAlert(u: UserId, a: AccountId, now: Instant): Txn -> bool {
    (t: Txn) => t.userId == u && t.accountId == a && t.kind == Expense && AtOrBefore(StartOfMonth(now), t.date)
  }

  /**
   * The `where` of `getCurrentBudget`: the user's EXPENSE rows dated from the
   * 1st of the current month to its last day at midnight, on `accountId` when
   * one is given (an undefined `accountId` filters nothing).
   */
  function CountsForBudget(u: UserId, accountId: Option<AccountId>, now: Instant): Txn -> bool {
    (t: Txn) => t.userId == u && t.kind == Expense && InMonthWindow(t.date, now)
                && (accountId.None? || t.accountId == accountId.value)
  }

  /** The alert condition: 80% reached and no alert yet, or the last one in another month. */
  predicate ShouldAlert(b: Budget, total: int, now: Instant) {
    && ReachesThreshold(total, b.amount)
    && (b.lastAlertSent.None? || IsNewMonth(b.lastAlertSent.value, now))
  }

  /** What one evaluation of a budget did: whether an email was attempted, and the budget after it. */
  datatype Evaluation = Evaluation(emailAttempted: bool, budget: Budget)

  /**
   * The per-budget body of `checkBudgetAlerts`. `hasDefault` says whether the
   * user has a default account, `total` is the month-to-date expense sum on
   * it, `sendOk` whether `sendEmail` returned; the stamp is written after it.
   */
  function EvaluateBudget(b: Budget, hasDefault: bool, total: int, now: Instant, sendOk: bool): (r: Evaluation)
    ensures !hasDefault ==> r == Evaluation(false, b)
    ensures r.emailAttempted <==> hasDefault && ShouldAlert(b, total, now)
    ensures r.budget != b <==> r.emailAttempted && sendOk
    ensures r.budget != b ==> r.budget == b.(lastAlertSent := Some(now))
  {
    if !hasDefault then Evaluation(false, b)
    else if ShouldAlert(b, total, now) then
      Evaluation(true, if sendOk then b.(lastAlertSent := Some(now)) else b)
    else Evaluation(false, b)
  }

  /** Once stamped, a budget is not alerted again in the same calendar month. */
  lemma NoSecondAlertInSameMonth(b: Budget, total: int, now: Instant, total': int, later: Instant, sendOk': bool)
    requires later.year == now.year && later.month == now.month
    ensures var first := EvaluateBudget(b, true, total, now, true);
            first.emailAttempted ==>
              EvaluateBudget(first.budget, true, total', later, sendOk') == Evaluation(false, first.budget)
  {
  }

  /** In a later calendar month the same budget is alerted again if the threshold still holds. */
  lemma AlertsAgainInNewMonth(b: Budget, total: int, now: Instant, total': int, later: Instant, sendOk': bool)
    requires later.year != now.year || later.month != now.month
    requires ReachesThreshold(total', b.amount)
    ensures var first := EvaluateBudget(b, true, total, now, true);
            first.emailAttempted ==> EvaluateBudget(first.budget, true, total', later, sendOk').emailAttempted
  {
  }

  /** A failed send leaves the budget unstamped, so the next evaluation that month tries again. */
  lemma FailedSendIsRetried(b: Budget, total: int, now: Instant, later: Instant)
    requires later.year == now.year && later.month == now.month
    ensures var first := EvaluateBudget(b, true, total, now, false);
            first.budget == b
            && (first.emailAttempted ==> EvaluateBudget(first.budget, true, total, later, true).emailAttempted)
  {
  }

  /** Budgets are keyed by their user. */
  ghost predicate KeyedByUser(budgets: map<UserId, Budget>) {
    forall u :: u in budgets ==> budgets[u].userId == u
  }

  /** `budget.upsert({ where: { userId }, update: { amount }, create: { userId, amount } })`. */
  function Upsert(budgets: map<UserId, Budget>, u: UserId, amount: int): (r: map<UserId, Budget>)
    ensures r.Keys == budgets.Keys + {u}
    ensures r[u].amount == amount
    ensures u in budgets ==> r[u].userId == budgets[u].userId && r[u].lastAlertSent == budgets[u].lastAlertSent
    ensures u !in budgets ==> r[u] == Budget(u, amount, None)
    ensures forall v :: v in budgets && v != u ==> r[v] == budgets[v]
    ensures KeyedByUser(budgets) ==> KeyedByUser(r) && r[u].userId == u
  {
    if u in budgets then budgets[u := budgets[u].(amount := amount)]
    else budgets[u := Budget(u, amount, None)]
  }

  /** Repeating the upsert with the same amount changes nothing. */
  lemma UpsertIsIdempotent(budgets: map<UserId, Budget>, u: UserId, amount: int)
    ensures Upsert(Upsert(budgets, u, amount), u, amount) == Upsert(budgets, u, amount)
  {
  }

  /** The last upsert wins; the stamp survives both. */
  lemma UpsertOverwritesAmount(budgets: map<UserId, Budget>, u: UserId, x: int, y: int)
    ensures Upsert(Upsert(budgets, u, x), u, y) == Upsert(budgets, u, y)
  {
  }
}
