# Finance ledger: a verified model

This project models the core of a personal-finance web application. It
covers the server actions and background functions:

- A user keeps **accounts** with balances.
- A user records **transactions** (INCOME or EXPENSE) on those accounts.
- A user sets one monthly **budget**.

The modelled behaviour is:

- **Balance bookkeeping.** Creating, editing, bulk-deleting and
  materialising transactions change an account's `balance`. The model
  tracks an opening balance per account. The invariant is that every
  balance equals its opening balance plus the signed effects of the
  transactions on the account: +amount for INCOME, −amount for EXPENSE.
- **The recurrence engine.**
  - `calculateNextRecurringDate` uses the JavaScript `Date` setters, which
    roll day overflow forward into the next month.
  - `isTransactionDue` and the scan filter of the daily trigger.
  - The worker that copies a due recurring transaction, credits its
    account and advances the original.
- **The budget-alert rule.**
  - The 80% test, with the `lastAlertSent` stamp and the `isNewMonth` check.
  - The month windows of the expense sums.
  - The budget upsert keyed by user.
- **The monthly-stats reduce** of `getMonthlyStats`.
- **The default-account flags.** Account creation and
  `updateDefaultAccount` keep at most one default account per user.
- **Server-side form validation.** Transactions and accounts are checked
  field by field, and the result is an `errors` object keyed by field.

## How the model is built

- **The store.** `Ledger.Ledger` is one sequential in-memory store.
  - Its fields are the maps `accounts`, `txns` and `budgets`, the set of
    provisioned `users`, an id counter `nextId`, and a ghost map `opening`
    of opening balances.
  - There is one method per server action or background step.
  - Every method keeps `Valid()`. `Valid()` is `Store.Consistent`: rows are
    stored under their ids, every transaction is on a stored account, at
    most one default exists per user, budgets are keyed by user, and every
    balance is balanced.
- **Pure logic.** The rules the methods use are pure functions in their
  own modules:
  - `Calendar`
  - `Recurrence`
  - `Balance`
  - `BudgetRule`
  - `MonthlyStats`
  - `Defaults`
  - `Forms`
  - `Ordering`

  Each function has lemmas that state what the source promises about it.
- **Dates.** `Calendar.Instant` holds a civil year, a month from 0 to 11, a
  day and the milliseconds into the day. Instants are ordered
  lexicographically.
  - `setDate(getDate() + n)` is `n` steps to the next civil day.
  - `setMonth` and `setFullYear` are `RollForward`, which rolls a day past
    the month's end into the following month, as `Date` does.
- **Money.** Amounts are integers (cents). A numeric form field carries its
  `parseFloat` reading as an `Option`, where `None` stands for NaN.
- **Caller identity.**
  - The caller's identity is an `Option<UserId>`, where `None` means
    unauthenticated.
  - "User not found" is a caller whose id is not in `users`.
- **Outcomes.**
  - A thrown error is `Failure(message)`, with the source's message.
  - A validation result is `Invalid(errors)`.
  - A write the store itself refuses is `Rejected`: an `update` whose
    `where` matches nothing, an invalid date, or an update that names an
    account that does not exist, which the database refuses as a broken
    foreign key inside the `$transaction` (actions/transaction.js:206-219).
- **Default status.** Neither `createTransaction`
  (actions/transaction.js:83-96) nor the worker's copy
  (lib/ingest/function.js:189-200) sets `status`, so the stored value is the
  database default. The database schema is not part of this model. The
  model assumes the default is COMPLETED, which is the status the recurring
  scan filters on (lib/ingest/function.js:121). `Forms.NewRow` and
  `Recurrence.Materialized` state that assumption.
- **Recurring processing with a missing interval.**
  - With a null or unknown `recurringInterval`, `calculateNextRecurringDate`
    returns its input unchanged.
  - So a recurring transaction without an interval is due again at the very
    instant it was processed. `Recurrence.RedeliveryAtSameInstant` states
    this.
  - Redelivery at the same instant does nothing only when the interval is
    set.
- **Two writes that break the balance invariant.** The update that moves a
  transaction to another account and the bulk delete across accounts break
  the invariant as written (see "## Findings"). The store uses the corrected
  forms, so `Valid()` includes the balance invariant.

## Model

| member | source | states |
|---|---|---|
| Calendar.DaysInMonth | lib/ingest/function.js:329 | a month has 28 to 31 days; only February of a leap year has 29 |
| Calendar.NextDayIsSuccessor | lib/ingest/function.js:250 | moving one day forward gives a later instant with no day in between |
| Calendar.AddDaysIsLater | lib/ingest/function.js:249-254 | adding a positive number of days gives a strictly later instant |
| Calendar.AddDaysSplit | actions/transaction.js:19-24 | adding a + b days is adding a days, then b days |
| Calendar.RollForwardIsDayOffset | lib/ingest/function.js:255-260 | day d of month m, past the month's end or not, is the 1st of m plus d − 1 days: JavaScript's forward overflow |
| Calendar.AddMonth | lib/ingest/function.js:255-257 | `setMonth(getMonth() + 1)` gives a strictly later instant at the same time of day |
| Calendar.AddYear | lib/ingest/function.js:258-260 | `setFullYear(getFullYear() + 1)` gives a strictly later instant at the same time of day |
| Calendar.OrderIsTotal | lib/ingest/function.js:239 | date comparison is a total order: any two instants compare, and `<` is the negation of the reverse `<=` |
| Calendar.OrderIsTransitive | lib/ingest/function.js:239 | date comparison is transitive, for strict and non-strict steps alike |
| Calendar.StartOfMonth | lib/ingest/function.js:36-40 | the start of the month is midnight on the 1st of the same month, not after the given date |
| Calendar.LastDayOfMonth | lib/ingest/function.js:329 | day 0 of the next month is midnight on the last day of this month: the next day is the 1st of the next month |
| Calendar.MonthWindowCoversMonth | actions/budget.js:28-48 | the window from the 1st to the last day at midnight holds exactly the dates of that month, except those later on the last day than midnight |
| Calendar.FromStartOfMonth | lib/ingest/function.js:48-50 | `date >= startOfMonth` admits the current month and every later month, with no upper bound |
| Recurrence.NextRecurringDate | lib/ingest/function.js:245-264 | a known interval gives a strictly later date and a missing or unknown one gives the date unchanged; the time of day is kept |
| Recurrence.DailyAndWeeklyAddDays | actions/transaction.js:18-24 | DAILY adds 1 day and WEEKLY adds 7 days |
| Recurrence.MonthlyRollsOver | lib/ingest/function.js:255-257 | MONTHLY keeps the day when the next month has it; otherwise it rolls over into the month after, with no clamping |
| Recurrence.YearlyKeepsMonthAndDay | lib/ingest/function.js:258-260 | YEARLY keeps month and day, except that February 29 becomes March 1 in a common year |
| Recurrence.MonthlyFromJanuary31 | actions/transaction.js:25-27 | MONTHLY from January 31 gives March 2 in 2024 and March 3 in 2023 |
| Recurrence.YearlyFromLeapDay | actions/transaction.js:28-30 | YEARLY from February 29, 2024 gives March 1, 2025 |
| Recurrence.ScanSelectsOnlyDue | lib/ingest/function.js:115-128 | every row the scan selects is due; a recurring COMPLETED row with a next date is selected exactly when it is due |
| Recurrence.Materialized | lib/ingest/function.js:189-200 | the copy has a new id, the same type, amount, category, user and account, is dated now, is not recurring, and has the description with " (Recurring)" appended |
| Recurrence.Advanced | lib/ingest/function.js:214-223 | the original gets `lastProcessed` now and the next date from now by its interval; nothing else changes |
| Recurrence.AdvancedIsNotDueUntilNextDate | lib/ingest/function.js:231-240 | once advanced with an interval, a row is neither due nor scanned before its new next date |
| Recurrence.AdvancedIsDueAgainAt | lib/ingest/function.js:231-240 | once advanced, a row is due again from its new next date on |
| Recurrence.RedeliveryAtSameInstant | lib/ingest/function.js:184-223 | a redelivered event at the same instant finds the row due again exactly when it has no interval |
| Records.Signed | actions/transaction.js:77 | an EXPENSE lowers the balance by its amount and any other row raises it by its amount |
| Balance.Credit | lib/ingest/function.js:208-211 | `increment: delta` changes the one account's balance by delta and nothing else |
| Balance.NoEffectsOnUnusedAccount | actions/dashboard.js:107-115 | an account no row refers to has a zero sum of effects |
| Balance.OpenAccountPreservesBalance | actions/dashboard.js:107-115 | a new account with its opening balance keeps the balance invariant |
| Balance.FlagsPreserveBalance | actions/account.js:33-48 | writes that keep every balance keep the invariant |
| Balance.CreatePreservesBalance | actions/transaction.js:77-106 | inserting a row and crediting its account with its signed effect keeps the invariant |
| Balance.ProcessPreservesBalance | lib/ingest/function.js:187-224 | inserting the copy, crediting its account and advancing the original keeps the invariant |
| Balance.UpdateCredit | actions/transaction.js:188-229 | the account named in the new data changes by new signed − old signed effect, and no other account changes |
| Balance.UpdateInPlacePreservesBalance | actions/transaction.js:188-229 | an update that keeps the row's account keeps the invariant |
| Balance.UpdateMovingAccountBreaksBalance | actions/transaction.js:222-229 | an INCOME of 1000 moved from account 0 to account 1: account 0 stays at 1000 with no rows and account 1 stays at 0 with the row, so the invariant fails |
| Balance.UpdateMovingAccountAlwaysBreaksBalance | actions/transaction.js:188-229 | for every balanced store, moving a row with a non-zero amount to another account leaves the old account untouched and the invariant broken |
| Balance.MoveCredit | actions/transaction.js:188-229 | the corrected update takes the old effect off the old account and adds the new one to the new account, and equals the written update when the account is unchanged |
| Balance.MoveCreditPreservesBalance | actions/transaction.js:206-229 | the corrected update keeps the invariant, whatever the accounts |
| Balance.BulkDeleteOneAccountPreservesBalance | actions/account.js:195-225 | when all deleted rows share the first row's account, crediting it with Σ EXPENSE − Σ INCOME keeps the invariant |
| Balance.BulkCredit | actions/account.js:195-225 | as written, the first fetched row's account pays Σ EXPENSE − Σ INCOME of all the deleted rows; every other account and every other field stays as it was |
| Balance.BulkDeleteAcrossAccountsBreaksBalance | actions/account.js:195-225 | when an account other than the first row's holds exactly one deleted row, and its amount is positive, that account's balance no longer matches its remaining rows |
| Balance.BulkDeleteBalancedIffOthersNetZero | actions/account.js:195-225 | with every deleted row on a stored account, the as-written bulk delete keeps the invariant exactly when the deleted rows net to zero on every account other than the first row's |
| Balance.DebitEachAccount | actions/account.js:198-225 | the corrected bulk delete keeps every account and only adjusts balances |
| Balance.DebitEachAccountPreservesBalance | actions/account.js:208-225 | the corrected bulk delete keeps the invariant |
| Balance.DebitEachAccountOnOneAccount | actions/account.js:195-205 | on a single account the corrected bulk delete equals the one as written |
| Balance.DebitedByAll | actions/account.js:198-205 | the loop's running adjustment, once it has covered every row, is the corrected bulk delete |
| BudgetRule.ThresholdIsPercentage | lib/ingest/function.js:57-64 | the integer test is `(total / budget) * 100 >= 80` over the reals, for budgets of either sign |
| BudgetRule.NewMonthIffOtherMonthStart | lib/ingest/function.js:94-99 | `isNewMonth` holds exactly when the two dates' months start at different instants |
| BudgetRule.EvaluateBudget | lib/ingest/function.js:29-87 | with no default account nothing happens; an email is attempted exactly when 80% is reached and no alert was sent this month; the stamp is written exactly when the send succeeds |
| BudgetRule.NoSecondAlertInSameMonth | lib/ingest/function.js:63-87 | after a stamped alert, an evaluation later that month sends nothing and changes nothing |
| BudgetRule.AlertsAgainInNewMonth | lib/ingest/function.js:63-67 | in a later month the budget is alerted again while the threshold holds |
| BudgetRule.FailedSendIsRetried | lib/ingest/function.js:68-87 | a failed send leaves the budget unstamped, so the next run that month tries again |
| BudgetRule.Upsert | actions/budget.js:86-97 | the user has a budget with the new amount; an existing one keeps its user and `lastAlertSent`; other users' budgets are unchanged; keying by user is kept |
| BudgetRule.UpsertIsIdempotent | actions/budget.js:86-97 | repeating the upsert with the same amount changes nothing |
| BudgetRule.UpsertOverwritesAmount | actions/budget.js:90-92 | a second upsert overwrites the first one's amount |
| MonthlyStats.FoldMonthlyStats | lib/ingest/function.js:342-360 | the loop over the rows, updating the accumulator in place, computes the reduce |
| MonthlyStats.FoldTotals | lib/ingest/function.js:342-360 | the expense and income totals are the sums of the expense and of the other amounts; the count is never touched |
| MonthlyStats.FoldCategory | lib/ingest/function.js:345-348 | each category's total is the sum of the expense amounts in that category |
| MonthlyStats.FoldCategoryKeys | lib/ingest/function.js:347-348 | a category appears exactly when some expense row has it |
| MonthlyStats.ExpensesAreSumOfCategories | lib/ingest/function.js:342-360 | `totalExpenses` is the sum of the `byCategory` values |
| MonthlyStats.StatsOfRows | lib/ingest/function.js:342-360 | income + expenses is the sum of all amounts; expenses is the sum of the categories; the count is the number of rows; each category is its expense sum |
| Defaults.DefaultIsUnique | lib/ingest/function.js:30 | under the invariant, any default account found for a user is the default account |
| Defaults.UnsetDefaults | actions/account.js:33-39 | `updateMany` leaves the user with no default, touches only that user's flags and keeps at most one default per user |
| Defaults.MakeDefault | actions/account.js:33-48 | the target becomes the user's only default; other users' accounts and all other fields are unchanged |
| Defaults.AddAccount | actions/dashboard.js:94-115 | the new account is default exactly when it is the user's first or the switch is on; other accounts change at most in their default flags, and other users' accounts not at all |
| Defaults.FirstAccountIsDefault | actions/dashboard.js:94-98 | a user's first account is the only default, whatever the switch says |
| Defaults.DefaultAccountIsOnlyDefault | actions/dashboard.js:100-115 | a new default account is the user's only default |
| Defaults.NonDefaultAccountKeepsFlags | actions/dashboard.js:98-113 | a non-default account added beside others leaves every existing account unchanged |
| Defaults.AddAccountKeepsAtMostOneDefault | actions/dashboard.js:94-115 | account creation keeps at most one default per user |
| Defaults.NonDefaultAccountKeepsTheDefault | actions/dashboard.js:98-113 | a user with one default who adds a non-default account keeps exactly that default |
| Forms.AddIf | actions/dashboard.js:67-68 | `if (cond) errors[key] = message` adds the key exactly when the condition holds |
| Forms.CreateErrors | actions/transaction.js:55-63 | one entry per failed check (type, amount NaN or ≤ 0, account, category, date, recurring without interval), each with its message, and no other key |
| Forms.InvalidDatePassesCreateValidation | actions/transaction.js:48-60 | a date field that is present but does not parse passes validation, because only the raw field is checked |
| Forms.CreateErrorsEmptyIffComplete | actions/transaction.js:55-67 | create validation passes exactly on complete forms |
| Forms.FirstNextDate | actions/transaction.js:93-96 | a next date exists exactly for a recurring row with an interval; it is `calculateNextRecurringDate(date, interval)`, which is after the row's date |
| Forms.NewRow | actions/transaction.js:81-98 | the inserted row has the form's type, positive amount, account, category, date, description and interval; the recurring flag is read from "true" or "on"; the next date is `FirstNextDate` of the row, so it exists exactly when recurring; there is no `lastProcessed` |
| Forms.RecurringReadingsAgreeOnText | actions/transaction.js:50-51 | create and update read a form string as recurring alike; update also accepts boolean `true` |
| Forms.Normalise | actions/transaction.js:150-157 | the update reads the recurring flag, drops the interval when it is off, and changes nothing else |
| Forms.UpdateErrors | actions/transaction.js:160-169 | one entry per failed check (amount, account, type, category, recurring without interval), each with its message; the date check never fires |
| Forms.UpdateErrorsEmptyIffComplete | actions/transaction.js:160-173 | update validation passes exactly on complete input |
| Forms.InvalidDatePassesUpdateValidation | actions/transaction.js:151-166 | an unparsable date passes validation, because `new Date(...)` is always truthy |
| Forms.UpdatedRow | actions/transaction.js:206-219 | account, type, amount, category, date, interval and (when given) description come from the input; for the fields the edit form sends, id, user, status and `lastProcessed` stay; the next date is `FirstNextDate` from the new date and interval, so it exists exactly when recurring |
| Forms.TrimHasNoOuterSpace | actions/dashboard.js:61-62 | a trimmed string starts and ends with no whitespace |
| Forms.TrimIsInfix | actions/dashboard.js:61-62 | trimming removes whitespace only, and only at the two ends |
| Forms.TrimEmptyIffAllSpace | actions/dashboard.js:61-67 | a string trims to empty exactly when it is all whitespace |
| Forms.AccountErrors | actions/dashboard.js:66-73 | name or type blank after trimming, balance missing or non-numeric, each with its message, the missing balance reported before the non-numeric one |
| Forms.SpaceOnlyNameIsRefused | actions/dashboard.js:61-67 | a whitespace-only account name is refused |
| Forms.NewAccount | actions/dashboard.js:107-115 | the stored account has the trimmed form name and type, both non-empty, the parsed balance, and is not yet default |
| Ordering.Insert | actions/dashboard.js:144 | inserting a row into a newest-first list keeps it newest first and adds exactly that row |
| Ordering.SortNewestFirst | actions/dashboard.js:142-145 | `orderBy: { date: "desc" }` yields a newest-first permutation of the rows |
| Ordering.SortKeepsRows | actions/account.js:76-79 | sorting keeps exactly the rows it was given |
| Store.CreateKeepsConsistent | actions/transaction.js:81-106 | the create write keeps the store invariant |
| Store.ProcessKeepsConsistent | lib/ingest/function.js:187-224 | the worker's write keeps the store invariant |
| Store.UpdateKeepsConsistent | actions/transaction.js:206-229 | the corrected update write keeps the store invariant |
| Store.BulkDeleteKeepsConsistent | actions/account.js:208-225 | the corrected bulk delete keeps the store invariant |
| Store.FlagsKeepConsistent | actions/account.js:33-48 | a write to the default flags alone keeps the store invariant while one default per user remains |
| Store.AddAccountKeepsConsistent | actions/dashboard.js:100-115 | account creation keeps the store invariant, with the new opening balance |
| Store.BudgetsKeepConsistent | actions/budget.js:86-97 | budget writes keyed by user keep the store invariant |
| Ledger.DebitRows | actions/account.js:198-205 | the loop over the fetched rows computes the corrected bulk delete's balances |
| Ledger.Ledger.Select | lib/ingest/function.js:115-128 | `findMany({ where })` lists each matching row once, and only those |
| Ledger.Ledger.SumOf | actions/budget.js:41-56 | `aggregate({ _sum })` is the sum over the matching rows, 0 when none match |
| Ledger.Ledger.GetTransaction | actions/transaction.js:330-350 | the row is returned exactly when the caller is known and owns it; otherwise "Unauthorized", "User not found" or "Transaction not found" |
| Ledger.Ledger.CreateTransaction | actions/transaction.js:38-122 | succeeds exactly for a known caller, a form that passes validation, an owned account and a date that parses; a present date that does not parse passes validation and is then refused by the insert; on success it inserts the new row under a fresh id and credits its account with the signed amount; any failure changes nothing |
| Ledger.Ledger.UpdateTransaction | actions/transaction.js:128-240 | succeeds exactly for a known caller, input that passes validation, an owned row, a valid date and an existing account; then it stores the updated row and moves its effect; any failure changes nothing |
| Ledger.Ledger.BulkDeleteTransactions | actions/account.js:173-235 | with no owned requested row it fails with "No transactions found" and changes nothing; otherwise it removes exactly the caller's requested rows and takes each one's effect off its own account |
| Ledger.Ledger.UpdateDefaultAccount | actions/account.js:19-55 | for an owned account, that account becomes the only default; otherwise the user's defaults are still unset and the write is refused |
| Ledger.Ledger.CreateAccount | actions/dashboard.js:54-126 | succeeds exactly for a known caller and a form with no errors; then it adds the account with its default rule and records its opening balance; any failure changes nothing |
| Ledger.Ledger.GetDashboardData | actions/dashboard.js:129-147 | the caller's rows, and only those, newest first |
| Ledger.Ledger.GetAccountWithTransactions | actions/account.js:58-97 | nothing for an account the caller does not own; otherwise the account and exactly its rows, newest first; errors carry the "Failed to fetch account: " prefix |
| Ledger.Ledger.GetCurrentBudget | actions/budget.js:7-68 | the caller's budget or nothing, and the sum of the caller's EXPENSE amounts in this month's window (on the given account), at least 0 |
| Ledger.Ledger.UpdateBudget | actions/budget.js:73-108 | for a known caller, the budgets become the upsert and the result is the caller's budget with the new amount |
| Ledger.Ledger.FindDefault | lib/ingest/function.js:16-31 | the user's default account when there is one, and nothing otherwise |
| Ledger.Ledger.CheckBudgetAlerts | lib/ingest/function.js:11-92 | every budget becomes its evaluation against the month-to-date expenses on its user's default account; exactly the users whose email was attempted are reported; nothing else changes |
| Ledger.Ledger.TriggerRecurringTransactions | lib/ingest/function.js:112-149 | one event per selected row and no other, carrying its id and user, with no id twice |
| Ledger.Ledger.ProcessRecurringTransaction | lib/ingest/function.js:165-226 | missing event data, a row not found and a row not due change nothing; a due row gets one materialised copy under a fresh id, its account is credited with the signed effect and the original is advanced |
| Ledger.Ledger.GetMonthlyStats | lib/ingest/function.js:323-360 | over the user's rows in the month window: income + expenses is the window's total, expenses is the sum of the categories, the count is the window's row count, and each category is its expense sum |

## Left out

- Inngest machinery is not modelled: the cron schedules, `step.run` retries and their memoisation, the `inngest.send` fan-out and the throttle. These belong to the dispatcher, and each step is modelled as one sequential effect.
- `sendEmail` is the parameter `sendOk`, which says whether the call returned. In the source a thrown send aborts the step; the step's retries are left out, and the model goes on to the next budget.
- The email template and the Gemini calls (`generateFinancialInsights`, `scanReceipt`) are left out. They are foreign calls.
- `generateMonthlyReports` and `getUserAccounts` are left out. They only read and call the foreign code above; the monthly reduce they use is modelled.
- Floating point is not modelled: `parseFloat`, Prisma `Decimal`, `toNumber` and `toFixed`. Amounts are integer cents and the 80% test is an exact cross-multiplication.
- Time zones, daylight saving and `toLocaleString` are left out. A calendar date and the milliseconds into the day stand for local time.
- Each `new Date()` inside one step is the same `now`.
- The bulk-delete loop at actions/account.js:199-205 adds Prisma `Decimal` objects to a number, which JavaScript may turn into string concatenation. The model sums the amounts as numbers.
- The commented-out bulk delete at actions/account.js:104-170 is not live code.
- Clerk's `auth`, the mapping from a Clerk id to a user, lib/checkUser.js, middleware.js and the seed route are left out. The caller is an `Option<UserId>` and `users` the provisioned users.
- Store-generated ids stand in for cuids.
- A transaction's type is the enum INCOME or EXPENSE, so an unknown transaction `type` string cannot be written.
- Ledger.Ledger.CreateAccount: an account's type is any string that is not blank after trimming. The form offers only CURRENT and SAVINGS (components/account-drawer.jsx:78-79), and the model accepts any other type the action is sent, as the action does.
- `revalidatePath`, the serialisation helpers and logging are left out.
- Atomicity is not modelled. The due re-check at lib/ingest/function.js:184 runs outside the database transaction at 187, and the balance read at actions/transaction.js:78 happens before the transaction at 81. In a sequential store the two collapse.
- Ledger.Ledger.UpdateTransaction: like the source, it does not check that the caller owns the account named in the new data.
- Forms.UpdatedRow: the update writes `...data` (actions/transaction.js:213), so a direct call can also overwrite fields the edit form never sends, such as `status`, `userId` or `lastProcessed`. `UpdateForm` holds only the fields the edit form sends (app/(main)/transaction/_components/transaction-form.jsx:85-89), so the model does not capture those writes.
- Ledger.Ledger.UpdateTransaction: for the same reason, the stored row keeps its id, user, status and `lastProcessed`; writes of those fields by a direct call are not modelled.
- Forms.CreateErrors: create validation does not check that `recurringInterval` is DAILY, WEEKLY, MONTHLY or YEARLY (actions/transaction.js:61-62). Another string passes, and only the database enum refuses it inside the `try`, so the action ends in its `catch`. The model's interval is an `Option<Interval>`, which cannot carry such a string, so that path is not modelled.
- Forms.UpdateErrors: update validation has the same gap (actions/transaction.js:166-167), with the same consequence.
- Recurrence.MonthlyRollsOver: MONTHLY does not clamp to a shorter month's last day, because `setMonth` rolls over into the month after (lib/ingest/function.js:256). The model follows the code.
- Ordering.SortNewestFirst: the store does not fix the order of rows with equal dates. The model picks one order, and its contract states only the newest-first order and the permutation.
- Ledger.Ledger.BulkDeleteTransactions: the store uses the corrected bulk delete, so the as-written credit on the first row's account appears only in `Balance.BulkCredit` and the lemmas about it.
- Ledger.Ledger.UpdateTransaction: the store uses the corrected update, so the as-written credit appears only in `Balance.UpdateCredit` and the lemmas about it.

## Findings

| source | as written | input that shows it | evidently intended | confidence | as-written member | corrected member |
|---|---|---|---|---|---|---|
| actions/transaction.js:222-229 | the new `data.accountId` receives newSigned − oldSigned; the old account is never touched | an INCOME of 1000 on account 0 (balance 1000) moved to account 1 (balance 0): account 0 stays 1000 with no rows, account 1 gets 0 | take the old effect off the old account and add the new effect to the new one; the edit form disables every other account (app/(main)/transaction/_components/transaction-form.jsx:181), so only a direct call of the server action reaches this, and refusing the move is an equally plausible intent | not executed | Balance.UpdateMovingAccountBreaksBalance | Balance.MoveCreditPreservesBalance |
| actions/account.js:195-225 | the whole Σ EXPENSE − Σ INCOME is credited to the first fetched row's account | an INCOME row on account A and one on account B deleted together: B keeps the deleted row's effect in its balance | each account loses the effects of its own deleted rows | not executed | Balance.BulkDeleteAcrossAccountsBreaksBalance | Balance.DebitEachAccountPreservesBalance |
