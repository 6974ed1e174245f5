/**
 * The recurrence engine: the next date of a recurring transaction, the due
 * test, the daily scan's filter and the rows that processing one due
 * transaction writes (lib/ingest/function.js, actions/transaction.js).
 */
module Recurrence {
  import opened Wrappers
  import opened Calendar
  import opened Records

  /**
   * `calculateNextRecurringDate(startDate, interval)`. `None` stands for any
   * interval value that matches no case of the switch (null, an unknown
   * string): the copy of the start date is returned unchanged.
   */
  function NextRecurringDate(start: Instant, interval: Option<Interval>): (r: Instant)
    ensures r.ms == start.ms
    ensures interval.Some? <==> Before(start, r)
    ensures interval.None? ==> r == start
  {
    match interval
    case None => start
    case Some(Daily) => NextDay(start)
    case Some(Weekly) => AddDaysIsLater(start, 7); AddDays(start, 7)
    case Some(Monthly) => AddMonth(start)
    case Some(Yearly) => AddYear(start)
  }

  /** DAILY and WEEKLY move by exactly one and seven calendar days. */
  lemma DailyAndWeeklyAddDays(start: Instant)
    ensures NextRecurringDate(start, Some(Daily)) == AddDays(start, 1)
    ensures NextRecurringDate(start, Some(Weekly)) == AddDays(start, 7)
    ensures NextRecurringDate(start, Some(Weekly)) == AddDays(AddDays(start, 1), 6)
  {
    AddDaysSplit(start, 1, 6);
  }

  /**
   * MONTHLY lands in the next month on the same day when that month has it;
   * otherwise it is the 1st of the next month plus (day - 1) days, which is in
   * the month after: the day is not clamped to the month's end.
   */
  lemma {:induction false} MonthlyRollsOver(start: Instant)
    ensures var ny := if start.month < 11 then start.year else start.year + 1;
            var nm := if start.month < 11 then start.month + 1 else 0;
            && NextRecurringDate(start, Some(Monthly)) == AddDays(DateTime(ny, nm, 1, start.ms), start.day - 1)
            && (start.day <= DaysInMonth(ny, nm) ==>
                  NextRecurringDate(start, Some(Monthly)) == DateTime(ny, nm, start.day, start.ms))
            && (start.day > DaysInMonth(ny, nm) ==>
                  NextRecurringDate(start, Some(Monthly)).day == start.day - DaysInMonth(ny, nm))
  {
    if start.month < 11 {
      RollForwardIsDayOffset(start.year, start.month + 1, start.day, start.ms);
    } else {
      RollForwardIsDayOffset(start.year + 1, 0, start.day, start.ms);
    }
  }

  /** YEARLY keeps month and day, except that February 29 becomes March 1. */
  lemma YearlyKeepsMonthAndDay(start: Instant)
    ensures var r := NextRecurringDate(start, Some(Yearly));
            if start.month == 1 && start.day == 29 && !IsLeapYear(start.year + 1)
            then r == DateTime(start.year + 1, 2, 1, start.ms)
            else r == DateTime(start.year + 1, start.month, start.day, start.ms)
  {
  }

  lemma MonthlyFromJanuary31()
    ensures NextRecurringDate(DateTime(2024, 0, 31, 0), Some(Monthly)) == DateTime(2024, 2, 2, 0)
    ensures NextRecurringDate(DateTime(2023, 0, 31, 0), Some(Monthly)) == DateTime(2023, 2, 3, 0)
  {
  }

  lemma YearlyFromLeapDay()
    ensures NextRecurringDate(DateTime(2024, 1, 29, 0), Some(Yearly)) == DateTime(2025, 2, 1, 0)
  {
  }

  /**
   * `isTransactionDue`: due when never processed, otherwise when the next date
   * is not after now; a missing next date reads as `new Date(null)`.
   */
  predicate IsTransactionDue(t: Txn, now: Instant) {
    t.lastProcessed.None? ||
    AtOrBefore(if t.nextRecurringDate.Some? then t.nextRecurringDate.value else Epoch, now)
  }

  /**
   * The `where` clause of the daily scan. A null `nextRecurringDate` never
   * satisfies `lte`.
   */
  predicate ScanSelects(t: Txn, now: Instant) {
    && t.isRecurring
    && t.status == Completed
    && (t.lastProcessed.None? ||
        (t.nextRecurringDate.Some? && AtOrBefore(t.nextRecurringDate.value, now)))
  }

  function Scanned(now: Instant): Txn -> bool {
    (t: Txn) => ScanSelects(t, now)
  }

  /**
   * Every scanned transaction passes the worker's due re-check; the converse
   * holds for recurring completed rows whose next date is set.
   */
  lemma ScanSelectsOnlyDue(t: Txn, now: Instant)
    ensures ScanSelects(t, now) ==> IsTransactionDue(t, now)
    ensures t.isRecurring && t.status == Completed && t.nextRecurringDate.Some? ==>
              (ScanSelects(t, now) <==> IsTransactionDue(t, now))
  {
  }

  /** The non-recurring copy that processing a due transaction inserts, dated now. */
  function Materialized(orig: Txn, id: TxnId, now: Instant): (r: Txn)
    ensures r.id == id && r.date == now && !r.isRecurring && r.status == Completed
    ensures r.kind == orig.kind && r.amount == orig.amount && r.category == orig.category
    ensures r.userId == orig.userId && r.accountId == orig.accountId
    ensures Signed(r) == Signed(orig)
    ensures r.description == orig.description + " (Recurring)"
  {
    Txn(id, orig.userId, orig.accountId, orig.kind, orig.amount, orig.category, now,
        orig.description + " (Recurring)", false, None, None, None, Completed)
  }

  /** The original after processing: processed now, next date computed from now. */
  function Advanced(orig: Txn, now: Instant): (r: Txn)
    ensures r.lastProcessed == Some(now)
    ensures r.nextRecurringDate == Some(NextRecurringDate(now, orig.recurringInterval))
    ensures r.(lastProcessed := orig.lastProcessed, nextRecurringDate := orig.nextRecurringDate) == orig
  {
    orig.(lastProcessed := Some(now), nextRecurringDate := Some(NextRecurringDate(now, orig.recurringInterval)))
  }

  /**
   * Redelivery: once processed at `now`, a transaction with a known interval is
   * neither due nor scanned again before its next date; with no interval it is
   * due again at once.
   */
  lemma AdvancedIsNotDueUntilNextDate(orig: Txn, now: Instant, later: Instant)
    requires orig.recurringInterval.Some?
    requires Before(later, NextRecurringDate(now, orig.recurringInterval))
    ensures !IsTransactionDue(Advanced(orig, now), later)
    ensures !ScanSelects(Advanced(orig, now), later)
  {
    OrderIsTotal(later, NextRecurringDate(now, orig.recurringInterval));
  }

  lemma AdvancedIsDueAgainAt(orig: Txn, now: Instant, later: Instant)
    requires AtOrBefore(NextRecurringDate(now, orig.recurringInterval), later)
    ensures IsTransactionDue(Advanced(orig, now), later)
  {
  }

  lemma RedeliveryAtSameInstant(orig: Txn, now: Instant)
    ensures IsTransactionDue(Advanced(orig, now), now) <==> orig.recurringInterval.None?
  {
    OrderIsTotal(now, NextRecurringDate(now, orig.recurringInterval));
  }
}
