/**
 * The calendar arithmetic of JavaScript `Date` that the ledger relies on.
 * A date is seen through its local-time getters (getFullYear, getMonth with
 * 0 = January, getDate and the time of day in milliseconds); time zones and
 * daylight saving are not modelled.
 */
module Calendar {

  const MsPerDay: int := 86400000

  datatype DateTime = DateTime(year: int, month: int, day: int, ms: int)

  predicate IsLeapYear(y: int) {
    y % 4 == 0 && (y % 100 != 0 || y % 400 == 0)
  }

  /** Days in month `m` (0-based) of year `y` in the proleptic Gregorian calendar. */
  function DaysInMonth(y: int, m: int): (n: int)
    requires 0 <= m < 12
    ensures 28 <= n <= 31
    ensures n == 29 <==> m == 1 && IsLeapYear(y)
  {
    if m == 1 then (if IsLeapYear(y) then 29 else 28)
    else if m == 3 || m == 5 || m == 8 || m == 10 then 30
    else 31
  }

  predicate WellFormed(t: DateTime) {
    && 0 <= t.month < 12
    && 1 <= t.day <= DaysInMonth(t.year, t.month)
    && 0 <= t.ms < MsPerDay
  }

  /** A valid (not "Invalid Date") point in time. */
  type Instant = t: DateTime | WellFormed(t) witness DateTime(1970, 0, 1, 0)

  /** `new Date(null)`: the start of 1970. */
  const Epoch: Instant := DateTime(1970, 0, 1, 0)

  /** Strictly earlier, the order of the underlying time values. */
  predicate Before(a: Instant, b: Instant) {
    || a.year < b.year
    || (a.year == b.year && a.month < b.month)
    || (a.year == b.year && a.month == b.month && a.day < b.day)
    || (a.year == b.year && a.month == b.month && a.day == b.day && a.ms < b.ms)
  }

  /** `a <= b` on dates. */
  predicate AtOrBefore(a: Instant, b: Instant) {
    a == b || Before(a, b)
  }

  /** The calendar day of `a` is earlier than that of `b`. */
  predicate DayBefore(a: Instant, b: Instant) {
    || a.year < b.year
    || (a.year == b.year && a.month < b.month)
    || (a.year == b.year && a.month == b.month && a.day < b.day)
  }

  lemma OrderIsTotal(a: Instant, b: Instant)
    ensures AtOrBefore(a, b) || AtOrBefore(b, a)
    ensures AtOrBefore(a, b) && AtOrBefore(b, a) ==> a == b
    ensures Before(a, b) <==> !AtOrBefore(b, a)
  {
  }

  lemma OrderIsTransitive(a: Instant, b: Instant, c: Instant)
    ensures AtOrBefore(a, b) && AtOrBefore(b, c) ==> AtOrBefore(a, c)
    ensures Before(a, b) && AtOrBefore(b, c) ==> Before(a, c)
    ensures AtOrBefore(a, b) && Before(b, c) ==> Before(a, c)
  {
  }

  /** `date.setDate(date.getDate() + 1)`: the same time of day on the next calendar day. */
  function NextDay(t: Instant): (r: Instant)
    ensures r.ms == t.ms
  {
    if t.day < DaysInMonth(t.year, t.month) then t.(day := t.day + 1)
    else if t.month < 11 then t.(month := t.month + 1, day := 1)
    else t.(year := t.year + 1, month := 0, day := 1)
  }

  /** The next day is the first calendar day after `t`: no day lies between them. */
  lemma NextDayIsSuccessor(t: Instant, u: Instant)
    ensures DayBefore(t, NextDay(t)) && Before(t, NextDay(t))
    ensures DayBefore(t, u) ==> !DayBefore(u, NextDay(t))
  {
  }

  /** `date.setDate(date.getDate() + n)` for n >= 0: n steps to the next day. */
  function AddDays(t: Instant, n: nat): (r: Instant)
    ensures r.ms == t.ms
    decreases n
  {
    if n == 0 then t else AddDays(NextDay(t), n - 1)
  }

  lemma {:induction false} AddDaysIsLater(t: Instant, n: nat)
    requires n > 0
    ensures Before(t, AddDays(t, n))
    decreases n
  {
    NextDayIsSuccessor(t, t);
    if n > 1 {
      AddDaysIsLater(NextDay(t), n - 1);
      OrderIsTransitive(t, NextDay(t), AddDays(NextDay(t), n - 1));
    }
  }

  lemma {:induction false} AddDaysWithinMonth(t: Instant, k: nat)
    requires t.day + k <= DaysInMonth(t.year, t.month)
    ensures AddDays(t, k) == t.(day := t.day + k)
    decreases k
  {
    if k > 0 {
      AddDaysWithinMonth(NextDay(t), k - 1);
    }
  }

  lemma {:induction false} AddDaysSplit(t: Instant, a: nat, b: nat)
    ensures AddDays(t, a + b) == AddDays(AddDays(t, a), b)
    decreases a
  {
    if a > 0 {
      AddDaysSplit(NextDay(t), a - 1, b);
    }
  }

  /**
   * `new Date(y, m, d)` (and `setMonth`/`setFullYear`, which rebuild the date
   * that way) for a month 0 <= m < 12 and a day d >= 1: a day beyond the end of
   * month m is not clamped but carries forward into the following months.
   */
  function RollForward(y: int, m: int, d: int, ms: int): (r: Instant)
    requires 0 <= m < 12 && 1 <= d && 0 <= ms < MsPerDay
    ensures r.ms == ms
    ensures r.year > y || (r.year == y && r.month >= m)
    decreases d
  {
    var n := DaysInMonth(y, m);
    if d <= n then DateTime(y, m, d, ms)
    else if m < 11 then RollForward(y, m + 1, d - n, ms)
    else RollForward(y + 1, 0, d - n, ms)
  }

  /** The 1st of the month after month m of year y. */
  function FirstOfNextMonth(y: int, m: int, ms: int): (r: Instant)
    requires 0 <= m < 12 && 0 <= ms < MsPerDay
    ensures r.day == 1 && r.ms == ms
  {
    if m < 11 then DateTime(y, m + 1, 1, ms) else DateTime(y + 1, 0, 1, ms)
  }

  /** Counting past the end of a month: the days beyond it count from the next month's 1st. */
  lemma PastMonthEnd(y: int, m: int, d: int, ms: int)
    requires 0 <= m < 12 && 0 <= ms < MsPerDay && d > DaysInMonth(y, m)
    ensures AddDays(DateTime(y, m, 1, ms), d - 1) == AddDays(FirstOfNextMonth(y, m, ms), d - DaysInMonth(y, m) - 1)
  {
    var first: Instant := DateTime(y, m, 1, ms);
    var n := DaysInMonth(y, m);
    AddDaysWithinMonth(first, n - 1);
    AddDaysSplit(first, n - 1, d - n);
    var last: Instant := DateTime(y, m, n, ms);
    assert NextDay(last) == FirstOfNextMonth(y, m, ms);
  }

  /** Day d of month m is the 1st of that month plus d - 1 days. */
  lemma {:induction false} RollForwardIsDayOffset(y: int, m: int, d: int, ms: int)
    requires 0 <= m < 12 && 1 <= d && 0 <= ms < MsPerDay
    ensures RollForward(y, m, d, ms) == AddDays(DateTime(y, m, 1, ms), d - 1)
    decreases d
  {
    var n := DaysInMonth(y, m);
    if d <= n {
      AddDaysWithinMonth(DateTime(y, m, 1, ms), d - 1);
    } else {
      PastMonthEnd(y, m, d, ms);
      if m < 11 {
        RollForwardIsDayOffset(y, m + 1, d - n, ms);
      } else {
        RollForwardIsDayOffset(y + 1, 0, d - n, ms);
      }
    }
  }

  /** `date.setMonth(date.getMonth() + 1)`. */
  function AddMonth(t: Instant): (r: Instant)
    ensures r.ms == t.ms
    ensures Before(t, r)
  {
    if t.month < 11 then RollForward(t.year, t.month + 1, t.day, t.ms)
    else RollForward(t.year + 1, 0, t.day, t.ms)
  }

  /** `date.setFullYear(date.getFullYear() + 1)`. */
  function AddYear(t: Instant): (r: Instant)
    ensures r.ms == t.ms
    ensures Before(t, r)
  {
    RollForward(t.year + 1, t.month, t.day, t.ms)
  }

  /** `new Date(d.getFullYear(), d.getMonth(), 1)`: midnight on the 1st. */
  function StartOfMonth(t: Instant): (r: Instant)
    ensures AtOrBefore(r, t)
    ensures r.year == t.year && r.month == t.month && r.day == 1 && r.ms == 0
  {
    DateTime(t.year, t.month, 1, 0)
  }

  /**
   * `new Date(d.getFullYear(), d.getMonth() + 1, 0)`: day 0 of the next month
   * is midnight on the last day of this month.
   */
  function LastDayOfMonth(t: Instant): (r: Instant)
    ensures AtOrBefore(StartOfMonth(t), r)
    ensures NextDay(r) == (if t.month < 11 then DateTime(t.year, t.month + 1, 1, 0)
                           else DateTime(t.year + 1, 0, 1, 0))
  {
    DateTime(t.year, t.month, DaysInMonth(t.year, t.month), 0)
  }

  /** The window `gte: startOfMonth, lte: endOfMonth` of the month of `t`. */
  predicate InMonthWindow(d: Instant, t: Instant) {
    AtOrBefore(StartOfMonth(t), d) && AtOrBefore(d, LastDayOfMonth(t))
  }

  /**
   * The window holds exactly the dates of that calendar month, except those on
   * its last day after midnight.
   */
  lemma MonthWindowCoversMonth(d: Instant, t: Instant)
    ensures InMonthWindow(d, t) <==>
      && d.year == t.year && d.month == t.month
      && (d.day < DaysInMonth(t.year, t.month) || d.ms == 0)
  {
  }

  /** `date >= startOfMonth`: the month of `t` or any later month. */
  lemma FromStartOfMonth(d: Instant, t: Instant)
    ensures AtOrBefore(StartOfMonth(t), d) <==>
      d.year > t.year || (d.year == t.year && d.month >= t.month)
  {
  }

  /** `isNewMonth`: the calendar months of the two dates differ. */
  predicate IsNewMonth(last: Instant, current: Instant) {
    last.month != current.month || last.year != current.year
  }
}
