/** Proleptic Gregorian calendar arithmetic, as Python's `datetime.date`,
    `timedelta` and `calendar.monthrange` provide it to the services. */
module Dates {
  import opened Common

  datatype Date = Date(year: int, month: int, day: int)

  predicate IsLeap(y: int) {
    y % 4 == 0 && (y % 100 != 0 || y % 400 == 0)
  }

  /** The number of days of month `m` of year `y`: `calendar.monthrange(y, m)[1]`. */
  function DaysInMonth(y: int, m: int): (n: int)
    requires 1 <= m <= 12
    ensures 28 <= n <= 31
    ensures n < 30 <==> m == 2
    ensures m == 2 ==> (n == 29 <==> IsLeap(y))
  {
    if m == 2 then (if IsLeap(y) then 29 else 28)
    else if m == 4 || m == 6 || m == 9 || m == 11 then 30
    else 31
  }

  /** A real calendar day. */
  predicate ValidDate(d: Date) {
    1 <= d.month <= 12 && 1 <= d.day <= DaysInMonth(d.year, d.month)
  }

  /** `date(y, m, d)`, which raises ValueError (here None) for a day that does not exist. */
  function MakeDate(y: int, m: int, d: int): (r: Option<Date>)
    ensures r.Some? <==> 1 <= m <= 12 && 1 <= d <= DaysInMonth(y, m)
    ensures r.Some? ==> ValidDate(r.value) && r.value == Date(y, m, d)
  {
    if 1 <= m <= 12 && 1 <= d <= DaysInMonth(y, m) then Some(Date(y, m, d)) else None
  }

  /** `a < b` on dates. */
  predicate Before(a: Date, b: Date) {
    a.year < b.year
    || (a.year == b.year && (a.month < b.month || (a.month == b.month && a.day < b.day)))
  }

  /** `a <= b` on dates. */
  predicate NotAfter(a: Date, b: Date) {
    !Before(b, a)
  }

  /** The day after `d`. */
  function NextDay(d: Date): (r: Date)
    requires ValidDate(d)
    ensures ValidDate(r) && Before(d, r)
  {
    if d.day < DaysInMonth(d.year, d.month) then Date(d.year, d.month, d.day + 1)
    else if d.month < 12 then Date(d.year, d.month + 1, 1)
    else Date(d.year + 1, 1, 1)
  }

  /** The day before `d`. */
  function PrevDay(d: Date): (r: Date)
    requires ValidDate(d)
    ensures ValidDate(r) && Before(r, d)
  {
    if d.day > 1 then Date(d.year, d.month, d.day - 1)
    else if d.month > 1 then Date(d.year, d.month - 1, DaysInMonth(d.year, d.month - 1))
    else Date(d.year - 1, 12, 31)
  }

  /** `d + timedelta(days=n)`, for any sign of `n`. */
  function AddDays(d: Date, n: int): (r: Date)
    requires ValidDate(d)
    ensures ValidDate(r)
    ensures n > 0 ==> Before(d, r)
    ensures n < 0 ==> Before(r, d)
    decreases if n >= 0 then n else -n
  {
    if n == 0 then d
    else if n > 0 then AddDays(NextDay(d), n - 1)
    else AddDays(PrevDay(d), n + 1)
  }

  lemma NextPrevInverse(d: Date)
    requires ValidDate(d)
    ensures PrevDay(NextDay(d)) == d
    ensures NextDay(PrevDay(d)) == d
  {
  }

  /** Adding days that stay inside the month only moves the day number. */
  lemma {:induction false} AddDaysWithinMonth(d: Date, n: int)
    requires ValidDate(d) && 0 <= n && d.day + n <= DaysInMonth(d.year, d.month)
    ensures AddDays(d, n) == Date(d.year, d.month, d.day + n)
    decreases n
  {
    if n > 0 {
      AddDaysWithinMonth(NextDay(d), n - 1);
    }
  }

  /** Adding `a` days and then `b` days is adding `a + b` days. */
  lemma {:induction false} AddDaysCompose(d: Date, a: nat, b: nat)
    requires ValidDate(d)
    ensures AddDays(AddDays(d, a), b) == AddDays(d, a + b)
    decreases a
  {
    if a > 0 {
      AddDaysCompose(NextDay(d), a - 1, b);
    }
  }

  /** The first day of the month after the one `d` is in. */
  function FirstOfNextMonth(d: Date): Date {
    if d.month < 12 then Date(d.year, d.month + 1, 1) else Date(d.year + 1, 1, 1)
  }

  /** `d.replace(day=1)`. */
  function WithDayOne(d: Date): Date {
    Date(d.year, d.month, 1)
  }

  /** The last-day expression the billing engine falls back on:
      `(date(y, m, 1) + timedelta(days=32)).replace(day=1) - timedelta(days=1)`. */
  function LastDayByOverflow(y: int, m: int): Date
    requires 1 <= m <= 12
  {
    AddDays(WithDayOne(AddDays(Date(y, m, 1), 32)), -1)
  }

  /** That expression is always the last day of month `m`. */
  lemma LastDayByOverflowIsLastDay(y: int, m: int)
    requires 1 <= m <= 12
    ensures LastDayByOverflow(y, m) == Date(y, m, DaysInMonth(y, m))
  {
    var first := Date(y, m, 1);
    var k := DaysInMonth(y, m);
    AddDaysWithinMonth(first, k - 1);
    var last := Date(y, m, k);
    var next := FirstOfNextMonth(first);
    assert AddDays(last, 1) == next;
    AddDaysCompose(first, k - 1, 1);
    AddDaysWithinMonth(next, 32 - k);
    AddDaysCompose(first, k, 32 - k);
    assert AddDays(first, 32) == Date(next.year, next.month, 33 - k);
    assert WithDayOne(AddDays(first, 32)) == next;
    assert AddDays(next, -1) == PrevDay(next);
  }

  /** A `datetime` as the services use it: a day and the microseconds elapsed since its midnight. */
  datatype DateTime = DateTime(date: Date, micros: int)

  const MicrosPerDay: int := 86_400_000_000

  predicate ValidDateTime(t: DateTime) {
    ValidDate(t.date) && 0 <= t.micros < MicrosPerDay
  }

  /** `a < b` on datetimes. */
  predicate DateTimeBefore(a: DateTime, b: DateTime) {
    Before(a.date, b.date) || (a.date == b.date && a.micros < b.micros)
  }

  /** `datetime.combine(d, datetime.min.time())`. */
  function Midnight(d: Date): DateTime {
    DateTime(d, 0)
  }

  /** `t - timedelta(days=1)`. */
  function DayEarlier(t: DateTime): (r: DateTime)
    requires ValidDateTime(t)
    ensures ValidDateTime(r) && DateTimeBefore(r, t)
  {
    DateTime(AddDays(t.date, -1), t.micros)
  }

  /** A datetime one day back is earlier than midnight of the same calendar day. */
  lemma DayEarlierBeforeMidnight(t: DateTime, d: Date)
    requires ValidDateTime(t) && ValidDate(d) && NotAfter(t.date, d)
    ensures DateTimeBefore(DayEarlier(t), Midnight(d))
  {
  }

  /** Months numbered consecutively: January of year 0 is month 0. */
  function MonthIndex(y: int, m: int): int {
    12 * y + (m - 1)
  }

  /** The (year, month) of a month index. */
  function MonthOfIndex(k: int): (r: (int, int))
    ensures 1 <= r.1 <= 12 && MonthIndex(r.0, r.1) == k
  {
    (k / 12, k % 12 + 1)
  }
}
