/**
 * Calendar dates as the views see them after `parseISO` / `new Date`:
 * local calendar components of a valid date. The `date-fns` helpers the
 * history view uses (`startOfMonth`, `endOfMonth`, `format(.., "yyyy-MM-dd")`)
 * and the `getTime` comparisons are functions on these records.
 */
module Calendar {

  const MsPerDay := 86400000

  datatype DateTime = DateTime(year: int, month: int, day: int, millis: int)

  predicate IsLeapYear(y: int) {
    y % 4 == 0 && (y % 100 != 0 || y % 400 == 0)
  }

  function DaysInMonth(y: int, m: int): (n: int)
    requires 1 <= m <= 12
    ensures 28 <= n <= 31
    ensures m == 2 ==> (n == 29 <==> IsLeapYear(y))
  {
    if m == 2 then (if IsLeapYear(y) then 29 else 28)
    else if m == 4 || m == 6 || m == 9 || m == 11 then 30
    else 31
  }

  predicate IsValid(d: DateTime) {
    1 <= d.month <= 12 && 1 <= d.day <= DaysInMonth(d.year, d.month) && 0 <= d.millis < MsPerDay
  }

  /** A date a transaction's ISO string parses to; `millis` is the time of day. */
  type CalendarDate = d: DateTime | IsValid(d) witness DateTime(1970, 1, 1, 0)

  type Month = m: int | 1 <= m <= 12 witness 1

  /** Months counted from year 0, January: the position of a (year, month) pair on the time line. */
  function MonthIndex(y: int, m: int): int {
    y * 12 + (m - 1)
  }

  /** Each month occupies a slot of 31 days on the model's time line. */
  const MsPerMonthSlot := 31 * MsPerDay

  /**
   * Stand-in for `Date.prototype.getTime`: not milliseconds since the epoch,
   * but a number with the same order on valid dates (see TimestampOrder).
   */
  function Timestamp(d: DateTime): int {
    MonthIndex(d.year, d.month) * MsPerMonthSlot + (d.day - 1) * MsPerDay + d.millis
  }

  /** Chronological order of two dates, component by component. */
  predicate Earlier(a: DateTime, b: DateTime) {
    a.year < b.year
    || (a.year == b.year && a.month < b.month)
    || (a.year == b.year && a.month == b.month && a.day < b.day)
    || (a.year == b.year && a.month == b.month && a.day == b.day && a.millis < b.millis)
  }

  /** `x * C + r` with `0 <= r < C` orders pairs lexicographically (C = 12). */
  lemma SlotOrder12(x: int, r: int, y: int, q: int)
    requires 0 <= r < 12 && 0 <= q < 12
    ensures x * 12 + r < y * 12 + q <==> x < y || (x == y && r < q)
  {
    if x < y { assert x * 12 + 12 <= y * 12; }
    if y < x { assert y * 12 + 12 <= x * 12; }
  }

  lemma SlotOrderDay(x: int, r: int, y: int, q: int)
    requires 0 <= r < MsPerDay && 0 <= q < MsPerDay
    ensures x * MsPerDay + r < y * MsPerDay + q <==> x < y || (x == y && r < q)
  {
    if x < y { assert x * MsPerDay + MsPerDay <= y * MsPerDay; }
    if y < x { assert y * MsPerDay + MsPerDay <= x * MsPerDay; }
  }

  lemma SlotOrderMonth(x: int, r: int, y: int, q: int)
    requires 0 <= r < MsPerMonthSlot && 0 <= q < MsPerMonthSlot
    ensures x * MsPerMonthSlot + r < y * MsPerMonthSlot + q <==> x < y || (x == y && r < q)
  {
    if x < y { assert x * MsPerMonthSlot + MsPerMonthSlot <= y * MsPerMonthSlot; }
    if y < x { assert y * MsPerMonthSlot + MsPerMonthSlot <= x * MsPerMonthSlot; }
  }

  lemma MonthIndexOrder(y1: int, m1: Month, y2: int, m2: Month)
    ensures MonthIndex(y1, m1) < MonthIndex(y2, m2) <==> y1 < y2 || (y1 == y2 && m1 < m2)
    ensures MonthIndex(y1, m1) == MonthIndex(y2, m2) <==> y1 == y2 && m1 == m2
  {
    SlotOrder12(y1, m1 - 1, y2, m2 - 1);
    SlotOrder12(y2, m2 - 1, y1, m1 - 1);
  }

  /** Offset of a date inside its month slot. */
  function InMonthOffset(d: CalendarDate): (w: int)
    ensures 0 <= w < MsPerMonthSlot
    ensures w <= d.day * MsPerDay - 1
  {
    SlotOrderDay(d.day - 1, d.millis, 31, 0);
    (d.day - 1) * MsPerDay + d.millis
  }

  /** The timestamp stand-in orders valid dates chronologically. */
  lemma TimestampOrder(a: CalendarDate, b: CalendarDate)
    ensures Timestamp(a) < Timestamp(b) <==> Earlier(a, b)
    ensures Timestamp(a) == Timestamp(b) <==> a == b
  {
    var wa, wb := InMonthOffset(a), InMonthOffset(b);
    assert Timestamp(a) == MonthIndex(a.year, a.month) * MsPerMonthSlot + wa;
    assert Timestamp(b) == MonthIndex(b.year, b.month) * MsPerMonthSlot + wb;
    SlotOrderMonth(MonthIndex(a.year, a.month), wa, MonthIndex(b.year, b.month), wb);
    SlotOrderMonth(MonthIndex(b.year, b.month), wb, MonthIndex(a.year, a.month), wa);
    MonthIndexOrder(a.year, a.month, b.year, b.month);
    SlotOrderDay(a.day - 1, a.millis, b.day - 1, b.millis);
    SlotOrderDay(b.day - 1, b.millis, a.day - 1, a.millis);
  }

  /** `startOfMonth`: midnight of the first day. */
  function StartOfMonth(y: int, m: Month): CalendarDate {
    DateTime(y, m, 1, 0)
  }

  /** `endOfMonth`: the last millisecond of the last day. */
  function EndOfMonth(y: int, m: Month): CalendarDate {
    DateTime(y, m, DaysInMonth(y, m), MsPerDay - 1)
  }

  /** The history view's test `date >= monthStart && date <= monthEnd`. */
  predicate InMonthWindow(d: CalendarDate, y: int, m: Month) {
    Timestamp(StartOfMonth(y, m)) <= Timestamp(d) <= Timestamp(EndOfMonth(y, m))
  }

  /** The window test keeps exactly the dates of that calendar month. */
  lemma InMonthWindowIff(d: CalendarDate, y: int, m: Month)
    ensures InMonthWindow(d, y, m) <==> d.year == y && d.month == m
  {
    var s, e := StartOfMonth(y, m), EndOfMonth(y, m);
    TimestampOrder(s, d);
    TimestampOrder(d, e);
  }

  /** The key `format(date, "yyyy-MM-dd")` names: a calendar day. */
  datatype Day = Day(year: int, month: int, day: int)

  predicate IsValidDay(k: Day) {
    1 <= k.month <= 12 && 1 <= k.day <= DaysInMonth(k.year, k.month)
  }

  type CalendarDay = k: Day | IsValidDay(k) witness Day(1970, 1, 1)

  function DayOf(d: CalendarDate): CalendarDay {
    Day(d.year, d.month, d.day)
  }

  /** Stand-in for `new Date(key).getTime()` on a day key; same order as the days. */
  function DayOrdinal(k: CalendarDay): int {
    MonthIndex(k.year, k.month) * 31 + (k.day - 1)
  }

  lemma DayOrdinalInjective(a: CalendarDay, b: CalendarDay)
    ensures DayOrdinal(a) == DayOrdinal(b) <==> a == b
  {
    var x, y := MonthIndex(a.year, a.month), MonthIndex(b.year, b.month);
    if x < y { assert x * 31 + 31 <= y * 31; }
    if y < x { assert y * 31 + 31 <= x * 31; }
    MonthIndexOrder(a.year, a.month, b.year, b.month);
  }

  /** A later date never falls on an earlier day key. */
  lemma DayOfMonotone(a: CalendarDate, b: CalendarDate)
    requires Timestamp(a) <= Timestamp(b)
    ensures DayOrdinal(DayOf(a)) <= DayOrdinal(DayOf(b))
  {
    TimestampOrder(a, b);
    TimestampOrder(b, a);
    MonthIndexOrder(a.year, a.month, b.year, b.month);
    var x, y := MonthIndex(a.year, a.month), MonthIndex(b.year, b.month);
    if x < y { assert x * 31 + 31 <= y * 31; }
  }
}
