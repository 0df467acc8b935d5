/**
 Billing cycles (mc/api_credits_budget.py): for every date and every reset day
 the cycles tile the calendar, through short months, leap years and year ends.
 */
module Cycle {
  datatype Date = Date(year: int, month: int, day: int)

  predicate IsLeap(y: int) {
    y % 4 == 0 && (y % 100 != 0 || y % 400 == 0)
  }

  function DaysIn(y: int, m: int): (n: int)
    ensures 28 <= n <= 31
  {
    if m == 2 then (if IsLeap(y) then 29 else 28)
    else if m == 4 || m == 6 || m == 9 || m == 11 then 30
    else 31
  }

  /** The months have the lengths of the Gregorian calendar. */
  lemma {:induction false} CalendarIsGregorian(y: int)
    ensures
      var february := if y % 400 == 0 || (y % 4 == 0 && y % 100 != 0) then 29 else 28;
      && [DaysIn(y, 1), DaysIn(y, 2), DaysIn(y, 3), DaysIn(y, 4), DaysIn(y, 5), DaysIn(y, 6)] ==
         [31, february, 31, 30, 31, 30]
      && [DaysIn(y, 7), DaysIn(y, 8), DaysIn(y, 9), DaysIn(y, 10), DaysIn(y, 11), DaysIn(y, 12)] ==
         [31, 31, 30, 31, 30, 31]
  {
    assert y % 400 == 0 ==> y % 100 == 0 && y % 4 == 0 by {
      if y % 400 == 0 {
        var k := y / 400;
        assert y == 100 * (4 * k) && y == 4 * (100 * k);
      }
    }
  }

  predicate IsDate(d: Date) {
    1 <= d.month <= 12 && 1 <= d.day <= DaysIn(d.year, d.month)
  }

  predicate Before(a: Date, b: Date) {
    a.year < b.year || (a.year == b.year && (a.month < b.month || (a.month == b.month && a.day < b.day)))
  }

  predicate NotAfter(a: Date, b: Date) {
    a == b || Before(a, b)
  }

  function DayBefore(d: Date): Date {
    if d.day > 1 then Date(d.year, d.month, d.day - 1)
    else if d.month > 1 then Date(d.year, d.month - 1, DaysIn(d.year, d.month - 1))
    else Date(d.year - 1, 12, 31)
  }

  /** `DayBefore` is the predecessor: there is no date between. */
  lemma {:induction false} DayBeforeIsAdjacent(d: Date, x: Date)
    requires IsDate(d) && IsDate(x)
    ensures IsDate(DayBefore(d)) && Before(DayBefore(d), d)
    ensures Before(x, d) <==> NotAfter(x, DayBefore(d))
  {
  }

  function Clamped(y: int, m: int, day: int): Date {
    Date(y, m, if day <= DaysIn(y, m) then day else DaysIn(y, m))
  }

  /** The start of the cycle that holds `today`, and the next reset. */
  function Bounds(today: Date, reset: int): (Date, Date) {
    var r := if reset < 1 then 1 else if reset > 31 then 31 else reset;
    var here := Clamped(today.year, today.month, r);
    var (py, pm) := if today.month > 1 then (today.year, today.month - 1) else (today.year - 1, 12);
    var (ny, nm) := if today.month < 12 then (today.year, today.month + 1) else (today.year + 1, 1);
    if NotAfter(here, today) then (here, Clamped(ny, nm, r)) else (Clamped(py, pm, r), here)
  }

  /** The day of each month on which a cycle starts: the reset day, or the month's last. */
  predicate IsReset(d: Date, reset: int) {
    var r := if reset < 1 then 1 else if reset > 31 then 31 else reset;
    IsDate(d) && (d.day == r || (d.day < r && d.day == DaysIn(d.year, d.month)))
  }

  /** The bounds are the last reset not after today and the first one after it. */
  lemma {:induction false} BoundsAreNearestResets(today: Date, other: Date, reset: int)
    requires IsDate(today) && IsReset(other, reset)
    ensures
      var (start, next) := Bounds(today, reset);
      && IsReset(start, reset) && NotAfter(start, today) && IsReset(next, reset) && Before(today, next)
      && (NotAfter(other, start) || NotAfter(next, other))
  {
  }

  /** The cycle holds the day it was asked for, and any day it holds gives the same cycle. */
  lemma {:induction false} CycleHoldsExactlyItsDays(today: Date, other: Date, reset: int)
    requires IsDate(today) && IsDate(other)
    ensures
      var (start, next) := Bounds(today, reset);
      && IsDate(start) && IsDate(next)
      && NotAfter(start, today) && Before(today, next)
      && (NotAfter(start, other) && Before(other, next) <==> Bounds(other, reset) == (start, next))
  {
  }

  /** The next reset starts the following cycle. */
  lemma {:induction false} NextCycleStartsAtReset(today: Date, reset: int)
    requires IsDate(today)
    ensures Bounds(Bounds(today, reset).1, reset).0 == Bounds(today, reset).1
  {
  }

  /** The day before the start is in the cycle that ends there. */
  lemma {:induction false} PreviousCycleEndsAtStart(today: Date, reset: int)
    requires IsDate(today)
    ensures
      var start := Bounds(today, reset).0;
      && Bounds(DayBefore(start), reset).1 == start
      && Before(Bounds(DayBefore(start), reset).0, start)
  {
  }

  /** Cycles are ordered like their days. */
  lemma {:induction false} CyclesAreOrdered(a: Date, b: Date, reset: int)
    requires IsDate(a) && IsDate(b) && NotAfter(a, b)
    ensures NotAfter(Bounds(a, reset).0, Bounds(b, reset).0)
  {
  }

  /** The start of the cycle before the one that starts at `start`. */
  function Previous(start: Date, reset: int): Date {
    Bounds(DayBefore(start), reset).0
  }

  /** No cycle starts between. */
  lemma {:induction false} PreviousIsAdjacent(start: Date, other: Date, reset: int)
    requires IsReset(start, reset) && IsReset(other, reset)
    ensures IsReset(Previous(start, reset), reset) && Before(Previous(start, reset), start)
    ensures Before(other, start) <==> NotAfter(other, Previous(start, reset))
  {
    BoundsAreNearestResets(DayBefore(start), other, reset);
    DayBeforeIsAdjacent(start, other);
    PreviousCycleEndsAtStart(start, reset);
  }
}
