/**
 * The proleptic Gregorian calendar as Python's `datetime.date` implements it:
 * a date is a (year, month, day) triple, its ordinal is the day count of
 * `date.toordinal()` (0001-01-01 has ordinal 1), its weekday is `weekday()`
 * (Monday is 0, Friday 4, Sunday 6), and adding a `timedelta` of whole days
 * moves the ordinal by that many days.  Dates are compared by ordinal.
 */
module Calendar {

  datatype Date = Date(year: int, month: int, day: int)

  predicate IsLeapYear(y: int)
  {
    y % 4 == 0 && (y % 100 != 0 || y % 400 == 0)
  }

  function DaysInMonth(y: int, m: int): (n: int)
    ensures 28 <= n <= 31
    ensures m == 2 ==> n == (if IsLeapYear(y) then 29 else 28)
  {
    if m == 2 then (if IsLeapYear(y) then 29 else 28)
    else if m == 4 || m == 6 || m == 9 || m == 11 then 30
    else 31
  }

  predicate Valid(d: Date)
  {
    1 <= d.month <= 12 && 1 <= d.day <= DaysInMonth(d.year, d.month)
  }

  /** Days in the years before `y` (Python's `_days_before_year`). */
  function DaysBeforeYear(y: int): int
  {
    var p := y - 1;
    365 * p + p / 4 - p / 100 + p / 400
  }

  /** Days in the months of year `y` before month `m` (Python's `_days_before_month`). */
  function DaysBeforeMonth(y: int, m: int): int
    requires 1 <= m <= 12
  {
    (if m == 1 then 0 else if m == 2 then 31 else if m == 3 then 59 else if m == 4 then 90
     else if m == 5 then 120 else if m == 6 then 151 else if m == 7 then 181 else if m == 8 then 212
     else if m == 9 then 243 else if m == 10 then 273 else if m == 11 then 304 else 334)
      + (if m > 2 && IsLeapYear(y) then 1 else 0)
  }

  /** `date.toordinal()`. */
  function Ordinal(d: Date): int
    requires 1 <= d.month <= 12
  {
    DaysBeforeYear(d.year) + DaysBeforeMonth(d.year, d.month) + d.day
  }

  /** `date.weekday()`: Monday is 0 and Sunday is 6. */
  function Weekday(d: Date): (w: int)
    requires 1 <= d.month <= 12
    ensures 0 <= w < 7
  {
    (Ordinal(d) + 6) % 7
  }

  /** Python's `a < b` on dates. */
  predicate Before(a: Date, b: Date)
    requires 1 <= a.month <= 12 && 1 <= b.month <= 12
  {
    Ordinal(a) < Ordinal(b)
  }

  /** `(b - a).days`. */
  function DaysBetween(a: Date, b: Date): int
    requires 1 <= a.month <= 12 && 1 <= b.month <= 12
  {
    Ordinal(b) - Ordinal(a)
  }

  /** The month number `12*year + month - 1`, which orders months in time. */
  function MonthIndex(y: int, m: int): int
  {
    12 * y + m - 1
  }

  /** The calendar month after (y, m), December rolling over to January of y+1. */
  function MonthAfter(y: int, m: int): (r: (int, int))
    requires 1 <= m <= 12
    ensures 1 <= r.1 <= 12
    ensures MonthIndex(r.0, r.1) == MonthIndex(y, m) + 1
  {
    if m == 12 then (y + 1, 1) else (y, m + 1)
  }

  lemma DivStep(y: int)
    ensures y / 4 - (y - 1) / 4 == (if y % 4 == 0 then 1 else 0)
    ensures y / 100 - (y - 1) / 100 == (if y % 100 == 0 then 1 else 0)
    ensures y / 400 - (y - 1) / 400 == (if y % 400 == 0 then 1 else 0)
  {
  }

  /** A year has 365 days, 366 in a leap year. */
  lemma YearLength(y: int)
    ensures DaysBeforeYear(y + 1) == DaysBeforeYear(y) + (if IsLeapYear(y) then 366 else 365)
  {
    DivStep(y);
  }

  lemma MonthLength(y: int, m: int)
    requires 1 <= m < 12
    ensures DaysBeforeMonth(y, m + 1) == DaysBeforeMonth(y, m) + DaysInMonth(y, m)
  {
  }

  /** `d + timedelta(days=1)`. */
  function NextDay(d: Date): (e: Date)
    requires Valid(d)
    ensures Valid(e) && Ordinal(e) == Ordinal(d) + 1
  {
    if d.day < DaysInMonth(d.year, d.month) then Date(d.year, d.month, d.day + 1)
    else if d.month < 12 then MonthLength(d.year, d.month); Date(d.year, d.month + 1, 1)
    else YearLength(d.year); Date(d.year + 1, 1, 1)
  }

  /** `d - timedelta(days=1)`. */
  function PrevDay(d: Date): (e: Date)
    requires Valid(d)
    ensures Valid(e) && Ordinal(e) == Ordinal(d) - 1
  {
    if d.day > 1 then Date(d.year, d.month, d.day - 1)
    else if d.month > 1 then
      MonthLength(d.year, d.month - 1);
      Date(d.year, d.month - 1, DaysInMonth(d.year, d.month - 1))
    else YearLength(d.year - 1); Date(d.year - 1, 12, 31)
  }

  /** `d + timedelta(days=s)` for a step `s` of one day forward or back. */
  function StepDay(d: Date, s: int): (e: Date)
    requires Valid(d) && (s == 1 || s == -1)
    ensures Valid(e) && Ordinal(e) == Ordinal(d) + s
  {
    if s > 0 then NextDay(d) else PrevDay(d)
  }

  /** `d + timedelta(days=n)`, one day at a time. */
  function AddDays(d: Date, n: int): (e: Date)
    requires Valid(d)
    ensures Valid(e) && Ordinal(e) == Ordinal(d) + n
    decreases if n >= 0 then n else -n
  {
    if n == 0 then d
    else if n > 0 then AddDays(NextDay(d), n - 1)
    else AddDays(PrevDay(d), n + 1)
  }

  /** The first day of the month after (y, m) directly follows the last day of (y, m). */
  lemma FirstOfNextMonth(y: int, m: int)
    requires 1 <= m <= 12
    ensures var next := MonthAfter(y, m);
            Ordinal(Date(next.0, next.1, 1)) == Ordinal(Date(y, m, DaysInMonth(y, m))) + 1
  {
    assert NextDay(Date(y, m, DaysInMonth(y, m))) == Date(MonthAfter(y, m).0, MonthAfter(y, m).1, 1);
  }

  /** Every day of an earlier month comes before every day of a later month. */
  lemma {:induction false} EarlierMonthFirst(y1: int, m1: int, y2: int, m2: int)
    requires 1 <= m1 <= 12 && 1 <= m2 <= 12
    requires MonthIndex(y1, m1) < MonthIndex(y2, m2)
    ensures Ordinal(Date(y1, m1, DaysInMonth(y1, m1))) < Ordinal(Date(y2, m2, 1))
    decreases MonthIndex(y2, m2) - MonthIndex(y1, m1)
  {
    FirstOfNextMonth(y1, m1);
    var y3, m3 := MonthAfter(y1, m1).0, MonthAfter(y1, m1).1;
    if MonthIndex(y3, m3) < MonthIndex(y2, m2) {
      EarlierMonthFirst(y3, m3, y2, m2);
    } else {
      assert y3 == y2 && m3 == m2;
    }
  }

  /** Comparing valid dates by ordinal is comparing them by (year, month) first. */
  lemma MonthOrder(a: Date, b: Date)
    requires Valid(a) && Valid(b)
    requires MonthIndex(a.year, a.month) < MonthIndex(b.year, b.month)
    ensures Before(a, b)
  {
    EarlierMonthFirst(a.year, a.month, b.year, b.month);
  }

  /** Distinct valid dates have distinct ordinals. */
  lemma OrdinalInjective(a: Date, b: Date)
    requires Valid(a) && Valid(b)
    requires Ordinal(a) == Ordinal(b)
    ensures a == b
  {
    if MonthIndex(a.year, a.month) < MonthIndex(b.year, b.month) {
      MonthOrder(a, b);
    } else if MonthIndex(b.year, b.month) < MonthIndex(a.year, a.month) {
      MonthOrder(b, a);
    } else {
      assert a.year == b.year;
    }
  }

  /** Adding days moves the weekday round the week. */
  lemma WeekdayShift(d: Date, n: int)
    requires Valid(d)
    ensures Weekday(AddDays(d, n)) == (Weekday(d) + n) % 7
  {
    var k := Ordinal(d) + 6;
    assert Weekday(AddDays(d, n)) == (k + n) % 7;
    ModShift(k, n);
  }

  lemma ModShift(k: int, n: int)
    ensures (k + n) % 7 == (k % 7 + n) % 7
  {
    var q := k / 7;
    assert k == 7 * q + k % 7;
    ShiftByWeeks(k % 7 + n, q);
  }

  lemma ShiftByWeeks(x: int, q: int)
    ensures (x + 7 * q) % 7 == x % 7
  {
  }
}
