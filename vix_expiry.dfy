/**
 * The VIX futures settlement calendar: the contract of a month settles on the
 * Wednesday thirty days before the third Friday of the following month.  The
 * same two routines, `get_expiry_date_for_month` and `get_next_expiry_date`,
 * appear word for word in backtester/volatility_etns.py and in
 * backtester/vix_futures_pca.py; both files are modelled by this module.
 */
module VixExpiry {
  import opened Calendar

  /** The third Friday of (y, m): of the seven days 15..21 exactly one is a Friday. */
  function ThirdFriday(y: int, m: int): (f: Date)
    requires 1 <= m <= 12
    ensures Valid(f) && f.year == y && f.month == m && 15 <= f.day <= 21
  {
    var w := Weekday(Date(y, m, 15));
    Date(y, m, 15 + (4 - w) % 7)
  }

  lemma ThirdFridayIsFriday(y: int, m: int)
    requires 1 <= m <= 12
    ensures Weekday(ThirdFriday(y, m)) == 4
  {
    FridayOffsets(y, m);
  }

  /** The third Friday is the only Friday among days 15..21. */
  lemma OnlyFridayInRange(y: int, m: int, j: int)
    requires 1 <= m <= 12 && 15 <= j <= 21
    requires Weekday(Date(y, m, j)) == 4
    ensures j == ThirdFriday(y, m).day
  {
    FridayOffsets(y, m);
  }

  lemma FridayOffsets(y: int, m: int)
    requires 1 <= m <= 12
    ensures var w := Weekday(Date(y, m, 15));
            forall j :: 15 <= j <= 21 ==> Weekday(Date(y, m, j)) == (w + j - 15) % 7
  {
    var o := Ordinal(Date(y, m, 15));
    forall j | 15 <= j <= 21
      ensures Weekday(Date(y, m, j)) == (Weekday(Date(y, m, 15)) + j - 15) % 7
    {
      assert Ordinal(Date(y, m, j)) == o + (j - 15);
      ModShift(o + 6, j - 15);
    }
  }

  /** A date between the first and the last day of (y, m) lies in (y, m). */
  lemma InMonth(x: Date, y: int, m: int)
    requires Valid(x) && 1 <= m <= 12
    requires Ordinal(Date(y, m, 1)) <= Ordinal(x) <= Ordinal(Date(y, m, DaysInMonth(y, m)))
    ensures x.year == y && x.month == m
  {
    if MonthIndex(x.year, x.month) < MonthIndex(y, m) {
      MonthOrder(x, Date(y, m, 1));
    } else if MonthIndex(y, m) < MonthIndex(x.year, x.month) {
      MonthOrder(Date(y, m, DaysInMonth(y, m)), x);
    }
  }

  /**
   * The settlement date of the contract of `d`'s month, which always falls on
   * day 13..22 of `d`'s own month.
   */
  function ExpiryFor(d: Date): (e: Date)
    requires Valid(d)
    ensures Valid(e) && e.year == d.year && e.month == d.month && 13 <= e.day <= 22
  {
    var next := MonthAfter(d.year, d.month);
    var f := ThirdFriday(next.0, next.1);
    Date(d.year, d.month, f.day + DaysInMonth(d.year, d.month) - 30)
  }

  /** The settlement date is the Wednesday thirty days before the next month's third Friday. */
  lemma ExpiryIsSettlement(d: Date)
    requires Valid(d)
    ensures var next := MonthAfter(d.year, d.month);
            ExpiryFor(d) == AddDays(ThirdFriday(next.0, next.1), -30)
    ensures Weekday(ExpiryFor(d)) == 2
  {
    var next := MonthAfter(d.year, d.month);
    var f := ThirdFriday(next.0, next.1);
    ThirtyDaysBack(d.year, d.month, f);
    ThirdFridayIsFriday(next.0, next.1);
    WeekdayShift(f, -30);
    assert (4 + -30) % 7 == 2;
  }

  /** Thirty days before day 15..21 of the next month is a day of this month. */
  lemma ThirtyDaysBack(y: int, m: int, f: Date)
    requires 1 <= m <= 12 && Valid(f) && 15 <= f.day <= 21
    requires (f.year, f.month) == MonthAfter(y, m)
    ensures AddDays(f, -30) == Date(y, m, f.day + DaysInMonth(y, m) - 30)
  {
    var e := AddDays(f, -30);
    var last := Date(y, m, DaysInMonth(y, m));
    var g := Date(y, m, f.day + DaysInMonth(y, m) - 30);
    FirstOfNextMonth(y, m);
    assert Ordinal(f) == Ordinal(Date(f.year, f.month, 1)) + f.day - 1;
    assert Ordinal(g) == Ordinal(last) + f.day - 30;
    OrdinalInjective(e, g);
  }

  /**
   * `get_expiry_date_for_month`: start on the 15th of the following month and
   * step one day at a time until a Friday, then go back thirty days.
   */
  method ExpiryDateForMonth(curr: Date) returns (expiry: Date)
    requires Valid(curr)
    ensures expiry == ExpiryFor(curr)
    ensures Weekday(expiry) == 2 && expiry.year == curr.year && expiry.month == curr.month
  {
    var friday: Date;
    if curr.month == 12 {
      friday := Date(curr.year + 1, 1, 15);
    } else {
      friday := Date(curr.year, curr.month + 1, 15);
    }
    ghost var next := MonthAfter(curr.year, curr.month);
    assert friday == Date(next.0, next.1, 15);
    ghost var target := ThirdFriday(next.0, next.1);
    ThirdFridayIsFriday(next.0, next.1);
    while Weekday(friday) != 4
      invariant friday.year == next.0 && friday.month == next.1
      invariant 15 <= friday.day <= target.day
      decreases target.day - friday.day
    {
      assert friday.day < target.day;
      friday := NextDay(friday);
    }
    OnlyFridayInRange(next.0, next.1, friday.day);
    assert friday == target;
    expiry := AddDays(friday, -30);
    ExpiryIsSettlement(curr);
  }

  /**
   * `get_next_expiry_date` as written: the expiry of the current month if the
   * date is strictly before it, otherwise the expiry of the month of the date
   * thirty days later.
   */
  function NextExpiryFor(d: Date): (e: Date)
    requires Valid(d)
    ensures Valid(e) && Before(d, e)
    ensures e == ExpiryFor(d) || e == ExpiryFor(AddDays(d, 30))
  {
    if Before(d, ExpiryFor(d)) then ExpiryFor(d)
    else
      var later := AddDays(d, 30);
      LaterMonth(d, later);
      MonthOrder(d, ExpiryFor(later));
      ExpiryFor(later)
  }

  /** Once a month's expiry has passed, thirty days later is in a later month. */
  lemma LaterMonth(d: Date, x: Date)
    requires Valid(d) && !Before(d, ExpiryFor(d)) && x == AddDays(d, 30)
    ensures MonthIndex(d.year, d.month) < MonthIndex(x.year, x.month)
  {
    PastMidMonth(d, ExpiryFor(d));
    ThirtyDaysOn(d, x);
  }

  /** A date not before a day 13 or later of its own month is itself day 13 or later. */
  lemma PastMidMonth(d: Date, e: Date)
    requires Valid(d) && Valid(e) && e.year == d.year && e.month == d.month && 13 <= e.day
    requires !Before(d, e)
    ensures 13 <= d.day
  {
    SameMonthOrdinals(e, d);
  }

  /** Within one month, ordinals differ by the difference of the days. */
  lemma SameMonthOrdinals(a: Date, b: Date)
    requires Valid(a) && Valid(b) && a.year == b.year && a.month == b.month
    ensures Ordinal(b) - Ordinal(a) == b.day - a.day
  {
  }

  /** From day 2 on, thirty days later lies in a later month. */
  lemma ThirtyDaysOn(d: Date, x: Date)
    requires Valid(d) && Valid(x) && d.day >= 2 && Ordinal(x) == Ordinal(d) + 30
    ensures MonthIndex(d.year, d.month) < MonthIndex(x.year, x.month)
  {
    if MonthIndex(x.year, x.month) < MonthIndex(d.year, d.month) {
      MonthOrder(x, d);
    } else if MonthIndex(x.year, x.month) == MonthIndex(d.year, d.month) {
      SameMonthOrdinals(d, x);
    }
  }

  /** The next expiry is a settlement Wednesday. */
  lemma NextExpiryIsWednesday(d: Date)
    requires Valid(d)
    ensures Weekday(NextExpiryFor(d)) == 2
  {
    ExpiryIsSettlement(d);
    ExpiryIsSettlement(AddDays(d, 30));
  }

  /** `get_next_expiry_date`, calling `get_expiry_date_for_month` once or twice. */
  method NextExpiryDate(curr: Date) returns (expiry: Date)
    requires Valid(curr)
    ensures expiry == NextExpiryFor(curr)
    ensures Before(curr, expiry)
  {
    expiry := ExpiryDateForMonth(curr);
    if !Before(curr, expiry) {
      expiry := ExpiryDateForMonth(AddDays(curr, 30));
    }
  }

  /**
   * The evidently intended next expiry: when this month's expiry has passed,
   * take the expiry of the following calendar month.
   */
  function NextExpiryIntended(d: Date): (e: Date)
    requires Valid(d)
    ensures Valid(e) && Before(d, e)
    ensures var next := MonthAfter(d.year, d.month);
            e == ExpiryFor(d) || e == ExpiryFor(Date(next.0, next.1, 1))
  {
    if Before(d, ExpiryFor(d)) then ExpiryFor(d)
    else
      var next := MonthAfter(d.year, d.month);
      MonthOrder(d, ExpiryFor(Date(next.0, next.1, 1)));
      ExpiryFor(Date(next.0, next.1, 1))
  }

  /** Two dates of the same month have the same expiry. */
  lemma SameMonthSameExpiry(a: Date, b: Date)
    requires Valid(a) && Valid(b) && a.year == b.year && a.month == b.month
    ensures ExpiryFor(a) == ExpiryFor(b)
  {
  }

  /** Expiries of later months come later. */
  lemma ExpiryMonotone(a: Date, b: Date)
    requires Valid(a) && Valid(b)
    requires MonthIndex(a.year, a.month) < MonthIndex(b.year, b.month)
    ensures Before(ExpiryFor(a), ExpiryFor(b))
  {
    MonthOrder(ExpiryFor(a), ExpiryFor(b));
  }

  /**
   * The corrected next expiry is the earliest settlement date strictly after
   * `d`: no month's expiry falls strictly between the two.
   */
  lemma NextExpiryIntendedIsEarliest(d: Date, x: Date)
    requires Valid(d) && Valid(x)
    requires Before(d, ExpiryFor(x))
    ensures !Before(ExpiryFor(x), NextExpiryIntended(d))
  {
    var n := MonthAfter(d.year, d.month);
    var mx, md := MonthIndex(x.year, x.month), MonthIndex(d.year, d.month);
    if mx < md {
      MonthOrder(ExpiryFor(x), d);
    } else if Before(d, ExpiryFor(d)) {
      NoExpiryBefore(d, x);
    } else if mx == md {
      SameMonthSameExpiry(x, d);
    } else {
      NoExpiryBefore(Date(n.0, n.1, 1), x);
    }
  }

  /** No month from `d`'s on settles before `d`'s month does. */
  lemma NoExpiryBefore(d: Date, x: Date)
    requires Valid(d) && Valid(x)
    requires MonthIndex(d.year, d.month) <= MonthIndex(x.year, x.month)
    ensures !Before(ExpiryFor(x), ExpiryFor(d))
  {
    if MonthIndex(d.year, d.month) == MonthIndex(x.year, x.month) {
      SameMonthSameExpiry(x, d);
    } else {
      ExpiryMonotone(d, x);
    }
  }

  /** The last days of January from which thirty days later is already March. */
  predicate LateJanuary(d: Date)
  {
    d.month == 1 && d.day + 30 > 31 + DaysInMonth(d.year, 2)
  }

  /**
   * The routine as written agrees with the intended one exactly when the date
   * is not one of the last days of January from which thirty days reach March.
   */
  lemma NextExpiryAgreesUnlessLateJanuary(d: Date)
    requires Valid(d)
    ensures NextExpiryFor(d) == NextExpiryIntended(d) <==> !LateJanuary(d)
  {
    if !Before(d, ExpiryFor(d)) {
      PastMidMonth(d, ExpiryFor(d));
      var x := AddDays(d, 30);
      var first := Date(MonthAfter(d.year, d.month).0, MonthAfter(d.year, d.month).1, 1);
      ThirtyDaysLater(d, x);
      if LateJanuary(d) {
        ExpiryMonotone(first, x);
      } else {
        SameMonthSameExpiry(x, first);
      }
    }
  }

  /**
   * From day 13 on, thirty days later is in the next month, except from the
   * last days of January, where it is in March.
   */
  lemma ThirtyDaysLater(d: Date, x: Date)
    requires Valid(d) && 13 <= d.day && Valid(x) && Ordinal(x) == Ordinal(d) + 30
    ensures LateJanuary(d) ==> x.year == d.year && x.month == 3
    ensures !LateJanuary(d) ==> (x.year, x.month) == MonthAfter(d.year, d.month)
  {
    if LateJanuary(d) {
      ThirtyDaysToMarch(d, x);
    } else {
      ThirtyDaysToNextMonth(d, x);
    }
  }

  lemma ThirtyDaysToMarch(d: Date, x: Date)
    requires Valid(d) && Valid(x) && Ordinal(x) == Ordinal(d) + 30 && LateJanuary(d)
    ensures x.year == d.year && x.month == 3
  {
    var y := d.year;
    assert Ordinal(Date(y, 3, 1)) == Ordinal(d) + 31 - d.day + DaysInMonth(y, 2) + 1;
    assert Ordinal(Date(y, 3, 31)) == Ordinal(Date(y, 3, 1)) + 30;
    InMonth(x, y, 3);
  }

  lemma ThirtyDaysToNextMonth(d: Date, x: Date)
    requires Valid(d) && 13 <= d.day && Valid(x) && Ordinal(x) == Ordinal(d) + 30 && !LateJanuary(d)
    ensures (x.year, x.month) == MonthAfter(d.year, d.month)
  {
    var next := MonthAfter(d.year, d.month);
    var last := Date(d.year, d.month, DaysInMonth(d.year, d.month));
    var first := Date(next.0, next.1, 1);
    FirstOfNextMonth(d.year, d.month);
    SameMonthOrdinals(d, last);
    SameMonthOrdinals(first, Date(next.0, next.1, DaysInMonth(next.0, next.1)));
    InMonth(x, next.0, next.1);
  }

  /*
   * Concrete dates.  Each lemma states one date so that the solver evaluates
   * few calendar terms at a time.
   */

  /** The unit tests of `get_expiry_date_for_month`: December 2014 settles on the 17th. */
  lemma ExpiryDecember2014()
    ensures ExpiryFor(Date(2014, 12, 1)) == Date(2014, 12, 17)
  {
    assert Weekday(Date(2015, 1, 15)) == 3;
  }

  /** January 2015 settles on the 21st. */
  lemma ExpiryJanuary2015()
    ensures ExpiryFor(Date(2015, 1, 1)) == Date(2015, 1, 21)
  {
    assert Weekday(Date(2015, 2, 15)) == 6;
  }

  /** February 2015 settles on the 18th. */
  lemma ExpiryFebruary2015()
    ensures ExpiryFor(Date(2015, 2, 1)) == Date(2015, 2, 18)
  {
    assert Weekday(Date(2015, 3, 15)) == 6;
  }

  /** March 2015 settles on the 18th. */
  lemma ExpiryMarch2015()
    ensures ExpiryFor(Date(2015, 3, 1)) == Date(2015, 3, 18)
  {
    assert Weekday(Date(2015, 4, 15)) == 2;
  }

  /** The unit tests of `get_next_expiry_date`: the day before a settlement date. */
  lemma NextExpiryDayBefore()
    ensures NextExpiryFor(Date(2014, 12, 16)) == Date(2014, 12, 17)
  {
    ExpiryDecember2014();
  }

  /** On a settlement date the next one is the following month's. */
  lemma NextExpiryOnSettlementDay()
    ensures NextExpiryFor(Date(2014, 12, 17)) == Date(2015, 1, 21)
  {
    ExpiryDecember2014();
    ExpiryJanuary2015();
    NextExpiryAgreesUnlessLateJanuary(Date(2014, 12, 17));
  }

  /** On the first of a month the next settlement date is that month's. */
  lemma NextExpiryFirstOfMonth()
    ensures NextExpiryFor(Date(2015, 1, 1)) == Date(2015, 1, 21)
    ensures NextExpiryFor(Date(2015, 2, 1)) == Date(2015, 2, 18)
  {
    ExpiryJanuary2015();
    ExpiryFebruary2015();
  }

  /** From 31 January 2015 the routine as written skips the February contract. */
  lemma NextExpirySkipsFebruary()
    ensures NextExpiryFor(Date(2015, 1, 31)) == Date(2015, 3, 18)
  {
    var d := Date(2015, 1, 31);
    ExpiryJanuary2015();
    SameMonthSameExpiry(d, Date(2015, 1, 1));
    var x := AddDays(d, 30);
    ThirtyDaysToMarch(d, x);
    SameMonthSameExpiry(x, Date(2015, 3, 1));
    ExpiryMarch2015();
  }

  /** The corrected routine returns the February contract from 31 January 2015. */
  lemma NextExpiryIntendedKeepsFebruary()
    ensures NextExpiryIntended(Date(2015, 1, 31)) == Date(2015, 2, 18)
    ensures Before(Date(2015, 1, 31), Date(2015, 2, 18)) && Before(Date(2015, 2, 18), Date(2015, 3, 18))
  {
    ExpiryJanuary2015();
    SameMonthSameExpiry(Date(2015, 1, 31), Date(2015, 1, 1));
    ExpiryFebruary2015();
  }
}
