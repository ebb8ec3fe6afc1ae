/**
 * The series helpers of common/utils.py: whole-day counts, stepping over
 * weekends, the NaN-skipping row selection, forward filling, lagging, and the
 * simple and logarithmic returns of a pnl series.
 */
module SeriesUtils {
  import opened Wrappers
  import opened Floats
  import opened Calendar

  /** `day_count(start, end)`: the whole days from `start` to `end`. */
  function DayCount(start: Date, end: Date): (n: int)
    requires Valid(start) && Valid(end)
    ensures AddDays(start, n) == end
  {
    var n := DaysBetween(start, end);
    OrdinalInjective(AddDays(start, n), end);
    n
  }

  function Sign(n: int): int
  {
    if n > 0 then 1 else if n < 0 then -1 else 0
  }

  function Abs(n: int): nat
  {
    if n < 0 then -n else n
  }

  /** `k` days in direction `s`, as a signed day offset. */
  function Toward(s: int, k: int): int
  {
    if s < 0 then -k else k
  }

  /** Whether the day `j` steps in direction `s` from a day of weekday `w` is Monday..Friday. */
  predicate WorkDayAt(w: int, s: int, j: int)
  {
    (w + Toward(s, j)) % 7 <= 4
  }

  /** How many of the days 1..k steps in direction `s` from a day of weekday `w` are work days. */
  function WorkDaysWithin(w: int, s: int, k: nat): (c: nat)
    ensures c <= k
  {
    if k == 0 then 0
    else WorkDaysWithin(w, s, k - 1) + (if WorkDayAt(w, s, k) then 1 else 0)
  }

  /** Every seven consecutive days hold five work days. */
  lemma WorkDaysPerWeek(w: int, s: int, k: nat)
    requires s == 1 || s == -1
    ensures WorkDaysWithin(w, s, k + 7) == WorkDaysWithin(w, s, k) + 5
  {
    var a := (w + Toward(s, k)) % 7;
    WorkDayShift(w, s, k, 1);
    WorkDayShift(w, s, k, 2);
    WorkDayShift(w, s, k, 3);
    WorkDayShift(w, s, k, 4);
    WorkDayShift(w, s, k, 5);
    WorkDayShift(w, s, k, 6);
    WorkDayShift(w, s, k, 7);
    FiveOfSeven(a, s);
    assert WorkDaysWithin(w, s, k + 7) == WorkDaysWithin(w, s, k + 6) + (if WorkDayAt(w, s, k + 7) then 1 else 0);
    assert WorkDaysWithin(w, s, k + 6) == WorkDaysWithin(w, s, k + 5) + (if WorkDayAt(w, s, k + 6) then 1 else 0);
    assert WorkDaysWithin(w, s, k + 5) == WorkDaysWithin(w, s, k + 4) + (if WorkDayAt(w, s, k + 5) then 1 else 0);
    assert WorkDaysWithin(w, s, k + 4) == WorkDaysWithin(w, s, k + 3) + (if WorkDayAt(w, s, k + 4) then 1 else 0);
    assert WorkDaysWithin(w, s, k + 3) == WorkDaysWithin(w, s, k + 2) + (if WorkDayAt(w, s, k + 3) then 1 else 0);
    assert WorkDaysWithin(w, s, k + 2) == WorkDaysWithin(w, s, k + 1) + (if WorkDayAt(w, s, k + 2) then 1 else 0);
    assert WorkDaysWithin(w, s, k + 1) == WorkDaysWithin(w, s, k) + (if WorkDayAt(w, s, k + 1) then 1 else 0);
  }

  lemma WorkDayShift(w: int, s: int, k: nat, j: nat)
    ensures WorkDayAt(w, s, k + j) == (((w + Toward(s, k)) % 7 + Toward(s, j)) % 7 <= 4)
  {
    assert Toward(s, k + j) == Toward(s, k) + Toward(s, j);
    ModShift(w + Toward(s, k), Toward(s, j));
  }

  /** Of the seven days after (or before) a day of weekday `a`, five are work days. */
  lemma FiveOfSeven(a: int, s: int)
    requires 0 <= a < 7 && (s == 1 || s == -1)
    ensures (if (a + Toward(s, 1)) % 7 <= 4 then 1 else 0) + (if (a + Toward(s, 2)) % 7 <= 4 then 1 else 0)
          + (if (a + Toward(s, 3)) % 7 <= 4 then 1 else 0) + (if (a + Toward(s, 4)) % 7 <= 4 then 1 else 0)
          + (if (a + Toward(s, 5)) % 7 <= 4 then 1 else 0) + (if (a + Toward(s, 6)) % 7 <= 4 then 1 else 0)
          + (if (a + Toward(s, 7)) % 7 <= 4 then 1 else 0) == 5
  {
    if s == 1 {
      if a == 0 {} else if a == 1 {} else if a == 2 {} else if a == 3 {} else if a == 4 {} else if a == 5 {} else {}
    } else {
      if a == 0 {} else if a == 1 {} else if a == 2 {} else if a == 3 {} else if a == 4 {} else if a == 5 {} else {}
    }
  }

  /**
   * What `work_day_delta(base, n)` computes: for n = 0 the base date itself;
   * otherwise the work day, k >= 1 days away in the direction of n's sign,
   * such that exactly |n| of the k days passed over (the last included) are
   * work days.
   */
  predicate IsWorkDayDelta(base: Date, n: int, r: Date)
    requires Valid(base) && Valid(r)
  {
    if n == 0 then r == base
    else
      var k := Toward(n, DaysBetween(base, r));
      k >= 1 && Weekday(r) <= 4 && WorkDaysWithin(Weekday(base), Sign(n), k) == Abs(n)
  }

  /** The weekday of a date `k` steps away in direction `s`. */
  lemma WeekdayAway(base: Date, r: Date, s: int, k: int)
    requires Valid(base) && Valid(r)
    requires Ordinal(r) == Ordinal(base) + Toward(s, k)
    ensures Weekday(r) == (Weekday(base) + Toward(s, k)) % 7
  {
    ModShift(Ordinal(base) + 6, Toward(s, k));
  }

  /**
   * `work_day_delta`: |n| times, step one day in the direction of n's sign and
   * keep stepping while the day is a Saturday or Sunday.
   */
  method WorkDayDelta(base: Date, dayCount: int) returns (result: Date)
    requires Valid(base)
    ensures Valid(result) && IsWorkDayDelta(base, dayCount, result)
  {
    var step := Sign(dayCount);
    ghost var w := Weekday(base);
    ghost var k: nat := 0;
    result := base;
    for i := 0 to Abs(dayCount)
      invariant Valid(result)
      invariant Ordinal(result) == Ordinal(base) + Toward(step, k)
      invariant WorkDaysWithin(w, step, k) == i
      invariant i == 0 ==> k == 0
      invariant i > 0 ==> k >= 1 && Weekday(result) <= 4
    {
      OneDayOn(base, result, step, k, i);
      result := StepDay(result, step);
      k := k + 1;
      while Weekday(result) > 4
        invariant Valid(result) && k >= 1
        invariant Ordinal(result) == Ordinal(base) + Toward(step, k)
        invariant WorkDaysWithin(w, step, k) == i + (if Weekday(result) <= 4 then 1 else 0)
        decreases WeekendLeft(Weekday(result), step)
      {
        WeekendDayOn(base, result, step, k, i);
        result := StepDay(result, step);
        k := k + 1;
      }
    }
    DeltaFound(base, dayCount, result, step, k);
  }

  /** The days of the weekend still ahead when stepping in direction `s` from weekday `d`. */
  function WeekendLeft(d: int, s: int): int
  {
    if d <= 4 then 0 else if s > 0 then 7 - d else d
  }

  /** One step of `work_day_delta`'s outer loop, `k` steps away from `base`. */
  lemma OneDayOn(base: Date, r: Date, s: int, k: nat, i: nat)
    requires Valid(base) && Valid(r) && (s == 1 || s == -1)
    requires Ordinal(r) == Ordinal(base) + Toward(s, k)
    requires WorkDaysWithin(Weekday(base), s, k) == i
    ensures var next := StepDay(r, s);
            Ordinal(next) == Ordinal(base) + Toward(s, k + 1)
            && WorkDaysWithin(Weekday(base), s, k + 1) == i + (if Weekday(next) <= 4 then 1 else 0)
  {
    var next := StepDay(r, s);
    assert Ordinal(next) == Ordinal(base) + Toward(s, k + 1);
    WeekdayAway(base, next, s, k + 1);
  }

  /** One step of `work_day_delta`'s inner loop, from a Saturday or Sunday `k` steps away from `base`. */
  lemma WeekendDayOn(base: Date, r: Date, s: int, k: nat, i: nat)
    requires Valid(base) && Valid(r) && (s == 1 || s == -1)
    requires Ordinal(r) == Ordinal(base) + Toward(s, k)
    requires Weekday(r) > 4 && WorkDaysWithin(Weekday(base), s, k) == i
    ensures var next := StepDay(r, s);
            Ordinal(next) == Ordinal(base) + Toward(s, k + 1)
            && WorkDaysWithin(Weekday(base), s, k + 1) == i + (if Weekday(next) <= 4 then 1 else 0)
            && WeekendLeft(Weekday(next), s) < WeekendLeft(Weekday(r), s)
  {
    OneDayOn(base, r, s, k, i);
    var next := StepDay(r, s);
    var x := Ordinal(r) + 6;
    assert Weekday(next) == (x + s) % 7;
    WeekendStep(x, s);
  }

  /** The state `work_day_delta`'s loops end in is the one its contract describes. */
  lemma DeltaFound(base: Date, n: int, r: Date, s: int, k: nat)
    requires Valid(base) && Valid(r) && s == Sign(n)
    requires Ordinal(r) == Ordinal(base) + Toward(s, k)
    requires n == 0 ==> k == 0
    requires n != 0 ==> k >= 1 && Weekday(r) <= 4 && WorkDaysWithin(Weekday(base), s, k) == Abs(n)
    ensures IsWorkDayDelta(base, n, r)
  {
    if n == 0 {
      OrdinalInjective(base, r);
    } else {
      assert Toward(n, DaysBetween(base, r)) == k;
    }
  }

  /** A step forward leaves the weekend by a Sunday, a step back by a Saturday. */
  lemma WeekendStep(x: int, s: int)
    requires (s == 1 || s == -1) && x % 7 > 4
    ensures (x + s) % 7 <= 4 || (s > 0 && (x + s) % 7 > x % 7) || (s < 0 && (x + s) % 7 < x % 7)
  {
    ModShift(x, s);
  }

  lemma {:induction false} WorkDaysMonotone(w: int, s: int, k1: nat, k2: nat)
    requires k1 <= k2
    ensures WorkDaysWithin(w, s, k1) <= WorkDaysWithin(w, s, k2)
    decreases k2 - k1
  {
    if k1 < k2 {
      WorkDaysMonotone(w, s, k1, k2 - 1);
    }
  }

  /** The count goes up at every work day. */
  lemma WorkDaysStrictlyMore(w: int, s: int, k1: nat, k2: nat)
    requires k1 < k2 && WorkDayAt(w, s, k2)
    ensures WorkDaysWithin(w, s, k1) < WorkDaysWithin(w, s, k2)
  {
    WorkDaysMonotone(w, s, k1, k2 - 1);
  }

  /** `work_day_delta`'s result is determined by its contract. */
  lemma WorkDayDeltaUnique(base: Date, n: int, r1: Date, r2: Date)
    requires Valid(base) && Valid(r1) && Valid(r2)
    requires IsWorkDayDelta(base, n, r1) && IsWorkDayDelta(base, n, r2)
    ensures r1 == r2
  {
    if n != 0 {
      var k1, k2 := Toward(n, DaysBetween(base, r1)), Toward(n, DaysBetween(base, r2));
      UniqueStep(base, n, r1, k1, r2, k2);
      OrdinalInjective(r1, r2);
    }
  }

  lemma UniqueStep(base: Date, n: int, r1: Date, k1: nat, r2: Date, k2: nat)
    requires Valid(base) && Valid(r1) && Valid(r2) && n != 0
    requires Ordinal(r1) == Ordinal(base) + Toward(n, k1) && Ordinal(r2) == Ordinal(base) + Toward(n, k2)
    requires Weekday(r1) <= 4 && Weekday(r2) <= 4
    requires WorkDaysWithin(Weekday(base), Sign(n), k1) == WorkDaysWithin(Weekday(base), Sign(n), k2)
    ensures k1 == k2
  {
    var s, w := Sign(n), Weekday(base);
    assert Toward(s, k1) == Toward(n, k1) && Toward(s, k2) == Toward(n, k2);
    WeekdayAway(base, r1, s, k1);
    WeekdayAway(base, r2, s, k2);
    if k1 < k2 {
      WorkDaysStrictlyMore(w, s, k1, k2);
    } else if k2 < k1 {
      WorkDaysStrictlyMore(w, s, k2, k1);
    }
  }

  /** Twenty-two work days before Sunday 2014-08-10 is Thursday 2014-07-10. */
  lemma WorkDayDeltaExample()
    ensures IsWorkDayDelta(Date(2014, 8, 10), -22, Date(2014, 7, 10))
  {
    assert Weekday(Date(2014, 8, 10)) == 6;
    assert DaysBetween(Date(2014, 8, 10), Date(2014, 7, 10)) == -31;
    assert Weekday(Date(2014, 7, 10)) == 3;
    WorkDaysPerWeek(6, -1, 0);
    WorkDaysPerWeek(6, -1, 7);
    WorkDaysPerWeek(6, -1, 14);
    WorkDaysPerWeek(6, -1, 21);
    assert WorkDaysWithin(6, -1, 31) == WorkDaysWithin(6, -1, 28) + 2;
  }

  /** The day-count example: 2014-07-10 to 2014-08-10 is 31 days. */
  lemma DayCountExample()
    ensures DayCount(Date(2014, 7, 10), Date(2014, 8, 10)) == 31
  {
    assert DaysBetween(Date(2014, 7, 10), Date(2014, 8, 10)) == 31;
  }

  /** numpy's `_replace_nan(a, -inf)`: a NaN entry is read as negative infinity. */
  function NaNAsNegInf(x: Float): (y: Float)
    ensures !y.NaN?
    ensures !x.NaN? ==> y == x
  {
    if x.NaN? then NegInf else x
  }

  /**
   * `np.argmax` of a non-empty column whose NaN entries read as negative
   * infinity: the first index whose entry is not below any other.
   */
  function FirstArgMax(s: seq<Float>): (m: nat)
    requires |s| > 0
    ensures m < |s|
    ensures forall i :: 0 <= i < |s| ==> Le(NaNAsNegInf(s[i]), NaNAsNegInf(s[m]))
    ensures forall i :: 0 <= i < m ==> Lt(NaNAsNegInf(s[i]), NaNAsNegInf(s[m]))
  {
    if |s| == 1 then 0
    else
      var init := s[..|s| - 1];
      var m := FirstArgMax(init);
      var last := NaNAsNegInf(s[|s| - 1]);
      assert forall i :: 0 <= i < |init| ==> init[i] == s[i];
      if Lt(NaNAsNegInf(s[m]), last) then
        assert forall i :: 0 <= i < |s| ==> Le(NaNAsNegInf(s[i]), last) by {
          forall i | 0 <= i < |s|
            ensures Le(NaNAsNegInf(s[i]), last)
          {
            if i < |s| - 1 {
              assert init[i] == s[i];
              LeLtTransitive(NaNAsNegInf(s[i]), NaNAsNegInf(s[m]), last);
            }
          }
        }
        |s| - 1
      else
        LtTotal(NaNAsNegInf(s[m]), last);
        m
  }

  /**
   * `np.nanargmax`: the first maximum of the column once every NaN is read as
   * negative infinity, or None (numpy's ValueError) when every entry is NaN.
   */
  function NanArgMax(s: seq<Float>): (r: Option<nat>)
    ensures r.None? <==> forall i :: 0 <= i < |s| ==> s[i].NaN?
    ensures r.Some? ==> r.value < |s|
    ensures r.Some? ==> forall i :: 0 <= i < |s| ==> Le(NaNAsNegInf(s[i]), NaNAsNegInf(s[r.value]))
    ensures r.Some? ==> forall i :: 0 <= i < r.value ==> Lt(NaNAsNegInf(s[i]), NaNAsNegInf(s[r.value]))
  {
    if forall i :: 0 <= i < |s| ==> s[i].NaN? then None else Some(FirstArgMax(s))
  }

  /**
   * When some entry is a number above negative infinity, the index `nanargmax`
   * picks holds the first maximum among the entries that are not NaN.
   */
  lemma NanArgMaxOfNumbers(s: seq<Float>, k: nat)
    requires k < |s| && !s[k].NaN? && !s[k].NegInf?
    ensures var r := NanArgMax(s);
            r.Some? && !s[r.value].NaN?
            && (forall i :: 0 <= i < |s| && !s[i].NaN? ==> Le(s[i], s[r.value]))
            && (forall i :: 0 <= i < r.value && !s[i].NaN? ==> Lt(s[i], s[r.value]))
  {
    var m := NanArgMax(s).value;
    assert Le(NaNAsNegInf(s[k]), NaNAsNegInf(s[m]));
    forall i | 0 <= i < |s| && !s[i].NaN?
      ensures Le(s[i], s[m])
    {
      assert NaNAsNegInf(s[i]) == s[i];
    }
    forall i | 0 <= i < m && !s[i].NaN?
      ensures Lt(s[i], s[m])
    {
      assert NaNAsNegInf(s[i]) == s[i];
    }
  }

  /** On a NaN before a negative infinity, numpy keeps the NaN's index. */
  lemma NanArgMaxLeadingNaN()
    ensures NanArgMax([NaN, NegInf]) == Some(0)
  {
    var s := [NaN, NegInf];
    assert !s[1].NaN?;
  }

  datatype MaxError = IndexOutOfRange | AllNaN

  /** An index Python accepts for a row: from -|row| up to |row| - 1. */
  predicate InRow(row: seq<Float>, index: int)
  {
    -|row| <= index < |row|
  }

  /** `row[index]`, a negative index counting from the end. */
  function Pick(row: seq<Float>, index: int): (x: Float)
    requires InRow(row, index)
    ensures index >= 0 ==> x == row[index]
    ensures index < 0 ==> x == row[|row| + index]
  {
    if index < 0 then row[|row| + index] else row[index]
  }

  /** Column `index` of a list of rows, `array[:, index]`. */
  function Column(rows: seq<seq<Float>>, index: int): (c: seq<Float>)
    requires forall i :: 0 <= i < |rows| ==> InRow(rows[i], index)
    ensures |c| == |rows| && forall i :: 0 <= i < |rows| ==> c[i] == Pick(rows[i], index)
  {
    seq(|rows|, i requires 0 <= i < |rows| => Pick(rows[i], index))
  }

  /**
   * `get_max_vector(array, index)`: the row whose entry in column `index` is
   * the first maximum of that column once NaN entries read as negative
   * infinity.  An index outside some row raises IndexError, and a column of
   * NaN entries only raises numpy's ValueError.
   */
  function GetMaxVector(rows: seq<seq<Float>>, index: int): (r: Result<seq<Float>, MaxError>)
    ensures r == Err(IndexOutOfRange) <==> exists i :: 0 <= i < |rows| && !InRow(rows[i], index)
    ensures r == Err(AllNaN) <==>
              (forall i :: 0 <= i < |rows| ==> InRow(rows[i], index))
              && (forall i :: 0 <= i < |rows| ==> Pick(rows[i], index).NaN?)
    ensures r.Ok? ==> exists m :: 0 <= m < |rows| && r.value == rows[m] && IsFirstColumnMax(rows, index, m)
  {
    if exists i :: 0 <= i < |rows| && !InRow(rows[i], index) then Err(IndexOutOfRange)
    else
      var c := Column(rows, index);
      match NanArgMax(c)
      case None => Err(AllNaN)
      case Some(m) =>
        assert IsFirstColumnMax(rows, index, m);
        Ok(rows[m])
  }

  /**
   * Row `m` holds the first maximum of column `index`, with NaN entries read
   * as negative infinity.
   */
  predicate IsFirstColumnMax(rows: seq<seq<Float>>, index: int, m: nat)
    requires forall i :: 0 <= i < |rows| ==> InRow(rows[i], index)
  {
    m < |rows|
    && (forall i :: 0 <= i < |rows| ==> Le(NaNAsNegInf(Pick(rows[i], index)), NaNAsNegInf(Pick(rows[m], index))))
    && (forall i :: 0 <= i < m ==> Lt(NaNAsNegInf(Pick(rows[i], index)), NaNAsNegInf(Pick(rows[m], index))))
  }

  /** The description of `get_max_vector`'s row picks one row only. */
  lemma FirstColumnMaxUnique(rows: seq<seq<Float>>, index: int, m1: nat, m2: nat)
    requires forall i :: 0 <= i < |rows| ==> InRow(rows[i], index)
    requires IsFirstColumnMax(rows, index, m1) && IsFirstColumnMax(rows, index, m2)
    ensures m1 == m2
  {
    var a := NaNAsNegInf(Pick(rows[m1], index));
    var b := NaNAsNegInf(Pick(rows[m2], index));
    if m1 < m2 {
      assert Lt(a, b) && Le(b, a);
      LtLeTransitive(a, b, a);
    } else if m2 < m1 {
      assert Lt(b, a) && Le(a, b);
      LtLeTransitive(b, a, b);
    }
  }

  /** The unit test of `get_max_vector` on a column of numbers. */
  lemma GetMaxVectorExample()
    ensures GetMaxVector([[Num(0.0), Num(1.0), Num(2.0)], [Num(3.0), Num(4.0), Num(5.0)],
                          [Num(6.0), Num(7.0), Num(8.0)]], 0)
            == Ok([Num(6.0), Num(7.0), Num(8.0)])
  {
    var a := [[Num(0.0), Num(1.0), Num(2.0)], [Num(3.0), Num(4.0), Num(5.0)], [Num(6.0), Num(7.0), Num(8.0)]];
    var c := Column(a, 0);
    assert c == [Num(0.0), Num(3.0), Num(6.0)];
    assert !c[0].NaN?;
    assert c[..2][..1] == c[..1];
    assert FirstArgMax(c[..1]) == 0;
    assert FirstArgMax(c[..2]) == 1;
    assert FirstArgMax(c) == 2;
  }

  /**
   * The unit test of `get_max_vector` with a NaN in the first row, on the
   * first column and, counting from the end, on the last.
   */
  lemma GetMaxVectorNaNExamples()
    ensures GetMaxVector([[NaN, Num(2.0), Num(3.0)], [Num(7.0), Num(8.0), Num(9.0)],
                          [Num(4.0), Num(5.0), Num(6.0)]], 0)
            == Ok([Num(7.0), Num(8.0), Num(9.0)])
    ensures GetMaxVector([[NaN, Num(2.0), Num(3.0)], [Num(7.0), Num(8.0), Num(9.0)],
                          [Num(4.0), Num(5.0), Num(6.0)]], -1)
            == Ok([Num(7.0), Num(8.0), Num(9.0)])
  {
    var b := [[NaN, Num(2.0), Num(3.0)], [Num(7.0), Num(8.0), Num(9.0)], [Num(4.0), Num(5.0), Num(6.0)]];
    var c := Column(b, 0);
    assert c == [NaN, Num(7.0), Num(4.0)];
    assert !c[1].NaN?;
    assert c[..2][..1] == c[..1];
    assert FirstArgMax(c[..1]) == 0;
    assert FirstArgMax(c[..2]) == 1;
    assert FirstArgMax(c) == 1;
    var d := Column(b, -1);
    assert d == [Num(3.0), Num(9.0), Num(6.0)];
    assert !d[0].NaN?;
    assert d[..2][..1] == d[..1];
    assert FirstArgMax(d[..1]) == 0;
    assert FirstArgMax(d[..2]) == 1;
    assert FirstArgMax(d) == 1;
  }

  /**
   * The series `ffill` leaves behind: the first entry and every entry that is
   * not NaN are kept, and every later NaN takes the already filled value
   * before it.
   */
  function FFilled(s: seq<Float>): (r: seq<Float>)
    ensures |r| == |s|
    ensures |s| > 0 ==> r[0] == s[0]
    ensures forall i :: 0 <= i < |s| && !s[i].NaN? ==> r[i] == s[i]
    ensures forall i :: 1 <= i < |s| && s[i].NaN? ==> r[i] == r[i - 1]
  {
    if |s| <= 1 then s
    else
      var p := FFilled(s[..|s| - 1]);
      p + [if s[|s| - 1].NaN? then p[|p| - 1] else s[|s| - 1]]
  }

  /** `ffill(data)`: fill the NaN entries in place, from index 1 upwards. */
  method FFill(data: array<Float>)
    modifies data
    ensures data[..] == FFilled(old(data[..]))
  {
    if data.Length == 0 {
      return;
    }
    ghost var s := data[..];
    for i := 1 to data.Length
      invariant data[..i] == FFilled(s[..i])
      invariant forall j :: i <= j < data.Length ==> data[j] == s[j]
    {
      assert s[..i + 1][..i] == s[..i];
      assert data[i] == s[i];
      if data[i].NaN? {
        data[i] := data[i - 1];
      }
      assert data[..i + 1] == data[..i] + [data[i]];
    }
    assert s[..data.Length] == s;
    assert data[..data.Length] == data[..];
  }

  /** Once the first entry is a number, forward filling leaves no NaN. */
  lemma {:induction false} FFilledNoNaN(s: seq<Float>, i: nat)
    requires |s| > 0 && !s[0].NaN? && i < |s|
    ensures !FFilled(s)[i].NaN?
  {
    if i > 0 && s[i].NaN? {
      FFilledNoNaN(s, i - 1);
    }
  }

  /** Every filled entry is copied from the first entry or from an earlier entry that is not NaN. */
  lemma {:induction false} FFilledFrom(s: seq<Float>, i: nat)
    requires i < |s|
    ensures exists j :: 0 <= j <= i && FFilled(s)[i] == s[j] && (j == 0 || !s[j].NaN?)
  {
    if i > 0 && s[i].NaN? {
      FFilledFrom(s, i - 1);
      var j :| 0 <= j <= i - 1 && FFilled(s)[i - 1] == s[j] && (j == 0 || !s[j].NaN?);
      assert FFilled(s)[i] == s[j];
    } else if i > 0 {
      assert FFilled(s)[i] == s[i];
    } else {
      assert FFilled(s)[0] == s[0];
    }
  }

  /** A series satisfying `ffill`'s contract is `ffill`'s result. */
  lemma {:induction false} FFilledUnique(s: seq<Float>, r: seq<Float>)
    requires |r| == |s|
    requires |s| > 0 ==> r[0] == s[0]
    requires forall i :: 0 <= i < |s| && !s[i].NaN? ==> r[i] == s[i]
    requires forall i :: 1 <= i < |s| && s[i].NaN? ==> r[i] == r[i - 1]
    ensures r == FFilled(s)
  {
    var f := FFilled(s);
    forall i | 0 <= i < |s|
      ensures r[i] == f[i]
    {
      FFilledAgree(s, r, i);
    }
  }

  lemma {:induction false} FFilledAgree(s: seq<Float>, r: seq<Float>, i: nat)
    requires |r| == |s| && i < |s|
    requires |s| > 0 ==> r[0] == s[0]
    requires forall j :: 0 <= j < |s| && !s[j].NaN? ==> r[j] == s[j]
    requires forall j :: 1 <= j < |s| && s[j].NaN? ==> r[j] == r[j - 1]
    ensures r[i] == FFilled(s)[i]
  {
    if i > 0 && s[i].NaN? {
      FFilledAgree(s, r, i - 1);
    }
  }

  /** Filling twice is filling once. */
  lemma FFilledIdempotent(s: seq<Float>)
    ensures FFilled(FFilled(s)) == FFilled(s)
  {
    var r := FFilled(s);
    FFilledUnique(r, r);
  }

  /** The unit test of `ffill`. */
  lemma FFilledExample()
    ensures FFilled([Num(0.0), NaN, Num(1.0), NaN, NaN, Num(-1.0), NaN])
            == [Num(0.0), Num(0.0), Num(1.0), Num(1.0), Num(1.0), Num(-1.0), Num(-1.0)]
  {
    var s := [Num(0.0), NaN, Num(1.0), NaN, NaN, Num(-1.0), NaN];
    var r := [Num(0.0), Num(0.0), Num(1.0), Num(1.0), Num(1.0), Num(-1.0), Num(-1.0)];
    FFilledUnique(s, r);
  }

  /**
   * `lag(data, empty_term)`: the series shifted one place to the right with
   * `empty_term` in front; None stands for the IndexError numpy raises when
   * index 0 of an empty array is assigned.
   */
  function Lag<T>(data: seq<T>, emptyTerm: T): (r: Option<seq<T>>)
    ensures r.Some? <==> |data| > 0
    ensures r.Some? ==> |r.value| == |data| && r.value[0] == emptyTerm
    ensures r.Some? ==> forall i :: 1 <= i < |data| ==> r.value[i] == data[i - 1]
  {
    if |data| == 0 then None else Some([emptyTerm] + data[..|data| - 1])
  }

  /** The unit tests of `lag`. */
  lemma LagExamples()
    ensures Lag([1.0, 2.0, 3.0, 4.0, 5.0], 0.0) == Some([0.0, 1.0, 2.0, 3.0, 4.0])
    ensures Lag([Num(1.0), Num(2.0), Num(3.0), Num(4.0), Num(5.0)], NaN)
            == Some([NaN, Num(1.0), Num(2.0), Num(3.0), Num(4.0)])
  {
    var a: seq<real> := [1.0, 2.0, 3.0, 4.0, 5.0];
    assert a[..4] == [1.0, 2.0, 3.0, 4.0];
    assert [0.0] + a[..4] == [0.0, 1.0, 2.0, 3.0, 4.0];
    assert Lag(a, 0.0) == Some([0.0, 1.0, 2.0, 3.0, 4.0]);
    var b: seq<Float> := [Num(1.0), Num(2.0), Num(3.0), Num(4.0), Num(5.0)];
    assert b[..4] == [Num(1.0), Num(2.0), Num(3.0), Num(4.0)];
    assert [NaN] + b[..4] == [NaN, Num(1.0), Num(2.0), Num(3.0), Num(4.0)];
    assert Lag(b, NaN) == Some([NaN, Num(1.0), Num(2.0), Num(3.0), Num(4.0)]);
  }

  /**
   * One entry of `calculate_returns`: the relative change from `prev` to
   * `curr`; a zero `prev`, where numpy gives an infinity or NaN, gives 0.
   */
  function RelativeChange(curr: real, prev: real): real
  {
    if prev == 0.0 then 0.0 else (curr - prev) / prev
  }

  /**
   * `calculate_returns(pnl)`: the relative change of each entry from the one
   * before, 0 at index 0 and wherever the one before is 0; None when pnl is
   * empty (the IndexError of `lag`).
   */
  function CalculateReturns(pnl: seq<real>): (r: Option<seq<real>>)
    ensures r.Some? <==> |pnl| > 0
    ensures r.Some? ==> |r.value| == |pnl| && r.value[0] == 0.0
    ensures r.Some? ==> forall i :: 1 <= i < |pnl| ==> r.value[i] == RelativeChange(pnl[i], pnl[i - 1])
  {
    match Lag(pnl, 0.0)
    case None => None
    case Some(lagged) => Some(seq(|pnl|, i requires 0 <= i < |pnl| => RelativeChange(pnl[i], lagged[i])))
  }

  /**
   * The returns reproduce the pnl: from every nonzero entry, growing by the
   * next return gives the next entry.
   */
  lemma ReturnsReproducePnl(pnl: seq<real>, i: nat)
    requires 1 <= i < |pnl| && pnl[i - 1] != 0.0
    ensures pnl[i - 1] * (1.0 + CalculateReturns(pnl).value[i]) == pnl[i]
  {
    var p, c := pnl[i - 1], pnl[i];
    assert p * ((c - p) / p) == c - p;
  }

  /** The unit test of `calculate_returns`, in exact fractions. */
  lemma CalculateReturnsExample()
    ensures CalculateReturns([0.0, 15.0, 15.0, 27.5, 27.5, 17.5, 32.5, 32.5, 10.0, -7.5])
            == Some([0.0, 0.0, 0.0, 5.0 / 6.0, 0.0, -4.0 / 11.0, 6.0 / 7.0, 0.0, -9.0 / 13.0, -1.75])
  {
    var p := [0.0, 15.0, 15.0, 27.5, 27.5, 17.5, 32.5, 32.5, 10.0, -7.5];
    var r := CalculateReturns(p).value;
    assert r == [0.0, 0.0, 0.0, 5.0 / 6.0, 0.0, -4.0 / 11.0, 6.0 / 7.0, 0.0, -9.0 / 13.0, -1.75] by {
      assert r[3] == 12.5 / 15.0;
      assert r[5] == -10.0 / 27.5;
      assert r[6] == 15.0 / 17.5;
      assert r[8] == -22.5 / 32.5;
      assert r[9] == -17.5 / 10.0;
    }
  }

  /** A log return: `Zero`, or the natural logarithm of a positive ratio. */
  datatype LogReturn = Zero | LogOf(ratio: real)

  /**
   * One entry of `calculate_log_returns`: log(curr / prev), and 0 wherever
   * numpy gives an infinity or NaN: a zero `prev`, or a ratio that is not
   * positive.
   */
  function LogChange(curr: real, prev: real): (r: LogReturn)
    ensures r.LogOf? <==> prev != 0.0 && curr / prev > 0.0
    ensures r.LogOf? ==> r.ratio > 0.0 && r.ratio * prev == curr
  {
    if prev == 0.0 || curr / prev <= 0.0 then Zero else LogOf(curr / prev)
  }

  /** `calculate_log_returns(pnl)`; None when pnl is empty. */
  function CalculateLogReturns(pnl: seq<real>): (r: Option<seq<LogReturn>>)
    ensures r.Some? <==> |pnl| > 0
    ensures r.Some? ==> |r.value| == |pnl| && r.value[0] == Zero
    ensures r.Some? ==> forall i :: 1 <= i < |pnl| ==> r.value[i] == LogChange(pnl[i], pnl[i - 1])
  {
    match Lag(pnl, 0.0)
    case None => None
    case Some(lagged) => Some(seq(|pnl|, i requires 0 <= i < |pnl| => LogChange(pnl[i], lagged[i])))
  }

  /** The unit test of `calculate_log_returns`: the ratio -0.75 at the end gives 0. */
  lemma CalculateLogReturnsExample()
    ensures var r := CalculateLogReturns([0.0, 15.0, 15.0, 27.5, 27.5, 17.5, 32.5, 32.5, 10.0, -7.5]);
            r.Some? && r.value[0] == Zero && r.value[1] == Zero && r.value[2] == LogOf(1.0)
            && r.value[3] == LogOf(27.5 / 15.0) && r.value[9] == Zero
  {
  }
}
