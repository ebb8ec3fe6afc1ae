/**
 * The two signal strategies of backtester/backtester.py.
 *
 * `MovingAverageBacktest` walks the close prices with a three-state machine
 * (flat, in a down trend, in an up trend) that enters a trend when the close
 * breaks through the upper or lower Bollinger band and leaves it when the
 * close breaks back through an exit band between the middle band and the
 * entry band; its pnl is the running sum of close times signal.
 * `ChanBacktest` holds each position for one day: a long and a short channel
 * are marked where the z-score crosses its entry and exit levels, forward
 * filled, and added.
 *
 * The Bollinger bands (and the Chan z-score) are inputs: `talib.BBANDS` is
 * not part of this model.
 */
module Backtester {
  import opened Wrappers
  import opened Floats
  import SeriesUtils

  /** `Side`. */
  const BUY: int := 1
  const SELL: int := -1
  const NONE: int := 0

  predicate IsSide(x: int)
  {
    x == BUY || x == SELL || x == NONE
  }

  /** `_z_scores_valid`: the entry z-score must lie above the exit z-score. */
  predicate ZScoresValid(entryZ: real, exitZ: real)
  {
    entryZ > exitZ
  }

  /** Python's `index - 1` as a list index: at index 0 it is the last element. */
  function PrevIndex(n: nat, index: nat): (j: nat)
    requires index < n
    ensures j < n && (index > 0 ==> j == index - 1)
  {
    if index == 0 then n - 1 else index - 1
  }

  /** `_break_upwards`: the close was at or below the band and is now above it. */
  predicate BreakUpwards(close: seq<real>, band: seq<Float>, index: nat)
    requires |band| == |close| && index < |close|
  {
    var p := PrevIndex(|close|, index);
    Le(Num(close[p]), band[p]) && Gt(Num(close[index]), band[index])
  }

  /** `_break_downwards`: the close was at or above the band and is now below it. */
  predicate BreakDownwards(close: seq<real>, band: seq<Float>, index: nat)
    requires |band| == |close| && index < |close|
  {
    var p := PrevIndex(|close|, index);
    Ge(Num(close[p]), band[p]) && Lt(Num(close[index]), band[index])
  }

  /** The series negated entry by entry. */
  function NegReals(s: seq<real>): (r: seq<real>)
    ensures |r| == |s| && forall i :: 0 <= i < |s| ==> r[i] == -s[i]
  {
    seq(|s|, i requires 0 <= i < |s| => -s[i])
  }

  function NegFloats(s: seq<Float>): (r: seq<Float>)
    ensures |r| == |s| && forall i :: 0 <= i < |s| ==> r[i] == Neg(s[i])
  {
    seq(|s|, i requires 0 <= i < |s| => Neg(s[i]))
  }

  lemma NegLe(a: Float, b: Float)
    ensures Le(Neg(a), Neg(b)) == Le(b, a)
  {
  }

  lemma NegLt(a: Float, b: Float)
    ensures Lt(Neg(a), Neg(b)) == Lt(b, a)
  {
  }

  /** A downward break is an upward break of the mirrored prices through the mirrored band. */
  lemma BreakMirror(close: seq<real>, band: seq<Float>, index: nat)
    requires |band| == |close| && index < |close|
    ensures BreakDownwards(close, band, index) == BreakUpwards(NegReals(close), NegFloats(band), index)
  {
    var p := PrevIndex(|close|, index);
    NegLe(Num(close[p]), band[p]);
    NegLt(band[index], Num(close[index]));
    assert Neg(Num(close[p])) == Num(NegReals(close)[p]);
    assert Neg(Num(close[index])) == Num(NegReals(close)[index]);
  }

  /** On a band that is a number at both days, the breaks are the plain comparisons; a NaN band never breaks. */
  lemma BreakMeaning(close: seq<real>, band: seq<Float>, index: nat)
    requires |band| == |close| && 1 <= index < |close|
    ensures band[index - 1].NaN? || band[index].NaN? ==>
              !BreakUpwards(close, band, index) && !BreakDownwards(close, band, index)
    ensures band[index - 1].Num? && band[index].Num? ==>
              (BreakUpwards(close, band, index) <==>
                 (close[index - 1] <= band[index - 1].value && close[index] > band[index].value))
              && (BreakDownwards(close, band, index) <==>
                 (close[index - 1] >= band[index - 1].value && close[index] < band[index].value))
  {
  }

  /** The unit tests of `_break_upwards` and `_break_downwards`: touching the band the day before counts. */
  lemma BreakExamples()
    ensures BreakUpwards([10.0, 15.0], [Num(11.0), Num(14.0)], 1)
    ensures BreakUpwards([10.0, 15.0], [Num(10.0), Num(14.0)], 1)
    ensures !BreakUpwards([10.0, 15.0], [Num(11.0), Num(16.0)], 1)
    ensures BreakDownwards([15.0, 10.0], [Num(14.0), Num(11.0)], 1)
    ensures BreakDownwards([15.0, 10.0], [Num(15.0), Num(11.0)], 1)
    ensures !BreakDownwards([15.0, 10.0], [Num(14.0), Num(9.0)], 1)
  {
  }

  /** The close prices and the three Bollinger bands, all of one length. */
  datatype Market = Market(close: seq<real>, upper: seq<Float>, middle: seq<Float>, lower: seq<Float>)

  predicate WellFormed(m: Market)
  {
    |m.upper| == |m.close| && |m.middle| == |m.close| && |m.lower| == |m.close|
  }

  /** `z_score_upper`: the exit band of a down trend, `exitZ / entryZ` of the way from the middle to the upper band. */
  function ExitUpper(m: Market, entryZ: real, exitZ: real): (b: seq<Float>)
    requires WellFormed(m)
    ensures |b| == |m.close|
  {
    seq(|m.close|, i requires 0 <= i < |m.close| =>
      Add(m.middle[i], Scale(exitZ, DivBy(Sub(m.upper[i], m.middle[i]), entryZ))))
  }

  /** `z_score_lower`: the exit band of an up trend, `exitZ / entryZ` of the way from the middle to the lower band. */
  function ExitLower(m: Market, entryZ: real, exitZ: real): (b: seq<Float>)
    requires WellFormed(m)
    ensures |b| == |m.close|
  {
    seq(|m.close|, i requires 0 <= i < |m.close| =>
      Add(m.middle[i], Scale(-exitZ, DivBy(Sub(m.middle[i], m.lower[i]), entryZ))))
  }

  /**
   * With finite bands lower <= middle <= upper and 0 <= exitZ < entryZ, the
   * exit bands lie between the middle band and the entry bands; an exit
   * z-score of 0 exits at the middle band.
   */
  lemma ExitBandsBetween(m: Market, entryZ: real, exitZ: real, i: nat)
    requires WellFormed(m) && i < |m.close| && 0.0 <= exitZ < entryZ
    requires m.upper[i].Num? && m.middle[i].Num? && m.lower[i].Num?
    requires m.lower[i].value <= m.middle[i].value <= m.upper[i].value
    ensures ExitUpper(m, entryZ, exitZ)[i].Num? && ExitLower(m, entryZ, exitZ)[i].Num?
    ensures m.middle[i].value <= ExitUpper(m, entryZ, exitZ)[i].value <= m.upper[i].value
    ensures m.lower[i].value <= ExitLower(m, entryZ, exitZ)[i].value <= m.middle[i].value
    ensures exitZ == 0.0 ==> ExitUpper(m, entryZ, exitZ)[i] == m.middle[i] == ExitLower(m, entryZ, exitZ)[i]
  {
    var u, c, l := m.upper[i].value, m.middle[i].value, m.lower[i].value;
    var du, dl := (u - c) / entryZ, (c - l) / entryZ;
    assert ExitUpper(m, entryZ, exitZ)[i] == Num(c + exitZ * du);
    assert ExitLower(m, entryZ, exitZ)[i] == Num(c + -exitZ * dl);
    assert 0.0 <= exitZ * du <= u - c by {
      assert 0.0 <= du && exitZ * du <= entryZ * du;
    }
    assert 0.0 <= exitZ * dl <= c - l by {
      assert 0.0 <= dl && exitZ * dl <= entryZ * dl;
    }
  }

  /** The state of `_run_strategy`'s loop: flat, or in a trend. */
  datatype Trend = Flat | DownTrend | UpTrend

  /** The position a trend holds: SELL in a down trend, BUY in an up trend. */
  function Holding(t: Trend): int
  {
    match t
    case Flat => NONE
    case DownTrend => SELL
    case UpTrend => BUY
  }

  /** What one step of the loop does: the trend after it and the signal it writes. */
  datatype Move = Move(trend: Trend, signal: int)

  /** The series the state machine reads: the close, the two entry bands and the two exit bands. */
  datatype Levels = Levels(close: seq<real>, upper: seq<Float>, lower: seq<Float>,
                           exitUpper: seq<Float>, exitLower: seq<Float>)

  predicate LevelsWellFormed(l: Levels)
  {
    |l.upper| == |l.close| && |l.lower| == |l.close| && |l.exitUpper| == |l.close| && |l.exitLower| == |l.close|
  }

  function LevelsOf(m: Market, entryZ: real, exitZ: real): (l: Levels)
    requires WellFormed(m)
    ensures LevelsWellFormed(l) && l.close == m.close && l.upper == m.upper && l.lower == m.lower
  {
    Levels(m.close, m.upper, m.lower, ExitUpper(m, entryZ, exitZ), ExitLower(m, entryZ, exitZ))
  }

  /**
   * One iteration of `_run_strategy` at day `i`: when flat, an upward break
   * of the upper band sells into a down trend, and otherwise a downward break
   * of the lower band buys into an up trend; in a down trend a downward break
   * of the exit band buys back to flat; in an up trend an upward break of the
   * exit band sells back to flat.
   */
  function Step(l: Levels, t: Trend, i: nat): (r: Move)
    requires LevelsWellFormed(l) && i < |l.close|
  {
    match t
    case Flat =>
      if BreakUpwards(l.close, l.upper, i) then Move(DownTrend, SELL)
      else if BreakDownwards(l.close, l.lower, i) then Move(UpTrend, BUY)
      else Move(Flat, NONE)
    case DownTrend =>
      if BreakDownwards(l.close, l.exitUpper, i) then Move(Flat, BUY) else Move(DownTrend, NONE)
    case UpTrend =>
      if BreakUpwards(l.close, l.exitLower, i) then Move(Flat, SELL) else Move(UpTrend, NONE)
  }

  /** Each step's signal is the change in the position held. */
  lemma StepSignal(l: Levels, t: Trend, i: nat)
    requires LevelsWellFormed(l) && i < |l.close|
    ensures Step(l, t, i).signal == Holding(Step(l, t, i).trend) - Holding(t)
    ensures IsSide(Step(l, t, i).signal)
    ensures t != Flat ==> Step(l, t, i).trend in {t, Flat}
    ensures t == Flat && BreakUpwards(l.close, l.upper, i) ==> Step(l, t, i) == Move(DownTrend, SELL)
  {
  }

  /** The trend in force when the loop reaches day `i` (the loop starts flat at day 1). */
  function TrendAt(l: Levels, i: nat): Trend
    requires LevelsWellFormed(l) && 1 <= i <= |l.close|
  {
    if i == 1 then Flat else Step(l, TrendAt(l, i - 1), i - 1).trend
  }

  /** The signal written at day `i`: none at day 0, which the loop skips. */
  function SignalAt(l: Levels, i: nat): int
    requires LevelsWellFormed(l) && i < |l.close|
  {
    if i == 0 then NONE else Step(l, TrendAt(l, i), i).signal
  }

  /** The signals `_run_strategy` returns. */
  function Signals(l: Levels): (s: seq<int>)
    requires LevelsWellFormed(l)
    ensures |s| == |l.close|
    ensures |s| > 0 ==> s[0] == NONE
    ensures forall i :: 0 <= i < |s| ==> IsSide(s[i])
  {
    var s := seq(|l.close|, i requires 0 <= i < |l.close| => SignalAt(l, i));
    assert forall i :: 1 <= i < |s| ==> IsSide(s[i]) by {
      forall i | 1 <= i < |s|
        ensures IsSide(s[i])
      {
        StepSignal(l, TrendAt(l, i), i);
      }
    }
    s
  }

  /**
   * `MovingAverageBacktest._run_strategy`: the exit bands from the Bollinger
   * bands, then the loop of the state machine.
   */
  method RunStrategy(m: Market, entryZ: real, exitZ: real) returns (signals: array<int>)
    requires WellFormed(m)
    ensures fresh(signals)
    ensures signals[..] == Signals(LevelsOf(m, entryZ, exitZ))
  {
    var zScoreUpper := ExitUpper(m, entryZ, exitZ);
    var zScoreLower := ExitLower(m, entryZ, exitZ);
    signals := Walk(Levels(m.close, m.upper, m.lower, zScoreUpper, zScoreLower));
  }

  /**
   * The loop of `_run_strategy`: over days 1.., with the two trend flags,
   * writing a signal wherever a trend is entered or left.
   */
  method Walk(l: Levels) returns (signals: array<int>)
    requires LevelsWellFormed(l)
    ensures fresh(signals)
    ensures signals[..] == Signals(l)
  {
    var close, upper, lower, zScoreUpper, zScoreLower := l.close, l.upper, l.lower, l.exitUpper, l.exitLower;
    signals := new int[|close|](_ => NONE);
    ghost var spec := Signals(l);
    ghost var trend := Flat;
    var upTrend, downTrend := false, false;
    var i := 1;
    while i < |close|
      invariant 1 <= i && (|close| > 0 ==> i <= |close|)
      invariant signals.Length == |close|
      invariant |close| > 0 ==> trend == TrendAt(l, i)
      invariant !(upTrend && downTrend)
      invariant trend == (if downTrend then DownTrend else if upTrend then UpTrend else Flat)
      invariant forall j :: 0 <= j < i && j < |close| ==> signals[j] == spec[j]
      invariant forall j :: i <= j < |close| ==> signals[j] == NONE
    {
      ghost var move := Step(l, trend, i);
      assert spec[i] == move.signal;
      if !(upTrend || downTrend) {
        if BreakUpwards(close, upper, i) {
          signals[i] := SELL;
          downTrend := true;
        } else if BreakDownwards(close, lower, i) {
          signals[i] := BUY;
          upTrend := true;
        }
      } else if downTrend {
        if BreakDownwards(close, zScoreUpper, i) {
          signals[i] := BUY;
          downTrend := false;
        }
      } else if upTrend {
        if BreakUpwards(close, zScoreLower, i) {
          signals[i] := SELL;
          upTrend := false;
        }
      }
      trend := move.trend;
      i := i + 1;
    }
    assert signals[..] == spec;
  }

  /** The sum of a series of ints. */
  function SumInts(s: seq<int>): int
  {
    if |s| == 0 then 0 else SumInts(s[..|s| - 1]) + s[|s| - 1]
  }

  /**
   * Every prefix of the signals sums to the position held: each entry is
   * followed by its opposite exit before any new entry, so the running
   * position never leaves {-1, 0, 1}.
   */
  lemma {:induction false} SignalsSumToHolding(l: Levels, k: nat)
    requires LevelsWellFormed(l) && 1 <= k <= |l.close|
    ensures SumInts(Signals(l)[..k]) == Holding(TrendAt(l, k))
    ensures -1 <= SumInts(Signals(l)[..k]) <= 1
  {
    var s := Signals(l);
    if k > 1 {
      SignalsSumToHolding(l, k - 1);
      assert s[..k][..k - 1] == s[..k - 1];
      StepSignal(l, TrendAt(l, k - 1), k - 1);
    } else {
      assert s[..1][..0] == [];
    }
  }

  /** The running sum of a series, numpy's `cumsum`: each entry adds the next value to the one before. */
  function CumSum(s: seq<real>): (r: seq<real>)
    ensures |r| == |s|
    ensures forall i :: 0 <= i < |s| ==> r[i] == Sum(s[..i + 1])
  {
    if |s| == 0 then []
    else
      var init := s[..|s| - 1];
      var p := CumSum(init);
      var r := p + [(if |p| == 0 then 0.0 else p[|p| - 1]) + s[|s| - 1]];
      assert forall i :: 0 <= i < |s| ==> r[i] == Sum(s[..i + 1]) by {
        forall i | 0 <= i < |s|
          ensures r[i] == Sum(s[..i + 1])
        {
          if i < |s| - 1 {
            assert init[..i + 1] == s[..i + 1];
          } else {
            assert s[..i + 1][..i] == init;
            if i > 0 {
              assert init[..i - 1 + 1] == init;
            }
          }
        }
      }
      r
  }

  /** The sum of a series of reals. */
  function Sum(s: seq<real>): real
  {
    if |s| == 0 then 0.0 else Sum(s[..|s| - 1]) + s[|s| - 1]
  }

  /** `close * signals`, entry by entry. */
  function Trades(close: seq<real>, signals: seq<int>): (t: seq<real>)
    requires |signals| == |close|
    ensures |t| == |close|
  {
    seq(|close|, i requires 0 <= i < |close| => close[i] * signals[i] as real)
  }

  /**
   * `MovingAverageBacktest._calculate_positions`: the running pnl, entry i
   * being the sum of close[j] * signals[j] over j <= i.
   */
  function CalculatePositions(close: seq<real>, signals: seq<int>): (pnl: seq<real>)
    requires |signals| == |close|
    ensures |pnl| == |close|
    ensures forall i :: 0 <= i < |close| ==> pnl[i] == Sum(Trades(close, signals)[..i + 1])
    ensures |close| > 0 ==> pnl[0] == close[0] * signals[0] as real
    ensures forall i :: 1 <= i < |close| ==> pnl[i] == pnl[i - 1] + close[i] * signals[i] as real
  {
    var t := Trades(close, signals);
    var pnl := CumSum(t);
    assert forall i :: 1 <= i < |close| ==> t[..i + 1][..i] == t[..i];
    assert |close| > 0 ==> t[..1] == [t[0]];
    pnl
  }

  /** The first unit test of `_calculate_positions`; this pnl series also feeds the returns test. */
  lemma CalculatePositionsExample()
    ensures CalculatePositions([10.0, 15.0, 17.5, 12.5, 7.5, 10.0, 15.0, 20.0, 22.5, 17.5],
                               [0, 1, 0, 1, 0, -1, 1, 0, -1, -1])
            == [0.0, 15.0, 15.0, 27.5, 27.5, 17.5, 32.5, 32.5, 10.0, -7.5]
  {
    var p := CalculatePositions([10.0, 15.0, 17.5, 12.5, 7.5, 10.0, 15.0, 20.0, 22.5, 17.5],
                                [0, 1, 0, 1, 0, -1, 1, 0, -1, -1]);
    assert p[0] == 0.0;
    assert p[1] == 15.0;
    assert p[2] == 15.0;
    assert p[3] == 27.5;
    assert p[4] == 27.5;
    assert p[5] == 17.5;
    assert p[6] == 32.5;
    assert p[7] == 32.5;
    assert p[8] == 10.0;
  }

  /** The second unit test of `_calculate_positions`: the final pnl is 20. */
  lemma CalculatePositionsFinal()
    ensures CalculatePositions([10.0, 15.0, 17.5, 12.5, 7.5, 10.0, 15.0, 20.0, 22.5, 17.5],
                               [1, 1, 0, 1, 0, -1, 1, 0, -1, 0])[9] == 20.0
  {
    var q := CalculatePositions([10.0, 15.0, 17.5, 12.5, 7.5, 10.0, 15.0, 20.0, 22.5, 17.5],
                                [1, 1, 0, 1, 0, -1, 1, 0, -1, 0]);
    assert q[0] == 10.0;
    assert q[1] == 25.0;
    assert q[2] == 25.0;
    assert q[3] == 37.5;
    assert q[4] == 37.5;
    assert q[5] == 27.5;
    assert q[6] == 42.5;
    assert q[7] == 42.5;
    assert q[8] == 20.0;
  }

  datatype RunError = ParameterException | EmptySeries

  /**
   * `SharpeBacktest.run` for `MovingAverageBacktest`, up to the returns the
   * Sharpe ratio is computed from: the parameters are validated before any
   * step of the strategy, then signals, pnl and returns follow.  An empty
   * series fails where `lag` assigns index 0.
   */
  method Run(m: Market, entryZ: real, exitZ: real) returns (r: Result<seq<real>, RunError>)
    requires WellFormed(m)
    ensures r == Err(ParameterException) <==> !ZScoresValid(entryZ, exitZ)
    ensures r == Err(EmptySeries) <==> ZScoresValid(entryZ, exitZ) && |m.close| == 0
    ensures r.Ok? ==>
              var pnl := CalculatePositions(m.close, Signals(LevelsOf(m, entryZ, exitZ)));
              |r.value| == |m.close| && r.value == SeriesUtils.CalculateReturns(pnl).value
  {
    if !ZScoresValid(entryZ, exitZ) {
      return Err(ParameterException);
    }
    var signals := RunStrategy(m, entryZ, exitZ);
    var positions := CalculatePositions(m.close, signals[..]);
    var dailyReturns := SeriesUtils.CalculateReturns(positions);
    if dailyReturns.None? {
      return Err(EmptySeries);
    }
    r := Ok(dailyReturns.value);
  }

  // ChanBacktest

  /** `long_entry` and `long_exit`: the z-score below -entryZ, and at or above -exitZ. */
  predicate LongEntry(z: Float, entryZ: real)  { Lt(z, Num(-entryZ)) }
  predicate LongExit(z: Float, exitZ: real)    { Ge(z, Num(-exitZ)) }
  /** `short_entry` and `short_exit`: the z-score above entryZ, and at or below exitZ. */
  predicate ShortEntry(z: Float, entryZ: real) { Gt(z, Num(entryZ)) }
  predicate ShortExit(z: Float, exitZ: real)   { Le(z, Num(exitZ)) }

  /**
   * A channel before forward filling: 0 at day 0, then the entry value where
   * the entry mask holds and 0 where the exit mask holds (the exit is written
   * second, so it wins), NaN elsewhere.
   */
  function Marks(n: nat, entryMask: seq<bool>, exitMask: seq<bool>, side: real): (c: seq<Float>)
    requires |entryMask| == n && |exitMask| == n
    ensures |c| == n
  {
    seq(n, i requires 0 <= i < n =>
      if exitMask[i] then Num(0.0) else if entryMask[i] then Num(side) else if i == 0 then Num(0.0) else NaN)
  }

  function LongEntryMask(z: seq<Float>, entryZ: real): (b: seq<bool>)
    ensures |b| == |z| && forall i :: 0 <= i < |z| ==> b[i] == LongEntry(z[i], entryZ)
  {
    seq(|z|, i requires 0 <= i < |z| => LongEntry(z[i], entryZ))
  }

  function LongExitMask(z: seq<Float>, exitZ: real): (b: seq<bool>)
    ensures |b| == |z| && forall i :: 0 <= i < |z| ==> b[i] == LongExit(z[i], exitZ)
  {
    seq(|z|, i requires 0 <= i < |z| => LongExit(z[i], exitZ))
  }

  function ShortEntryMask(z: seq<Float>, entryZ: real): (b: seq<bool>)
    ensures |b| == |z| && forall i :: 0 <= i < |z| ==> b[i] == ShortEntry(z[i], entryZ)
  {
    seq(|z|, i requires 0 <= i < |z| => ShortEntry(z[i], entryZ))
  }

  function ShortExitMask(z: seq<Float>, exitZ: real): (b: seq<bool>)
    ensures |b| == |z| && forall i :: 0 <= i < |z| ==> b[i] == ShortExit(z[i], exitZ)
  {
    seq(|z|, i requires 0 <= i < |z| => ShortExit(z[i], exitZ))
  }

  function LongMarks(z: seq<Float>, entryZ: real, exitZ: real): (c: seq<Float>)
    ensures |c| == |z|
  {
    Marks(|z|, LongEntryMask(z, entryZ), LongExitMask(z, exitZ), BUY as real)
  }

  function ShortMarks(z: seq<Float>, entryZ: real, exitZ: real): (c: seq<Float>)
    ensures |c| == |z|
  {
    Marks(|z|, ShortEntryMask(z, entryZ), ShortExitMask(z, exitZ), SELL as real)
  }

  /** The positions of `ChanBacktest._run_strategy`: the two forward-filled channels added day by day. */
  function ChanPositions(z: seq<Float>, entryZ: real, exitZ: real): (p: seq<Float>)
    ensures |p| == |z|
  {
    var long, short := SeriesUtils.FFilled(LongMarks(z, entryZ, exitZ)), SeriesUtils.FFilled(ShortMarks(z, entryZ, exitZ));
    seq(|z|, i requires 0 <= i < |z| => Add(long[i], short[i]))
  }

  /** numpy's `a[mask] = v`. */
  method AssignWhere(a: array<Float>, mask: seq<bool>, v: Float)
    requires |mask| == a.Length
    modifies a
    ensures forall i :: 0 <= i < a.Length ==> a[i] == (if mask[i] then v else old(a[i]))
  {
    for i := 0 to a.Length
      invariant forall j :: 0 <= j < i ==> a[j] == (if mask[j] then v else old(a[j]))
      invariant forall j :: i <= j < a.Length ==> a[j] == old(a[j])
    {
      if mask[i] {
        a[i] := v;
      }
    }
  }

  /** One channel of the Chan strategy: NaN, 0 at day 0, the entry and exit masks, then `ffill`. */
  method Channel(n: nat, entryMask: seq<bool>, exitMask: seq<bool>, side: real) returns (c: array<Float>)
    requires 0 < n && |entryMask| == n && |exitMask| == n
    ensures fresh(c)
    ensures c[..] == SeriesUtils.FFilled(Marks(n, entryMask, exitMask, side))
  {
    c := new Float[n](_ => NaN);
    c[0] := Num(0.0);
    AssignWhere(c, entryMask, Num(side));
    AssignWhere(c, exitMask, Num(0.0));
    assert c[..] == Marks(n, entryMask, exitMask, side);
    SeriesUtils.FFill(c);
  }

  /**
   * `ChanBacktest._run_strategy` on the z-score series: None for an empty
   * series, where assigning day 0 raises.
   */
  method ChanRunStrategy(z: seq<Float>, entryZ: real, exitZ: real) returns (positions: Option<seq<Float>>)
    ensures positions.None? <==> |z| == 0
    ensures positions.Some? ==> positions.value == ChanPositions(z, entryZ, exitZ)
  {
    if |z| == 0 {
      return None;
    }
    var longSignals := Channel(|z|, LongEntryMask(z, entryZ), LongExitMask(z, exitZ), BUY as real);
    var shortSignals := Channel(|z|, ShortEntryMask(z, entryZ), ShortExitMask(z, exitZ), SELL as real);
    var long, short := longSignals[..], shortSignals[..];
    positions := Some(seq(|z|, i requires 0 <= i < |z| => Add(long[i], short[i])));
  }

  /** A filled channel takes only the values 0 and its side. */
  lemma ChannelValues(n: nat, entryMask: seq<bool>, exitMask: seq<bool>, side: real, i: nat)
    requires |entryMask| == n && |exitMask| == n && i < n
    ensures var c := SeriesUtils.FFilled(Marks(n, entryMask, exitMask, side));
            c[i] == Num(0.0) || c[i] == Num(side)
  {
    var s := Marks(n, entryMask, exitMask, side);
    SeriesUtils.FFilledFrom(s, i);
  }

  /**
   * The Chan channels: an exit on a day overrides an entry on the same day,
   * the long channel is 0 or 1, the short channel 0 or -1, and the net
   * position is in {-1, 0, 1}.
   */
  lemma ChanPositionsInSides(z: seq<Float>, entryZ: real, exitZ: real, i: nat)
    requires i < |z|
    ensures LongExit(z[i], exitZ) ==> LongMarks(z, entryZ, exitZ)[i] == Num(0.0)
    ensures ShortExit(z[i], exitZ) ==> ShortMarks(z, entryZ, exitZ)[i] == Num(0.0)
    ensures var long := SeriesUtils.FFilled(LongMarks(z, entryZ, exitZ))[i];
            long == Num(0.0) || long == Num(1.0)
    ensures var short := SeriesUtils.FFilled(ShortMarks(z, entryZ, exitZ))[i];
            short == Num(0.0) || short == Num(-1.0)
    ensures var p := ChanPositions(z, entryZ, exitZ)[i];
            p == Num(-1.0) || p == Num(0.0) || p == Num(1.0)
  {
    ChannelValues(|z|, LongEntryMask(z, entryZ), LongExitMask(z, exitZ), BUY as real, i);
    ChannelValues(|z|, ShortEntryMask(z, entryZ), ShortExitMask(z, exitZ), SELL as real, i);
  }

  /** `ChanBacktest._calculate_positions`: close times position, day by day. */
  function ChanCalculatePositions(close: seq<real>, signals: seq<Float>): (pnl: seq<Float>)
    requires |signals| == |close|
    ensures |pnl| == |close|
  {
    seq(|close|, i requires 0 <= i < |close| => Scale(close[i], signals[i]))
  }

  /** On the Chan positions each day's pnl is the close, its negation, or 0. */
  lemma ChanPnlIsOneDay(close: seq<real>, z: seq<Float>, entryZ: real, exitZ: real, i: nat)
    requires |z| == |close| && i < |close|
    ensures var d := ChanCalculatePositions(close, ChanPositions(z, entryZ, exitZ))[i];
            d == Num(close[i]) || d == Num(-close[i]) || d == Num(0.0)
  {
    ChanPositionsInSides(z, entryZ, exitZ, i);
  }
}
