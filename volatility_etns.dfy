/**
 * The VXX/VXZ rebalancing ledger of backtester/volatility_etns.py.
 *
 * Every day the strategy reads the implied-volatility term structure (IVTS)
 * of the day before, looks up target weights for the two exchange-traded
 * notes in a table of IVTS brackets, turns the weights into whole-share
 * orders against the notional of the book, and books the cash the orders
 * cost.  Quantities are integers, prices and cash exact reals.
 */
module VolatilityEtns {
  import opened Wrappers
  import opened Floats
  import opened Calendar
  import opened FuturesTable

  function AbsReal(x: real): real
  {
    if x < 0.0 then -x else x
  }

  function Max0(x: real): real
  {
    if x > 0.0 then x else 0.0
  }

  // Ratio tables

  /** A pair of target weights: VXX first, VXZ second. */
  datatype Weights = Weights(vxx: real, vxz: real)

  /** The absolute weights add up to one: the whole book is allocated. */
  predicate Balanced(w: Weights)
  {
    AbsReal(w.vxx) + AbsReal(w.vxz) == 1.0
  }

  /** A row of a table: an IVTS bound (met with `<=`, or with `<` for a strict bound) and its weights. */
  datatype Bracket = AtMost(bound: real, weights: Weights) | Below(bound: real, weights: Weights)

  /** A table: brackets tried in order, and the weights above the last bound. */
  datatype Table = Table(brackets: seq<Bracket>, otherwise: Weights)

  /** Whether `ivts` meets the bracket's bound; a NaN meets none. */
  predicate Admits(b: Bracket, ivts: Float)
  {
    match b
    case AtMost(bound, _) => Le(ivts, Num(bound))
    case Below(bound, _) => Lt(ivts, Num(bound))
  }

  /** The weights of the first bracket `ivts` meets, or the table's last weights when it meets none. */
  function Lookup(t: Table, ivts: Float): (w: Weights)
    ensures (exists k :: 0 <= k < |t.brackets| && Admits(t.brackets[k], ivts) && w == t.brackets[k].weights
               && forall j :: 0 <= j < k ==> !Admits(t.brackets[j], ivts))
            || ((forall k :: 0 <= k < |t.brackets| ==> !Admits(t.brackets[k], ivts)) && w == t.otherwise)
    decreases |t.brackets|
  {
    if |t.brackets| == 0 then t.otherwise
    else if Admits(t.brackets[0], ivts) then t.brackets[0].weights
    else
      var rest := Table(t.brackets[1..], t.otherwise);
      var w := Lookup(rest, ivts);
      assert forall k :: 0 <= k < |rest.brackets| ==> rest.brackets[k] == t.brackets[k + 1];
      w
  }

  /** The ratio functions `run` can be given. */
  datatype Strategy =
    | Mojito | MojitoAggressive | Mojito20Aggressive | Mojito20Medium
    | Mojito20Medium30TS | Mojito20Aggressive30TS | Mojito30VixVxv | DynamicVix | FixedVix

  /** The table each ratio function's docstring gives (the fixed ratio has no brackets). */
  function TableOf(s: Strategy): Table
  {
    match s
    case Mojito => Table([AtMost(0.91, Weights(-0.60, 0.40)), AtMost(0.94, Weights(-0.32, 0.68)),
                           AtMost(0.97, Weights(-0.32, 0.68)), AtMost(1.005, Weights(-0.25, 0.75))],
                         Weights(-0.10, 0.90))
    case MojitoAggressive => Table([AtMost(0.91, Weights(-0.70, 0.30)), AtMost(0.94, Weights(-0.32, 0.68)),
                                     AtMost(0.97, Weights(-0.32, 0.68)), AtMost(1.005, Weights(-0.28, 0.72))],
                                   Weights(0.00, 1.00))
    case Mojito20Aggressive => Table([AtMost(0.92, Weights(-0.70, 0.30)), AtMost(0.94, Weights(-0.46, 0.54)),
                                       AtMost(1.005, Weights(-0.36, 0.64))], Weights(0.50, 0.50))
    case Mojito20Medium => Table([AtMost(0.92, Weights(-0.60, 0.40)), AtMost(0.94, Weights(-0.46, 0.54)),
                                   AtMost(1.005, Weights(-0.36, 0.64))], Weights(0.50, 0.50))
    case Mojito20Medium30TS => Table([AtMost(0.92, Weights(-0.60, 0.40)), AtMost(0.94, Weights(-0.46, 0.54)),
                                       AtMost(1.0, Weights(-0.36, 0.64))], Weights(0.50, 0.50))
    case Mojito20Aggressive30TS => Table([AtMost(0.92, Weights(-0.70, 0.30)), AtMost(0.94, Weights(-0.46, 0.54)),
                                           AtMost(1.0, Weights(-0.36, 0.64))], Weights(0.50, 0.50))
    case Mojito30VixVxv => Table([AtMost(0.92, Weights(-0.60, 0.40)), AtMost(0.94, Weights(-0.16, 0.84)),
                                   AtMost(1.02, Weights(-0.03, 0.97))], Weights(0.79, 0.21))
    case DynamicVix => Table([Below(0.90, Weights(-0.3, 0.7)), AtMost(1.0, Weights(-0.2, 0.8)),
                               AtMost(1.05, Weights(0.0, 1.0)), AtMost(1.15, Weights(0.25, 0.75))],
                             Weights(0.5, 0.5))
    case FixedVix => Table([], Weights(-0.32, 0.68))
  }

  /** `get_mojito_ratio`. */
  function MojitoRatio(ivts: Float): (w: Weights)
    ensures w == Lookup(TableOf(Mojito), ivts) && Balanced(w)
  {
    if Le(ivts, Num(0.91)) then Weights(-0.60, 0.40)
    else if Le(ivts, Num(0.94)) then Weights(-0.32, 0.68)
    else if Le(ivts, Num(0.97)) then Weights(-0.32, 0.68)
    else if Le(ivts, Num(1.005)) then Weights(-0.25, 0.75)
    else Weights(-0.10, 0.90)
  }

  /** `get_mojito_aggressive_ratio`. */
  function MojitoAggressiveRatio(ivts: Float): (w: Weights)
    ensures w == Lookup(TableOf(MojitoAggressive), ivts) && Balanced(w)
  {
    if Le(ivts, Num(0.91)) then Weights(-0.70, 0.30)
    else if Le(ivts, Num(0.94)) then Weights(-0.32, 0.68)
    else if Le(ivts, Num(0.97)) then Weights(-0.32, 0.68)
    else if Le(ivts, Num(1.005)) then Weights(-0.28, 0.72)
    else Weights(0.00, 1.00)
  }

  /** `get_mojito_2_0_aggressive_ratio`. */
  function Mojito20AggressiveRatio(ivts: Float): (w: Weights)
    ensures w == Lookup(TableOf(Mojito20Aggressive), ivts) && Balanced(w)
  {
    if Le(ivts, Num(0.92)) then Weights(-0.70, 0.30)
    else if Le(ivts, Num(0.94)) then Weights(-0.46, 0.54)
    else if Le(ivts, Num(1.005)) then Weights(-0.36, 0.64)
    else Weights(0.50, 0.50)
  }

  /** `get_mojito_2_0_medium_ratio`. */
  function Mojito20MediumRatio(ivts: Float): (w: Weights)
    ensures w == Lookup(TableOf(Mojito20Medium), ivts) && Balanced(w)
  {
    if Le(ivts, Num(0.92)) then Weights(-0.60, 0.40)
    else if Le(ivts, Num(0.94)) then Weights(-0.46, 0.54)
    else if Le(ivts, Num(1.005)) then Weights(-0.36, 0.64)
    else Weights(0.50, 0.50)
  }

  /** `get_mojito_2_0_medium_30ts_ratio`. */
  function Mojito20Medium30TSRatio(ts: Float): (w: Weights)
    ensures w == Lookup(TableOf(Mojito20Medium30TS), ts) && Balanced(w)
  {
    if Le(ts, Num(0.92)) then Weights(-0.60, 0.40)
    else if Le(ts, Num(0.94)) then Weights(-0.46, 0.54)
    else if Le(ts, Num(1.0)) then Weights(-0.36, 0.64)
    else Weights(0.50, 0.50)
  }

  /** `get_mojito_2_0_aggressive_30ts_ratio`. */
  function Mojito20Aggressive30TSRatio(ts: Float): (w: Weights)
    ensures w == Lookup(TableOf(Mojito20Aggressive30TS), ts) && Balanced(w)
  {
    if Le(ts, Num(0.92)) then Weights(-0.70, 0.30)
    else if Le(ts, Num(0.94)) then Weights(-0.46, 0.54)
    else if Le(ts, Num(1.0)) then Weights(-0.36, 0.64)
    else Weights(0.50, 0.50)
  }

  /** `get_mojito_3_0_vix_vxv_ratio`. */
  function Mojito30VixVxvRatio(ts: Float): (w: Weights)
    ensures w == Lookup(TableOf(Mojito30VixVxv), ts) && Balanced(w)
  {
    if Le(ts, Num(0.92)) then Weights(-0.60, 0.40)
    else if Le(ts, Num(0.94)) then Weights(-0.16, 0.84)
    else if Le(ts, Num(1.02)) then Weights(-0.03, 0.97)
    else Weights(0.79, 0.21)
  }

  /** `get_dynamic_vix_ratio`: its first bound is strict. */
  function DynamicVixRatio(ivts: Float): (w: Weights)
    ensures w == Lookup(TableOf(DynamicVix), ivts) && Balanced(w)
  {
    if Lt(ivts, Num(0.90)) then Weights(-0.3, 0.7)
    else if Le(ivts, Num(1.0)) then Weights(-0.2, 0.8)
    else if Le(ivts, Num(1.05)) then Weights(0.0, 1.0)
    else if Le(ivts, Num(1.15)) then Weights(0.25, 0.75)
    else Weights(0.5, 0.5)
  }

  /** `get_fixed_vix_ratio`. */
  function FixedVixRatio(ivts: Float): (w: Weights)
    ensures w == Lookup(TableOf(FixedVix), ivts) && Balanced(w)
  {
    Weights(-0.32, 0.68)
  }

  /** The ratio function a strategy names. */
  function Ratio(s: Strategy, ivts: Float): (w: Weights)
    ensures w == Lookup(TableOf(s), ivts) && Balanced(w)
  {
    match s
    case Mojito => MojitoRatio(ivts)
    case MojitoAggressive => MojitoAggressiveRatio(ivts)
    case Mojito20Aggressive => Mojito20AggressiveRatio(ivts)
    case Mojito20Medium => Mojito20MediumRatio(ivts)
    case Mojito20Medium30TS => Mojito20Medium30TSRatio(ivts)
    case Mojito20Aggressive30TS => Mojito20Aggressive30TSRatio(ivts)
    case Mojito30VixVxv => Mojito30VixVxvRatio(ivts)
    case DynamicVix => DynamicVixRatio(ivts)
    case FixedVix => FixedVixRatio(ivts)
  }

  // Orders

  /** numpy's `astype(int)` on a float: truncation toward zero. */
  function Truncate(x: real): (n: int)
    ensures x >= 0.0 ==> n as real <= x < n as real + 1.0
    ensures x < 0.0 ==> n as real - 1.0 < x <= n as real
  {
    if x >= 0.0 then x.Floor else -((-x).Floor)
  }

  /** Truncation never moves away from zero. */
  lemma TruncateShrinks(x: real)
    ensures AbsReal(Truncate(x) as real) <= AbsReal(x)
  {
  }

  /** `np.sum(np.absolute(qty * prices))`: the gross notional of a book. */
  function Notional(qty: seq<int>, prices: seq<real>): (n: real)
    requires |prices| == |qty|
  {
    NotionalOf(qty, prices, |qty|)
  }

  /** The absolute value of a holding of `q` at price `p`. */
  function Worth(q: int, p: real): real
  {
    AbsReal(q as real * p)
  }

  /** The gross notional of the first `n` instruments. */
  function NotionalOf(qty: seq<int>, prices: seq<real>, n: nat): (v: real)
    requires n <= |qty| && |prices| == |qty|
    ensures v >= 0.0
  {
    if n == 0 then 0.0 else NotionalOf(qty, prices, n - 1) + Worth(qty[n - 1], prices[n - 1])
  }

  /** The amount `calc_adjustments` allocates: the notional plus the cash, when the cash is positive. */
  function Capital(qty: seq<int>, prices: seq<real>, cash: real): (c: real)
    requires |prices| == |qty|
    ensures c >= 0.0
  {
    Notional(qty, prices) + Max0(cash)
  }

  predicate NonZero(prices: seq<real>)
  {
    forall i :: 0 <= i < |prices| ==> prices[i] != 0.0
  }

  /** The whole-share holding worth (about) `a` of the capital at price `p`, truncated toward zero. */
  function Target(a: real, capital: real, p: real): int
    requires p != 0.0
  {
    Truncate(a * capital / p)
  }

  /**
   * `calc_adjustments`: the orders that take each holding to its target, the
   * weight's share of the capital truncated toward zero.
   */
  function CalcAdjustments(existing: seq<int>, prices: seq<real>, alloc: seq<real>, cash: real): (adj: seq<int>)
    requires |prices| == |existing| && |alloc| == |existing| && NonZero(prices)
    ensures |adj| == |existing|
  {
    var capital := Capital(existing, prices, cash);
    seq(|existing|, i requires 0 <= i < |existing| => Target(alloc[i], capital, prices[i]) - existing[i])
  }

  /** Each order takes its holding exactly to the target. */
  lemma AdjustmentsReachTargets(existing: seq<int>, prices: seq<real>, alloc: seq<real>, cash: real)
    requires |prices| == |existing| && |alloc| == |existing| && NonZero(prices)
    ensures forall i :: 0 <= i < |existing| ==>
              existing[i] + CalcAdjustments(existing, prices, alloc, cash)[i]
                == Target(alloc[i], Capital(existing, prices, cash), prices[i])
  {
  }

  /** The sum of the first `n` absolute weights. */
  function Gross(alloc: seq<real>, n: nat): real
    requires n <= |alloc|
  {
    if n == 0 then 0.0 else Gross(alloc, n - 1) + AbsReal(alloc[n - 1])
  }

  /** Entry-wise sum of two books. */
  function AddQty(a: seq<int>, b: seq<int>): (c: seq<int>)
    requires |b| == |a|
    ensures |c| == |a| && forall i :: 0 <= i < |a| ==> c[i] == a[i] + b[i]
  {
    seq(|a|, i requires 0 <= i < |a| => a[i] + b[i])
  }

  /** One target holding is affordable: its notional is at most its weight's share of the capital. */
  lemma TargetAffordable(a: real, capital: real, p: real, held: int)
    requires p > 0.0 && capital >= 0.0 && held == Target(a, capital, p)
    ensures Worth(held, p) <= Share(a, capital)
  {
    var x := a * capital / p;
    TruncateShrinks(x);
    var t := Truncate(x) as real;
    assert AbsReal(t * p) == AbsReal(t) * p;
    assert AbsReal(x) * p == AbsReal(a) * capital by {
      assert x * p == a * capital;
    }
    assert AbsReal(t) * p <= AbsReal(x) * p;
  }

  /**
   * The new book `calc_adjustments` aims at can actually be afforded: its
   * notional is at most the gross weight times the capital, so with weights
   * whose absolute values add to one it never exceeds the notional plus the
   * positive cash; negative cash adds nothing.
   */
  lemma AdjustmentsAffordable(existing: seq<int>, prices: seq<real>, alloc: seq<real>, cash: real)
    requires |prices| == |existing| && |alloc| == |existing|
    requires forall i :: 0 <= i < |prices| ==> prices[i] > 0.0
    ensures Notional(AddQty(existing, CalcAdjustments(existing, prices, alloc, cash)), prices)
            <= Budget(alloc, Capital(existing, prices, cash))
  {
    var held := AddQty(existing, CalcAdjustments(existing, prices, alloc, cash));
    forall i | 0 <= i < |held|
      ensures Worth(held[i], prices[i]) <= Share(alloc[i], Capital(existing, prices, cash))
    {
      HoldingAffordable(existing, prices, alloc, cash, i);
    }
    SharesAffordable(held, prices, alloc, Capital(existing, prices, cash));
  }

  /** The gross weight times the capital. */
  function Budget(alloc: seq<real>, capital: real): real
  {
    Gross(alloc, |alloc|) * capital
  }

  /** One holding of the new book is within its weight's share of the capital. */
  lemma HoldingAffordable(existing: seq<int>, prices: seq<real>, alloc: seq<real>, cash: real, i: nat)
    requires |prices| == |existing| && |alloc| == |existing| && i < |existing|
    requires forall i :: 0 <= i < |prices| ==> prices[i] > 0.0
    ensures Worth(AddQty(existing, CalcAdjustments(existing, prices, alloc, cash))[i], prices[i])
            <= Share(alloc[i], Capital(existing, prices, cash))
  {
    var capital := Capital(existing, prices, cash);
    var adj := CalcAdjustments(existing, prices, alloc, cash);
    var t := AddQty(existing, adj)[i];
    AdjustmentsReachTargets(existing, prices, alloc, cash);
    assert t == existing[i] + adj[i];
    assert t == Target(alloc[i], capital, prices[i]);
    TargetAffordable(alloc[i], capital, prices[i], t);
  }

  /** A book whose every holding is within its weight's share is worth at most the budget. */
  lemma SharesAffordable(held: seq<int>, prices: seq<real>, alloc: seq<real>, capital: real)
    requires |prices| == |held| && |alloc| == |held|
    requires forall i :: 0 <= i < |held| ==> Worth(held[i], prices[i]) <= Share(alloc[i], capital)
    ensures Notional(held, prices) <= Budget(alloc, capital)
  {
    NotionalBound(held, prices, Shares(alloc, capital), |held|);
    SharesSum(alloc, capital, |alloc|);
  }

  lemma {:induction false} NotionalBound(q: seq<int>, p: seq<real>, bounds: seq<real>, n: nat)
    requires |p| == |q| && |bounds| == |q| && n <= |q|
    requires forall i :: 0 <= i < |q| ==> Worth(q[i], p[i]) <= bounds[i]
    ensures NotionalOf(q, p, n) <= SumOf(bounds, n)
  {
    if n > 0 {
      NotionalBound(q, p, bounds, n - 1);
    }
  }

  /** The sum of the first `n` entries. */
  function SumOf(b: seq<real>, n: nat): real
    requires n <= |b|
  {
    if n == 0 then 0.0 else SumOf(b, n - 1) + b[n - 1]
  }

  /** Each weight's share of the capital, in absolute value. */
  function Shares(alloc: seq<real>, capital: real): (b: seq<real>)
    ensures |b| == |alloc| && forall i :: 0 <= i < |alloc| ==> b[i] == Share(alloc[i], capital)
  {
    seq(|alloc|, i requires 0 <= i < |alloc| => Share(alloc[i], capital))
  }

  /** A weight's share of the capital, in absolute value. */
  function Share(a: real, capital: real): real
  {
    AbsReal(a) * capital
  }

  /** The shares add up to the gross weight times the capital. */
  lemma {:induction false} SharesSum(alloc: seq<real>, capital: real, n: nat)
    requires n <= |alloc|
    ensures SumOf(Shares(alloc, capital), n) == Gross(alloc, n) * capital
  {
    if n > 0 {
      SharesSum(alloc, capital, n - 1);
      var g, h := Gross(alloc, n - 1), AbsReal(alloc[n - 1]);
      assert Gross(alloc, n) == g + h;
      assert (g + h) * capital == g * capital + h * capital;
    }
  }

  /** Two weights that balance have gross weight one: their budget is the whole capital. */
  lemma BalancedBudget(w: Weights, capital: real)
    requires Balanced(w)
    ensures Budget([w.vxx, w.vxz], capital) == capital
  {
    var a := [w.vxx, w.vxz];
    assert Gross(a, 1) == AbsReal(w.vxx);
    assert Gross(a, 2) == 1.0;
  }

  /** The notional of a two-instrument book. */
  lemma NotionalPair(q0: int, q1: int, p0: real, p1: real)
    ensures Notional([q0, q1], [p0, p1]) == Worth(q0, p0) + Worth(q1, p1)
  {
    var q, p := [q0, q1], [p0, p1];
    assert NotionalOf(q, p, 1) == Worth(q0, p0);
  }

  /** The unit tests of `calc_adjustments`: from a flat book, and after price moves with and without cash. */
  lemma CalcAdjustmentsFromFlat()
    ensures CalcAdjustments([0, 0], [20.0, 60.0], [-0.3, 0.7], 10000.0) == [-150, 116]
  {
    NotionalPair(0, 0, 20.0, 60.0);
    assert Capital([0, 0], [20.0, 60.0], 10000.0) == 10000.0;
    assert Target(-0.3, 10000.0, 20.0) == -150;
    assert Target(0.7, 10000.0, 60.0) == 116;
  }

  lemma CalcAdjustmentsNoCash()
    ensures CalcAdjustments([-150, 117], [22.0, 54.0], [-0.3, 0.7], 0.0) == [19, 7]
  {
    NotionalPair(-150, 117, 22.0, 54.0);
    assert Capital([-150, 117], [22.0, 54.0], 0.0) == 9618.0;
    assert Target(-0.3, 9618.0, 22.0) == -131;
    assert Target(0.7, 9618.0, 54.0) == 124;
  }

  lemma CalcAdjustmentsWithCash()
    ensures CalcAdjustments([-500, 500], [10.0, 10.0], [-0.5, 0.5], 100.0) == [-5, 5]
  {
    NotionalPair(-500, 500, 10.0, 10.0);
    assert Capital([-500, 500], [10.0, 10.0], 100.0) == 10100.0;
    assert Target(-0.5, 10100.0, 10.0) == -505;
    assert Target(0.5, 10100.0, 10.0) == 505;
  }

  /** The sign-change test: all the capital moves into the short leg's target. */
  lemma CalcAdjustmentsSignChange()
    ensures CalcAdjustments([10, 10], [5.0, 5.0], [-0.5, 0.5], 0.0) == [-20, 0]
  {
    NotionalPair(10, 10, 5.0, 5.0);
    assert Capital([10, 10], [5.0, 5.0], 0.0) == 100.0;
    assert Target(-0.5, 100.0, 5.0) == -10;
    assert Target(0.5, 100.0, 5.0) == 10;
  }

  // Cash

  /**
   * What `calc_cash_delta` adds to `costs` for one instrument: the order's
   * value when a long stays long or a short grows or shrinks, both legs when
   * a long flips short or a short flips long, and the absolute order value
   * when the book was flat in it.
   */
  function Cost(order: int, price: real, position: int): real
  {
    var o, p, q := order as real, price, position as real;
    if position > 0 then
      if position + order >= 0 then o * p
      else q * p * -1.0 + (q + o) * p * -1.0
    else if position < 0 then
      if position + order <= 0 then o * p * -1.0
      else q * p + (q + o) * p
    else AbsReal(o * p)
  }

  /** At a non-negative price, every case costs the growth of the absolute holding at that price. */
  lemma CostIsNotionalGrowth(order: int, price: real, position: int)
    requires price >= 0.0
    ensures Cost(order, price, position)
            == AbsReal((position + order) as real) * price - AbsReal(position as real) * price
  {
    var o, p, q := order as real, price, position as real;
    if position == 0 {
      assert AbsReal(o * p) == AbsReal(o) * p;
    }
  }

  /** An instrument without an order costs nothing, whatever its position and price. */
  lemma NoOrderNoCost(price: real, position: int)
    ensures Cost(0, price, position) == 0.0
  {
  }

  /** The costs of the first `n` instruments. */
  function Costs(orders: seq<int>, prices: seq<real>, positions: seq<int>, n: nat): real
    requires n <= |orders| && |prices| == |orders| && |positions| == |orders|
  {
    if n == 0 then 0.0 else Costs(orders, prices, positions, n - 1) + Cost(orders[n - 1], prices[n - 1], positions[n - 1])
  }

  /** `calc_cash_delta`: the cash the orders bring in, the negated sum of their costs. */
  method CalcCashDelta(orders: seq<int>, prices: seq<real>, positions: seq<int>) returns (delta: real)
    requires |prices| == |orders| && |positions| == |orders|
    ensures delta == -Costs(orders, prices, positions, |orders|)
  {
    var costs := 0.0;
    for i := 0 to |orders|
      invariant costs == Costs(orders, prices, positions, i)
    {
      if positions[i] > 0 {
        if positions[i] + orders[i] >= 0 {
          costs := costs + orders[i] as real * prices[i];
        } else {
          costs := costs + positions[i] as real * prices[i] * -1.0;
          costs := costs + (positions[i] + orders[i]) as real * prices[i] * -1.0;
        }
      } else if positions[i] < 0 {
        if positions[i] + orders[i] <= 0 {
          costs := costs + orders[i] as real * prices[i] * -1.0;
        } else {
          costs := costs + positions[i] as real * prices[i];
          costs := costs + (positions[i] + orders[i]) as real * prices[i];
        }
      } else {
        costs := costs + AbsReal(orders[i] as real * prices[i]);
      }
    }
    delta := -costs;
  }

  /** The cash delta as a value, for the ledger's recurrence. */
  function CashDelta(orders: seq<int>, prices: seq<real>, positions: seq<int>): real
    requires |prices| == |orders| && |positions| == |orders|
  {
    -Costs(orders, prices, positions, |orders|)
  }

  /**
   * Cash plus notional is conserved: at non-negative prices the cash delta is
   * exactly the notional the orders release, old notional minus new.
   */
  lemma {:induction false} CashDeltaConservesNotional(orders: seq<int>, prices: seq<real>, positions: seq<int>)
    requires |prices| == |orders| && |positions| == |orders|
    requires forall i :: 0 <= i < |prices| ==> prices[i] >= 0.0
    ensures CashDelta(orders, prices, positions)
            == Notional(positions, prices) - Notional(AddQty(positions, orders), prices)
  {
    CostsAreNotionalGrowth(orders, prices, positions, AddQty(positions, orders), |orders|);
  }

  lemma {:induction false} CostsAreNotionalGrowth(orders: seq<int>, prices: seq<real>, positions: seq<int>,
                                                 held: seq<int>, n: nat)
    requires n <= |orders| && |prices| == |orders| && |positions| == |orders|
    requires forall i :: 0 <= i < |prices| ==> prices[i] >= 0.0
    requires held == AddQty(positions, orders)
    ensures Costs(orders, prices, positions, n) == NotionalOf(held, prices, n) - NotionalOf(positions, prices, n)
  {
    if n > 0 {
      CostsAreNotionalGrowth(orders, prices, positions, held, n - 1);
      var o, p, q := orders[n - 1], prices[n - 1], positions[n - 1];
      CostIsNotionalGrowth(o, p, q);
      assert held[n - 1] == q + o;
      AbsTimes(held[n - 1], p);
      AbsTimes(q, p);
    }
  }

  lemma AbsTimes(q: int, p: real)
    requires p >= 0.0
    ensures Worth(q, p) == AbsReal(q as real) * p
  {
  }

  /** The unit tests of `calc_cash_delta`. */
  lemma CashDeltaExamples()
    ensures CashDelta([5, -5], [2.0, 2.0], [10, -10]) == -20.0
    ensures CashDelta([5, -5], [2.0, 2.0], [0, 0]) == -20.0
    ensures CashDelta([-20, 0], [2.0, 2.0], [10, -10]) == 0.0
    ensures CashDelta([20, 0], [2.0, 2.0], [-10, 10]) == 0.0
  {
    CashDeltaPair(5, -5, 2.0, 2.0, 10, -10);
    CashDeltaPair(5, -5, 2.0, 2.0, 0, 0);
    CashDeltaPair(-20, 0, 2.0, 2.0, 10, -10);
    CashDeltaPair(20, 0, 2.0, 2.0, -10, 10);
  }

  /** The cash delta of a two-instrument book. */
  lemma CashDeltaPair(o0: int, o1: int, p0: real, p1: real, q0: int, q1: int)
    ensures CashDelta([o0, o1], [p0, p1], [q0, q1]) == -(Cost(o0, p0, q0) + Cost(o1, p1, q1))
  {
    var o, p, q := [o0, o1], [p0, p1], [q0, q1];
    assert Costs(o, p, q, 1) == Cost(o0, p0, q0);
  }

  // The ledger

  /** The inputs of `run`: the two price series and the term structure, day by day. */
  datatype Market = Market(vxx: seq<real>, vxz: seq<real>, ts: seq<Float>)

  predicate WellFormed(m: Market)
  {
    |m.vxx| == |m.ts| && |m.vxz| == |m.ts|
    && (forall i :: 0 <= i < |m.ts| ==> m.vxx[i] != 0.0 && m.vxz[i] != 0.0)
  }

  /** One day of the ledger: the orders placed, the book after them and the cash after them. */
  datatype Day = Day(orders: seq<int>, positions: seq<int>, cash: real)

  /** The prices of day `i` as a pair. */
  function PricesOn(m: Market, i: nat): (p: seq<real>)
    requires WellFormed(m) && i < |m.ts|
    ensures |p| == 2 && NonZero(p)
  {
    [m.vxx[i], m.vxz[i]]
  }

  /**
   * One iteration of `run`'s loop: order the adjustment towards the weights at
   * the given prices, add the orders to the book and the cash delta to the cash.
   */
  function Rebalance(positions: seq<int>, cash: real, p: seq<real>, w: Weights): (d: Day)
    requires |positions| == 2 && |p| == 2 && NonZero(p)
    ensures |d.orders| == 2 && |d.positions| == 2
  {
    var orders := CalcAdjustments(positions, p, [w.vxx, w.vxz], cash);
    Day(orders, AddQty(positions, orders), cash + CashDelta(orders, p, positions))
  }

  /**
   * Day `i` of `run`: day 0 holds nothing and the starting cash; every later
   * day rebalances towards the weights `ratio` gives for yesterday's term
   * structure, at yesterday's prices.
   */
  function DayAt(m: Market, ratio: Float -> Weights, startCash: real, i: nat): (d: Day)
    requires WellFormed(m) && i < |m.ts|
    ensures |d.orders| == 2 && |d.positions| == 2
  {
    if i == 0 then Day([0, 0], [0, 0], startCash)
    else
      var prev := DayAt(m, ratio, startCash, i - 1);
      Rebalance(prev.positions, prev.cash, PricesOn(m, i - 1), ratio(m.ts[i - 1]))
  }

  /** The whole ledger, one `DayAt` per day of the series. */
  function Days(m: Market, ratio: Float -> Weights, startCash: real): (days: seq<Day>)
    requires WellFormed(m)
    ensures |days| == |m.ts|
    ensures forall i :: 0 <= i < |m.ts| ==> days[i] == DayAt(m, ratio, startCash, i)
  {
    seq(|m.ts|, i requires 0 <= i < |m.ts| => DayAt(m, ratio, startCash, i))
  }

  /** Day `i` of `days` rebalances day `i - 1` at the prices and ratio of day `i - 1`. */
  predicate Follows(m: Market, ratio: Float -> Weights, days: seq<Day>, i: nat)
    requires WellFormed(m) && 1 <= i < |days| <= |m.ts|
  {
    |days[i - 1].positions| == 2
    && days[i] == Rebalance(days[i - 1].positions, days[i - 1].cash, PricesOn(m, i - 1), ratio(m.ts[i - 1]))
  }

  /** The ledger starts flat with the starting cash and every later day rebalances the one before. */
  lemma DaysFollow(m: Market, ratio: Float -> Weights, startCash: real)
    requires WellFormed(m)
    ensures |m.ts| > 0 ==> Days(m, ratio, startCash)[0] == Day([0, 0], [0, 0], startCash)
    ensures forall i :: 1 <= i < |m.ts| ==> Follows(m, ratio, Days(m, ratio, startCash), i)
  {
  }

  /** The ledger `run` fills: orders, positions and cash, one entry per day. */
  datatype Ledger = Ledger(orders: seq<seq<int>>, positions: seq<seq<int>>, cash: seq<real>)

  /**
   * `run` up to the cash series (the returns division is not part of this
   * model), for the ratio function it is given: None for an empty series,
   * where `cash[0]` cannot be assigned.
   */
  method Run(m: Market, ratioFunc: Float -> Weights, startCash: real) returns (r: Option<Ledger>)
    requires WellFormed(m)
    ensures r.None? <==> |m.ts| == 0
    ensures r.Some? ==> |r.value.orders| == |m.ts| && |r.value.positions| == |m.ts| && |r.value.cash| == |m.ts|
    ensures r.Some? ==> forall i :: 0 <= i < |m.ts| ==>
              Day(r.value.orders[i], r.value.positions[i], r.value.cash[i]) == DayAt(m, ratioFunc, startCash, i)
  {
    var count := |m.ts|;
    if count == 0 {
      return None;
    }
    var orders := new seq<int>[count](_ => [0, 0]);
    var positions := new seq<int>[count](_ => [0, 0]);
    var cash := new real[count](_ => 0.0);
    cash[0] := startCash;
    DaysFollow(m, ratioFunc, startCash);
    FillLedger(m, ratioFunc, Days(m, ratioFunc, startCash), orders, positions, cash);
    r := Some(Ledger(orders[..], positions[..], cash[..]));
  }

  /** `run`'s loop, which fills day after day of a ledger whose first day is already in place. */
  method FillLedger(m: Market, ratioFunc: Float -> Weights, ghost days: seq<Day>,
                    orders: array<seq<int>>, positions: array<seq<int>>, cash: array<real>)
    requires WellFormed(m) && 1 <= |m.ts| && |days| == |m.ts|
    requires forall i :: 1 <= i < |days| ==> Follows(m, ratioFunc, days, i)
    requires orders.Length == |m.ts| && positions.Length == |m.ts| && cash.Length == |m.ts|
    requires orders != positions
    requires orders[0] == days[0].orders && positions[0] == days[0].positions && cash[0] == days[0].cash
    modifies orders, positions, cash
    ensures forall j :: 0 <= j < |m.ts| ==>
              orders[j] == days[j].orders && positions[j] == days[j].positions && cash[j] == days[j].cash
  {
    for i := 1 to |m.ts|
      invariant forall j :: 0 <= j < i ==>
                  orders[j] == days[j].orders && positions[j] == days[j].positions && cash[j] == days[j].cash
    {
      var prices := [m.vxx[i - 1], m.vxz[i - 1]];
      assert prices == PricesOn(m, i - 1);
      assert Follows(m, ratioFunc, days, i);
      var o, p, c := RebalanceStep(positions[i - 1], cash[i - 1], prices, ratioFunc(m.ts[i - 1]));
      orders[i] := o;
      positions[i] := p;
      cash[i] := c;
    }
  }

  /** The body of `run`'s loop for one day: the orders, the book after them and the cash after them. */
  method RebalanceStep(positions: seq<int>, cash: real, prices: seq<real>, ratio: Weights)
    returns (orders: seq<int>, newPositions: seq<int>, newCash: real)
    requires |positions| == 2 && |prices| == 2 && NonZero(prices)
    ensures Day(orders, newPositions, newCash) == Rebalance(positions, cash, prices, ratio)
  {
    orders := CalcAdjustments(positions, prices, [ratio.vxx, ratio.vxz], cash);
    newPositions := AddQty(positions, orders);
    var cashDelta := CalcCashDelta(orders, prices, positions);
    newCash := cash + cashDelta;
  }

  /**
   * A rebalance at positive prices towards balanced weights leaves a
   * non-negative cash non-negative: the orders are affordable and the cash
   * delta is the notional they release.
   */
  lemma RebalanceKeepsCash(positions: seq<int>, cash: real, p: seq<real>, w: Weights)
    requires |positions| == 2 && |p| == 2 && p[0] > 0.0 && p[1] > 0.0
    requires Balanced(w) && cash >= 0.0
    ensures Rebalance(positions, cash, p, w).cash >= 0.0
  {
    var alloc := [w.vxx, w.vxz];
    var orders := CalcAdjustments(positions, p, alloc, cash);
    var held := AddQty(positions, orders);
    AdjustmentsAffordable(positions, p, alloc, cash);
    BalancedBudget(w, Capital(positions, p, cash));
    CashDeltaConservesNotional(orders, p, positions);
    assert Notional(held, p) <= Notional(positions, p) + cash;
  }

  /**
   * With positive prices, balanced weights and a non-negative starting cash,
   * the ledger never goes into debt.
   */
  lemma {:induction false} CashNeverNegative(m: Market, ratio: Float -> Weights, startCash: real, i: nat)
    requires WellFormed(m) && i < |m.ts| && startCash >= 0.0
    requires forall j :: 0 <= j < |m.ts| ==> m.vxx[j] > 0.0 && m.vxz[j] > 0.0
    requires forall x :: Balanced(ratio(x))
    ensures DayAt(m, ratio, startCash, i).cash >= 0.0
  {
    if i > 0 {
      CashNeverNegative(m, ratio, startCash, i - 1);
      var prev := DayAt(m, ratio, startCash, i - 1);
      RebalanceKeepsCash(prev.positions, prev.cash, PricesOn(m, i - 1), ratio(m.ts[i - 1]));
    }
  }

  /** The book after a rebalance is the truncated targets, whatever it held before. */
  lemma RebalanceReachesTargets(positions: seq<int>, cash: real, p: seq<real>, w: Weights)
    requires |positions| == 2 && |p| == 2 && NonZero(p)
    ensures var capital := Capital(positions, p, cash);
            Rebalance(positions, cash, p, w).positions == [Target(w.vxx, capital, p[0]), Target(w.vxz, capital, p[1])]
  {
  }

  // Futures prices

  /** The lookups that raise: a missing year or date is a KeyError, a missing month an IndexError. */
  datatype LookupError = MissingYear | MissingMonth | MissingDate

  /** `futures_prices[year][month - 1][date]`. */
  function PriceFor(f: FuturesPrices, year: int, month: int, date: Date): (r: Result<real, LookupError>)
    requires 1 <= month <= 12
    ensures r.Ok? <==> year in f && month - 1 < |f[year]| && date in f[year][month - 1]
    ensures r.Ok? ==> r.value == f[year][month - 1][date]
  {
    if year !in f then Err(MissingYear)
    else if month - 1 >= |f[year]| then Err(MissingMonth)
    else if date !in f[year][month - 1] then Err(MissingDate)
    else Ok(f[year][month - 1][date])
  }

  /**
   * The prices of `date` in the contracts of the expiry's month and the
   * following months, or the first lookup that fails.
   */
  function FuturesPricesFor(f: FuturesPrices, date: Date, y: int, m: int, count: nat): (r: Result<seq<real>, LookupError>)
    requires 1 <= m <= 12
    ensures r.Ok? ==> |r.value| == count
  {
    if count == 0 then Ok([])
    else
      match FuturesPricesFor(f, date, y, m, count - 1)
      case Err(e) => Err(e)
      case Ok(prefix) =>
        match MonthPrice(f, date, y, m, count - 1)
        case Err(e) => Err(e)
        case Ok(p) => Ok(prefix + [p])
  }

  /** The price of `date` in the contract `k` months after (y, m). */
  function MonthPrice(f: FuturesPrices, date: Date, y: int, m: int, k: nat): Result<real, LookupError>
    requires 1 <= m <= 12
  {
    PriceFor(f, MonthsAfter(y, m, k).0, MonthsAfter(y, m, k).1, date)
  }

  /**
   * The prices are those of the `count` months in order, and the lookup fails
   * exactly when one of those months has no price.
   */
  lemma {:induction false} FuturesPricesMeaning(f: FuturesPrices, date: Date, y: int, m: int, count: nat)
    requires 1 <= m <= 12
    ensures var r := FuturesPricesFor(f, date, y, m, count);
            (r.Ok? ==> forall k :: 0 <= k < count ==> MonthPrice(f, date, y, m, k) == Ok(r.value[k]))
            && (r.Err? <==> exists k :: 0 <= k < count && MonthPrice(f, date, y, m, k).Err?)
  {
    if count > 0 {
      FuturesPricesMeaning(f, date, y, m, count - 1);
      var prev := FuturesPricesFor(f, date, y, m, count - 1);
      if prev.Ok? && MonthPrice(f, date, y, m, count - 1).Ok? {
        var r := FuturesPricesFor(f, date, y, m, count);
        assert forall k :: 0 <= k < count - 1 ==> r.value[k] == prev.value[k];
      }
    }
  }

  /** One more month: the prices so far followed by that month's price, or its error. */
  lemma FuturesPricesStep(f: FuturesPrices, date: Date, y: int, m: int, count: nat)
    requires 1 <= m <= 12
    requires FuturesPricesFor(f, date, y, m, count).Ok?
    ensures var next := FuturesPricesFor(f, date, y, m, count + 1);
            var price := MonthPrice(f, date, y, m, count);
            (price.Err? ==> next == Err(price.error))
            && (price.Ok? ==> next == Ok(FuturesPricesFor(f, date, y, m, count).value + [price.value]))
  {
  }

  /** Once a lookup has failed, asking for more months fails with the same error. */
  lemma {:induction false} ErrorPersists(f: FuturesPrices, date: Date, y: int, m: int, c1: nat, c2: nat)
    requires 1 <= m <= 12 && c1 <= c2
    requires FuturesPricesFor(f, date, y, m, c1).Err?
    ensures FuturesPricesFor(f, date, y, m, c2) == FuturesPricesFor(f, date, y, m, c1)
    decreases c2
  {
    if c1 < c2 {
      ErrorPersists(f, date, y, m, c1, c2 - 1);
    }
  }

  /**
   * `get_futures_prices`: the price at `currDate` of the contract expiring in
   * the expiry's month, then of the contracts of the following months,
   * December rolling over to January of the next year.
   */
  method GetFuturesPrices(f: FuturesPrices, currDate: Date, expiryDate: Date, monthCount: int)
    returns (r: Result<seq<real>, LookupError>)
    requires 1 <= expiryDate.month <= 12
    ensures r == FuturesPricesFor(f, currDate, expiryDate.year, expiryDate.month, PriceCount(monthCount))
  {
    var year, month := expiryDate.year, expiryDate.month;
    var first := PriceFor(f, year, month, currDate);
    assert MonthsAfter(year, month, 0) == (year, month);
    assert first == MonthPrice(f, currDate, year, month, 0);
    assert FuturesPricesFor(f, currDate, year, month, 0) == Ok([]);
    if first.Err? {
      assert FuturesPricesFor(f, currDate, year, month, 1) == Err(first.error);
      ErrorPersists(f, currDate, year, month, 1, PriceCount(monthCount));
      return Err(first.error);
    }
    var prices := [first.value];
    assert [] + prices == prices;
    assert Ok(prices) == FuturesPricesFor(f, currDate, year, month, 1);
    var remaining := monthCount - 1;
    var nextMonth, nextYear := month, year;
    while remaining > 0
      invariant 1 <= nextMonth <= 12
      invariant 1 <= |prices| <= PriceCount(monthCount)
      invariant remaining == monthCount - |prices|
      invariant (nextYear, nextMonth) == MonthsAfter(year, month, |prices| - 1)
      invariant Ok(prices) == FuturesPricesFor(f, currDate, year, month, |prices|)
    {
      if nextMonth == 12 {
        nextMonth := 1;
        nextYear := nextYear + 1;
      } else {
        nextMonth := nextMonth + 1;
      }
      var price := PriceFor(f, nextYear, nextMonth, currDate);
      assert price == MonthPrice(f, currDate, year, month, |prices|);
      FuturesPricesStep(f, currDate, year, month, |prices|);
      if price.Err? {
        ErrorPersists(f, currDate, year, month, |prices| + 1, PriceCount(monthCount));
        return Err(price.error);
      }
      prices := prices + [price.value];
      remaining := remaining - 1;
    }
    r := Ok(prices);
  }
}
