/**
 * Futures-tenor selection of backtester/vix_futures_pca.py: the price of a
 * synthetic VIX future expiring `n` days ahead, interpolated between the
 * contract expiring just before that horizon and the one after it.  Missing
 * dates read as NaN; a missing year or month raises.
 */
module VixFuturesPca {
  import opened Wrappers
  import opened Floats
  import opened Calendar
  import opened VixExpiry
  import opened FuturesTable

  /** What the routines raise: a KeyError for a missing year, an IndexError for a missing month, a ZeroDivisionError. */
  datatype Raised = MissingYear | MissingMonth | ZeroDivision

  /** `get_price_value`: the price on the date, or NaN when the contract has none. */
  function PriceValue(prices: map<Date, real>, d: Date): (r: Float)
    ensures r.NaN? <==> d !in prices
    ensures r.Num? ==> r.value == prices[d]
  {
    if d in prices then Num(prices[d]) else NaN
  }

  /**
   * `get_price_value(futures_prices[year][month - 1], date)`: indexing by a
   * missing year raises a KeyError, by a missing month an IndexError.
   */
  function PriceAt(f: FuturesPrices, year: int, month: int, date: Date): (r: Result<Float, Raised>)
    requires 1 <= month <= 12
    ensures r == Err(MissingYear) <==> year !in f
    ensures r == Err(MissingMonth) <==> year in f && month - 1 >= |f[year]|
    ensures r.Ok? ==> r.value == PriceValue(f[year][month - 1], date)
  {
    if year !in f then Err(MissingYear)
    else if month - 1 >= |f[year]| then Err(MissingMonth)
    else Ok(PriceValue(f[year][month - 1], date))
  }

  /** The price on `date` of the contract `k` months after (y, m). */
  function TenorPrice(f: FuturesPrices, date: Date, y: int, m: int, k: nat): Result<Float, Raised>
    requires 1 <= m <= 12
  {
    PriceAt(f, MonthsAfter(y, m, k).0, MonthsAfter(y, m, k).1, date)
  }

  /** The prices of `count` consecutive months from (y, m), or the first lookup that raises. */
  function PricesFor(f: FuturesPrices, date: Date, y: int, m: int, count: nat): (r: Result<seq<Float>, Raised>)
    requires 1 <= m <= 12
    ensures r.Ok? ==> |r.value| == count
  {
    if count == 0 then Ok([])
    else
      match PricesFor(f, date, y, m, count - 1)
      case Err(e) => Err(e)
      case Ok(prefix) =>
        match TenorPrice(f, date, y, m, count - 1)
        case Err(e) => Err(e)
        case Ok(p) => Ok(prefix + [p])
  }

  /**
   * The prices are those of the `count` consecutive months in order; the
   * lookup raises exactly when one of those months is missing, and never
   * for a missing date.
   */
  lemma {:induction false} PricesForMeaning(f: FuturesPrices, date: Date, y: int, m: int, count: nat)
    requires 1 <= m <= 12
    ensures var r := PricesFor(f, date, y, m, count);
            (r.Ok? ==> forall k :: 0 <= k < count ==> TenorPrice(f, date, y, m, k) == Ok(r.value[k]))
            && (r.Err? <==> exists k :: 0 <= k < count && TenorPrice(f, date, y, m, k).Err?)
            && r != Err(ZeroDivision)
  {
    if count > 0 {
      PricesForMeaning(f, date, y, m, count - 1);
      var prev := PricesFor(f, date, y, m, count - 1);
      if prev.Ok? && TenorPrice(f, date, y, m, count - 1).Ok? {
        var r := PricesFor(f, date, y, m, count);
        assert forall k :: 0 <= k < count - 1 ==> r.value[k] == prev.value[k];
      }
    }
  }

  /** One more month: the prices so far followed by that month's price, or its error. */
  lemma PricesForStep(f: FuturesPrices, date: Date, y: int, m: int, count: nat)
    requires 1 <= m <= 12
    requires PricesFor(f, date, y, m, count).Ok?
    ensures var next := PricesFor(f, date, y, m, count + 1);
            var price := TenorPrice(f, date, y, m, count);
            (price.Err? ==> next == Err(price.error))
            && (price.Ok? ==> next == Ok(PricesFor(f, date, y, m, count).value + [price.value]))
  {
  }

  /** Once a lookup has raised, asking for more months raises the same error. */
  lemma {:induction false} RaisedPersists(f: FuturesPrices, date: Date, y: int, m: int, c1: nat, c2: nat)
    requires 1 <= m <= 12 && c1 <= c2
    requires PricesFor(f, date, y, m, c1).Err?
    ensures PricesFor(f, date, y, m, c2) == PricesFor(f, date, y, m, c1)
    decreases c2
  {
    if c1 < c2 {
      RaisedPersists(f, date, y, m, c1, c2 - 1);
    }
  }

  /**
   * `get_futures_prices`: the value at `currDate` of the contract of the
   * expiry's month, then of the contracts of the following months.
   */
  method GetFuturesPrices(f: FuturesPrices, currDate: Date, expiryDate: Date, monthCount: int)
    returns (r: Result<seq<Float>, Raised>)
    requires 1 <= expiryDate.month <= 12
    ensures r == PricesFor(f, currDate, expiryDate.year, expiryDate.month, PriceCount(monthCount))
  {
    var year, month := expiryDate.year, expiryDate.month;
    var first := PriceAt(f, year, month, currDate);
    assert MonthsAfter(year, month, 0) == (year, month);
    assert first == TenorPrice(f, currDate, year, month, 0);
    assert PricesFor(f, currDate, year, month, 0) == Ok([]);
    if first.Err? {
      assert PricesFor(f, currDate, year, month, 1) == Err(first.error);
      RaisedPersists(f, currDate, year, month, 1, PriceCount(monthCount));
      return Err(first.error);
    }
    var prices := [first.value];
    assert [] + prices == prices;
    assert Ok(prices) == PricesFor(f, currDate, year, month, 1);
    var remaining := monthCount - 1;
    var nextMonth, nextYear := month, year;
    while remaining > 0
      invariant 1 <= nextMonth <= 12
      invariant 1 <= |prices| <= PriceCount(monthCount)
      invariant remaining == monthCount - |prices|
      invariant (nextYear, nextMonth) == MonthsAfter(year, month, |prices| - 1)
      invariant Ok(prices) == PricesFor(f, currDate, year, month, |prices|)
    {
      if nextMonth == 12 {
        nextMonth := 1;
        nextYear := nextYear + 1;
      } else {
        nextMonth := nextMonth + 1;
      }
      var price := PriceAt(f, nextYear, nextMonth, currDate);
      assert price == TenorPrice(f, currDate, year, month, |prices|);
      PricesForStep(f, currDate, year, month, |prices|);
      if price.Err? {
        RaisedPersists(f, currDate, year, month, |prices| + 1, PriceCount(monthCount));
        return Err(price.error);
      }
      prices := prices + [price.value];
      remaining := remaining - 1;
    }
    r := Ok(prices);
  }

  // Interpolation

  /**
   * The interpolation of `get_vix_future_ndays`: NaN when either price is
   * missing, otherwise `(m / n) * p0 + ((n - m) / n) * p1`, where the
   * division by a zero horizon raises.
   */
  function Interpolate(n: int, maturity: int, p0: Float, p1: Float): (r: Result<Float, Raised>)
    requires !p0.PosInf? && !p0.NegInf? && !p1.PosInf? && !p1.NegInf?
    ensures r == Ok(NaN) <==> p0.NaN? || p1.NaN?
    ensures r.Err? <==> !p0.NaN? && !p1.NaN? && n == 0
    ensures r.Err? ==> r.error == ZeroDivision
  {
    if p0.NaN? || p1.NaN? then Ok(NaN)
    else if n == 0 then Err(ZeroDivision)
    else Ok(Num((maturity as real / n as real) * p0.value + ((n - maturity) as real / n as real) * p1.value))
  }

  /** `m / n + (n - m) / n` is one for any non-zero `n`. */
  lemma WeightsSumToOne(n: real, m: real)
    requires n != 0.0
    ensures m / n + (n - m) / n == 1.0
  {
    var w, v := m / n, (n - m) / n;
    assert w * n == m && v * n == n - m;
    assert (w + v) * n == w * n + v * n;
    assert (w + v - 1.0) * n == 0.0;
  }

  /**
   * The two weights sum to one, so the result is the far price moved towards
   * the near one by the near weight `m / n`.
   */
  lemma InterpolationWeights(n: int, maturity: int, a: real, b: real)
    requires n != 0
    ensures var w := maturity as real / n as real;
            var r := Interpolate(n, maturity, Num(a), Num(b));
            w + (n - maturity) as real / n as real == 1.0
            && r.Ok? && r.value == Num(b + w * (a - b))
  {
    var w := maturity as real / n as real;
    var v := (n - maturity) as real / n as real;
    assert (n - maturity) as real == n as real - maturity as real;
    WeightsSumToOne(n as real, maturity as real);
    assert v == 1.0 - w;
    assert v * b == (1.0 - w) * b;
    assert Interpolate(n, maturity, Num(a), Num(b)).value == Num(w * a + v * b);
    assert w * a + (1.0 - w) * b == b + w * (a - b);
  }

  /** Equal prices interpolate to themselves, whatever the horizon. */
  lemma InterpolationOfEqualPrices(n: int, maturity: int, a: real)
    requires n != 0
    ensures var r := Interpolate(n, maturity, Num(a), Num(a));
            r.Ok? && r.value == Num(a)
  {
    InterpolationWeights(n, maturity, a, a);
    assert (maturity as real / n as real) * (a - a) == 0.0;
  }

  /** A weight `m / n` with `0 <= m <= n` lies between zero and one. */
  lemma WeightInUnit(n: real, m: real)
    requires 0.0 <= m <= n && n != 0.0
    ensures 0.0 <= m / n <= 1.0
  {
    assert (m / n) * n == m;
  }

  /** When the near contract expires within the horizon, the result lies between the two prices. */
  lemma InterpolationBetween(n: int, maturity: int, a: real, b: real)
    requires 0 <= maturity <= n && n != 0
    ensures var r := Interpolate(n, maturity, Num(a), Num(b)).value.value;
            (a <= r <= b) || (b <= r <= a)
  {
    InterpolationWeights(n, maturity, a, b);
    var w := maturity as real / n as real;
    WeightInUnit(n as real, maturity as real);
    var d := a - b;
    if d <= 0.0 {
      assert w * d <= 0.0;
      assert (1.0 - w) * d <= 0.0;
    } else {
      assert w * d >= 0.0;
      assert (1.0 - w) * d >= 0.0;
    }
  }

  // Choosing the two contracts

  /**
   * The expiries `get_vix_future_ndays` visits from `curr`: the next expiry
   * after `curr`, then each time the next expiry after the day following the
   * previous one.
   */
  function ExpiryChain(curr: Date, k: nat): (e: Date)
    requires Valid(curr)
    ensures Valid(e)
  {
    if k == 0 then NextExpiryFor(curr)
    else NextExpiryFor(AddDays(ExpiryChain(curr, k - 1), 1))
  }

  /** Each visited expiry comes after the one before it. */
  lemma ChainStep(curr: Date, k: nat)
    requires Valid(curr)
    ensures Ordinal(ExpiryChain(curr, k)) < Ordinal(ExpiryChain(curr, k + 1))
  {
    var d := AddDays(ExpiryChain(curr, k), 1);
    assert ExpiryChain(curr, k + 1) == NextExpiryFor(d);
  }

  /** A sequence of integers that rises at every step rises between any two steps. */
  lemma {:induction false} RisingEverywhere(f: nat -> int, j: nat, k: nat)
    requires forall i: nat :: f(i) < f(i + 1)
    requires j < k
    ensures f(j) < f(k)
    decreases k
  {
    if j < k - 1 {
      RisingEverywhere(f, j, k - 1);
    }
  }

  /** The visited expiries strictly increase. */
  lemma ChainIncreasing(curr: Date, j: nat, k: nat)
    requires Valid(curr) && j < k
    ensures Ordinal(ExpiryChain(curr, j)) < Ordinal(ExpiryChain(curr, k))
  {
    var f := (i: nat) => Ordinal(ExpiryChain(curr, i));
    forall i: nat
      ensures f(i) < f(i + 1)
    {
      ChainStep(curr, i);
    }
    RisingEverywhere(f, j, k);
  }

  /**
   * Expiry `k` of the chain is the near contract for `target`: the expiry
   * after it is not before the target, and it is itself before the target
   * unless it is the first one.
   */
  predicate IsBracket(curr: Date, target: Date, k: nat)
    requires Valid(curr) && Valid(target)
  {
    !Before(ExpiryChain(curr, k + 1), target) && (k == 0 || Before(ExpiryChain(curr, k), target))
  }

  /** Expiries further along the chain than one past the target are not before it either. */
  lemma StaysPast(curr: Date, t: int, j: nat, k: nat)
    requires Valid(curr) && j < k
    requires t <= Ordinal(ExpiryChain(curr, j + 1))
    ensures t <= Ordinal(ExpiryChain(curr, k))
  {
    if j + 1 < k {
      ChainIncreasing(curr, j + 1, k);
    }
  }

  /** There is only one near contract for a target. */
  lemma BracketUnique(curr: Date, target: Date, j: nat, k: nat)
    requires Valid(curr) && Valid(target)
    requires IsBracket(curr, target, j) && IsBracket(curr, target, k)
    ensures j == k
  {
    if j < k {
      StaysPast(curr, Ordinal(target), j, k);
    } else if k < j {
      StaysPast(curr, Ordinal(target), k, j);
    }
  }

  /**
   * `chain` is the expiry chain from `curr`.  The scan below reads the chain
   * through this function value, which keeps the calendar arithmetic behind
   * each expiry out of its proof; `ChainFollows` is the one fact it needs.
   */
  ghost predicate IsChain(curr: Date, chain: nat -> Date)
    requires Valid(curr)
  {
    forall i: nat {:trigger ExpiryChain(curr, i)} :: chain(i) == ExpiryChain(curr, i)
  }

  /** Each expiry of the chain is what `get_next_expiry_date` gives for the day after the one before it. */
  lemma ChainFollows(curr: Date, chain: nat -> Date, k: nat)
    requires Valid(curr) && IsChain(curr, chain)
    ensures Valid(chain(k)) && Valid(chain(k + 1))
    ensures chain(k + 1) == NextExpiryFor(AddDays(chain(k), 1))
    ensures Ordinal(chain(k)) < Ordinal(chain(k + 1))
  {
    assert chain(k) == ExpiryChain(curr, k);
    assert chain(k + 1) == ExpiryChain(curr, k + 1);
    ChainStep(curr, k);
  }

  /**
   * The state of the scan in `get_vix_future_ndays` after `k` steps: `prev`
   * and `next` are expiries `k` and `k + 1` of the chain, every step so far
   * was taken because `prev` came before the target, and `gap` is how many
   * days `next` still lies before the target.
   */
  predicate Scanning(chain: nat -> Date, target: Date, k: nat, prev: Date, next: Date, gap: nat)
    requires Valid(target)
  {
    Valid(prev) && Valid(next)
    && prev == chain(k) && next == chain(k + 1)
    && (k == 0 || Before(prev, target))
    && gap == Gap(next, target)
  }

  /** Days from `d` to `target`; zero once `d` is not before `target`. */
  function Gap(d: Date, target: Date): nat
    requires Valid(d) && Valid(target)
  {
    if Before(d, target) then Ordinal(target) - Ordinal(d) else 0
  }

  /**
   * The two expiries around the target: starting from the first expiry after
   * `curr`, step to the next expiry while it still lies before the target.
   */
  method BracketExpiries(curr: Date, target: Date) returns (prev: Date, next: Date)
    requires Valid(curr) && Valid(target)
    ensures exists k: nat {:trigger IsBracket(curr, target, k)} :: IsBracket(curr, target, k) && prev == ExpiryChain(curr, k) && next == ExpiryChain(curr, k + 1)
  {
    ghost var chain := (i: nat) => ExpiryChain(curr, i);
    assert IsChain(curr, chain);
    forall i: nat
      ensures Valid(chain(i)) && chain(i + 1) == NextExpiryFor(AddDays(chain(i), 1))
    {
      ChainFollows(curr, chain, i);
    }
    assert chain(0) == ExpiryChain(curr, 0);
    var prev0, next0, gap0 := StartScan(curr, chain, target);
    ghost var k;
    ghost var gap;
    prev, next, k, gap := Scan(chain, target, 0, prev0, next0, gap0);
    assert prev == ExpiryChain(curr, k) && next == ExpiryChain(curr, k + 1);
    assert IsBracket(curr, target, k);
  }

  /** The first two expiries: the one after `curr` and the one after that. */
  method StartScan(curr: Date, ghost chain: nat -> Date, ghost target: Date) returns (prev: Date, next: Date, ghost gap: nat)
    requires Valid(curr) && Valid(target) && chain(0) == NextExpiryFor(curr)
    requires forall i: nat :: Valid(chain(i)) && chain(i + 1) == NextExpiryFor(AddDays(chain(i), 1))
    ensures Scanning(chain, target, 0, prev, next, gap)
  {
    assert Valid(chain(1));
    prev := NextExpiryDate(curr);
    next := NextExpiryDate(AddDays(prev, 1));
    gap := Gap(next, target);
  }

  /** The loop of the scan: step while `next` lies before the target. */
  method Scan(ghost chain: nat -> Date, target: Date, ghost k0: nat, prev0: Date, next0: Date, ghost gap0: nat)
    returns (prev: Date, next: Date, ghost k: nat, ghost gap: nat)
    requires Valid(target) && Scanning(chain, target, k0, prev0, next0, gap0)
    requires forall i: nat :: Valid(chain(i)) && chain(i + 1) == NextExpiryFor(AddDays(chain(i), 1))
    ensures Scanning(chain, target, k, prev, next, gap) && !Before(next, target)
  {
    prev, next, k, gap := prev0, next0, k0, gap0;
    while Before(next, target)
      invariant Scanning(chain, target, k, prev, next, gap)
      decreases gap
    {
      prev, next, gap := Advance(chain, target, k, prev, next, gap);
      k := k + 1;
    }
  }

  /** One step of the scan, taken while `next` lies before the target. */
  method Advance(ghost chain: nat -> Date, ghost target: Date, ghost k: nat, prev0: Date, next0: Date, ghost gap0: nat)
    returns (prev: Date, next: Date, ghost gap: nat)
    requires Valid(target) && Scanning(chain, target, k, prev0, next0, gap0)
    requires forall i: nat :: Valid(chain(i)) && chain(i + 1) == NextExpiryFor(AddDays(chain(i), 1))
    requires Before(next0, target)
    ensures Scanning(chain, target, k + 1, prev, next, gap) && gap < gap0
  {
    prev := next0;
    next := NextExpiryDate(AddDays(prev, 1));
    assert next == chain(k + 2);
    gap := Gap(next, target);
  }

  /** The synthetic price for a near expiry: its two contracts' prices, interpolated by its maturity. */
  function Quote(f: FuturesPrices, curr: Date, expiry: Date, n: int): (r: Result<Float, Raised>)
    requires Valid(curr) && Valid(expiry)
  {
    match PricesFor(f, curr, expiry.year, expiry.month, 2)
    case Err(e) => Err(e)
    case Ok(ps) =>
      PricesForMeaning(f, curr, expiry.year, expiry.month, 2);
      assert TenorPrice(f, curr, expiry.year, expiry.month, 0) == Ok(ps[0]);
      assert TenorPrice(f, curr, expiry.year, expiry.month, 1) == Ok(ps[1]);
      Interpolate(n, DaysBetween(curr, expiry), ps[0], ps[1])
  }

  /**
   * `get_vix_future_ndays`: the horizon ends `n - 1` days after `curr`; the
   * value is the quote of the near contract for that horizon.
   */
  method GetVixFutureNDays(n: int, f: FuturesPrices, curr: Date) returns (r: Result<Float, Raised>)
    requires Valid(curr)
    ensures exists k: nat {:trigger IsBracket(curr, AddDays(curr, n - 1), k)} :: IsBracket(curr, AddDays(curr, n - 1), k) && r == Quote(f, curr, ExpiryChain(curr, k), n)
  {
    var target := AddDays(curr, n - 1);
    var prev, next := BracketExpiries(curr, target);
    var prices := GetFuturesPrices(f, curr, prev, 2);
    if prices.Err? {
      return Err(prices.error);
    }
    PricesForMeaning(f, curr, prev.year, prev.month, 2);
    assert TenorPrice(f, curr, prev.year, prev.month, 0) == Ok(prices.value[0]);
    assert TenorPrice(f, curr, prev.year, prev.month, 1) == Ok(prices.value[1]);
    var maturity := DaysBetween(curr, prev);
    r := Interpolate(n, maturity, prices.value[0], prices.value[1]);
  }
}
