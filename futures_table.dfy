/**
 * The VIX futures price table shared by `get_futures_prices` in
 * backtester/volatility_etns.py and backtester/vix_futures_pca.py: the
 * settlement prices of each contract, indexed by the contract's year, then
 * by its month less one, then by the trading date.
 */
module FuturesTable {
  import opened Calendar

  type FuturesPrices = map<int, seq<map<Date, real>>>

  /** The calendar month `k` months after (y, m), December rolling over to January. */
  function MonthsAfter(y: int, m: int, k: nat): (r: (int, int))
    requires 1 <= m <= 12
    ensures 1 <= r.1 <= 12 && MonthIndex(r.0, r.1) == MonthIndex(y, m) + k
  {
    if k == 0 then (y, m) else MonthAfter(MonthsAfter(y, m, k - 1).0, MonthsAfter(y, m, k - 1).1)
  }

  /**
   * How many prices `get_futures_prices` returns for a month count: the first
   * is taken before the counted loop, which adds `month_count - 1` more.
   */
  function PriceCount(monthCount: int): (n: nat)
    ensures n >= 1 && (monthCount >= 1 ==> n == monthCount)
  {
    if monthCount < 1 then 1 else monthCount
  }

  /** Stepping one month at a time from (y, m) visits `MonthsAfter` in order. */
  lemma MonthsAfterStep(y: int, m: int, k: nat)
    requires 1 <= m <= 12
    ensures var here := MonthsAfter(y, m, k);
            MonthsAfter(y, m, k + 1) == (if here.1 == 12 then (here.0 + 1, 1) else (here.0, here.1 + 1))
  {
  }

  /** Distinct steps land in distinct calendar months. */
  lemma MonthsAfterDistinct(y: int, m: int, j: nat, k: nat)
    requires 1 <= m <= 12 && j != k
    ensures MonthsAfter(y, m, j) != MonthsAfter(y, m, k)
  {
  }
}
