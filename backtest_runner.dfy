/**
 * The ranking of backtest results in backtester/backtest_runner.py: each
 * result is a (symbol, score) pair, and `order_results_desc` orders them by
 * score from best to worst with Python's stable `sorted`.
 */
module BacktestRunner {

  type BacktestResult = (string, real)

  /** The results with score `k`, in the order given. */
  function WithScore(l: seq<BacktestResult>, k: real): seq<BacktestResult>
  {
    if l == [] then []
    else if l[0].1 == k then [l[0]] + WithScore(l[1..], k)
    else WithScore(l[1..], k)
  }

  /** Scores never rise along the sequence. */
  predicate Descending(l: seq<BacktestResult>)
  {
    forall i, j :: 0 <= i < j < |l| ==> l[i].1 >= l[j].1
  }

  /**
   * Places `x` ahead of the first result scoring no more than it, so that it
   * precedes the results it tied with that came after it in the input.
   */
  function Insert(x: BacktestResult, s: seq<BacktestResult>): seq<BacktestResult>
  {
    if s == [] || s[0].1 <= x.1 then [x] + s
    else [s[0]] + Insert(x, s[1..])
  }

  /** `sorted(result_set, reverse=True, key=score)`. */
  function OrderResultsDesc(l: seq<BacktestResult>): seq<BacktestResult>
  {
    if l == [] then [] else Insert(l[0], OrderResultsDesc(l[1..]))
  }

  lemma {:induction false} InsertPermutes(x: BacktestResult, s: seq<BacktestResult>)
    ensures multiset(Insert(x, s)) == multiset{x} + multiset(s)
  {
    if s != [] && s[0].1 > x.1 {
      InsertPermutes(x, s[1..]);
      assert s == [s[0]] + s[1..];
    }
  }

  /** The ordering is a rearrangement of its input. */
  lemma {:induction false} OrderResultsDescPermutes(l: seq<BacktestResult>)
    ensures multiset(OrderResultsDesc(l)) == multiset(l)
    ensures |OrderResultsDesc(l)| == |l|
  {
    if l != [] {
      OrderResultsDescPermutes(l[1..]);
      InsertPermutes(l[0], OrderResultsDesc(l[1..]));
      assert l == [l[0]] + l[1..];
    }
    assert |OrderResultsDesc(l)| == |multiset(OrderResultsDesc(l))|;
  }

  lemma {:induction false} InsertDescending(x: BacktestResult, s: seq<BacktestResult>)
    requires Descending(s)
    ensures Descending(Insert(x, s))
    ensures forall y :: y in Insert(x, s) ==> y == x || y in s
  {
    if s != [] && s[0].1 > x.1 {
      var tail := s[1..];
      assert Descending(tail) by {
        forall i, j | 0 <= i < j < |tail| ensures tail[i].1 >= tail[j].1 {
          assert tail[i] == s[i + 1] && tail[j] == s[j + 1];
        }
      }
      InsertDescending(x, tail);
      var r := Insert(x, tail);
      forall j | 0 < j < |[s[0]] + r| ensures s[0].1 >= ([s[0]] + r)[j].1 {
        var y := r[j - 1];
        assert y in r;
        if y != x {
          var k :| 0 <= k < |tail| && tail[k] == y;
          assert s[k + 1] == y;
        }
      }
    }
  }

  /** The ordering runs from the best score to the worst. */
  lemma {:induction false} OrderResultsDescDescending(l: seq<BacktestResult>)
    ensures Descending(OrderResultsDesc(l))
  {
    if l != [] {
      OrderResultsDescDescending(l[1..]);
      InsertDescending(l[0], OrderResultsDesc(l[1..]));
    }
  }

  lemma {:induction false} InsertWithScore(x: BacktestResult, s: seq<BacktestResult>, k: real)
    ensures WithScore(Insert(x, s), k) == if x.1 == k then [x] + WithScore(s, k) else WithScore(s, k)
  {
    if s == [] || s[0].1 <= x.1 {
      assert ([x] + s)[1..] == s;
    } else {
      InsertWithScore(x, s[1..], k);
      assert ([s[0]] + Insert(x, s[1..]))[1..] == Insert(x, s[1..]);
    }
  }

  /** Results with equal scores keep the order they came in: the sort is stable. */
  lemma {:induction false} OrderResultsDescStable(l: seq<BacktestResult>, k: real)
    ensures WithScore(OrderResultsDesc(l), k) == WithScore(l, k)
  {
    if l != [] {
      OrderResultsDescStable(l[1..], k);
      InsertWithScore(l[0], OrderResultsDesc(l[1..]), k);
    }
  }

  /** backtester/test/test_backtest_runner.py's ranking of four symbols. */
  lemma OrderResultsDescExample()
    ensures OrderResultsDesc([("T", 5.0), ("T2", 3.0), ("T3", 10.0), ("T4", 7.0)])
            == [("T3", 10.0), ("T4", 7.0), ("T", 5.0), ("T2", 3.0)]
  {
    var l := [("T", 5.0), ("T2", 3.0), ("T3", 10.0), ("T4", 7.0)];
    assert l[1..] == [("T2", 3.0), ("T3", 10.0), ("T4", 7.0)];
    assert l[2..] == [("T3", 10.0), ("T4", 7.0)];
    assert l[3..] == [("T4", 7.0)];
    assert l[4..] == [];
    assert OrderResultsDesc(l[3..]) == [("T4", 7.0)];
    assert OrderResultsDesc(l[2..]) == [("T3", 10.0), ("T4", 7.0)];
    assert Insert(("T2", 3.0), [("T4", 7.0)]) == [("T4", 7.0), ("T2", 3.0)];
    assert Insert(("T2", 3.0), [("T3", 10.0), ("T4", 7.0)]) == [("T3", 10.0), ("T4", 7.0), ("T2", 3.0)];
    assert OrderResultsDesc(l[1..]) == [("T3", 10.0), ("T4", 7.0), ("T2", 3.0)];
    assert Insert(("T", 5.0), [("T2", 3.0)]) == [("T", 5.0), ("T2", 3.0)];
    assert Insert(("T", 5.0), [("T4", 7.0), ("T2", 3.0)]) == [("T4", 7.0), ("T", 5.0), ("T2", 3.0)];
  }
}
