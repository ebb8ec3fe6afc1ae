/**
 * The order book of the market-making simulation in
 * backtester/market_making.py: resting buy and sell positions, the removal
 * of every resting order at a price, and the settlement of a fill against
 * the resting orders of its side, which also books the fill's cash into the
 * running pnl.
 *
 * Both list loops of the source remove entries from the list they are
 * iterating over.  Python's list iterator keeps counting after such a
 * removal, so the entry that slides into the freed slot is never visited.
 * The functions `RemovingFrom` and `Updating` follow the iterator's index
 * exactly; `Survivors` and `Settled` describe the same outcome in terms of
 * the original list, and the lemmas below say what that outcome is.
 */
module MarketMaking {

  /** The side codes of the source's `Side` class. */
  const BUY: int := -1
  const SELL: int := 1

  /** A resting order.  The side is any integer; only BUY and SELL are booked. */
  datatype Position = Position(side: int, price: real, qty: real)

  /** An execution against the resting orders of one side. */
  datatype Fill = Fill(side: int, price: real, qty: real)

  /** The cash a fill books into pnl for each resting order it matches. */
  function PnlChange(fill: Fill): real
  {
    fill.side as real * fill.price * fill.qty
  }

  /** The list with the entry at index `i` taken out. */
  function RemoveAt(l: seq<Position>, i: nat): (r: seq<Position>)
    requires i < |l|
    ensures |r| == |l| - 1
    ensures forall j :: 0 <= j < i ==> r[j] == l[j]
    ensures forall j :: i <= j < |r| ==> r[j] == l[j + 1]
  {
    l[..i] + l[i + 1..]
  }

  // ---------------------------------------------------------------------
  // Reference descriptions on the original list
  // ---------------------------------------------------------------------

  /** The entries of `l` at any price other than `price`, in order. */
  function OtherPrices(l: seq<Position>, price: real): seq<Position>
  {
    if l == [] then []
    else if l[0].price == price then OtherPrices(l[1..], price)
    else [l[0]] + OtherPrices(l[1..], price)
  }

  /** Two consecutive entries of `l` both rest at `price`. */
  predicate AdjacentAtPrice(l: seq<Position>, price: real)
  {
    exists j :: 0 <= j < |l| - 1 && l[j].price == price && l[j + 1].price == price
  }

  /** Every entry rests with a positive quantity. */
  predicate AllPositive(l: seq<Position>)
  {
    forall j :: 0 <= j < |l| ==> l[j].qty > 0.0
  }

  /**
   * What `remove_by_price` leaves, read off the original list: an entry at
   * the price is dropped, and the entry right after a dropped one is kept
   * unvisited (`skip`), whatever its price.
   */
  function Survivors(l: seq<Position>, price: real, skip: bool): seq<Position>
  {
    if l == [] then []
    else if skip then [l[0]] + Survivors(l[1..], price, false)
    else if l[0].price == price then Survivors(l[1..], price, true)
    else [l[0]] + Survivors(l[1..], price, false)
  }

  /**
   * What `_update_position` leaves, read off the original list: a visited
   * entry at the fill's price is reduced by the fill's quantity when it holds
   * more than that and dropped otherwise, and the entry right after a
   * dropped one is kept unvisited.
   */
  function Settled(l: seq<Position>, fill: Fill, skip: bool): seq<Position>
  {
    if l == [] then []
    else if skip || l[0].price != fill.price then [l[0]] + Settled(l[1..], fill, false)
    else if l[0].qty > fill.qty then [l[0].(qty := l[0].qty - fill.qty)] + Settled(l[1..], fill, false)
    else Settled(l[1..], fill, true)
  }

  /** How many entries `_update_position` visits at the fill's price. */
  function Visits(l: seq<Position>, fill: Fill, skip: bool): nat
  {
    if l == [] then 0
    else if skip || l[0].price != fill.price then Visits(l[1..], fill, false)
    else Visits(l[1..], fill, l[0].qty <= fill.qty) + 1
  }

  /** The pnl `_update_position` books: one `PnlChange` per visited match. */
  function Gain(l: seq<Position>, fill: Fill, skip: bool): real
  {
    if l == [] then 0.0
    else if skip || l[0].price != fill.price then Gain(l[1..], fill, false)
    else Gain(l[1..], fill, l[0].qty <= fill.qty) + PnlChange(fill)
  }

  // ---------------------------------------------------------------------
  // The loops as the iterator runs them
  // ---------------------------------------------------------------------

  /** `remove_by_price` from iterator index `i` on. */
  function RemovingFrom(l: seq<Position>, i: nat, price: real): seq<Position>
    decreases |l| - i
  {
    if i >= |l| then l
    else if l[i].price == price then RemovingFrom(RemoveAt(l, i), i + 1, price)
    else RemovingFrom(l, i + 1, price)
  }

  /** `_update_position` from iterator index `i` on: the list and the pnl booked. */
  function Updating(l: seq<Position>, i: nat, fill: Fill): (seq<Position>, real)
    decreases |l| - i
  {
    if i >= |l| then (l, 0.0)
    else if l[i].price != fill.price then Updating(l, i + 1, fill)
    else if l[i].qty > fill.qty then
      var u := Updating(l[i := l[i].(qty := l[i].qty - fill.qty)], i + 1, fill);
      (u.0, u.1 + PnlChange(fill))
    else
      var u := Updating(RemoveAt(l, i), i + 1, fill);
      (u.0, u.1 + PnlChange(fill))
  }

  /** The iterator's run of `remove_by_price` is the `Survivors` of the list. */
  lemma {:induction false} RemovingFromMeaning(l: seq<Position>, i: nat, price: real)
    requires i <= |l|
    ensures RemovingFrom(l, i, price) == l[..i] + Survivors(l[i..], price, false)
    decreases |l| - i
  {
    if i == |l| {
      assert l[i..] == [];
    } else if l[i].price == price {
      var l' := RemoveAt(l, i);
      assert l[i..][1..] == l[i + 1..];
      if i + 1 == |l| {
        assert l[i + 1..] == [];
        assert l' == l[..i];
      } else {
        RemovingFromMeaning(l', i + 1, price);
        assert l'[..i + 1] == l[..i] + [l[i + 1]];
        assert l'[i + 1..] == l[i + 2..];
        assert l[i + 1..][1..] == l[i + 2..];
      }
    } else {
      RemovingFromMeaning(l, i + 1, price);
      assert l[..i + 1] == l[..i] + [l[i]];
      assert l[i..][1..] == l[i + 1..];
    }
  }

  /** The iterator's run of `_update_position` is `Settled`, booking `Gain`. */
  lemma {:induction false} UpdatingMeaning(l: seq<Position>, i: nat, fill: Fill)
    requires i <= |l|
    ensures Updating(l, i, fill).0 == l[..i] + Settled(l[i..], fill, false)
    ensures Updating(l, i, fill).1 == Gain(l[i..], fill, false)
    decreases |l| - i
  {
    if i == |l| {
      assert l[i..] == [] && l[..i] == l;
      assert Settled([], fill, false) == [] && Gain([], fill, false) == 0.0;
    } else if l[i].price != fill.price {
      UpdatingMeaning(l, i + 1, fill);
      assert l[..i + 1] == l[..i] + [l[i]];
      assert l[i..][1..] == l[i + 1..];
      var rest := Settled(l[i + 1..], fill, false);
      assert Settled(l[i..], fill, false) == [l[i]] + rest;
      assert l[..i + 1] + rest == l[..i] + ([l[i]] + rest);
      assert Gain(l[i..], fill, false) == Gain(l[i + 1..], fill, false);
    } else if l[i].qty > fill.qty {
      var l' := l[i := l[i].(qty := l[i].qty - fill.qty)];
      UpdatingMeaning(l', i + 1, fill);
      var rest := Settled(l[i + 1..], fill, false);
      assert l'[i + 1..] == l[i + 1..] == l[i..][1..];
      assert Settled(l[i..], fill, false) == [l'[i]] + rest;
      assert l'[..i + 1] + rest == l[..i] + ([l'[i]] + rest);
    } else {
      var l' := RemoveAt(l, i);
      assert l[i..][1..] == l[i + 1..];
      if i + 1 == |l| {
        assert l[i + 1..] == [];
        assert l' == l[..i];
      } else {
        UpdatingMeaning(l', i + 1, fill);
        assert l'[..i + 1] == l[..i] + [l[i + 1]];
        assert l'[i + 1..] == l[i + 2..];
        assert l[i + 1..][1..] == l[i + 2..];
        var rest := Settled(l[i + 2..], fill, false);
        assert Settled(l[i..], fill, false) == Settled(l[i + 1..], fill, true) == [l[i + 1]] + rest;
        assert l'[..i + 1] + rest == l[..i] + ([l[i + 1]] + rest);
        assert Gain(l[i..], fill, false) == Gain(l[i + 1..], fill, true) + PnlChange(fill);
        assert Gain(l[i + 1..], fill, true) == Gain(l[i + 2..], fill, false);
      }
    }
  }

  // ---------------------------------------------------------------------
  // What the outcomes are
  // ---------------------------------------------------------------------

  /** `remove_by_price` never touches an entry at another price, nor its order. */
  lemma {:induction false} SurvivorsKeepOtherPrices(l: seq<Position>, price: real, skip: bool)
    ensures OtherPrices(Survivors(l, price, skip), price) == OtherPrices(l, price)
  {
    if l != [] {
      SurvivorsKeepOtherPrices(l[1..], price, if skip then false else l[0].price == price);
      var rest := Survivors(l[1..], price, if skip then false else l[0].price == price);
      if skip || l[0].price != price {
        assert ([l[0]] + rest)[1..] == rest;
      }
    }
  }

  /** `remove_by_price` only drops entries of the list, and only entries at the price. */
  lemma {:induction false} SurvivorsDropOnlyThePrice(l: seq<Position>, price: real, skip: bool)
    ensures multiset(Survivors(l, price, skip)) <= multiset(l)
    ensures forall x :: x in multiset(l) - multiset(Survivors(l, price, skip)) ==> x.price == price
  {
    if l != [] {
      SurvivorsDropOnlyThePrice(l[1..], price, if skip then false else l[0].price == price);
      assert l == [l[0]] + l[1..];
      assert multiset(l) == multiset{l[0]} + multiset(l[1..]);
    }
  }

  /** With no two consecutive entries at the price, the survivors are exactly the other prices. */
  lemma {:induction false} SurvivorsWithoutAdjacent(l: seq<Position>, price: real)
    requires !AdjacentAtPrice(l, price)
    ensures Survivors(l, price, false) == OtherPrices(l, price)
  {
    if l != [] {
      var tail := l[1..];
      assert !AdjacentAtPrice(tail, price) by {
        forall j | 0 <= j < |tail| - 1 && tail[j].price == price
          ensures tail[j + 1].price != price
        {
          assert l[j + 1] == tail[j] && l[j + 2] == tail[j + 1];
        }
      }
      if l[0].price != price {
        SurvivorsWithoutAdjacent(tail, price);
      } else if |l| > 1 {
        assert l[1].price != price;
        var rest := l[2..];
        assert tail[1..] == rest;
        assert !AdjacentAtPrice(rest, price) by {
          forall j | 0 <= j < |rest| - 1 && rest[j].price == price
            ensures rest[j + 1].price != price
          {
            assert l[j + 2] == rest[j] && l[j + 3] == rest[j + 1];
          }
        }
        SurvivorsWithoutAdjacent(rest, price);
      }
    }
  }

  /** Two consecutive entries at the price leave one of them behind. */
  lemma {:induction false} SurvivorsWithAdjacent(l: seq<Position>, price: real, j: nat)
    requires j < |l| - 1 && l[j].price == price && l[j + 1].price == price
    ensures exists x :: x in Survivors(l, price, false) && x.price == price
  {
    var tail := l[1..];
    if j == 0 {
      assert tail[0] == l[1];
      assert Survivors(l, price, false) == [l[1]] + Survivors(tail[1..], price, false);
    } else if l[0].price != price {
      assert tail[j - 1] == l[j] && tail[j] == l[j + 1];
      SurvivorsWithAdjacent(tail, price, j - 1);
      var x :| x in Survivors(tail, price, false) && x.price == price;
      assert x in Survivors(l, price, false);
    } else {
      // l[1] cannot be at the price too, or j would be 0's neighbour case
      // again; the run restarts after the kept l[1].
      if l[1].price == price {
        SurvivorsWithAdjacent(l, price, 0);
      } else {
        var rest := l[2..];
        assert j >= 2;
        assert rest[j - 2] == l[j] && rest[j - 1] == l[j + 1];
        SurvivorsWithAdjacent(rest, price, j - 2);
        var x :| x in Survivors(rest, price, false) && x.price == price;
        assert tail[1..] == rest;
        assert Survivors(l, price, false) == [l[1]] + Survivors(rest, price, false);
        assert x in Survivors(l, price, false);
      }
    }
  }

  /** No entry of `OtherPrices` rests at the price. */
  lemma {:induction false} OtherPricesHaveNone(l: seq<Position>, price: real)
    ensures forall x :: x in OtherPrices(l, price) ==> x.price != price
  {
    if l != [] {
      OtherPricesHaveNone(l[1..], price);
    }
  }

  /**
   * `remove_by_price` removes every entry at the price exactly when no two
   * consecutive entries rest at it.
   */
  lemma RemoveByPriceComplete(l: seq<Position>, price: real)
    ensures Survivors(l, price, false) == OtherPrices(l, price) <==> !AdjacentAtPrice(l, price)
  {
    if AdjacentAtPrice(l, price) {
      var j :| 0 <= j < |l| - 1 && l[j].price == price && l[j + 1].price == price;
      SurvivorsWithAdjacent(l, price, j);
      OtherPricesHaveNone(l, price);
    } else {
      SurvivorsWithoutAdjacent(l, price);
    }
  }

  /** Two buy orders resting at 98: removing the price leaves the second. */
  lemma RemoveByPriceLeavesNeighbour()
    ensures var l := [Position(BUY, 98.0, 9.0), Position(BUY, 98.0, 1.0)];
            RemovingFrom(l, 0, 98.0) == [Position(BUY, 98.0, 1.0)]
            && OtherPrices(l, 98.0) == []
  {
    var l := [Position(BUY, 98.0, 9.0), Position(BUY, 98.0, 1.0)];
    assert RemoveAt(l, 0) == [Position(BUY, 98.0, 1.0)];
    assert l[1..] == [Position(BUY, 98.0, 1.0)] && l[1..][1..] == [];
    assert OtherPrices(l[1..], 98.0) == OtherPrices([], 98.0) == [];
  }

  /** The other prices keep their entries, unchanged and in order, through a fill. */
  lemma {:induction false} SettledKeepsOtherPrices(l: seq<Position>, fill: Fill, skip: bool)
    ensures OtherPrices(Settled(l, fill, skip), fill.price) == OtherPrices(l, fill.price)
  {
    if l != [] {
      var next := !skip && l[0].price == fill.price && l[0].qty <= fill.qty;
      SettledKeepsOtherPrices(l[1..], fill, next);
      var rest := Settled(l[1..], fill, next);
      if skip || l[0].price != fill.price {
        assert ([l[0]] + rest)[1..] == rest;
      } else if l[0].qty > fill.qty {
        assert ([l[0].(qty := l[0].qty - fill.qty)] + rest)[1..] == rest;
      }
    }
  }

  /** A fill never leaves an order resting with a quantity that is not positive. */
  lemma {:induction false} SettledStaysPositive(l: seq<Position>, fill: Fill, skip: bool)
    requires AllPositive(l)
    ensures AllPositive(Settled(l, fill, skip))
  {
    if l != [] {
      var next := !skip && l[0].price == fill.price && l[0].qty <= fill.qty;
      assert AllPositive(l[1..]) by {
        forall j | 0 <= j < |l| - 1 ensures l[1..][j].qty > 0.0 {
          assert l[1..][j] == l[j + 1];
        }
      }
      SettledStaysPositive(l[1..], fill, next);
    }
  }

  /** A fill at a price nothing rests at changes neither the list nor the pnl. */
  lemma {:induction false} SettledWithoutMatch(l: seq<Position>, fill: Fill, skip: bool)
    requires forall j :: 0 <= j < |l| ==> l[j].price != fill.price
    ensures Settled(l, fill, skip) == l && Gain(l, fill, skip) == 0.0
  {
    if l != [] {
      assert forall j :: 0 <= j < |l| - 1 ==> l[1..][j] == l[j + 1];
      SettledWithoutMatch(l[1..], fill, false);
      assert l == [l[0]] + l[1..];
    }
  }

  /** The pnl booked is the fill's cash once per visited match. */
  lemma {:induction false} GainCountsVisits(l: seq<Position>, fill: Fill, skip: bool)
    ensures Gain(l, fill, skip) == Visits(l, fill, skip) as real * PnlChange(fill)
  {
    if l != [] {
      var next := !skip && l[0].price == fill.price && l[0].qty <= fill.qty;
      GainCountsVisits(l[1..], fill, next);
      Distribute(Visits(l[1..], fill, next) as real, PnlChange(fill));
    }
  }

  /** One more booking of `c` on top of `v` of them. */
  lemma Distribute(v: real, c: real)
    ensures (v + 1.0) * c == v * c + c
  {
  }

  /** A fill visits no more orders than rest at its price. */
  lemma {:induction false} VisitsBounded(l: seq<Position>, fill: Fill, skip: bool)
    ensures Visits(l, fill, skip) <= |l| - |OtherPrices(l, fill.price)|
  {
    if l != [] {
      var next := !skip && l[0].price == fill.price && l[0].qty <= fill.qty;
      VisitsBounded(l[1..], fill, next);
      OtherPricesShorter(l[1..], fill.price);
    }
  }

  /** `OtherPrices` keeps at most every entry. */
  lemma {:induction false} OtherPricesShorter(l: seq<Position>, price: real)
    ensures |OtherPrices(l, price)| <= |l|
  {
    if l != [] {
      OtherPricesShorter(l[1..], price);
    }
  }

  /** The buy-side sequence of backtester/test/test_market_making.py. */
  lemma RemoveByPriceExamples()
    ensures var p1, p2, p3 := Position(BUY, 99.0, 10.0), Position(BUY, 98.0, 9.0), Position(BUY, 97.0, 8.0);
            Survivors([p1, p2, p3], 98.0, false) == [p1, p3]
            && Survivors([p1, p3], 97.0, false) == [p1]
            && Survivors([p1], 99.0, false) == []
  {
    var p1, p2, p3 := Position(BUY, 99.0, 10.0), Position(BUY, 98.0, 9.0), Position(BUY, 97.0, 8.0);
    assert [p1, p2, p3][1..] == [p2, p3] && [p2, p3][1..] == [p3] && [p3][1..] == [];
    assert Survivors([p3], 98.0, false) == [p3];
    assert Survivors([p2, p3], 98.0, false) == Survivors([p3], 98.0, true) == [p3];
    assert [p1, p3][1..] == [p3];
    assert Survivors([p3], 97.0, false) == [];
    assert [p1][1..] == [];
  }

  // ---------------------------------------------------------------------
  // The order book
  // ---------------------------------------------------------------------

  class Positions {
    var buyPositions: seq<Position>
    var sellPositions: seq<Position>
    var pnl: real

    constructor()
      ensures buyPositions == [] && sellPositions == [] && pnl == 0.0
    {
      buyPositions := [];
      sellPositions := [];
      pnl := 0.0;
    }

    /** Books a resting order on its side; an order of no known side is ignored. */
    method AddPosition(position: Position)
      modifies this
      ensures buyPositions == old(buyPositions) + (if position.side == BUY then [position] else [])
      ensures sellPositions == old(sellPositions) + (if position.side == SELL then [position] else [])
      ensures pnl == old(pnl)
    {
      if position.side == BUY {
        buyPositions := buyPositions + [position];
      } else if position.side == SELL {
        sellPositions := sellPositions + [position];
      }
    }

    /** Takes the orders at the position's price off its side's list. */
    method RemovePosition(position: Position)
      modifies this
      ensures buyPositions == if position.side == BUY then Survivors(old(buyPositions), position.price, false) else old(buyPositions)
      ensures sellPositions == if position.side == SELL then Survivors(old(sellPositions), position.price, false) else old(sellPositions)
      ensures pnl == old(pnl)
    {
      if position.side == BUY {
        buyPositions := RemoveByPrice(buyPositions, price := position.price);
      } else if position.side == SELL {
        sellPositions := RemoveByPrice(sellPositions, price := position.price);
      }
    }

    /** The source's loop: drops each visited entry at the price, the iterator running on past it. */
    static method RemoveByPrice(positions: seq<Position>, price: real) returns (kept: seq<Position>)
      ensures kept == Survivors(positions, price, false)
    {
      kept := positions;
      var i := 0;
      while i < |kept|
        invariant RemovingFrom(kept, i, price) == RemovingFrom(positions, 0, price)
        decreases |kept| - i
      {
        var position := kept[i];
        i := i + 1;
        if position.price == price {
          kept := RemoveAt(kept, i - 1);
        }
      }
      RemovingFromMeaning(positions, 0, price);
    }

    /** The evident intent of `RemoveByPrice`: the iterator stays on the slot it just emptied. */
    static method RemoveAllByPrice(positions: seq<Position>, price: real) returns (kept: seq<Position>)
      ensures kept == OtherPrices(positions, price)
      ensures forall x :: x in kept ==> x.price != price
    {
      kept := [];
      var i := 0;
      while i < |positions|
        invariant i <= |positions|
        invariant kept + OtherPrices(positions[i..], price) == OtherPrices(positions, price)
      {
        assert positions[i..][1..] == positions[i + 1..];
        if positions[i].price != price {
          kept := kept + [positions[i]];
        }
        i := i + 1;
      }
      assert positions[i..] == [];
      OtherPricesHaveNone(positions, price);
    }

    /** Settles a fill against its side's orders; a fill of no known side is ignored. */
    method ProcessFill(fill: Fill)
      modifies this
      ensures buyPositions == if fill.side == BUY then Settled(old(buyPositions), fill, false) else old(buyPositions)
      ensures sellPositions == if fill.side == SELL then Settled(old(sellPositions), fill, false) else old(sellPositions)
      ensures pnl == old(pnl) + if fill.side == BUY then Gain(old(buyPositions), fill, false)
                               else if fill.side == SELL then Gain(old(sellPositions), fill, false)
                               else 0.0
    {
      if fill.side == BUY {
        buyPositions := UpdatePosition(buyPositions, fill);
      } else if fill.side == SELL {
        sellPositions := UpdatePosition(sellPositions, fill);
      }
    }

    /**
     * The source's `_update_position` loop over one side's list: a visited
     * entry at the fill's price is reduced or dropped, and each one books the
     * fill into pnl.  The list is returned; the caller stores it back.
     */
    method UpdatePosition(positions: seq<Position>, fill: Fill) returns (updated: seq<Position>)
      modifies this
      ensures updated == Settled(positions, fill, false)
      ensures pnl == old(pnl) + Gain(positions, fill, false)
      ensures buyPositions == old(buyPositions) && sellPositions == old(sellPositions)
    {
      UpdatingMeaning(positions, 0, fill);
      updated := positions;
      var i := 0;
      while i < |updated|
        invariant Updating(updated, i, fill).0 == Updating(positions, 0, fill).0
        invariant pnl + Updating(updated, i, fill).1 == old(pnl) + Updating(positions, 0, fill).1
        invariant buyPositions == old(buyPositions) && sellPositions == old(sellPositions)
        decreases |updated| - i
      {
        var position := updated[i];
        i := i + 1;
        if position.price == fill.price {
          if position.qty > fill.qty {
            updated := updated[i - 1 := position.(qty := position.qty - fill.qty)];
          } else {
            updated := RemoveAt(updated, i - 1);
          }
          UpdatePnl(fill);
        }
      }
    }

    /** Books one fill's cash, `side * price * qty`, into pnl. */
    method UpdatePnl(fill: Fill)
      modifies this
      ensures pnl == old(pnl) + PnlChange(fill)
      ensures buyPositions == old(buyPositions) && sellPositions == old(sellPositions)
    {
      pnl := pnl + fill.side as real * fill.price * fill.qty;
    }
  }

  /**
   * The buy-side scenario of backtester/test/test_market_making.py run on the
   * order book: three bids booked, then taken off one price at a time.
   */
  method BuySideScenario() returns (afterFirst: seq<Position>, afterAll: seq<Position>)
    ensures afterFirst == [Position(BUY, 99.0, 10.0), Position(BUY, 97.0, 8.0)]
    ensures afterAll == []
  {
    var p1, p2, p3 := Position(BUY, 99.0, 10.0), Position(BUY, 98.0, 9.0), Position(BUY, 97.0, 8.0);
    var positions := new Positions();
    positions.AddPosition(p1);
    positions.AddPosition(p2);
    positions.AddPosition(p3);
    assert positions.buyPositions == [p1, p2, p3];
    RemoveByPriceExamples();
    positions.RemovePosition(Position(BUY, 98.0, 9.0));
    afterFirst := positions.buyPositions;
    positions.RemovePosition(Position(BUY, 97.0, 8.0));
    positions.RemovePosition(Position(BUY, 99.0, 10.0));
    afterAll := positions.buyPositions;
  }
}
