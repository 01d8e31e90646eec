/** The maximally greedy strategy: on every rise sell half the shares, on every
    fall spend half the cash; the proportion 0.5 is fixed in the code. */
module Greedy {
  import opened Series
  import opened AlgorithmClass

  /** The decision of one step: `last` is the price seen before, `price` the new one. */
  function GreedyTrade(last: real, price: real, pos: Position): Position
    requires price != 0.0
  {
    if last < price then
      Position(pos.balance + (pos.shares * 0.5) * price, pos.shares * 0.5)
    else if last > price then
      Position(pos.balance * 0.5, pos.shares + (pos.balance * 0.5) / price)
    else
      pos
  }

  /** Every greedy trade is an exchange at the current price: worth at that price is kept. */
  lemma GreedyConservesWorth(last: real, price: real, pos: Position)
    requires price != 0.0
    ensures Worth(GreedyTrade(last, price, pos), price) == Worth(pos, price)
  {
  }

  /** On a rise the shares are halved and the proceeds go to cash. */
  lemma GreedyOnRise(last: real, price: real, pos: Position)
    requires price != 0.0 && last < price
    ensures GreedyTrade(last, price, pos).shares == pos.shares / 2.0
    ensures GreedyTrade(last, price, pos).balance == pos.balance + (pos.shares / 2.0) * price
  {
  }

  /** On a fall the cash is halved and the half spent buys shares at the price. */
  lemma GreedyOnFall(last: real, price: real, pos: Position)
    requires price != 0.0 && last > price
    ensures GreedyTrade(last, price, pos).balance == pos.balance / 2.0
    ensures GreedyTrade(last, price, pos).shares == pos.shares + (pos.balance / 2.0) / price
  {
  }

  /** An unchanged price, and in particular the pre-seeded first price
      compared with itself, leaves the position alone. */
  lemma GreedyHoldsOnEqualPrice(price: real, pos: Position)
    requires price != 0.0
    ensures GreedyTrade(price, price, pos) == pos
  {
  }

  /** At positive prices a non-negative position stays non-negative. */
  lemma GreedyKeepsNonNegative(last: real, price: real, pos: Position)
    requires price > 0.0 && pos.balance >= 0.0 && pos.shares >= 0.0
    ensures GreedyTrade(last, price, pos).balance >= 0.0
    ensures GreedyTrade(last, price, pos).shares >= 0.0
  {
    if last > price {
      assert (pos.balance * 0.5) / price >= 0.0;
    }
  }

  class MaximallyGreedyAlgorithm {
    const base: TradingAlgorithm

    /** Because the first price is pushed twice (pre-seed, then the base step),
        a greedy instance that has seen anything has one price per position,
        and each worth entry is the position valued at the price it was paired
        with; every position is the greedy trade of the one before it. */
    ghost predicate Valid()
      reads this, base
    {
      && base.Valid()
      && NonZero(base.seenDataPoints)
      && (|base.seenDataPoints| == 0 ==>
            base.currentIndex == 0 && |base.balanceHistory| == 1 && base.worthHistory == [])
      && (|base.seenDataPoints| > 0 ==>
            && |base.seenDataPoints| >= 2
            && base.seenDataPoints[0] == base.seenDataPoints[1]
            && |base.balanceHistory| == |base.seenDataPoints|
            && base.currentIndex == |base.seenDataPoints| - 1
            && |base.worthHistory| == |base.seenDataPoints| - 1)
      && (forall j :: 0 <= j < |base.worthHistory| ==>
            base.worthHistory[j] == Worth(base.PositionAt(j), base.seenDataPoints[j]))
      && (forall k :: 1 <= k < |base.balanceHistory| ==>
            Position(base.balanceHistory[k], base.sharesHistory[k]) ==
              GreedyTrade(base.seenDataPoints[k - 1], base.seenDataPoints[k], base.PositionAt(k - 1)))
    }

    constructor (startingBalance: real, startingShares: real)
      ensures Valid() && fresh(base)
      ensures base.currentIndex == 0 && base.seenDataPoints == [] && base.worthHistory == []
      ensures base.balanceHistory == [startingBalance] && base.sharesHistory == [startingShares]
    {
      base := new TradingAlgorithm(startingBalance, startingShares);
    }

    method GiveDataPoint(stockPrice: real)
      requires Valid() && stockPrice != 0.0
      modifies base
      ensures Valid()
      ensures base.seenDataPoints == old(base.seenDataPoints) +
                (if |old(base.seenDataPoints)| == 0 then [stockPrice, stockPrice] else [stockPrice])
      ensures base.currentIndex == old(base.currentIndex) + 1
      ensures var last := if |old(base.seenDataPoints)| == 0 then stockPrice else old(Last(base.seenDataPoints));
              && base.worthHistory == old(base.worthHistory) + [old(base.CurrentWorth(last))]
              && var next := GreedyTrade(last, stockPrice, old(base.CurrentPosition()));
                 base.balanceHistory == old(base.balanceHistory) + [next.balance]
                 && base.sharesHistory == old(base.sharesHistory) + [next.shares]
    {
      if |base.seenDataPoints| == 0 {
        base.seenDataPoints := base.seenDataPoints + [stockPrice];
      }
      var lastDataPoint := base.seenDataPoints[|base.seenDataPoints| - 1];
      var pos := Position(base.CurrentBalance(), base.CurrentShares());
      base.GiveDataPoint(stockPrice);
      var next := TradeOnChange(lastDataPoint, stockPrice, pos);
      base.AppendPosition(next.balance, next.shares);
    }
  }

  /** `GreedyTrade`, computed in place by the decision half of a step: on a rise
      halve the shares and add the proceeds of the sold half to the cash, on a
      fall halve the cash and buy shares with the spent half. */
  method TradeOnChange(lastDataPoint: real, stockPrice: real, pos: Position) returns (next: Position)
    requires stockPrice != 0.0
    ensures next == GreedyTrade(lastDataPoint, stockPrice, pos)
  {
    var currentBalance, currentShares := pos.balance, pos.shares;
    if lastDataPoint < stockPrice {
      currentShares := currentShares * 0.5;
      currentBalance := currentBalance + currentShares * stockPrice;
    } else if lastDataPoint > stockPrice {
      currentBalance := currentBalance * 0.5;
      currentShares := currentShares + currentBalance / stockPrice;
    }
    next := Position(currentBalance, currentShares);
  }
}
