/** The random strategy: at every price a uniform draw from 1 to 3 decides
    between selling a proportion of the shares, spending a proportion of the
    cash and doing nothing. The draw is a parameter of each step here. */
module RandomChoice {
  import opened Series
  import opened AlgorithmClass

  /** The draw `randint(1, 3)` can produce. */
  predicate IsDraw(choice: int) {
    1 <= choice <= 3
  }

  /** The trade of one step: draw 1 sells `w` of the shares, draw 2 spends
      `w` of the cash, draw 3 holds. Only the buy divides by the price. */
  function RandomTrade(choice: int, w: real, price: real, pos: Position): Position
    requires IsDraw(choice) && (choice == 2 ==> price != 0.0)
  {
    if choice == 1 then
      var sellingAmount := pos.shares * w;
      Position(pos.balance + sellingAmount * price, pos.shares - sellingAmount)
    else if choice == 2 then
      var buyingAmount := pos.balance * w;
      Position(pos.balance - buyingAmount, pos.shares + buyingAmount / price)
    else
      pos
  }

  /** The three outcomes in closed form. */
  lemma RandomTradeRule(choice: int, w: real, price: real, pos: Position)
    requires IsDraw(choice) && (choice == 2 ==> price != 0.0)
    ensures var next := RandomTrade(choice, w, price, pos);
      && (choice == 1 ==> next.shares == pos.shares * (1.0 - w)
                           && next.balance == pos.balance + w * pos.shares * price)
      && (choice == 2 ==> next.balance == pos.balance * (1.0 - w)
                           && next.shares == pos.shares + w * pos.balance / price)
      && (choice == 3 ==> next == pos)
  {
  }

  /** Whatever the draw, the step is an exchange at the current price. */
  lemma RandomConservesWorth(choice: int, w: real, price: real, pos: Position)
    requires IsDraw(choice) && (choice == 2 ==> price != 0.0)
    ensures Worth(RandomTrade(choice, w, price, pos), price) == Worth(pos, price)
  {
    if choice == 2 {
      assert (pos.balance * w / price) * price == pos.balance * w;
    }
  }

  /** Trading a proportion between 0 and 1 at a positive price never makes a
      non-negative balance or share count negative. */
  lemma RandomKeepsNonNegative(choice: int, w: real, price: real, pos: Position)
    requires IsDraw(choice) && 0.0 <= w <= 1.0 && price > 0.0
    requires pos.balance >= 0.0 && pos.shares >= 0.0
    ensures RandomTrade(choice, w, price, pos).balance >= 0.0
    ensures RandomTrade(choice, w, price, pos).shares >= 0.0
  {
    if choice == 1 {
      SaleKeepsNonNegative(pos.balance, pos.shares, w, price);
    } else if choice == 2 {
      PurchaseKeepsNonNegative(pos.balance, pos.shares, w, price);
    }
  }

  /** Selling `w` of the shares at a positive price. */
  lemma SaleKeepsNonNegative(balance: real, shares: real, w: real, price: real)
    requires 0.0 <= w <= 1.0 && price > 0.0 && balance >= 0.0 && shares >= 0.0
    ensures balance + shares * w * price >= 0.0 && shares - shares * w >= 0.0
  {
    var sold := shares * w;
    ScaleByWeight(w, shares);
    assert 0.0 <= sold <= shares;
    MulMonotone(0.0, sold, price);
  }

  /** Spending `w` of the cash at a positive price. */
  lemma PurchaseKeepsNonNegative(balance: real, shares: real, w: real, price: real)
    requires 0.0 <= w <= 1.0 && price > 0.0 && balance >= 0.0 && shares >= 0.0
    ensures balance - balance * w >= 0.0 && shares + balance * w / price >= 0.0
  {
    var spent := balance * w;
    ScaleByWeight(w, balance);
    assert 0.0 <= spent <= balance;
    assert spent / price >= 0.0;
  }

  /** `RandomTrade`, computed in place by the `match` of one step on the drawn number. */
  method TradeOnDraw(choice: int, tradingProportion: real, stockPrice: real, pos: Position)
    returns (next: Position)
    requires IsDraw(choice) && (choice == 2 ==> stockPrice != 0.0)
    ensures next == RandomTrade(choice, tradingProportion, stockPrice, pos)
  {
    var currentBalance := pos.balance;
    var currentShares := pos.shares;
    match choice {
      case 1 =>
        var sellingAmount := currentShares * tradingProportion;
        currentShares := currentShares - sellingAmount;
        currentBalance := currentBalance + sellingAmount * stockPrice;
      case 2 =>
        var buyingAmount := currentBalance * tradingProportion;
        currentBalance := currentBalance - buyingAmount;
        currentShares := currentShares + buyingAmount / stockPrice;
      case _ =>
    }
    next := Position(currentBalance, currentShares);
  }

  class RandomChoiceAlgorithm {
    const base: TradingAlgorithm
    const tradingProportion: real
    /** The numbers drawn so far, one per price seen. */
    ghost var draws: seq<int>

    /** Between steps: the base is settled, one draw was made per price, and
        every position is the trade of the position before it under the draw
        made at that price. */
    ghost predicate Valid()
      reads this, base
    {
      && base.Settled()
      && |draws| == |base.seenDataPoints|
      && (forall k :: 0 <= k < |draws| ==> IsDraw(draws[k]))
      && (forall k :: 0 <= k < |draws| && draws[k] == 2 ==> base.seenDataPoints[k] != 0.0)
      && (forall k :: 0 <= k < |draws| ==>
            base.PositionAt(k + 1) ==
              RandomTrade(draws[k], tradingProportion, base.seenDataPoints[k], base.PositionAt(k)))
    }

    constructor (startingBalance: real, startingShares: real, tradingProportion: real := 0.3)
      ensures Valid() && fresh(base)
      ensures base.seenDataPoints == [] && base.worthHistory == [] && base.currentIndex == 0
      ensures base.balanceHistory == [startingBalance] && base.sharesHistory == [startingShares]
      ensures this.tradingProportion == tradingProportion
    {
      base := new TradingAlgorithm(startingBalance, startingShares);
      this.tradingProportion := tradingProportion;
      draws := [];
    }

    /** One step with the drawn number `choice`: the base step, then exactly
        one balance and one shares entry, whatever the draw. */
    method GiveDataPoint(stockPrice: real, choice: int)
      requires Valid() && IsDraw(choice) && (choice == 2 ==> stockPrice != 0.0)
      modifies this, base
      ensures Valid()
      ensures draws == old(draws) + [choice]
      ensures base.seenDataPoints == old(base.seenDataPoints) + [stockPrice]
      ensures base.currentIndex == old(base.currentIndex) + 1
      ensures base.worthHistory == if |old(base.seenDataPoints)| > 0
                                   then old(base.worthHistory) + [old(base.CurrentWorth(Last(base.seenDataPoints)))]
                                   else old(base.worthHistory)
      ensures var next := RandomTrade(choice, tradingProportion, stockPrice, old(base.CurrentPosition()));
              base.balanceHistory == old(base.balanceHistory) + [next.balance]
              && base.sharesHistory == old(base.sharesHistory) + [next.shares]
    {
      base.GiveDataPoint(stockPrice);
      assert base.Pending();
      var next := TradeOnDraw(choice, tradingProportion, stockPrice,
                              Position(base.CurrentBalance(), base.CurrentShares()));
      base.AppendPosition(next.balance, next.shares);
      draws := draws + [choice];
      assert base.Settled();
    }
  }

  /** Under the class invariant every recorded worth equals the position held
      before that step's trade valued at the same price: the random trades
      never change worth at the price they trade at. */
  lemma RandomHistoryKeepsWorth(a: RandomChoiceAlgorithm, j: int)
    requires a.Valid() && 0 <= j < |a.base.worthHistory|
    ensures a.base.worthHistory[j] == Worth(a.base.PositionAt(j), a.base.seenDataPoints[j])
  {
    RandomConservesWorth(a.draws[j], a.tradingProportion, a.base.seenDataPoints[j], a.base.PositionAt(j));
  }
}
