/** The relative-strength-index strategy: once more than `window_size`
    prices have been seen, compute the RSI of the last `window_size + 1` of
    them; at or above `overbought` sell `trading_proportion` of the shares, at
    or below `oversold` spend that proportion of the cash. The rule looks at
    the level only, so it trades on every step the RSI stays beyond a
    threshold. Before that the RSI is recorded as 50 and nothing is traded. */
module Rsi {
  import opened Series
  import opened AlgorithmClass

  /** The positive part of a price change. */
  function Gain(change: real): real {
    if change > 0.0 then change else 0.0
  }

  /** The negated non-positive part of a price change. */
  function Loss(change: real): real {
    if change > 0.0 then 0.0 else -change
  }

  /** The summed rises between successive prices of the window. */
  function Gains(window: seq<real>): (r: real)
    ensures r >= 0.0
    decreases |window|
  {
    if |window| < 2 then 0.0
    else Gains(window[..|window| - 1]) + Gain(window[|window| - 1] - window[|window| - 2])
  }

  /** The summed falls between successive prices of the window. */
  function Losses(window: seq<real>): (r: real)
    ensures r >= 0.0
    decreases |window|
  {
    if |window| < 2 then 0.0
    else Losses(window[..|window| - 1]) + Loss(window[|window| - 1] - window[|window| - 2])
  }

  /** The rises minus the falls telescope to the net change over the window. */
  lemma {:induction false} GainsMinusLosses(window: seq<real>)
    requires |window| >= 1
    ensures Gains(window) - Losses(window) == Last(window) - window[0]
    decreases |window|
  {
    if |window| >= 2 {
      var init := window[..|window| - 1];
      GainsMinusLosses(init);
      assert Last(init) == window[|window| - 2] && init[0] == window[0];
    }
  }

  /** `Gains` and `Losses` of a window, computed by the loop over its successive pairs. */
  method GainsAndLosses(window: seq<real>) returns (gains: real, losses: real)
    ensures gains == Gains(window) && losses == Losses(window)
  {
    gains := 0.0;
    losses := 0.0;
    if |window| < 2 {
      return;
    }
    for i := 1 to |window|
      invariant gains == Gains(window[..i]) && losses == Losses(window[..i])
    {
      assert window[..i + 1][..i] == window[..i];
      var change := window[i] - window[i - 1];
      if change > 0.0 {
        gains := gains + change;
      } else {
        losses := losses + -change;
      }
    }
    assert window[..|window|] == window;
  }

  /** `100 / d` for `d >= 1` lies in (0, 100] and is below 50 exactly when `d > 2`. */
  lemma HundredOver(d: real)
    requires d >= 1.0
    ensures 0.0 < 100.0 / d <= 100.0
    ensures 100.0 / d < 50.0 <==> d > 2.0
    ensures 100.0 / d == 50.0 <==> d == 2.0
  {
    var q := 100.0 / d;
    assert q * d == 100.0;
    if d > 2.0 {
      assert q * 2.0 < q * d;
    } else if d < 2.0 {
      assert q * d < q * 2.0;
    }
  }

  /** The index from two non-negative averages: 50 when both are zero, 100 when
      only the loss is, otherwise `100 - 100 / (1 + gain / loss)`. It is
      always in [0, 100], above 50 exactly when the gain exceeds the loss and
      equal to 50 exactly when they are equal. */
  function RsiValue(avgGain: real, avgLoss: real): (r: real)
    requires avgGain >= 0.0 && avgLoss >= 0.0
    ensures 0.0 <= r <= 100.0
    ensures r > 50.0 <==> avgGain > avgLoss
    ensures r == 50.0 <==> avgGain == avgLoss
  {
    if avgLoss == 0.0 && avgGain == 0.0 then 50.0
    else if avgLoss == 0.0 then 100.0
    else
      var rs := avgGain / avgLoss;
      DivOrder(avgGain, avgLoss, avgLoss);
      assert avgLoss / avgLoss == 1.0;
      var q := 100.0 / (1.0 + rs);
      HundredOver(1.0 + rs);
      100.0 - q
  }

  /** The RSI recorded after the prices `seen`: 50 during the warm-up, then
      the index of the last `window_size + 1` prices. */
  function RsiAfter(seen: seq<real>, windowSize: int): real
    requires windowSize >= 1
  {
    if |seen| <= windowSize then 50.0
    else
      var window := Suffix(seen, windowSize + 1);
      RsiValue(Gains(window) / windowSize as real, Losses(window) / windowSize as real)
  }

  /** After the warm-up the RSI is above 50 exactly when the price rose over
      the last `window_size` steps, and 50 exactly when it ended where it
      started. */
  lemma RsiFollowsNetChange(seen: seq<real>, windowSize: int)
    requires windowSize >= 1 && |seen| > windowSize
    ensures RsiAfter(seen, windowSize) > 50.0 <==> Last(seen) > seen[|seen| - 1 - windowSize]
    ensures RsiAfter(seen, windowSize) == 50.0 <==> Last(seen) == seen[|seen| - 1 - windowSize]
  {
    var window := Suffix(seen, windowSize + 1);
    assert window[0] == seen[|seen| - 1 - windowSize] && Last(window) == Last(seen);
    GainsMinusLosses(window);
    DivOrder(Gains(window), Losses(window), windowSize as real);
  }

  /** The trade for a given RSI: sell at or above `overbought`, otherwise buy
      at or below `oversold`; the cash is spent even when a non-positive price
      means no shares are bought. */
  function RsiTrade(rsi: real, oversold: real, overbought: real, tradingProportion: real,
                    price: real, pos: Position): Position
  {
    if rsi >= overbought then
      var sellingAmount := pos.shares * tradingProportion;
      Position(pos.balance + sellingAmount * price, pos.shares - sellingAmount)
    else if rsi <= oversold then
      var buyingAmount := pos.balance * tradingProportion;
      Position(pos.balance - buyingAmount,
               if price > 0.0 then pos.shares + buyingAmount / price else pos.shares)
    else pos
  }

  /** The decision of one step, after the base step (`seen` ends with `price`). */
  function RsiStep(seen: seq<real>, windowSize: int, oversold: real, overbought: real,
                   tradingProportion: real, price: real, pos: Position): Position
    requires windowSize >= 1
  {
    if |seen| <= windowSize then pos
    else RsiTrade(RsiAfter(seen, windowSize), oversold, overbought, tradingProportion, price, pos)
  }

  /** A sale keeps `1 - trading_proportion` of the shares and adds the sold
      part at the price to the cash; a purchase keeps that fraction of the
      cash and, at a positive price only, buys shares with the rest; at a
      positive price both keep the worth; at a non-positive price a purchase
      loses the cash it spends. */
  lemma RsiTradeRule(rsi: real, oversold: real, overbought: real, tradingProportion: real,
                     price: real, pos: Position)
    ensures var next := RsiTrade(rsi, oversold, overbought, tradingProportion, price, pos);
      && (rsi >= overbought ==>
            && next.shares == pos.shares * (1.0 - tradingProportion)
            && next.balance == pos.balance + pos.shares * tradingProportion * price)
      && (oversold < rsi < overbought ==> next == pos)
      && (rsi < overbought && rsi <= oversold ==>
            && next.balance == pos.balance * (1.0 - tradingProportion)
            && next.shares == if price > 0.0 then pos.shares + pos.balance * tradingProportion / price
                              else pos.shares)
      && (price > 0.0 ==> Worth(next, price) == Worth(pos, price))
      && (price <= 0.0 && rsi < overbought && rsi <= oversold ==>
            Worth(next, price) == Worth(pos, price) - pos.balance * tradingProportion)
  {
    if price > 0.0 && rsi < overbought && rsi <= oversold {
      var buyingAmount := pos.balance * tradingProportion;
      assert (buyingAmount / price) * price == buyingAmount;
    }
  }

  /** With the thresholds on either side of 50, a sale follows a net rise over
      the window and a purchase a net fall. */
  lemma RsiTradesAgainstTrend(seen: seq<real>, windowSize: int, oversold: real, overbought: real)
    requires windowSize >= 1 && |seen| > windowSize
    requires oversold < 50.0 < overbought
    ensures RsiAfter(seen, windowSize) >= overbought ==> Last(seen) > seen[|seen| - 1 - windowSize]
    ensures RsiAfter(seen, windowSize) <= oversold ==> Last(seen) < seen[|seen| - 1 - windowSize]
  {
    RsiFollowsNetChange(seen, windowSize);
  }

  /** An RSI history with one entry per price, each the RSI after the prices up to it. */
  ghost predicate RsiAligned(history: seq<real>, seen: seq<real>, windowSize: int)
    requires windowSize >= 1
  {
    |history| == |seen| && forall i :: 0 <= i < |history| ==> history[i] == RsiAfter(seen[..i + 1], windowSize)
  }

  /** Appending the RSI after one more price keeps the history aligned. */
  lemma RsiAlignedExtend(history: seq<real>, seen: seq<real>, price: real, windowSize: int)
    requires windowSize >= 1 && RsiAligned(history, seen, windowSize)
    ensures RsiAligned(history + [RsiAfter(seen + [price], windowSize)], seen + [price], windowSize)
  {
    var all := seen + [price];
    var h := history + [RsiAfter(all, windowSize)];
    forall i | 0 <= i < |h|
      ensures h[i] == RsiAfter(all[..i + 1], windowSize)
    {
      if i < |seen| {
        assert all[..i + 1] == seen[..i + 1];
      } else {
        assert all[..i + 1] == all;
      }
    }
  }

  /** Every recorded position is the decision of the step at its price:
      position `k + 1` is `RsiStep` of the first `k + 1` prices and position `k`. */
  ghost predicate RsiTraded(seen: seq<real>, balances: seq<real>, shares: seq<real>, windowSize: int,
                            oversold: real, overbought: real, tradingProportion: real)
    requires windowSize >= 1
  {
    && |balances| == |seen| + 1 && |shares| == |seen| + 1
    && forall k :: 0 <= k < |seen| ==>
         Position(balances[k + 1], shares[k + 1])
         == RsiStep(seen[..k + 1], windowSize, oversold, overbought, tradingProportion, seen[k],
                    Position(balances[k], shares[k]))
  }

  /** Appending the decision of a step on the latest position extends the trajectory. */
  lemma RsiTradedExtend(seen: seq<real>, balances: seq<real>, shares: seq<real>, price: real, windowSize: int,
                        oversold: real, overbought: real, tradingProportion: real, next: Position)
    requires windowSize >= 1
    requires RsiTraded(seen, balances, shares, windowSize, oversold, overbought, tradingProportion)
    requires next == RsiStep(seen + [price], windowSize, oversold, overbought, tradingProportion, price,
                             Position(Last(balances), Last(shares)))
    ensures RsiTraded(seen + [price], balances + [next.balance], shares + [next.shares],
                      windowSize, oversold, overbought, tradingProportion)
  {
    var all, bs, ss := seen + [price], balances + [next.balance], shares + [next.shares];
    forall k | 0 <= k < |all|
      ensures Position(bs[k + 1], ss[k + 1])
              == RsiStep(all[..k + 1], windowSize, oversold, overbought, tradingProportion, all[k],
                         Position(bs[k], ss[k]))
    {
      if k < |seen| {
        assert all[..k + 1] == seen[..k + 1];
      } else {
        assert all[..k + 1] == all;
      }
    }
  }

  class RSIAlgorithm {
    const base: TradingAlgorithm
    const windowSize: int
    const oversold: real
    const overbought: real
    const tradingProportion: real
    var rsiHistory: seq<real>

    /** Between steps: the base is settled, there is one RSI per price seen,
        the RSI after the prices up to it, and every position is the
        decision of the step at its price. */
    ghost predicate Valid()
      reads this, base
    {
      && base.Settled() && windowSize >= 1
      && RsiAligned(rsiHistory, base.seenDataPoints, windowSize)
      && RsiTraded(base.seenDataPoints, base.balanceHistory, base.sharesHistory,
                   windowSize, oversold, overbought, tradingProportion)
    }

    /** A window size of 0 divides by zero in the source once a price is seen. */
    constructor (startingBalance: real, startingShares: real, windowSize: int := 14,
                 oversold: real := 30.0, overbought: real := 70.0, tradingProportion: real := 0.5)
      requires windowSize >= 1
      ensures Valid() && fresh(base)
      ensures base.seenDataPoints == [] && base.worthHistory == [] && base.currentIndex == 0
      ensures base.balanceHistory == [startingBalance] && base.sharesHistory == [startingShares]
      ensures this.windowSize == windowSize && this.oversold == oversold && this.overbought == overbought
      ensures this.tradingProportion == tradingProportion && rsiHistory == []
    {
      base := new TradingAlgorithm(startingBalance, startingShares);
      this.windowSize := windowSize;
      this.oversold := oversold;
      this.overbought := overbought;
      this.tradingProportion := tradingProportion;
      rsiHistory := [];
    }

    /** One step: the base step, the RSI appended, then the position `RsiStep` gives. */
    method GiveDataPoint(stockPrice: real)
      requires Valid()
      modifies this, base
      ensures Valid()
      ensures base.seenDataPoints == old(base.seenDataPoints) + [stockPrice]
      ensures base.currentIndex == old(base.currentIndex) + 1
      ensures base.worthHistory == if |old(base.seenDataPoints)| > 0
                                   then old(base.worthHistory) + [old(base.CurrentWorth(Last(base.seenDataPoints)))]
                                   else old(base.worthHistory)
      ensures rsiHistory == old(rsiHistory) + [RsiAfter(base.seenDataPoints, windowSize)]
      ensures var next := RsiStep(base.seenDataPoints, windowSize, oversold, overbought,
                                  tradingProportion, stockPrice, old(base.CurrentPosition()));
              base.balanceHistory == old(base.balanceHistory) + [next.balance]
              && base.sharesHistory == old(base.sharesHistory) + [next.shares]
    {
      ghost var oldSeen, oldBalances, oldShares := base.seenDataPoints, base.balanceHistory, base.sharesHistory;
      base.GiveDataPoint(stockPrice);
      assert base.Pending();
      RsiAlignedExtend(rsiHistory, oldSeen, stockPrice, windowSize);
      var rsi, next := DecideOnRsi(base.seenDataPoints, windowSize, oversold, overbought, tradingProportion,
                                   stockPrice, Position(base.CurrentBalance(), base.CurrentShares()));
      rsiHistory := rsiHistory + [rsi];
      base.AppendPosition(next.balance, next.shares);
      RsiTradedExtend(oldSeen, oldBalances, oldShares, stockPrice, windowSize, oversold, overbought,
                      tradingProportion, next);
      assert base.Settled();
    }
  }

  /** `RsiAfter` and `RsiStep`, computed by the decision half of a step: 50
      and no trade during the warm-up, otherwise the RSI of the last
      `window_size + 1` prices and its trade. */
  method DecideOnRsi(seen: seq<real>, windowSize: int, oversold: real, overbought: real,
                     tradingProportion: real, stockPrice: real, pos: Position)
    returns (rsi: real, next: Position)
    requires windowSize >= 1
    ensures rsi == RsiAfter(seen, windowSize)
    ensures next == RsiStep(seen, windowSize, oversold, overbought, tradingProportion, stockPrice, pos)
  {
    if |seen| <= windowSize {
      return 50.0, pos;
    }
    var window := Suffix(seen, windowSize + 1);
    rsi := RsiOfWindow(window, windowSize);
    next := TradeOnRsi(rsi, oversold, overbought, tradingProportion, stockPrice, pos);
  }

  /** `RsiValue` of a window's average gain and loss, computed in place: gains
      and losses over `window_size` steps, then the three cases. */
  method RsiOfWindow(window: seq<real>, windowSize: int) returns (rsi: real)
    requires windowSize >= 1
    ensures rsi == RsiValue(Gains(window) / windowSize as real, Losses(window) / windowSize as real)
  {
    var gains, losses := GainsAndLosses(window);
    var avgGain := gains / windowSize as real;
    var avgLoss := losses / windowSize as real;
    if avgLoss == 0.0 && avgGain == 0.0 {
      rsi := 50.0;
    } else if avgLoss == 0.0 {
      rsi := 100.0;
    } else {
      var rs := avgGain / avgLoss;
      rsi := 100.0 - (100.0 / (1.0 + rs));
    }
  }

  /** `RsiTrade`, computed in place by the trading half of a step after the warm-up. */
  method TradeOnRsi(rsi: real, oversold: real, overbought: real, tradingProportion: real,
                    stockPrice: real, pos: Position) returns (next: Position)
    ensures next == RsiTrade(rsi, oversold, overbought, tradingProportion, stockPrice, pos)
  {
    var currentBalance := pos.balance;
    var currentShares := pos.shares;
    if rsi >= overbought {
      var sellingAmount := currentShares * tradingProportion;
      currentShares := currentShares - sellingAmount;
      currentBalance := currentBalance + sellingAmount * stockPrice;
    } else if rsi <= oversold {
      var buyingAmount := currentBalance * tradingProportion;
      currentBalance := currentBalance - buyingAmount;
      if stockPrice > 0.0 {
        currentShares := currentShares + buyingAmount / stockPrice;
      }
    }
    next := Position(currentBalance, currentShares);
  }
}
