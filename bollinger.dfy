/** The Bollinger-band strategy: on every step compute the bands of the last
    `window_size` prices (fewer while fewer have been seen) and record them;
    once `window_size` prices have been seen, sell `trading_proportion` of the
    shares when the price is above the upper band and spend that proportion of
    the cash when it is below the lower band. */
module Bollinger {
  import opened Series
  import opened AlgorithmClass
  import opened Indicators

  /** The bands recorded after the prices `seen`: those of `seen[-window_size:]`,
      which is all of `seen` while it is shorter than the window (and always
      when the window size is 0). */
  function BandsAfter(seen: seq<real>, windowSize: nat, numStdDev: real, sqrt: real -> real): Bands
    requires |seen| > 0
  {
    BollingerBandsOf(Suffix(seen, windowSize), numStdDev, sqrt)
  }

  /** The trade against given bands. */
  function BollingerTrade(bands: Bands, tradingProportion: real, price: real, pos: Position): Position
    requires price != 0.0
  {
    if price > bands.upper then
      var sellingAmount := pos.shares * tradingProportion;
      Position(pos.balance + sellingAmount * price, pos.shares - sellingAmount)
    else if price < bands.lower then
      var buyingAmount := pos.balance * tradingProportion;
      Position(pos.balance - buyingAmount, pos.shares + buyingAmount / price)
    else pos
  }

  /** The decision of one step, after the base step (`seen` ends with `price`):
      hold while fewer than `window_size` prices have been seen. */
  function BollingerStep(seen: seq<real>, windowSize: nat, numStdDev: real, sqrt: real -> real,
                         tradingProportion: real, price: real, pos: Position): Position
    requires |seen| > 0 && price != 0.0
  {
    if |seen| < windowSize then pos
    else BollingerTrade(BandsAfter(seen, windowSize, numStdDev, sqrt), tradingProportion, price, pos)
  }

  /** Both trades exchange cash and shares at the current price. */
  lemma BollingerConservesWorth(bands: Bands, tradingProportion: real, price: real, pos: Position)
    requires price != 0.0
    ensures Worth(BollingerTrade(bands, tradingProportion, price, pos), price) == Worth(pos, price)
  {
    if price <= bands.upper && price < bands.lower {
      var buyingAmount := pos.balance * tradingProportion;
      assert (buyingAmount / price) * price == buyingAmount;
    }
  }

  /** Above the upper band `trading_proportion` of the shares is sold at the
      price; otherwise, below the lower band, that proportion of the cash buys
      shares at the price; between the bands nothing changes. The upper test
      comes first, so a price above the upper band sells even when the bands
      are crossed. (A position can change only outside the bands.) */
  lemma BollingerTradeRule(bands: Bands, tradingProportion: real, price: real, pos: Position)
    requires price != 0.0
    ensures var next := BollingerTrade(bands, tradingProportion, price, pos);
      && (price > bands.upper ==>
            && next.shares == pos.shares * (1.0 - tradingProportion)
            && next.balance == pos.balance + pos.shares * tradingProportion * price)
      && (price <= bands.upper && price < bands.lower ==>
            && next.balance == pos.balance * (1.0 - tradingProportion)
            && next.shares == pos.shares + pos.balance * tradingProportion / price)
      && (bands.lower <= price <= bands.upper ==> next == pos)
      && (next != pos ==> price > bands.upper || price < bands.lower)
  {
  }

  /** With `num_std_dev >= 0` a sale happens only at a price above the mean of
      the window and a purchase only at a price below it. */
  lemma BollingerTradesAcrossMean(seen: seq<real>, windowSize: nat, numStdDev: real, sqrt: real -> real,
                                  tradingProportion: real, price: real, pos: Position)
    requires |seen| > 0 && price != 0.0 && IsSqrt(sqrt) && numStdDev >= 0.0
    ensures var b := BandsAfter(seen, windowSize, numStdDev, sqrt);
            var m := Mean(Suffix(seen, windowSize));
      && (price > b.upper ==> price > m)
      && (price < b.lower ==> price < m)
  {
    var window := Suffix(seen, windowSize);
    BandsAroundMean(window, numStdDev, sqrt);
  }

  /** A window whose prices are all equal has a squared deviation of zero about that price. */
  lemma {:induction false} FlatSquaredDeviations(window: seq<real>, c: real)
    requires forall i :: 0 <= i < |window| ==> window[i] == c
    ensures SquaredDeviations(window, c) == 0.0
    decreases |window|
  {
    if window != [] {
      FlatSquaredDeviations(window[..|window| - 1], c);
    }
  }

  /** A window of one constant price has both bands at that price. */
  lemma FlatWindowBands(window: seq<real>, c: real, numStdDev: real, sqrt: real -> real)
    requires |window| > 0 && IsSqrt(sqrt)
    requires forall i :: 0 <= i < |window| ==> window[i] == c
    ensures BollingerBandsOf(window, numStdDev, sqrt) == Bands(c, c)
  {
    var n := |window| as real;
    SumConstant(window, c);
    assert Sum(window) / n == c;
    FlatSquaredDeviations(window, c);
    assert SquaredDeviations(window, c) / n == 0.0;
  }

  /** Once only one constant price has been seen, both bands sit at that
      price, so that price neither buys nor sells. */
  lemma FlatWindowHolds(seen: seq<real>, windowSize: nat, numStdDev: real, sqrt: real -> real,
                        tradingProportion: real, pos: Position)
    requires |seen| > 0 && IsSqrt(sqrt)
    requires forall i :: 0 <= i < |seen| ==> seen[i] == Last(seen)
    requires Last(seen) != 0.0
    ensures BandsAfter(seen, windowSize, numStdDev, sqrt) == Bands(Last(seen), Last(seen))
    ensures BollingerStep(seen, windowSize, numStdDev, sqrt, tradingProportion, Last(seen), pos) == pos
  {
    var window := Suffix(seen, windowSize);
    assert forall i :: 0 <= i < |window| ==> window[i] == seen[|seen| - |window| + i];
    FlatWindowBands(window, Last(seen), numStdDev, sqrt);
  }

  /** One pair of recorded bands per price, each the bands of the window ending at that price. */
  ghost predicate BandsAligned(upper: seq<real>, lower: seq<real>, seen: seq<real>,
                               windowSize: nat, numStdDev: real, sqrt: real -> real) {
    && |upper| == |seen| && |lower| == |seen|
    && forall i :: 0 <= i < |upper| ==>
         Bands(upper[i], lower[i]) == BandsAfter(seen[..i + 1], windowSize, numStdDev, sqrt)
  }

  /** Appending the bands of the newest window keeps the band histories aligned. */
  lemma BandsAlignedExtend(upper: seq<real>, lower: seq<real>, seen: seq<real>, price: real,
                           windowSize: nat, numStdDev: real, sqrt: real -> real)
    requires BandsAligned(upper, lower, seen, windowSize, numStdDev, sqrt)
    ensures var b := BandsAfter(seen + [price], windowSize, numStdDev, sqrt);
            BandsAligned(upper + [b.upper], lower + [b.lower], seen + [price], windowSize, numStdDev, sqrt)
  {
    var all := seen + [price];
    var b := BandsAfter(all, windowSize, numStdDev, sqrt);
    var up, low := upper + [b.upper], lower + [b.lower];
    forall i | 0 <= i < |up|
      ensures Bands(up[i], low[i]) == BandsAfter(all[..i + 1], windowSize, numStdDev, sqrt)
    {
      if i < |seen| {
        assert all[..i + 1] == seen[..i + 1];
      } else {
        assert all[..i + 1] == all;
      }
    }
  }

  /** Every recorded position is the decision of the step at its price:
      position `k + 1` is `BollingerStep` of the first `k + 1` prices and
      position `k`, at a non-zero price. */
  ghost predicate BollingerTraded(seen: seq<real>, balances: seq<real>, shares: seq<real>, windowSize: nat,
                                  numStdDev: real, sqrt: real -> real, tradingProportion: real) {
    && |balances| == |seen| + 1 && |shares| == |seen| + 1
    && forall k :: 0 <= k < |seen| ==>
         && seen[k] != 0.0
         && Position(balances[k + 1], shares[k + 1])
            == BollingerStep(seen[..k + 1], windowSize, numStdDev, sqrt, tradingProportion, seen[k],
                             Position(balances[k], shares[k]))
  }

  /** Appending the decision of a step on the latest position extends the trajectory. */
  lemma BollingerTradedExtend(seen: seq<real>, balances: seq<real>, shares: seq<real>, price: real,
                              windowSize: nat, numStdDev: real, sqrt: real -> real, tradingProportion: real,
                              next: Position)
    requires BollingerTraded(seen, balances, shares, windowSize, numStdDev, sqrt, tradingProportion)
    requires price != 0.0
    requires next == BollingerStep(seen + [price], windowSize, numStdDev, sqrt, tradingProportion, price,
                                   Position(Last(balances), Last(shares)))
    ensures BollingerTraded(seen + [price], balances + [next.balance], shares + [next.shares],
                            windowSize, numStdDev, sqrt, tradingProportion)
  {
    var all, bs, ss := seen + [price], balances + [next.balance], shares + [next.shares];
    forall k | 0 <= k < |all|
      ensures && all[k] != 0.0
              && Position(bs[k + 1], ss[k + 1])
                 == BollingerStep(all[..k + 1], windowSize, numStdDev, sqrt, tradingProportion, all[k],
                                  Position(bs[k], ss[k]))
    {
      if k < |seen| {
        assert all[..k + 1] == seen[..k + 1];
      } else {
        assert all[..k + 1] == all;
      }
    }
  }

  /** `BandsAfter`, computed by the band computation of a step: mean and
      population standard deviation of the last `window_size` prices, then mean
      plus and minus `num_std_dev` deviations. */
  method BandsOfWindow(seen: seq<real>, windowSize: nat, numStdDev: real, sqrt: real -> real)
    returns (bands: Bands)
    requires |seen| > 0
    ensures bands == BandsAfter(seen, windowSize, numStdDev, sqrt)
  {
    var window := Suffix(seen, windowSize);
    var mean := Sum(window) / |window| as real;
    var variance := SquaredDeviations(window, mean) / |window| as real;
    var stdDev := sqrt(variance);
    var upperBand := mean + numStdDev * stdDev;
    var lowerBand := mean - numStdDev * stdDev;
    bands := Bands(upperBand, lowerBand);
  }

  /** `BollingerStep`, computed in place by the trading half of a step, given
      the prices seen and the bands just recorded for them; the source's early
      return during the warm-up is the first branch. */
  method TradeOnBands(seen: seq<real>, windowSize: nat, numStdDev: real, sqrt: real -> real, bands: Bands,
                      tradingProportion: real, stockPrice: real, pos: Position) returns (next: Position)
    requires |seen| > 0 && stockPrice != 0.0 && bands == BandsAfter(seen, windowSize, numStdDev, sqrt)
    ensures next == BollingerStep(seen, windowSize, numStdDev, sqrt, tradingProportion, stockPrice, pos)
  {
    if |seen| < windowSize {
      return pos;
    }
    var currentBalance := pos.balance;
    var currentShares := pos.shares;
    if stockPrice > bands.upper {
      var sellingAmount := currentShares * tradingProportion;
      currentShares := currentShares - sellingAmount;
      currentBalance := currentBalance + sellingAmount * stockPrice;
    } else if stockPrice < bands.lower {
      var buyingAmount := currentBalance * tradingProportion;
      currentBalance := currentBalance - buyingAmount;
      currentShares := currentShares + buyingAmount / stockPrice;
    }
    next := Position(currentBalance, currentShares);
  }

  class BollingerBandsAlgorithm {
    const base: TradingAlgorithm
    const windowSize: nat
    const numStdDev: real
    const tradingProportion: real
    const sqrt: real -> real
    var upperBandHistory: seq<real>
    var lowerBandHistory: seq<real>

    /** Between steps: the base is settled, there is one pair of bands per
        price seen, the bands of the window ending at that price, and every
        position is the decision of the step at its price. */
    ghost predicate Valid()
      reads this, base
    {
      && base.Settled()
      && BandsAligned(upperBandHistory, lowerBandHistory, base.seenDataPoints, windowSize, numStdDev, sqrt)
      && BollingerTraded(base.seenDataPoints, base.balanceHistory, base.sharesHistory,
                         windowSize, numStdDev, sqrt, tradingProportion)
    }

    /** A negative window size would make the slice drop prices from the front
        and can leave it empty; it is excluded by the type. */
    constructor (startingBalance: real, startingShares: real, sqrt: real -> real, windowSize: nat := 20,
                 numStdDev: real := 2.0, tradingProportion: real := 0.5)
      requires IsSqrt(sqrt)
      ensures Valid() && fresh(base)
      ensures base.seenDataPoints == [] && base.worthHistory == [] && base.currentIndex == 0
      ensures base.balanceHistory == [startingBalance] && base.sharesHistory == [startingShares]
      ensures this.windowSize == windowSize && this.numStdDev == numStdDev
      ensures this.tradingProportion == tradingProportion && this.sqrt == sqrt
      ensures upperBandHistory == [] && lowerBandHistory == []
    {
      base := new TradingAlgorithm(startingBalance, startingShares);
      this.windowSize := windowSize;
      this.numStdDev := numStdDev;
      this.tradingProportion := tradingProportion;
      this.sqrt := sqrt;
      upperBandHistory := [];
      lowerBandHistory := [];
    }

    /** One step: the base step, the bands of the current window appended,
        then the position `BollingerStep` gives. */
    method GiveDataPoint(stockPrice: real)
      requires Valid() && stockPrice != 0.0
      modifies this, base
      ensures Valid()
      ensures base.seenDataPoints == old(base.seenDataPoints) + [stockPrice]
      ensures base.currentIndex == old(base.currentIndex) + 1
      ensures base.worthHistory == if |old(base.seenDataPoints)| > 0
                                   then old(base.worthHistory) + [old(base.CurrentWorth(Last(base.seenDataPoints)))]
                                   else old(base.worthHistory)
      ensures var b := BandsAfter(base.seenDataPoints, windowSize, numStdDev, sqrt);
              upperBandHistory == old(upperBandHistory) + [b.upper]
              && lowerBandHistory == old(lowerBandHistory) + [b.lower]
      ensures var next := BollingerStep(base.seenDataPoints, windowSize, numStdDev, sqrt,
                                        tradingProportion, stockPrice, old(base.CurrentPosition()));
              base.balanceHistory == old(base.balanceHistory) + [next.balance]
              && base.sharesHistory == old(base.sharesHistory) + [next.shares]
    {
      ghost var oldSeen, oldBalances, oldShares := base.seenDataPoints, base.balanceHistory, base.sharesHistory;
      base.GiveDataPoint(stockPrice);
      assert base.Pending();
      var bands := BandsOfWindow(base.seenDataPoints, windowSize, numStdDev, sqrt);
      BandsAlignedExtend(upperBandHistory, lowerBandHistory, oldSeen, stockPrice, windowSize, numStdDev, sqrt);
      upperBandHistory := upperBandHistory + [bands.upper];
      lowerBandHistory := lowerBandHistory + [bands.lower];

      var next := TradeOnBands(base.seenDataPoints, windowSize, numStdDev, sqrt, bands, tradingProportion,
                               stockPrice, Position(base.CurrentBalance(), base.CurrentShares()));
      base.AppendPosition(next.balance, next.shares);
      BollingerTradedExtend(oldSeen, oldBalances, oldShares, stockPrice, windowSize, numStdDev, sqrt,
                            tradingProportion, next);
      assert base.Settled();
    }
  }
}
