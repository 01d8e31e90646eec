/** The moving-average strategy: one incremental SMA per length, then a trade
    on the ordering of the newest SMA values, taken in the order of the lengths.
    In sell mode it sells everything when the values strictly increase from
    the shortest-listed length to the last one (short averages below long ones:
    a falling trend); in buy mode it spends `trading_proportion` of the cash
    when they strictly decrease. Each trade flips the mode. */
module SimpleMovingAverage {
  import opened Series
  import opened AlgorithmClass
  import opened Indicators

  /** Every consecutive pair is strictly increasing (vacuous below two values). */
  ghost predicate StrictlyIncreasing(values: seq<real>) {
    forall i :: 0 <= i < |values| - 1 ==> values[i] < values[i + 1]
  }

  /** Every consecutive pair is strictly decreasing (vacuous below two values). */
  ghost predicate StrictlyDecreasing(values: seq<real>) {
    forall i :: 0 <= i < |values| - 1 ==> values[i] > values[i + 1]
  }

  /** Every listed length has a non-empty history. */
  ghost predicate HasLatest(lengths: seq<int>, histories: map<int, seq<real>>) {
    forall i :: 0 <= i < |lengths| ==> lengths[i] in histories && |histories[lengths[i]]| > 0
  }

  /** The newest value of each history, in the order of the lengths. */
  ghost function LatestValues(lengths: seq<int>, histories: map<int, seq<real>>): (r: seq<real>)
    requires HasLatest(lengths, histories)
    ensures |r| == |lengths|
  {
    seq(|lengths|, i requires 0 <= i < |lengths| => Last(histories[lengths[i]]))
  }

  /** What those newest values denote: the window mean of each length over
      all prices seen, in the order of the lengths. */
  ghost function CurrentMeans(seen: seq<real>, lengths: seq<int>): (r: seq<real>)
    requires |seen| > 0 && ValidLengths(lengths)
    ensures |r| == |lengths|
  {
    seq(|lengths|, i requires 0 <= i < |lengths| => WindowMean(seen, lengths[i]))
  }

  /** `StrictlyIncreasing` of the newest values, computed by the sell-mode scan:
      true unless some pair of neighbouring lengths has the shorter-listed one's
      newest value at or above the next one's. */
  method ScanIncreasing(lengths: seq<int>, histories: map<int, seq<real>>) returns (willSell: bool)
    requires HasLatest(lengths, histories)
    ensures willSell <==> StrictlyIncreasing(LatestValues(lengths, histories))
  {
    ghost var values := LatestValues(lengths, histories);
    willSell := true;
    var i := 0;
    while i < |lengths| - 1
      invariant 0 <= i <= if |lengths| == 0 then 0 else |lengths| - 1
      invariant forall j :: 0 <= j < i ==> values[j] < values[j + 1]
    {
      var lowerLength := lengths[i];
      var higherLength := lengths[i + 1];
      if histories[lowerLength][|histories[lowerLength]| - 1] >= histories[higherLength][|histories[higherLength]| - 1] {
        assert values[i] >= values[i + 1];
        willSell := false;
        break;
      }
      i := i + 1;
    }
  }

  /** `StrictlyDecreasing` of the newest values, computed by the buy-mode scan:
      true unless some pair of neighbouring lengths has the shorter-listed one's
      newest value at or below the next one's. */
  method ScanDecreasing(lengths: seq<int>, histories: map<int, seq<real>>) returns (willBuy: bool)
    requires HasLatest(lengths, histories)
    ensures willBuy <==> StrictlyDecreasing(LatestValues(lengths, histories))
  {
    ghost var values := LatestValues(lengths, histories);
    willBuy := true;
    var i := 0;
    while i < |lengths| - 1
      invariant 0 <= i <= if |lengths| == 0 then 0 else |lengths| - 1
      invariant forall j :: 0 <= j < i ==> values[j] > values[j + 1]
    {
      var lowerLength := lengths[i];
      var higherLength := lengths[i + 1];
      if histories[lowerLength][|histories[lowerLength]| - 1] <= histories[higherLength][|histories[higherLength]| - 1] {
        assert values[i] <= values[i + 1];
        willBuy := false;
        break;
      }
      i := i + 1;
    }
  }

  /** The new position and the new mode. */
  datatype Decision = Decision(pos: Position, selling: bool)

  /** The decision of one step, given the mode, the newest SMA values and the price. */
  ghost function SmaDecision(selling: bool, values: seq<real>, tradingProportion: real,
                             price: real, pos: Position): Decision
    requires price != 0.0
  {
    if selling then
      if StrictlyIncreasing(values) then Decision(Position(pos.balance + pos.shares * price, 0.0), false)
      else Decision(pos, true)
    else
      if StrictlyDecreasing(values) then
        var buying := pos.balance * tradingProportion / price;
        Decision(Position(pos.balance - buying * price, pos.shares + buying), true)
      else Decision(pos, false)
  }

  /** The mode flips exactly when the ordering the mode looks for holds; a
      flip from selling sells every share, a flip from buying spends exactly
      `trading_proportion` of the cash on shares at the price; without a flip
      the position is kept. */
  lemma SmaDecisionRule(selling: bool, values: seq<real>, tradingProportion: real, price: real, pos: Position)
    requires price != 0.0
    ensures var d := SmaDecision(selling, values, tradingProportion, price, pos);
      && (d.selling != selling <==> if selling then StrictlyIncreasing(values) else StrictlyDecreasing(values))
      && (d.selling == selling ==> d.pos == pos)
      && (selling && !d.selling ==> d.pos == Position(pos.balance + pos.shares * price, 0.0))
      && (!selling && d.selling ==>
            d.pos.balance == pos.balance * (1.0 - tradingProportion)
            && d.pos.shares == pos.shares + pos.balance * tradingProportion / price)
  {
    if !selling && StrictlyDecreasing(values) {
      var buying := pos.balance * tradingProportion / price;
      assert buying * price == pos.balance * tradingProportion;
    }
  }

  /** Both trades exchange cash and shares at the current price. */
  lemma SmaDecisionConservesWorth(selling: bool, values: seq<real>, tradingProportion: real, price: real, pos: Position)
    requires price != 0.0
    ensures Worth(SmaDecision(selling, values, tradingProportion, price, pos).pos, price) == Worth(pos, price)
  {
    if !selling && StrictlyDecreasing(values) {
      var buying := pos.balance * tradingProportion / price;
      assert buying * price == pos.balance * tradingProportion;
    }
  }

  /** With a single length there is no pair to compare, so every step trades
      and the mode alternates. */
  lemma SingleLengthAlwaysTrades(selling: bool, values: seq<real>, tradingProportion: real, price: real, pos: Position)
    requires price != 0.0 && |values| <= 1
    ensures SmaDecision(selling, values, tradingProportion, price, pos).selling == !selling
  {
  }

  /** With two or more lengths the two orderings exclude each other. */
  lemma OrderingsExclusive(values: seq<real>)
    requires |values| >= 2
    ensures !(StrictlyIncreasing(values) && StrictlyDecreasing(values))
  {
    assert values[0] < values[1] || !StrictlyIncreasing(values);
  }

  /** One history per listed length and no other. */
  ghost predicate KeyedBy(histories: map<int, seq<real>>, lengths: seq<int>) {
    forall l :: l in histories <==> l in lengths
  }

  /** Every listed length's history holds one value per price seen, the
      window mean of the prices up to it. */
  ghost predicate AllAligned(histories: map<int, seq<real>>, seen: seq<real>, lengths: seq<int>) {
    && ValidLengths(lengths) && KeyedBy(histories, lengths)
    && forall i :: 0 <= i < |lengths| ==> SmaAligned(histories[lengths[i]], seen, lengths[i])
  }

  /** Every listed length's history in `after` is the one in `before` with
      the window mean of `seen` appended. */
  ghost predicate Averaged(before: map<int, seq<real>>, after: map<int, seq<real>>, seen: seq<real>,
                           lengths: seq<int>) {
    && ValidLengths(lengths) && |seen| > 0 && KeyedBy(before, lengths) && KeyedBy(after, lengths)
    && forall i :: 0 <= i < |lengths| ==>
         after[lengths[i]] == before[lengths[i]] + [WindowMean(seen, lengths[i])]
  }

  /** The loop at the start of each step: every length gets the value
      `SmaNext` appends, and nothing else in the dictionary changes. */
  method AdvanceAverages(lengths: seq<int>, histories: map<int, seq<real>>, seen: seq<real>)
    returns (updated: map<int, seq<real>>)
    requires ValidLengths(lengths) && |seen| >= 1
    requires KeyedBy(histories, lengths)
    requires forall j :: 0 <= j < |lengths| ==> |histories[lengths[j]]| == |seen| - 1
    ensures KeyedBy(updated, lengths)
    ensures forall j :: 0 <= j < |lengths| ==>
              updated[lengths[j]] == histories[lengths[j]] + [SmaNext(histories[lengths[j]], seen, lengths[j])]
  {
    var stockPrice := seen[|seen| - 1];
    updated := histories;
    for i := 0 to |lengths|
      invariant KeyedBy(updated, lengths)
      invariant forall j :: 0 <= j < i ==>
                  updated[lengths[j]] == histories[lengths[j]] + [SmaNext(histories[lengths[j]], seen, lengths[j])]
      invariant forall j :: i <= j < |lengths| ==> updated[lengths[j]] == histories[lengths[j]]
    {
      var length := lengths[i];
      var history := updated[length];
      if |history| <= length {
        var consideredHistory := Suffix(seen, length);
        var consideredLength := |consideredHistory|;
        updated := updated[length := history + [Sum(consideredHistory) / consideredLength as real]];
      } else {
        var newSma := history[|history| - 1] + (stockPrice - seen[|seen| - 1 - length]) / length as real;
        updated := updated[length := history + [newSma]];
      }
    }
  }

  /** After the loop every history is aligned with the prices including the
      newest, its new value is the window mean over them, and the newest
      values are the current means. */
  lemma AdvancedAligned(lengths: seq<int>, before: map<int, seq<real>>, after: map<int, seq<real>>,
                        oldSeen: seq<real>, price: real)
    requires ValidLengths(lengths) && KeyedBy(before, lengths) && KeyedBy(after, lengths)
    requires forall j :: 0 <= j < |lengths| ==>
               && SmaAligned(before[lengths[j]], oldSeen, lengths[j])
               && after[lengths[j]] == before[lengths[j]] + [SmaNext(before[lengths[j]], oldSeen + [price], lengths[j])]
    ensures AllAligned(after, oldSeen + [price], lengths)
    ensures Averaged(before, after, oldSeen + [price], lengths)
    ensures HasLatest(lengths, after)
    ensures LatestValues(lengths, after) == CurrentMeans(oldSeen + [price], lengths)
  {
    var seen := oldSeen + [price];
    assert seen[..|seen| - 1] == oldSeen;
    forall i | 0 <= i < |lengths|
      ensures SmaAligned(after[lengths[i]], seen, lengths[i])
      ensures after[lengths[i]] == before[lengths[i]] + [WindowMean(seen, lengths[i])]
    {
      SmaNextIsWindowMean(before[lengths[i]], seen, lengths[i]);
    }
  }

  /** `SmaDecision` on the newest values, computed in place by the trading half
      of a step: scan the newest values in the order of the lengths and, if the
      ordering the mode looks for holds, trade and flip. */
  method TradeOnAverages(selling: bool, lengths: seq<int>, histories: map<int, seq<real>>, ghost values: seq<real>,
                         tradingProportion: real, stockPrice: real, pos: Position) returns (d: Decision)
    requires HasLatest(lengths, histories) && stockPrice != 0.0 && values == LatestValues(lengths, histories)
    ensures d == SmaDecision(selling, values, tradingProportion, stockPrice, pos)
  {
    var currentBalance := pos.balance;
    var currentShares := pos.shares;
    var nowSelling := selling;
    if selling {
      var willSell := ScanIncreasing(lengths, histories);
      if willSell {
        currentBalance := currentBalance + currentShares * stockPrice;
        currentShares := 0.0;
        nowSelling := false;
      }
    } else {
      var willBuy := ScanDecreasing(lengths, histories);
      if willBuy {
        var buyingShares := currentBalance * tradingProportion / stockPrice;
        currentShares := currentShares + buyingShares;
        currentBalance := currentBalance - buyingShares * stockPrice;
        nowSelling := true;
      }
    }
    d := Decision(Position(currentBalance, currentShares), nowSelling);
  }

  /** One step of a run: after the prices `prefix` (the last one non-zero),
      the position and mode `after`, `mode'` are `SmaDecision` on the means
      of `prefix` from `before`, `mode`. */
  ghost predicate SmaStepFrom(prefix: seq<real>, before: Position, mode: bool, after: Position, mode': bool,
                              lengths: seq<int>, tradingProportion: real) {
    && |prefix| > 0 && ValidLengths(lengths) && Last(prefix) != 0.0
    && Decision(after, mode') == SmaDecision(mode, CurrentMeans(prefix, lengths), tradingProportion,
                                             Last(prefix), before)
  }

  /** The run of the strategy as values: the positions and the mode before
      the first price and after each one. The first mode is "sell" exactly
      when there are shares, and entry `k + 1` is the `SmaStepFrom` entry `k`
      after the first `k + 1` prices. */
  ghost predicate SmaTraded(seen: seq<real>, balances: seq<real>, shares: seq<real>, modes: seq<bool>,
                            lengths: seq<int>, tradingProportion: real) {
    && |balances| == |seen| + 1 && |shares| == |seen| + 1 && |modes| == |seen| + 1
    && (modes[0] <==> shares[0] > 0.0)
    && forall k :: 0 <= k < |seen| ==>
         SmaStepFrom(seen[..k + 1], Position(balances[k], shares[k]), modes[k],
                     Position(balances[k + 1], shares[k + 1]), modes[k + 1], lengths, tradingProportion)
  }

  /** Appending the decision of a step from the latest entry extends the run:
      `d` is the decision on the current means from the last entry, and the
      primed sequences are the old ones with one entry more each. */
  lemma SmaTradedExtend(seen: seq<real>, balances: seq<real>, shares: seq<real>, modes: seq<bool>,
                        lengths: seq<int>, tradingProportion: real, price: real, values: seq<real>,
                        mode: bool, pos: Position, d: Decision,
                        seen': seq<real>, balances': seq<real>, shares': seq<real>, modes': seq<bool>)
    requires SmaTraded(seen, balances, shares, modes, lengths, tradingProportion)
    requires ValidLengths(lengths) && price != 0.0 && seen' == seen + [price]
    requires mode == modes[|seen|] && pos == Position(balances[|seen|], shares[|seen|])
    requires values == CurrentMeans(seen', lengths)
    requires d == SmaDecision(mode, values, tradingProportion, price, pos)
    requires balances' == balances + [d.pos.balance] && shares' == shares + [d.pos.shares]
    requires modes' == modes + [d.selling]
    ensures SmaTraded(seen', balances', shares', modes', lengths, tradingProportion)
  {
    forall k | 0 <= k < |seen'|
      ensures SmaStepFrom(seen'[..k + 1], Position(balances'[k], shares'[k]), modes'[k],
                          Position(balances'[k + 1], shares'[k + 1]), modes'[k + 1], lengths, tradingProportion)
    {
      if k < |seen| {
        assert seen'[..k + 1] == seen[..k + 1];
      } else {
        assert seen'[..k + 1] == seen';
        assert Position(balances'[k + 1], shares'[k + 1]) == d.pos;
      }
    }
  }

  class SimpleMAAlgorithm {
    const base: TradingAlgorithm
    const tradingProportion: real
    const maLengths: seq<int>
    var maHistories: map<int, seq<real>>
    var selling: bool
    /** The values `selling` held before the first price and after each one. */
    ghost var sellingHistory: seq<bool>

    /** Between steps: the base is settled, there is one history per length,
        each history holds one value per price seen, the window mean of the
        prices up to it, the mode is the last entry of its history, and the
        whole run is `SmaTraded`. */
    ghost predicate Valid()
      reads this, base
    {
      && base.Settled()
      && AllAligned(maHistories, base.seenDataPoints, maLengths)
      && SmaTraded(base.seenDataPoints, base.balanceHistory, base.sharesHistory, sellingHistory,
                   maLengths, tradingProportion)
      && selling == sellingHistory[|sellingHistory| - 1]
    }

    /** Lengths that are not positive divide by zero in the source, and a
        repeated length would be merged into one dictionary key. */
    constructor (startingBalance: real, startingShares: real, tradingProportion: real := 1.0,
                 maLengths: seq<int> := [8, 13, 21])
      requires ValidLengths(maLengths)
      ensures Valid() && fresh(base)
      ensures base.seenDataPoints == [] && base.worthHistory == [] && base.currentIndex == 0
      ensures base.balanceHistory == [startingBalance] && base.sharesHistory == [startingShares]
      ensures this.tradingProportion == tradingProportion && this.maLengths == maLengths
      ensures forall l :: l in maHistories ==> maHistories[l] == []
      ensures (selling <==> startingShares > 0.0) && sellingHistory == [selling]
    {
      base := new TradingAlgorithm(startingBalance, startingShares);
      this.tradingProportion := tradingProportion;
      this.maLengths := maLengths;
      maHistories := map l | l in maLengths :: [];
      selling := startingShares > 0.0;
      sellingHistory := [selling];
    }

    /** One step: the base step, one new SMA value per length (equal to the
        window mean over all prices seen), then the decision on those values. */
    method GiveDataPoint(stockPrice: real)
      requires Valid() && stockPrice != 0.0
      modifies this, base
      ensures Valid()
      ensures base.seenDataPoints == old(base.seenDataPoints) + [stockPrice]
      ensures base.currentIndex == old(base.currentIndex) + 1
      ensures base.worthHistory == if |old(base.seenDataPoints)| > 0
                                   then old(base.worthHistory) + [old(base.CurrentWorth(Last(base.seenDataPoints)))]
                                   else old(base.worthHistory)
      ensures Averaged(old(maHistories), maHistories, base.seenDataPoints, maLengths)
      ensures var d := SmaDecision(old(selling), CurrentMeans(base.seenDataPoints, maLengths),
                                   tradingProportion, stockPrice, old(base.CurrentPosition()));
              && base.balanceHistory == old(base.balanceHistory) + [d.pos.balance]
              && base.sharesHistory == old(base.sharesHistory) + [d.pos.shares]
              && selling == d.selling
      ensures sellingHistory == old(sellingHistory) + [selling]
    {
      ghost var oldSeen, oldHistories := base.seenDataPoints, maHistories;
      var pos := Position(base.CurrentBalance(), base.CurrentShares());
      base.GiveDataPoint(stockPrice);
      assert base.Pending();
      maHistories := AdvanceAverages(maLengths, maHistories, base.seenDataPoints);
      AdvancedAligned(maLengths, oldHistories, maHistories, oldSeen, stockPrice);
      assert base.seenDataPoints[..|base.seenDataPoints| - 1] == oldSeen;
      TradeOnNewest(stockPrice, pos);
    }

    /** The trading half of a step, once every history holds the mean that
        includes the newest price: the decision `SmaDecision` gives on the
        current means from `pos`, appended in place, the mode recorded. */
    method TradeOnNewest(stockPrice: real, pos: Position)
      requires base.Pending() && stockPrice != 0.0 && Last(base.seenDataPoints) == stockPrice
      requires AllAligned(maHistories, base.seenDataPoints, maLengths) && HasLatest(maLengths, maHistories)
      requires LatestValues(maLengths, maHistories) == CurrentMeans(base.seenDataPoints, maLengths)
      requires pos == Position(base.CurrentBalance(), base.CurrentShares())
      requires SmaTraded(base.seenDataPoints[..|base.seenDataPoints| - 1], base.balanceHistory, base.sharesHistory,
                         sellingHistory, maLengths, tradingProportion)
      requires selling == sellingHistory[|sellingHistory| - 1]
      modifies this, base
      ensures Valid()
      ensures base.seenDataPoints == old(base.seenDataPoints) && base.currentIndex == old(base.currentIndex)
      ensures base.worthHistory == old(base.worthHistory) && maHistories == old(maHistories)
      ensures var d := SmaDecision(old(selling), CurrentMeans(base.seenDataPoints, maLengths),
                                   tradingProportion, stockPrice, pos);
              && base.balanceHistory == old(base.balanceHistory) + [d.pos.balance]
              && base.sharesHistory == old(base.sharesHistory) + [d.pos.shares]
              && selling == d.selling
      ensures sellingHistory == old(sellingHistory) + [selling]
    {
      ghost var seen, balances, shares, modes, mode :=
        base.seenDataPoints, base.balanceHistory, base.sharesHistory, sellingHistory, selling;
      var d := TradeOnAverages(selling, maLengths, maHistories, CurrentMeans(seen, maLengths),
                               tradingProportion, stockPrice, pos);
      selling := d.selling;
      sellingHistory := sellingHistory + [d.selling];
      base.AppendPosition(d.pos.balance, d.pos.shares);
      assert seen == seen[..|seen| - 1] + [stockPrice];
      SmaTradedExtend(seen[..|seen| - 1], balances, shares, modes, maLengths, tradingProportion, stockPrice,
                      CurrentMeans(seen, maLengths), mode, pos, d,
                      base.seenDataPoints, base.balanceHistory, base.sharesHistory, sellingHistory);
      assert base.Settled();
    }
  }
}
