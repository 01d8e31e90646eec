/** Best-after-N: after `searching_number` steps without a trade, sell
    everything at a price that is the highest since `considering_from`, or buy
    with all the cash at a price that is the lowest since then, and flip mode. */
module BestAfterN {
  import opened Series
  import opened AlgorithmClass

  /** The new position and the new values of the two mode fields. */
  datatype Outcome = Outcome(pos: Position, consideringFrom: int, selling: bool)

  /** The decision of one step, made after the base step: `seen` already ends
      with `price` and `currentIndex` is already advanced. */
  function BestAfterNStep(seen: seq<real>, currentIndex: int, searchingNumber: int,
                          consideringFrom: int, selling: bool, price: real, pos: Position): Outcome
    requires 0 <= consideringFrom < |seen|
    requires price != 0.0
  {
    if currentIndex - consideringFrom > searchingNumber then
      if selling then
        if price >= Max(seen[consideringFrom..]) then
          Outcome(Position(pos.balance + pos.shares * price, 0.0), currentIndex, false)
        else Outcome(pos, consideringFrom, selling)
      else
        if price <= Min(seen[consideringFrom..]) then
          Outcome(Position(0.0, pos.shares + pos.balance / price), currentIndex, true)
        else Outcome(pos, consideringFrom, selling)
    else Outcome(pos, consideringFrom, selling)
  }

  /** A trade happens exactly when the wait is over and, in sell mode, no price
      since `consideringFrom` is above the current one (ties qualify), or, in
      buy mode, none is below it. A trade flips the mode and restarts the wait
      at the current index; a sale leaves no shares and a purchase no cash. */
  lemma BestAfterNTradeRule(seen: seq<real>, currentIndex: int, searchingNumber: int,
                            consideringFrom: int, selling: bool, price: real, pos: Position)
    requires 0 <= consideringFrom < |seen| && price != 0.0
    ensures var r := BestAfterNStep(seen, currentIndex, searchingNumber, consideringFrom, selling, price, pos);
      && (r.selling != selling <==>
            && currentIndex - consideringFrom > searchingNumber
            && (selling ==> forall j :: consideringFrom <= j < |seen| ==> seen[j] <= price)
            && (!selling ==> forall j :: consideringFrom <= j < |seen| ==> price <= seen[j]))
      && (r.selling != selling ==> r.consideringFrom == currentIndex)
      && (r.selling == selling ==> r.pos == pos && r.consideringFrom == consideringFrom)
      && (selling && !r.selling ==> r.pos.shares == 0.0)
      && (!selling && r.selling ==> r.pos.balance == 0.0)
  {
    var w := seen[consideringFrom..];
    assert forall j :: consideringFrom <= j < |seen| ==> seen[j] == w[j - consideringFrom];
    if currentIndex - consideringFrom > searchingNumber {
      if selling {
        var m := Max(w);
        MaxBounds(w);
        if price < m {
          var i :| 0 <= i < |w| && w[i] == m;
          assert seen[consideringFrom + i] > price;
        }
      } else {
        var m := Min(w);
        MinBounds(w);
        if price > m {
          var i :| 0 <= i < |w| && w[i] == m;
          assert seen[consideringFrom + i] < price;
        }
      }
    }
  }

  /** Both trades move money between cash and shares at the current price. */
  lemma BestAfterNConservesWorth(seen: seq<real>, currentIndex: int, searchingNumber: int,
                                 consideringFrom: int, selling: bool, price: real, pos: Position)
    requires 0 <= consideringFrom < |seen| && price != 0.0
    ensures Worth(BestAfterNStep(seen, currentIndex, searchingNumber, consideringFrom, selling, price, pos).pos, price)
            == Worth(pos, price)
  {
  }

  /** After a trade at index `t` the next `searchingNumber` calls cannot trade,
      whatever the prices. */
  lemma BestAfterNWaitsAfterTrade(seen: seq<real>, t: int, searchingNumber: int, selling: bool,
                                  price: real, pos: Position, currentIndex: int)
    requires 0 <= t < |seen| && price != 0.0
    requires t < currentIndex <= t + searchingNumber
    ensures BestAfterNStep(seen, currentIndex, searchingNumber, t, selling, price, pos)
            == Outcome(pos, t, selling)
  {
  }

  /** Entry `k + 1` of a run is `BestAfterNStep` at price `k` (a non-zero
      price, with index `k + 1`) from entry `k`, whose `consideringFrom`
      lies between 0 and `k`. */
  ghost predicate AfterNEntry(seen: seq<real>, balances: seq<real>, shares: seq<real>,
                              froms: seq<int>, modes: seq<bool>, searchingNumber: int, k: int) {
    && 0 <= k < |seen| && k + 1 < |balances| && k + 1 < |shares| && k + 1 < |froms| && k + 1 < |modes|
    && 0 <= froms[k] <= k && seen[k] != 0.0
    && Outcome(Position(balances[k + 1], shares[k + 1]), froms[k + 1], modes[k + 1])
       == BestAfterNStep(seen[..k + 1], k + 1, searchingNumber, froms[k], modes[k], seen[k],
                         Position(balances[k], shares[k]))
  }

  /** The run of the strategy as values: the positions and the two mode
      fields before the first price and after each one. The wait starts at
      0, the first mode is "sell" exactly when there are shares, the last
      `consideringFrom` is at most the number of prices, and every later
      entry is an `AfterNEntry`. */
  ghost predicate AfterNTraded(seen: seq<real>, balances: seq<real>, shares: seq<real>,
                               froms: seq<int>, modes: seq<bool>, searchingNumber: int) {
    && |balances| == |seen| + 1 && |shares| == |seen| + 1
    && |froms| == |seen| + 1 && |modes| == |seen| + 1
    && froms[0] == 0 && (modes[0] <==> shares[0] > 0.0)
    && 0 <= froms[|seen|] <= |seen|
    && forall k :: 0 <= k < |seen| ==> AfterNEntry(seen, balances, shares, froms, modes, searchingNumber, k)
  }

  /** Appending the outcome of a step from the latest entry extends the run:
      `r` is the step at index `|seen| + 1` from the last entry, and the
      primed sequences are the old ones with one entry more each. */
  lemma AfterNTradedExtend(seen: seq<real>, balances: seq<real>, shares: seq<real>, froms: seq<int>,
                           modes: seq<bool>, searchingNumber: int, price: real, index: int, from: int,
                           mode: bool, pos: Position, r: Outcome,
                           seen': seq<real>, balances': seq<real>, shares': seq<real>, froms': seq<int>,
                           modes': seq<bool>)
    requires AfterNTraded(seen, balances, shares, froms, modes, searchingNumber) && price != 0.0
    requires seen' == seen + [price] && index == |seen| + 1
    requires from == froms[|seen|] && mode == modes[|seen|]
    requires pos.balance == balances[|seen|] && pos.shares == shares[|seen|]
    requires r == BestAfterNStep(seen', index, searchingNumber, from, mode, price, pos)
    requires balances' == balances + [r.pos.balance] && shares' == shares + [r.pos.shares]
    requires froms' == froms + [r.consideringFrom] && modes' == modes + [r.selling]
    ensures AfterNTraded(seen', balances', shares', froms', modes', searchingNumber)
  {
    forall k | 0 <= k < |seen'|
      ensures AfterNEntry(seen', balances', shares', froms', modes', searchingNumber, k)
    {
      if k < |seen| {
        assert AfterNEntry(seen, balances, shares, froms, modes, searchingNumber, k);
        assert seen'[..k + 1] == seen[..k + 1];
      } else {
        assert seen'[..k + 1] == seen';
      }
    }
  }

  class BestAfterNAlgorithm {
    const base: TradingAlgorithm
    const searchingNumber: int
    var consideringFrom: int
    var selling: bool
    /** The values `consideringFrom` and `selling` held before the first
        price and after each one. */
    ghost var fromHistory: seq<int>
    ghost var sellingHistory: seq<bool>

    /** Between steps: the base is settled, the mode fields are the last
        entries of their histories, and the whole run is `AfterNTraded`. */
    ghost predicate Valid()
      reads this, base
    {
      && base.Settled()
      && AfterNTraded(base.seenDataPoints, base.balanceHistory, base.sharesHistory,
                      fromHistory, sellingHistory, searchingNumber)
      && consideringFrom == fromHistory[|fromHistory| - 1]
      && selling == sellingHistory[|sellingHistory| - 1]
    }

    constructor (startingBalance: real, startingShares: real, searchingNumber: int := 10)
      ensures Valid() && fresh(base)
      ensures base.seenDataPoints == [] && base.worthHistory == [] && base.currentIndex == 0
      ensures base.balanceHistory == [startingBalance] && base.sharesHistory == [startingShares]
      ensures this.searchingNumber == searchingNumber
      ensures consideringFrom == 0 && (selling <==> startingShares > 0.0)
      ensures fromHistory == [consideringFrom] && sellingHistory == [selling]
    {
      base := new TradingAlgorithm(startingBalance, startingShares);
      this.searchingNumber := searchingNumber;
      consideringFrom := 0;
      selling := startingShares > 0.0;
      fromHistory := [consideringFrom];
      sellingHistory := [selling];
    }

    method GiveDataPoint(stockPrice: real)
      requires Valid() && stockPrice != 0.0
      modifies this, base
      ensures Valid()
      ensures base.seenDataPoints == old(base.seenDataPoints) + [stockPrice]
      ensures base.currentIndex == old(base.currentIndex) + 1
      ensures base.worthHistory == if |old(base.seenDataPoints)| > 0
                                   then old(base.worthHistory) + [old(base.CurrentWorth(Last(base.seenDataPoints)))]
                                   else old(base.worthHistory)
      ensures var r := BestAfterNStep(base.seenDataPoints, base.currentIndex, searchingNumber,
                                      old(consideringFrom), old(selling), stockPrice, old(base.CurrentPosition()));
              && base.balanceHistory == old(base.balanceHistory) + [r.pos.balance]
              && base.sharesHistory == old(base.sharesHistory) + [r.pos.shares]
              && consideringFrom == r.consideringFrom && selling == r.selling
      ensures fromHistory == old(fromHistory) + [consideringFrom]
      ensures sellingHistory == old(sellingHistory) + [selling]
    {
      ghost var oldSeen, oldBalances, oldShares := base.seenDataPoints, base.balanceHistory, base.sharesHistory;
      ghost var oldFroms, oldModes := fromHistory, sellingHistory;
      base.GiveDataPoint(stockPrice);
      assert base.Pending();
      ghost var seen, index := base.seenDataPoints, base.currentIndex;
      var pos := Position(base.CurrentBalance(), base.CurrentShares());
      var r := DecideAfterN(base.seenDataPoints, base.currentIndex, searchingNumber, consideringFrom, selling,
                            stockPrice, pos);
      ghost var from, mode := consideringFrom, selling;
      consideringFrom := r.consideringFrom;
      selling := r.selling;
      fromHistory := fromHistory + [consideringFrom];
      sellingHistory := sellingHistory + [selling];
      base.AppendPosition(r.pos.balance, r.pos.shares);
      AfterNTradedExtend(oldSeen, oldBalances, oldShares, oldFroms, oldModes, searchingNumber, stockPrice,
                         index, from, mode, pos, r,
                         base.seenDataPoints, base.balanceHistory, base.sharesHistory, fromHistory, sellingHistory);
      assert base.Settled();
      assert consideringFrom == fromHistory[|fromHistory| - 1] && selling == sellingHistory[|sellingHistory| - 1];
    }
  }

  /** `BestAfterNStep`, computed in place by the decision half of a step: once
      more than `searchingNumber` steps have passed since `consideringFrom`,
      sell everything at a new high of the window in sell mode, or buy with all
      the cash at a new low in buy mode. */
  method DecideAfterN(seen: seq<real>, currentIndex: int, searchingNumber: int, consideringFrom: int,
                      selling: bool, stockPrice: real, pos: Position) returns (r: Outcome)
    requires 0 <= consideringFrom < |seen| && stockPrice != 0.0
    ensures r == BestAfterNStep(seen, currentIndex, searchingNumber, consideringFrom, selling, stockPrice, pos)
  {
    var currentBalance, currentShares := pos.balance, pos.shares;
    var from, mode := consideringFrom, selling;
    var actionable := currentIndex - consideringFrom > searchingNumber;
    if actionable {
      if selling {
        if stockPrice >= Max(seen[consideringFrom..]) {
          currentBalance := currentBalance + currentShares * stockPrice;
          currentShares := 0.0;
          from := currentIndex;
          mode := false;
        }
      } else {
        if stockPrice <= Min(seen[consideringFrom..]) {
          currentShares := currentShares + currentBalance / stockPrice;
          currentBalance := 0.0;
          from := currentIndex;
          mode := true;
        }
      }
    }
    r := Outcome(Position(currentBalance, currentShares), from, mode);
  }
}
