/** The common strategy base: a cash balance and a share count, kept as
    append-only histories, plus the prices seen so far and the worth recorded
    before each step's trade. */
module AlgorithmClass {
  import opened Series

  /** The pair of locals `current_balance`, `current_shares` every strategy trades on. */
  datatype Position = Position(balance: real, shares: real)

  /** `balance + stock_price * shares`, the valuation `get_current_worth` uses. */
  function Worth(pos: Position, price: real): real {
    pos.balance + price * pos.shares
  }

  class TradingAlgorithm {
    var currentIndex: int
    var seenDataPoints: seq<real>
    var balanceHistory: seq<real>
    var sharesHistory: seq<real>
    var worthHistory: seq<real>

    /** The balance and shares histories are never empty and always pair up. */
    ghost predicate Valid()
      reads this
    {
      |balanceHistory| >= 1 && |sharesHistory| == |balanceHistory|
    }

    /** The state of a strategy that calls the base step and then appends one
        balance and one shares entry, between two calls: one price per call,
        one position per call plus the initial one, and the worth recorded at
        each call but the first, valued at the previous price with the
        position held after that previous call. */
    ghost predicate Settled()
      reads this
    {
      && Valid()
      && |balanceHistory| == |seenDataPoints| + 1
      && currentIndex == |seenDataPoints|
      && |worthHistory| == (if |seenDataPoints| == 0 then 0 else |seenDataPoints| - 1)
      && forall j :: 0 <= j < |worthHistory| ==>
           worthHistory[j] == Worth(PositionAt(j + 1), seenDataPoints[j])
    }

    /** The state inside such a call, once the base step has run and before the
        new position is appended. */
    ghost predicate Pending()
      reads this
    {
      && Valid()
      && |seenDataPoints| >= 1
      && |balanceHistory| == |seenDataPoints|
      && currentIndex == |seenDataPoints|
      && |worthHistory| == |seenDataPoints| - 1
      && forall j :: 0 <= j < |worthHistory| ==>
           worthHistory[j] == Worth(PositionAt(j + 1), seenDataPoints[j])
    }

    constructor (startingBalance: real, startingShares: real)
      ensures Valid() && Settled()
      ensures currentIndex == 0 && seenDataPoints == []
      ensures balanceHistory == [startingBalance] && sharesHistory == [startingShares]
      ensures worthHistory == []
    {
      currentIndex := 0;
      seenDataPoints := [];
      balanceHistory := [startingBalance];
      sharesHistory := [startingShares];
      worthHistory := [];
    }

    function PositionAt(k: int): Position
      reads this
      requires Valid() && 0 <= k < |balanceHistory|
    {
      Position(balanceHistory[k], sharesHistory[k])
    }

    function CurrentIndex(): int
      reads this
    {
      currentIndex
    }

    function CurrentBalance(): real
      reads this
      requires Valid()
    {
      balanceHistory[|balanceHistory| - 1]
    }

    function CurrentShares(): real
      reads this
      requires Valid()
    {
      sharesHistory[|sharesHistory| - 1]
    }

    /** Between the calls of a settled instance the accessors agree: the index
        counts the prices taken, which is the number of positions after the
        initial one, and the current balance and shares are the entries after
        that many steps. */
    lemma SettledAccessors()
      requires Settled()
      ensures CurrentIndex() == |seenDataPoints| == |balanceHistory| - 1
      ensures CurrentBalance() == balanceHistory[CurrentIndex()]
      ensures CurrentShares() == sharesHistory[CurrentIndex()]
    {
    }

    function CurrentPosition(): Position
      reads this
      requires Valid()
    {
      Position(CurrentBalance(), CurrentShares())
    }

    /** Worth of the latest position at a hypothetical price; being a function,
        it cannot change the object. */
    function CurrentWorth(stockPrice: real): (w: real)
      reads this
      requires Valid()
      ensures w == Worth(PositionAt(|balanceHistory| - 1), stockPrice)
    {
      balanceHistory[|balanceHistory| - 1] + stockPrice * sharesHistory[|sharesHistory| - 1]
    }

    /** The step every strategy runs first: record the worth at the previous
        price (only if a price was seen), then record the new price and
        advance the index. Balance and shares are left to the strategy. */
    method GiveDataPoint(stockPrice: real)
      requires Valid()
      modifies this
      ensures Valid()
      ensures worthHistory == if |old(seenDataPoints)| > 0
                              then old(worthHistory) + [old(CurrentWorth(Last(seenDataPoints)))]
                              else old(worthHistory)
      ensures seenDataPoints == old(seenDataPoints) + [stockPrice]
      ensures currentIndex == old(currentIndex) + 1
      ensures balanceHistory == old(balanceHistory) && sharesHistory == old(sharesHistory)
      ensures old(Settled()) ==> Pending()
    {
      if |seenDataPoints| > 0 {
        var previousStockPrice := seenDataPoints[|seenDataPoints| - 1];
        var previousWorth := CurrentWorth(previousStockPrice);
        worthHistory := worthHistory + [previousWorth];
      }
      seenDataPoints := seenDataPoints + [stockPrice];
      currentIndex := currentIndex + 1;
    }

    /** The two `append` calls that end every strategy's step. */
    method AppendPosition(balance: real, shares: real)
      requires Valid()
      modifies this
      ensures Valid()
      ensures balanceHistory == old(balanceHistory) + [balance]
      ensures sharesHistory == old(sharesHistory) + [shares]
      ensures seenDataPoints == old(seenDataPoints) && worthHistory == old(worthHistory)
      ensures currentIndex == old(currentIndex)
      ensures old(Pending()) ==> Settled()
    {
      balanceHistory := balanceHistory + [balance];
      sharesHistory := sharesHistory + [shares];
    }
  }
}
