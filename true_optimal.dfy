/** The look-ahead benchmark: knowing the next price, move everything into
    shares before a rise and everything into cash before a fall, and record
    the worth after each step, valued at the price the step traded at. */
module TrueOptimal {
  import opened Series
  import opened AlgorithmClass

  /** The divisions the benchmark performs are defined: it divides by
      `data[i]` only where the next price is higher. */
  ghost predicate DivisionSafe(data: seq<real>) {
    forall i, j :: 0 <= i && j == i + 1 && j < |data| && data[i] < data[j] ==> data[i] != 0.0
  }

  /** One look-ahead step at price `here`, knowing the next price `next`. */
  function OptimalStep(here: real, next: real, pos: Position): Position
    requires here < next ==> here != 0.0
  {
    if here < next then Position(0.0, pos.shares + pos.balance / here)
    else if here > next then Position(pos.balance + pos.shares * here, 0.0)
    else pos
  }

  /** The position after the first `k` look-ahead steps. */
  ghost function PositionAfter(data: seq<real>, start: Position, k: int): Position
    requires DivisionSafe(data) && 0 <= k < |data|
    decreases k
  {
    if k == 0 then start
    else OptimalStep(data[k - 1], data[k], PositionAfter(data, start, k - 1))
  }

  /** The entries the loop records: the initial worth at the first price,
      then after step `j` (for `1 <= j <= k`) the position valued at the
      price that step traded at, `data[j - 1]`. */
  ghost function LoopHistory(data: seq<real>, start: Position, k: int): (h: seq<real>)
    requires DivisionSafe(data) && 0 <= k < |data|
    ensures |h| == k + 1
    decreases k
  {
    if k == 0 then [Worth(start, data[0])]
    else LoopHistory(data, start, k - 1) + [Worth(PositionAfter(data, start, k), data[k - 1])]
  }

  /** The reference history: the loop's entries, then the last position at
      the last price. */
  ghost function OptimalWorthHistory(data: seq<real>, start: Position): (h: seq<real>)
    requires |data| >= 1 && DivisionSafe(data)
    ensures |h| == |data| + 1
  {
    LoopHistory(data, start, |data| - 1) + [Worth(PositionAfter(data, start, |data| - 1), data[|data| - 1])]
  }

  /** `OptimalStep`, computed in place by the body of one pass of the loop: buy
      with all cash before a rise, sell all shares before a fall. */
  method OptimalTrade(here: real, next: real, balance: real, shares: real)
    returns (newBalance: real, newShares: real)
    requires here < next ==> here != 0.0
    ensures Position(newBalance, newShares) == OptimalStep(here, next, Position(balance, shares))
  {
    newBalance, newShares := balance, shares;
    if here < next {
      newShares := shares + balance / here;
      newBalance := 0.0;
    } else if here > next {
      newBalance := balance + shares * here;
      newShares := 0.0;
    }
  }

  /** `get_optimal_worth_history`. Empty data has no first price to read. */
  method GetOptimalWorthHistory(data: seq<real>, startingBalance: real, startingShares: real)
    returns (worthHistory: seq<real>)
    requires |data| >= 1 && DivisionSafe(data)
    ensures worthHistory == OptimalWorthHistory(data, Position(startingBalance, startingShares))
  {
    ghost var start := Position(startingBalance, startingShares);
    var bal := startingBalance;
    var shares := startingShares;
    worthHistory := [Worth(Position(bal, shares), data[0])];

    for i := 0 to |data| - 1
      invariant Position(bal, shares) == PositionAfter(data, start, i)
      invariant worthHistory == LoopHistory(data, start, i)
    {
      assert data[i] < data[i + 1] ==> data[i] != 0.0;
      bal, shares := OptimalTrade(data[i], data[i + 1], bal, shares);
      worthHistory := worthHistory + [Worth(Position(bal, shares), data[i])];
    }

    worthHistory := worthHistory + [Worth(Position(bal, shares), data[|data| - 1])];
  }

  /** Entry `j` of the loop's entries, for `1 <= j <= k`. */
  lemma {:induction false} LoopHistoryEntry(data: seq<real>, start: Position, k: int, j: int)
    requires DivisionSafe(data) && 0 <= k < |data| && 0 <= j <= k
    ensures LoopHistory(data, start, k)[j] ==
      if j == 0 then Worth(start, data[0]) else Worth(PositionAfter(data, start, j), data[j - 1])
    decreases k
  {
    if j < k {
      LoopHistoryEntry(data, start, k - 1, j);
    }
  }

  /** Entry `j` of the reference history. */
  lemma OptimalEntry(data: seq<real>, start: Position, j: int)
    requires |data| >= 1 && DivisionSafe(data) && 0 <= j <= |data|
    ensures OptimalWorthHistory(data, start)[j] ==
      if j == 0 then Worth(start, data[0])
      else if j < |data| then Worth(PositionAfter(data, start, j), data[j - 1])
      else Worth(PositionAfter(data, start, |data| - 1), data[|data| - 1])
  {
    if j < |data| {
      LoopHistoryEntry(data, start, |data| - 1, j);
    }
  }

  /** A step moves everything to shares before a rise and everything to cash
      before a fall, keeps the position when the price stays, and keeps the
      worth at the price it trades at. */
  lemma OptimalStepRule(here: real, next: real, pos: Position)
    requires here < next ==> here != 0.0
    ensures var p := OptimalStep(here, next, pos);
      && Worth(p, here) == Worth(pos, here)
      && (here < next ==> p.balance == 0.0)
      && (here > next ==> p.shares == 0.0)
      && (here == next ==> p == pos)
  {
    if here < next {
      assert (pos.balance / here) * here == pos.balance;
    }
  }

  /** The first entry is the starting worth and, because every loop entry is
      valued at the price it traded at, the second entry repeats it. */
  lemma OptimalStartsFlat(data: seq<real>, start: Position)
    requires |data| >= 1 && DivisionSafe(data)
    ensures OptimalWorthHistory(data, start)[0] == Worth(start, data[0])
    ensures OptimalWorthHistory(data, start)[1] == Worth(start, data[0])
  {
    OptimalEntry(data, start, 0);
    OptimalEntry(data, start, 1);
    if |data| > 1 {
      OptimalStepRule(data[0], data[1], start);
    }
  }

  /** The factor the look-ahead multiplies its worth by between prices `here`
      and `next`: the rise when it is one, 1 otherwise. */
  function RiseFactor(here: real, next: real): (r: real)
    requires here > 0.0
    ensures r >= 1.0
  {
    var ratio := next / here;
    if ratio > 1.0 then ratio else 1.0
  }

  /** A worth `w0` multiplied by the rise factors of the first `k` steps:
      what the look-ahead is worth after `k` steps, as the lemmas below show. */
  ghost function BestWorth(data: seq<real>, w0: real, k: int): real
    requires AllPositive(data) && 0 <= k < |data|
    decreases k
  {
    if k == 0 then w0 else BestWorth(data, w0, k - 1) * RiseFactor(data[k - 1], data[k])
  }

  /** A non-negative worth stays non-negative and never shrinks step to step. */
  lemma {:induction false} BestWorthGrows(data: seq<real>, w0: real, k: int)
    requires AllPositive(data) && 0 <= k < |data| && w0 >= 0.0
    ensures BestWorth(data, w0, k) >= 0.0
    ensures k > 0 ==> BestWorth(data, w0, k - 1) <= BestWorth(data, w0, k)
    decreases k
  {
    if k > 0 {
      var j := k - 1;
      BestWorthGrows(data, w0, j);
      MulMonotone(1.0, RiseFactor(data[j], data[k]), BestWorth(data, w0, j));
    }
  }

  /** The ratio of two positive prices is above 1 exactly when the price rose. */
  lemma RatioAboveOne(here: real, next: real)
    requires here > 0.0
    ensures next / here > 1.0 <==> next > here
  {
    DivOrder(next, here, here);
    assert here / here == 1.0;
  }

  /** Moving all cash into shares at `here` and valuing at `next` scales the
      worth at `here` by the price ratio. */
  lemma RiseValue(pos: Position, here: real, next: real)
    requires here > 0.0
    ensures Worth(Position(0.0, pos.shares + pos.balance / here), next) == Worth(pos, here) * (next / here)
  {
    var b, s := pos.balance, pos.shares;
    assert (s + b / here) * next == (here * s + b) * (next / here);
  }

  /** One look-ahead step scales the worth by the rise factor. */
  lemma {:induction false} StepWorth(data: seq<real>, start: Position, k: int)
    requires AllPositive(data) && DivisionSafe(data) && 1 <= k < |data|
    ensures Worth(PositionAfter(data, start, k), data[k])
         == Worth(PositionAfter(data, start, k - 1), data[k - 1]) * RiseFactor(data[k - 1], data[k])
  {
    OptimalStepWorth(data[k - 1], data[k], PositionAfter(data, start, k - 1));
  }

  /** One look-ahead step between two positive prices, valued at the later
      one, scales the worth at the earlier one by the rise, or by 1. */
  lemma OptimalStepWorth(here: real, next: real, pos: Position)
    requires here > 0.0 && next > 0.0
    ensures Worth(OptimalStep(here, next, pos), next) == Worth(pos, here) * RiseFactor(here, next)
  {
    RatioAboveOne(here, next);
    if here < next {
      RiseValue(pos, here, next);
    }
  }

  /** After `k` steps the look-ahead position, valued at `data[k]`, is worth
      the starting worth times the rise factors of the first `k` steps. */
  lemma {:induction false} WorthAfterSteps(data: seq<real>, start: Position, k: int)
    requires AllPositive(data) && DivisionSafe(data) && 0 <= k < |data|
    ensures Worth(PositionAfter(data, start, k), data[k]) == BestWorth(data, Worth(start, data[0]), k)
    decreases k
  {
    if k > 0 {
      WorthAfterSteps(data, start, k - 1);
      StepWorth(data, start, k);
    }
  }

  /** At positive prices the history is the starting worth times the step
      factors so far, lagging one step: entries 0 and 1 use none, entry
      `j >= 1` those of the first `j - 1` steps, the last entry all of them. */
  lemma OptimalHistoryClosedForm(data: seq<real>, start: Position)
    requires |data| >= 1 && AllPositive(data) && DivisionSafe(data)
    ensures var h := OptimalWorthHistory(data, start);
      forall j :: 0 <= j <= |data| ==>
        h[j] == BestWorth(data, Worth(start, data[0]), if j == 0 then 0 else j - 1)
  {
    var h := OptimalWorthHistory(data, start);
    forall j | 0 <= j <= |data|
      ensures h[j] == BestWorth(data, Worth(start, data[0]), if j == 0 then 0 else j - 1)
    {
      OptimalEntry(data, start, j);
      if 0 < j < |data| {
        var i := j - 1;
        OptimalStepRule(data[i], data[j], PositionAfter(data, start, i));
        WorthAfterSteps(data, start, i);
      } else if j == |data| {
        WorthAfterSteps(data, start, |data| - 1);
      }
    }
  }

  /** With a non-negative starting worth and positive prices the recorded
      worth never drops. */
  lemma OptimalWorthNeverDrops(data: seq<real>, start: Position)
    requires |data| >= 1 && AllPositive(data) && DivisionSafe(data)
    requires Worth(start, data[0]) >= 0.0
    ensures var h := OptimalWorthHistory(data, start);
      forall j :: 0 <= j < |data| ==> h[j] <= h[j + 1]
  {
    var h := OptimalWorthHistory(data, start);
    OptimalHistoryClosedForm(data, start);
    forall j | 0 < j < |data|
      ensures h[j] <= h[j + 1]
    {
      BestWorthGrows(data, Worth(start, data[0]), j);
    }
  }

  /** Any strategy that trades at each price but the last, exchanging at that
      price and holding no negative cash or shares: `path[k]` is the position
      it holds after trading at `data[k]`. */
  ghost predicate SelfFinancing(data: seq<real>, start: Position, path: seq<Position>) {
    && |path| == |data| - 1
    && (forall k :: 0 <= k < |path| ==> path[k].balance >= 0.0 && path[k].shares >= 0.0)
    && (forall k :: 1 <= k < |path| ==> Worth(path[k], data[k]) == Worth(path[k - 1], data[k]))
    && (|path| > 0 ==> Worth(path[0], data[0]) == Worth(start, data[0]))
  }

  /** What such a strategy ends with: its last position at the last price. */
  ghost function FinalWorth(data: seq<real>, start: Position, path: seq<Position>): real
    requires |data| >= 1 && |path| == |data| - 1
  {
    if |path| == 0 then Worth(start, data[0]) else Worth(path[|path| - 1], data[|data| - 1])
  }

  /** A non-negative position gains at most the rise factor between two prices. */
  lemma HoldingGain(pos: Position, here: real, next: real)
    requires here > 0.0 && next > 0.0 && pos.balance >= 0.0 && pos.shares >= 0.0
    ensures Worth(pos, next) <= Worth(pos, here) * RiseFactor(here, next)
  {
    var ratio := next / here;
    assert here * ratio == next;
    if ratio > 1.0 {
      MulMonotone(1.0, ratio, pos.balance);
      assert Worth(pos, here) * ratio == pos.balance * ratio + next * pos.shares;
    } else {
      RatioAboveOne(here, next);
      MulMonotone(next, here, pos.shares);
    }
  }

  /** After trading at `data[k]`, such a strategy's holding is worth at most
      what the look-ahead reaches at the next price. */
  lemma {:induction false} SelfFinancingBound(data: seq<real>, start: Position, path: seq<Position>, k: int)
    requires AllPositive(data) && SelfFinancing(data, start, path) && 0 <= k < |path|
    ensures Worth(path[k], data[k + 1]) <= BestWorth(data, Worth(start, data[0]), k + 1)
    decreases k
  {
    HoldingGain(path[k], data[k], data[k + 1]);
    if k > 0 {
      var i := k - 1;
      SelfFinancingBound(data, start, path, i);
      MulMonotone(Worth(path[k], data[k]), BestWorth(data, Worth(start, data[0]), k), RiseFactor(data[k], data[k + 1]));
    }
  }

  /** The benchmark is optimal in that sense: at positive prices no strategy
      that trades at the current price without going short or borrowing ends
      with more than the benchmark's final entry. */
  lemma OracleDominates(data: seq<real>, start: Position, path: seq<Position>)
    requires |data| >= 1 && AllPositive(data) && DivisionSafe(data)
    requires SelfFinancing(data, start, path)
    ensures FinalWorth(data, start, path) <= OptimalWorthHistory(data, start)[|data|]
  {
    OptimalHistoryClosedForm(data, start);
    if |path| > 0 {
      SelfFinancingBound(data, start, path, |path| - 1);
    }
  }
}
