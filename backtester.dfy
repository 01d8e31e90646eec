/** The backtest loop: feed every price of a series, in order, to one
    strategy, and report after each price the index, balance, shares and
    worth the strategy's accessors give. */
module Backtester {
  import opened Series
  import opened AlgorithmClass
  import Greedy
  import BestAfterN
  import SimpleMovingAverage
  import Bollinger
  import Rsi
  import RandomChoice
  import AlgorithmFactory

  /** A strategy instance of any of the six kinds; `backtest` accepts any
      subclass of the base and calls its own `give_data_point`. */
  datatype Strategy =
    | GreedyStrategy(greedy: Greedy.MaximallyGreedyAlgorithm)
    | BestAfterNStrategy(bestAfterN: BestAfterN.BestAfterNAlgorithm)
    | SimpleMAStrategy(simpleMA: SimpleMovingAverage.SimpleMAAlgorithm)
    | BollingerStrategy(bollinger: Bollinger.BollingerBandsAlgorithm)
    | RsiStrategy(rsi: Rsi.RSIAlgorithm)
    | RandomStrategy(random: RandomChoice.RandomChoiceAlgorithm)
  {
    /** The base part every strategy keeps its histories in. */
    function Base(): TradingAlgorithm {
      match this
      case GreedyStrategy(a) => a.base
      case BestAfterNStrategy(a) => a.base
      case SimpleMAStrategy(a) => a.base
      case BollingerStrategy(a) => a.base
      case RsiStrategy(a) => a.base
      case RandomStrategy(a) => a.base
    }

    /** The objects a step may change: the instance and its base. */
    function Repr(): set<object> {
      match this
      case GreedyStrategy(a) => {a, a.base}
      case BestAfterNStrategy(a) => {a, a.base}
      case SimpleMAStrategy(a) => {a, a.base}
      case BollingerStrategy(a) => {a, a.base}
      case RsiStrategy(a) => {a, a.base}
      case RandomStrategy(a) => {a, a.base}
    }

    ghost predicate Valid()
      reads Repr()
    {
      && Base().Valid()
      && match this
         case GreedyStrategy(a) => a.Valid()
         case BestAfterNStrategy(a) => a.Valid()
         case SimpleMAStrategy(a) => a.Valid()
         case BollingerStrategy(a) => a.Valid()
         case RsiStrategy(a) => a.Valid()
         case RandomStrategy(a) => a.Valid()
    }

    /** What a step demands of the price and, for the random strategy, of
        the drawn number: RSI accepts any price, the random strategy divides
        only when it buys, the others need a non-zero price. */
    predicate Accepts(price: real, choice: int) {
      match this
      case RsiStrategy(_) => true
      case RandomStrategy(_) => RandomChoice.IsDraw(choice) && (choice == 2 ==> price != 0.0)
      case _ => price != 0.0
    }
  }

  /** The extra price a step pushes before its own: only a greedy instance
      that has seen nothing pre-seeds the first price. */
  function PreSeed(greedy: bool, seenBefore: seq<real>, price: real): seq<real> {
    if greedy && |seenBefore| == 0 then [price] else []
  }

  /** The base's state as values. */
  datatype Snapshot = Snapshot(index: int, seen: seq<real>, balances: seq<real>, shares: seq<real>, worth: seq<real>)

  function Snap(b: TradingAlgorithm): Snapshot
    reads b
  {
    Snapshot(b.currentIndex, b.seenDataPoints, b.balanceHistory, b.sharesHistory, b.worthHistory)
  }

  /** What one step does to the base whatever the strategy: the index
      advances by one, `pre` and then the price are pushed, exactly one
      balance and one shares entry are appended, and no worth entry changes. */
  ghost predicate StepTaken(before: Snapshot, after: Snapshot, pre: seq<real>, price: real) {
    && after.index == before.index + 1
    && after.seen == before.seen + pre + [price]
    && |after.balances| == |before.balances| + 1
    && |after.shares| == |before.shares| + 1
    && after.balances[..|before.balances|] == before.balances
    && after.shares[..|before.shares|] == before.shares
    && |before.worth| <= |after.worth|
    && after.worth[..|before.worth|] == before.worth
  }

  /** One call of the strategy's own `give_data_point`, `choice` being the
      number the random strategy draws. Whatever the strategy, the index
      advances by one, the price is pushed (pre-seeded for a fresh greedy
      instance), exactly one balance and one shares entry are appended, and
      no existing entry changes. */
  method Step(s: Strategy, price: real, choice: int)
    requires s.Valid() && s.Accepts(price, choice)
    modifies s.Repr()
    ensures s.Valid()
    ensures StepTaken(old(Snap(s.Base())), Snap(s.Base()),
                      PreSeed(s.GreedyStrategy?, old(s.Base().seenDataPoints), price), price)
    ensures |s.Base().worthHistory| == |old(s.Base().worthHistory)| +
              (if |old(s.Base().seenDataPoints)| > 0 || s.GreedyStrategy? then 1 else 0)
    ensures s.GreedyStrategy? ==>
              var a := s.greedy;
              var last := if |old(a.base.seenDataPoints)| == 0 then price else old(Last(a.base.seenDataPoints));
              var next := Greedy.GreedyTrade(last, price, old(a.base.CurrentPosition()));
              a.base.balanceHistory == old(a.base.balanceHistory) + [next.balance]
              && a.base.sharesHistory == old(a.base.sharesHistory) + [next.shares]
    ensures s.BestAfterNStrategy? ==>
              var a := s.bestAfterN;
              var r := BestAfterN.BestAfterNStep(a.base.seenDataPoints, a.base.currentIndex, a.searchingNumber,
                                                 old(a.consideringFrom), old(a.selling), price,
                                                 old(a.base.CurrentPosition()));
              && a.base.balanceHistory == old(a.base.balanceHistory) + [r.pos.balance]
              && a.base.sharesHistory == old(a.base.sharesHistory) + [r.pos.shares]
              && a.consideringFrom == r.consideringFrom && a.selling == r.selling
    ensures s.SimpleMAStrategy? ==>
              var a := s.simpleMA;
              var d := SimpleMovingAverage.SmaDecision(old(a.selling),
                                                       SimpleMovingAverage.CurrentMeans(a.base.seenDataPoints, a.maLengths),
                                                       a.tradingProportion, price, old(a.base.CurrentPosition()));
              && a.base.balanceHistory == old(a.base.balanceHistory) + [d.pos.balance]
              && a.base.sharesHistory == old(a.base.sharesHistory) + [d.pos.shares]
              && a.selling == d.selling
    ensures s.BollingerStrategy? ==>
              var a := s.bollinger;
              var next := Bollinger.BollingerStep(a.base.seenDataPoints, a.windowSize, a.numStdDev, a.sqrt,
                                                  a.tradingProportion, price, old(a.base.CurrentPosition()));
              a.base.balanceHistory == old(a.base.balanceHistory) + [next.balance]
              && a.base.sharesHistory == old(a.base.sharesHistory) + [next.shares]
    ensures s.RsiStrategy? ==>
              var a := s.rsi;
              var next := Rsi.RsiStep(a.base.seenDataPoints, a.windowSize, a.oversold, a.overbought,
                                      a.tradingProportion, price, old(a.base.CurrentPosition()));
              a.base.balanceHistory == old(a.base.balanceHistory) + [next.balance]
              && a.base.sharesHistory == old(a.base.sharesHistory) + [next.shares]
    ensures s.RandomStrategy? ==>
              var a := s.random;
              var next := RandomChoice.RandomTrade(choice, a.tradingProportion, price, old(a.base.CurrentPosition()));
              && a.draws == old(a.draws) + [choice]
              && a.base.balanceHistory == old(a.base.balanceHistory) + [next.balance]
              && a.base.sharesHistory == old(a.base.sharesHistory) + [next.shares]
  {
    match s
    case GreedyStrategy(a) => GreedyStep(a, price);
    case BestAfterNStrategy(a) => BestAfterNStep(a, price);
    case SimpleMAStrategy(a) => SimpleMAStep(a, price);
    case BollingerStrategy(a) => BollingerStep(a, price);
    case RsiStrategy(a) => RsiStep(a, price);
    case RandomStrategy(a) => RandomStep(a, price, choice);
  }

  /** A step of the greedy strategy, seen from the base: the new position
      is the greedy decision on the previous price (the price itself on the
      first call) from the previous position. */
  method GreedyStep(a: Greedy.MaximallyGreedyAlgorithm, price: real)
    requires a.Valid() && price != 0.0
    modifies a, a.base
    ensures a.Valid()
    ensures StepTaken(old(Snap(a.base)), Snap(a.base), PreSeed(true, old(a.base.seenDataPoints), price), price)
    ensures |a.base.worthHistory| == |old(a.base.worthHistory)| + 1
    ensures var last := if |old(a.base.seenDataPoints)| == 0 then price else old(Last(a.base.seenDataPoints));
            var next := Greedy.GreedyTrade(last, price, old(a.base.CurrentPosition()));
            a.base.balanceHistory == old(a.base.balanceHistory) + [next.balance]
            && a.base.sharesHistory == old(a.base.sharesHistory) + [next.shares]
  {
    a.GiveDataPoint(price);
    AppendedOne(old(Snap(a.base)), Snap(a.base), PreSeed(true, old(a.base.seenDataPoints), price), price);
  }

  /** A step of the best-after-n strategy, seen from the base: the new
      position and mode fields are `BestAfterNStep` of the previous ones. */
  method BestAfterNStep(a: BestAfterN.BestAfterNAlgorithm, price: real)
    requires a.Valid() && price != 0.0
    modifies a, a.base
    ensures a.Valid()
    ensures StepTaken(old(Snap(a.base)), Snap(a.base), PreSeed(false, old(a.base.seenDataPoints), price), price)
    ensures |a.base.worthHistory| == |old(a.base.worthHistory)| + (if |old(a.base.seenDataPoints)| > 0 then 1 else 0)
    ensures var r := BestAfterN.BestAfterNStep(a.base.seenDataPoints, a.base.currentIndex, a.searchingNumber,
                                               old(a.consideringFrom), old(a.selling), price,
                                               old(a.base.CurrentPosition()));
            && a.base.balanceHistory == old(a.base.balanceHistory) + [r.pos.balance]
            && a.base.sharesHistory == old(a.base.sharesHistory) + [r.pos.shares]
            && a.consideringFrom == r.consideringFrom && a.selling == r.selling
  {
    a.GiveDataPoint(price);
    AppendedOne(old(Snap(a.base)), Snap(a.base), [], price);
  }

  /** A step of the moving-average strategy, seen from the base: the new
      position and mode are `SmaDecision` on the current means. */
  method SimpleMAStep(a: SimpleMovingAverage.SimpleMAAlgorithm, price: real)
    requires a.Valid() && price != 0.0
    modifies a, a.base
    ensures a.Valid()
    ensures StepTaken(old(Snap(a.base)), Snap(a.base), PreSeed(false, old(a.base.seenDataPoints), price), price)
    ensures |a.base.worthHistory| == |old(a.base.worthHistory)| + (if |old(a.base.seenDataPoints)| > 0 then 1 else 0)
    ensures var d := SimpleMovingAverage.SmaDecision(old(a.selling),
                                                     SimpleMovingAverage.CurrentMeans(a.base.seenDataPoints, a.maLengths),
                                                     a.tradingProportion, price, old(a.base.CurrentPosition()));
            && a.base.balanceHistory == old(a.base.balanceHistory) + [d.pos.balance]
            && a.base.sharesHistory == old(a.base.sharesHistory) + [d.pos.shares]
            && a.selling == d.selling
  {
    a.GiveDataPoint(price);
    AppendedOne(old(Snap(a.base)), Snap(a.base), [], price);
  }

  /** A step of the Bollinger strategy, seen from the base: the new
      position is `BollingerStep` of the previous one. */
  method BollingerStep(a: Bollinger.BollingerBandsAlgorithm, price: real)
    requires a.Valid() && price != 0.0
    modifies a, a.base
    ensures a.Valid()
    ensures StepTaken(old(Snap(a.base)), Snap(a.base), PreSeed(false, old(a.base.seenDataPoints), price), price)
    ensures |a.base.worthHistory| == |old(a.base.worthHistory)| + (if |old(a.base.seenDataPoints)| > 0 then 1 else 0)
    ensures var next := Bollinger.BollingerStep(a.base.seenDataPoints, a.windowSize, a.numStdDev, a.sqrt,
                                                a.tradingProportion, price, old(a.base.CurrentPosition()));
            a.base.balanceHistory == old(a.base.balanceHistory) + [next.balance]
            && a.base.sharesHistory == old(a.base.sharesHistory) + [next.shares]
  {
    a.GiveDataPoint(price);
    AppendedOne(old(Snap(a.base)), Snap(a.base), [], price);
  }

  /** A step of the RSI strategy, seen from the base: the new position is
      `RsiStep` of the previous one. */
  method RsiStep(a: Rsi.RSIAlgorithm, price: real)
    requires a.Valid()
    modifies a, a.base
    ensures a.Valid()
    ensures StepTaken(old(Snap(a.base)), Snap(a.base), PreSeed(false, old(a.base.seenDataPoints), price), price)
    ensures |a.base.worthHistory| == |old(a.base.worthHistory)| + (if |old(a.base.seenDataPoints)| > 0 then 1 else 0)
    ensures var next := Rsi.RsiStep(a.base.seenDataPoints, a.windowSize, a.oversold, a.overbought,
                                    a.tradingProportion, price, old(a.base.CurrentPosition()));
            a.base.balanceHistory == old(a.base.balanceHistory) + [next.balance]
            && a.base.sharesHistory == old(a.base.sharesHistory) + [next.shares]
  {
    a.GiveDataPoint(price);
    AppendedOne(old(Snap(a.base)), Snap(a.base), [], price);
  }

  /** A step of the random strategy, seen from the base: the draw is
      recorded and the new position is `RandomTrade` of it. */
  method RandomStep(a: RandomChoice.RandomChoiceAlgorithm, price: real, choice: int)
    requires a.Valid() && RandomChoice.IsDraw(choice) && (choice == 2 ==> price != 0.0)
    modifies a, a.base
    ensures a.Valid()
    ensures StepTaken(old(Snap(a.base)), Snap(a.base), PreSeed(false, old(a.base.seenDataPoints), price), price)
    ensures |a.base.worthHistory| == |old(a.base.worthHistory)| + (if |old(a.base.seenDataPoints)| > 0 then 1 else 0)
    ensures a.draws == old(a.draws) + [choice]
    ensures var next := RandomChoice.RandomTrade(choice, a.tradingProportion, price, old(a.base.CurrentPosition()));
            a.base.balanceHistory == old(a.base.balanceHistory) + [next.balance]
            && a.base.sharesHistory == old(a.base.sharesHistory) + [next.shares]
  {
    a.GiveDataPoint(price, choice);
    AppendedOne(old(Snap(a.base)), Snap(a.base), [], price);
  }

  /** A step that pushes `pre` and the price, appends one position and keeps
      the old worth entries is a `StepTaken`. */
  lemma AppendedOne(before: Snapshot, after: Snapshot, pre: seq<real>, price: real)
    requires after.index == before.index + 1 && after.seen == before.seen + pre + [price]
    requires |after.balances| == |before.balances| + 1 && after.balances[..|before.balances|] == before.balances
    requires |after.shares| == |before.shares| + 1 && after.shares[..|before.shares|] == before.shares
    requires |before.worth| <= |after.worth| && after.worth[..|before.worth|] == before.worth
    ensures StepTaken(before, after, pre, price)
  {
  }

  /** The line printed after each price, as values. */
  datatype Progress = Progress(index: int, balance: real, shares: real, worth: real)

  /** The progress line printed after a step: it only reads the accessors,
      so it changes nothing. */
  method Observe(b: TradingAlgorithm, datum: real) returns (line: Progress)
    requires b.Valid()
    ensures line.index == b.currentIndex
    ensures line.balance == b.balanceHistory[|b.balanceHistory| - 1]
    ensures line.shares == b.sharesHistory[|b.sharesHistory| - 1]
    ensures line.worth == Worth(Position(line.balance, line.shares), datum)
  {
    line := Progress(b.CurrentIndex(), b.CurrentBalance(), b.CurrentShares(), b.CurrentWorth(datum));
  }

  /** Report line `k` holds index `index0 + k + 1` and the position at
      `n0 + k` in the histories. */
  ghost predicate Reports(report: seq<Progress>, index0: int, n0: int, balances: seq<real>, shares: seq<real>)
  {
    && 0 <= n0
    && n0 + |report| <= |balances| && n0 + |report| <= |shares|
    && forall k :: 0 <= k < |report| ==>
         && report[k].index == index0 + k + 1
         && report[k].balance == balances[n0 + k]
         && report[k].shares == shares[n0 + k]
  }

  /** A line for the entry after the reported ones extends the report. */
  lemma ReportsAppend(report: seq<Progress>, index0: int, n0: int, balances: seq<real>, shares: seq<real>,
                      line: Progress)
    requires Reports(report, index0, n0, balances, shares)
    requires n0 + |report| < |balances| && n0 + |report| < |shares|
    requires line.index == index0 + |report| + 1
    requires line.balance == balances[n0 + |report|] && line.shares == shares[n0 + |report|]
    ensures Reports(report + [line], index0, n0, balances, shares)
  {
  }

  /** Report line `k` values its position at `data[k]`. */
  ghost predicate ValuedAt(report: seq<Progress>, data: seq<real>) {
    && |report| <= |data|
    && forall k :: 0 <= k < |report| ==>
         report[k].worth == Worth(Position(report[k].balance, report[k].shares), data[k])
  }

  /** Appending to the histories leaves the reported lines valid. */
  lemma ReportsExtend(report: seq<Progress>, index0: int, n0: int, balances: seq<real>, shares: seq<real>,
                      balances': seq<real>, shares': seq<real>)
    requires Reports(report, index0, n0, balances, shares)
    requires |balances| <= |balances'| && balances'[..|balances|] == balances
    requires |shares| <= |shares'| && shares'[..|shares|] == shares
    ensures Reports(report, index0, n0, balances', shares')
  {
    forall j | n0 <= j < n0 + |report|
      ensures balances'[j] == balances[j] && shares'[j] == shares[j]
    {
      assert balances'[..|balances|][j] == balances'[j];
      assert shares'[..|shares|][j] == shares'[j];
    }
  }

  /** A new line valued at its own price keeps the whole report valued. */
  lemma ValuedAtExtend(report: seq<Progress>, data: seq<real>, line: Progress)
    requires ValuedAt(report, data) && |report| < |data|
    requires line.worth == Worth(Position(line.balance, line.shares), data[|report|])
    ensures ValuedAt(report + [line], data)
  {
  }

  /** The state of the loop after `i` prices from `start`: the index and
      the histories have advanced by `i`, no old entry changed, the prices
      pushed are `lead` (the old prices and the pre-seed) and the first `i`
      prices, and there is one report line per price. */
  ghost predicate Ran(start: Snapshot, lead: seq<real>, data: seq<real>, i: int, now: Snapshot,
                      report: seq<Progress>)
  {
    && 0 <= i <= |data| && |start.shares| == |start.balances|
    && now.index == start.index + i
    && |now.balances| == |start.balances| + i && |now.shares| == |start.shares| + i
    && now.balances[..|start.balances|] == start.balances
    && now.shares[..|start.shares|] == start.shares
    && |start.worth| <= |now.worth| && now.worth[..|start.worth|] == start.worth
    && (i == 0 ==> now == start)
    && (i > 0 ==> now.seen == lead + data[..i])
    && |report| == i
    && Reports(report, start.index, |start.balances|, now.balances, now.shares)
    && ValuedAt(report, data)
  }

  /** One pass of the loop keeps `Ran`. */
  lemma RanStep(start: Snapshot, lead: seq<real>, data: seq<real>, i: int, before: Snapshot, after: Snapshot,
                greedy: bool, report: seq<Progress>, line: Progress)
    requires Ran(start, lead, data, i, before, report) && i < |data|
    requires lead == start.seen + (if |data| > 0 then PreSeed(greedy, start.seen, data[0]) else [])
    requires StepTaken(before, after, PreSeed(greedy, before.seen, data[i]), data[i])
    requires line.index == after.index
    requires |after.balances| > 0 && line.balance == after.balances[|after.balances| - 1]
    requires |after.shares| > 0 && line.shares == after.shares[|after.shares| - 1]
    requires line.worth == Worth(Position(line.balance, line.shares), data[i])
    ensures Ran(start, lead, data, i + 1, after, report + [line])
  {
    var n0 := |start.balances|;
    ReportsExtend(report, start.index, n0, before.balances, before.shares, after.balances, after.shares);
    PrefixOfPrefix(before.balances, after.balances, n0);
    PrefixOfPrefix(before.shares, after.shares, n0);
    PrefixOfPrefix(before.worth, after.worth, |start.worth|);
    ReportsAppend(report, start.index, n0, after.balances, after.shares, line);
    ValuedAtExtend(report, data, line);
    assert data[..i + 1] == data[..i] + [data[i]];
    if i > 0 {
      assert |before.seen| > 0;
    }
  }

  /** `backtest`: one step per price, in order, with `draws[i]` the number the
      random strategy draws at `data[i]`. The histories grow by exactly
      `|data|` entries and keep every old one, the prices are appended (after
      the pre-seed of a fresh greedy instance), and each report line holds
      the index, balance, shares and worth the accessors gave right after
      that step, which the later steps leave in the histories. */
  method Backtest(s: Strategy, data: seq<real>, draws: seq<int>) returns (report: seq<Progress>)
    requires s.Valid() && |draws| == |data|
    requires forall i :: 0 <= i < |data| ==> s.Accepts(data[i], draws[i])
    modifies s.Repr()
    ensures s.Valid()
    ensures BacktestOutcome(old(Snap(s.Base())), Snap(s.Base()), data, s.GreedyStrategy?, report)
  {
    var b := s.Base();
    ghost var start := Snap(b);
    ghost var lead := start.seen + (if |data| > 0 then PreSeed(s.GreedyStrategy?, start.seen, data[0]) else []);
    report := [];
    for i := 0 to |data|
      invariant s.Valid()
      invariant Ran(start, lead, data, i, Snap(b), report)
    {
      report := Round(s, data, draws, i, start, lead, report);
    }
    RanDone(start, lead, data, Snap(b), s.GreedyStrategy?, report);
  }

  /** One pass of the backtest loop: feed price `i` and its draw to the
      strategy, then append the line that reports the new state. */
  method Round(s: Strategy, data: seq<real>, draws: seq<int>, i: int, ghost start: Snapshot,
               ghost lead: seq<real>, report: seq<Progress>)
    returns (report': seq<Progress>)
    requires s.Valid() && 0 <= i < |data| == |draws| && s.Accepts(data[i], draws[i])
    requires lead == start.seen + PreSeed(s.GreedyStrategy?, start.seen, data[0])
    requires Ran(start, lead, data, i, Snap(s.Base()), report)
    modifies s.Repr()
    ensures s.Valid()
    ensures Ran(start, lead, data, i + 1, Snap(s.Base()), report')
  {
    var b := s.Base();
    ghost var before := Snap(b);
    Step(s, data[i], draws[i]);
    var line := Observe(b, data[i]);
    RanStep(start, lead, data, i, before, Snap(b), s.GreedyStrategy?, report, line);
    report' := report + [line];
  }

  /** What a backtest over `data` leaves, from base state `start` to `now`:
      the index and the balance and shares histories have advanced by
      `|data|` and keep every old entry, the prices are appended after the
      pre-seed of a fresh greedy instance, the worth history keeps its old
      entries and is untouched by empty data, and report line `k` holds the
      index, balance and shares after step `k`, valued at `data[k]`. */
  ghost predicate BacktestOutcome(start: Snapshot, now: Snapshot, data: seq<real>, greedy: bool,
                                  report: seq<Progress>)
  {
    var n0 := |start.balances|;
    && now.index == start.index + |data|
    && |now.balances| == n0 + |data| && |now.shares| == |start.shares| + |data|
    && now.balances[..n0] == start.balances
    && now.shares[..|start.shares|] == start.shares
    && now.seen == start.seen + (if |data| > 0 then PreSeed(greedy, start.seen, data[0]) else []) + data
    && |start.worth| <= |now.worth| && now.worth[..|start.worth|] == start.worth
    && (|data| == 0 ==> now == start)
    && |report| == |data|
    && Reports(report, start.index, n0, now.balances, now.shares)
    && ValuedAt(report, data)
  }

  /** The loop state after the last price is the backtest's outcome. */
  lemma RanDone(start: Snapshot, lead: seq<real>, data: seq<real>, now: Snapshot, greedy: bool,
                report: seq<Progress>)
    requires Ran(start, lead, data, |data|, now, report)
    requires lead == start.seen + (if |data| > 0 then PreSeed(greedy, start.seen, data[0]) else [])
    ensures BacktestOutcome(start, now, data, greedy, report)
  {
    assert data[..|data|] == data;
  }

  /** A prefix of a prefix is a prefix. */
  lemma PrefixOfPrefix<T>(s: seq<T>, t: seq<T>, n: int)
    requires 0 <= n <= |s| <= |t| && t[..|s|] == s
    ensures t[..n] == s[..n]
  {
    assert t[..n] == t[..|s|][..n];
  }

  /** The series the backtester runs at load time. */
  const ExampleData: seq<real> := [100.0, 102.5, 105.0, 103.0, 104.0, 90.0, 70.0, 100.0, 100.0, 102.0, 98.0, 102.0]

  /** The script at the end of the backtester: a greedy instance from the
      factory with 100 in cash and 100 shares, run over the example series.
      The first price is compared with itself and holds; the two rises each
      sell half the shares, the fall spends half the cash. */
  method WorkedExample() returns (report: seq<Progress>)
    ensures |report| == |ExampleData|
    ensures report[0].balance == 100.0 && report[0].shares == 100.0
    ensures report[1].balance == 5225.0 && report[1].shares == 50.0
    ensures report[2].balance == 7850.0 && report[2].shares == 25.0
    ensures report[3].balance == 3925.0 && report[3].shares == 6500.0 / 103.0
  {
    var created := AlgorithmFactory.AlgorithmCreate(AlgorithmFactory.MaximallyGreedy, 100.0, 100.0);
    var algorithm := created.value;
    var s := GreedyStrategy(algorithm);
    report := Backtest(s, ExampleData, seq(|ExampleData|, _ => 3));
    GreedyExampleOpening(algorithm);
  }

  /** Under the greedy invariant, a run from 100 in cash and 100 shares whose
      first prices are 100 (twice, pre-seeded), 102.5, 105 and 103 holds
      these first five positions. */
  lemma GreedyExampleOpening(a: Greedy.MaximallyGreedyAlgorithm)
    requires a.Valid() && |a.base.balanceHistory| >= 5
    requires a.base.balanceHistory[0] == 100.0 && a.base.sharesHistory[0] == 100.0
    requires a.base.seenDataPoints[..5] == [100.0, 100.0, 102.5, 105.0, 103.0]
    ensures a.base.balanceHistory[..5] == [100.0, 100.0, 5225.0, 7850.0, 3925.0]
    ensures a.base.sharesHistory[..5] == [100.0, 100.0, 50.0, 25.0, 6500.0 / 103.0]
  {
    var seen := a.base.seenDataPoints;
    assert seen[0] == 100.0 && seen[1] == 100.0 && seen[2] == 102.5 && seen[3] == 105.0 && seen[4] == 103.0;
    assert a.base.PositionAt(1) == Greedy.GreedyTrade(seen[0], seen[1], a.base.PositionAt(0));
    assert a.base.PositionAt(2) == Greedy.GreedyTrade(seen[1], seen[2], a.base.PositionAt(1));
    assert a.base.PositionAt(3) == Greedy.GreedyTrade(seen[2], seen[3], a.base.PositionAt(2));
    assert a.base.PositionAt(4) == Greedy.GreedyTrade(seen[3], seen[4], a.base.PositionAt(3));
  }
}
