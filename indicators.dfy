/** Streaming indicators: simple and exponential moving averages per length,
    and Bollinger bands. Each `Update` consumes the caller's list of seen
    prices and appends to the indicator's own histories. */
module Indicators {
  import opened Series

  /** MA lengths as the strategies use them: positive and, being dictionary
      keys, pairwise distinct; the sequence order is the dictionary order. */
  ghost predicate ValidLengths(lengths: seq<int>) {
    && (forall i :: 0 <= i < |lengths| ==> lengths[i] >= 1)
    && (forall i, j :: 0 <= i < j < |lengths| ==> lengths[i] != lengths[j])
  }

  // ----- Simple moving average -----

  /** What the SMA of `length` denotes after the prices `prices`: the mean of
      the last `min(length, |prices|)` of them, recomputed from scratch. */
  function WindowMean(prices: seq<real>, length: int): real
    requires |prices| > 0 && length >= 1
  {
    Mean(Suffix(prices, length))
  }

  /** The value one update appends for `length`: a full recomputation while
      the history holds at most `length` values, the telescoping update
      `previous + (newest - dropped) / length` after that. */
  function SmaNext(history: seq<real>, seen: seq<real>, length: int): real
    requires length >= 1 && |seen| >= 1
    requires |history| > length ==> |seen| >= length + 1
  {
    if |history| <= length then
      var considered := Suffix(seen, length);
      Sum(considered) / |considered| as real
    else
      history[|history| - 1] + (seen[|seen| - 1] - seen[|seen| - 1 - length]) / length as real
  }

  /** An SMA history that has received one update per price of `seen`. */
  ghost predicate SmaAligned(history: seq<real>, seen: seq<real>, length: int)
    requires length >= 1
  {
    |history| == |seen| && forall i :: 0 <= i < |history| ==> history[i] == WindowMean(seen[..i + 1], length)
  }

  /** One telescoping step: the mean of the window ending at the newest price
      is the previous window's mean plus (newest - dropped) / length. */
  lemma SmaTelescope(seen: seq<real>, length: int)
    requires length >= 1 && |seen| >= length + 2
    ensures WindowMean(seen, length)
         == WindowMean(seen[..|seen| - 1], length) + (seen[|seen| - 1] - seen[|seen| - 1 - length]) / length as real
  {
    var n := |seen|;
    var init := seen[..n - 1];
    var before, after := Suffix(init, length), Suffix(seen, length);
    WindowSums(seen, length);
    assert WindowMean(seen, length) == Sum(after) / length as real;
    assert WindowMean(init, length) == Sum(before) / length as real;
    DivideSum(Sum(before), Sum(after), seen[n - 1] - seen[n - 1 - length], length as real);
  }

  /** The sums behind one telescoping step: the window ending at the newest
      price gains the newest price and loses the one `length` places back. */
  lemma WindowSums(seen: seq<real>, length: int)
    requires length >= 1 && |seen| >= length + 2
    ensures Sum(Suffix(seen, length))
         == Sum(Suffix(seen[..|seen| - 1], length)) + (seen[|seen| - 1] - seen[|seen| - 1 - length])
  {
    var n := |seen|;
    var before, after := Suffix(seen[..n - 1], length), Suffix(seen, length);
    var whole := seen[n - 1 - length..];
    assert before + [seen[n - 1]] == whole;
    assert [seen[n - 1 - length]] + after == whole;
    SumAppend(before, seen[n - 1]);
    SumPrepend(seen[n - 1 - length], after);
  }

  /** Division by a positive number distributes over a sum. */
  lemma DivideSum(x: real, y: real, d: real, l: real)
    requires l > 0.0 && y == x + d
    ensures y / l == x / l + d / l
  {
  }

  /** The telescoping update equals the directly computed window mean, so an
      aligned history stays aligned when one more price is seen. */
  lemma {:induction false} SmaNextIsWindowMean(history: seq<real>, seen: seq<real>, length: int)
    requires length >= 1 && |seen| >= 1
    requires SmaAligned(history, seen[..|seen| - 1], length)
    ensures SmaNext(history, seen, length) == WindowMean(seen, length)
    ensures SmaAligned(history + [SmaNext(history, seen, length)], seen, length)
  {
    var n := |seen|;
    if |history| > length {
      assert history[n - 2] == WindowMean(seen[..n - 1][..n - 1], length);
      assert seen[..n - 1][..n - 1] == seen[..n - 1];
      SmaTelescope(seen, length);
    }
    var next := history + [SmaNext(history, seen, length)];
    forall i | 0 <= i < |next|
      ensures next[i] == WindowMean(seen[..i + 1], length)
    {
      if i < n - 1 {
        assert seen[..n - 1][..i + 1] == seen[..i + 1];
      } else {
        assert seen[..i + 1] == seen;
      }
    }
  }

  /** Updating every history of a map by `SmaNext` keeps each aligned one aligned. */
  lemma SmaUpdateKeepsAligned(before: map<int, seq<real>>, after: map<int, seq<real>>, seen: seq<real>)
    requires |seen| >= 1
    requires forall l :: l in after ==> l in before && l >= 1 && (|before[l]| > l ==> |seen| > l)
    requires forall l :: l in after ==> after[l] == before[l] + [SmaNext(before[l], seen, l)]
    ensures forall l :: l in after && SmaAligned(before[l], seen[..|seen| - 1], l) ==> SmaAligned(after[l], seen, l)
  {
    forall l | l in after && SmaAligned(before[l], seen[..|seen| - 1], l)
      ensures SmaAligned(after[l], seen, l)
    {
      SmaNextIsWindowMean(before[l], seen, l);
    }
  }

  class SimpleMovingAverageIndicator {
    const maLengths: seq<int>
    var maHistories: map<int, seq<real>>

    ghost predicate Valid()
      reads this
    {
      ValidLengths(maLengths) && forall l :: l in maHistories <==> l in maLengths
    }

    constructor (maLengths: seq<int>)
      requires ValidLengths(maLengths)
      ensures Valid() && this.maLengths == maLengths
      ensures forall l :: l in maHistories ==> maHistories[l] == []
    {
      this.maLengths := maLengths;
      maHistories := map l | l in maLengths :: [];
    }

    /** Nothing happens for an empty list; otherwise every length gets exactly
        one new value, and a history that was aligned with all prices but the
        newest is aligned with all of them afterwards. The precondition is the
        one under which `seen_data_points[-1 - length]` is in range. */
    method Update(seenDataPoints: seq<real>)
      requires Valid()
      requires forall l :: l in maHistories && |maHistories[l]| > l ==> |seenDataPoints| > l
      modifies this
      ensures Valid()
      ensures seenDataPoints == [] ==> maHistories == old(maHistories)
      ensures seenDataPoints != [] ==> forall l :: l in maHistories ==>
                maHistories[l] == old(maHistories[l]) + [SmaNext(old(maHistories[l]), seenDataPoints, l)]
      ensures seenDataPoints != [] ==> forall l :: l in maHistories ==>
                old(SmaAligned(maHistories[l], seenDataPoints[..|seenDataPoints| - 1], l)) ==>
                SmaAligned(maHistories[l], seenDataPoints, l)
    {
      if seenDataPoints == [] {
        return;
      }
      var latest := seenDataPoints[|seenDataPoints| - 1];
      for i := 0 to |maLengths|
        invariant Valid()
        invariant forall j :: 0 <= j < i ==>
                    maHistories[maLengths[j]] == old(maHistories[maLengths[j]]) +
                      [SmaNext(old(maHistories[maLengths[j]]), seenDataPoints, maLengths[j])]
        invariant forall j :: i <= j < |maLengths| ==> maHistories[maLengths[j]] == old(maHistories[maLengths[j]])
      {
        var length := maLengths[i];
        var history := maHistories[length];
        var newSma;
        if |history| <= length {
          var consideredHistory := Suffix(seenDataPoints, length);
          var consideredLength := |consideredHistory|;
          newSma := Sum(consideredHistory) / consideredLength as real;
        } else {
          newSma := history[|history| - 1] + (latest - seenDataPoints[|seenDataPoints| - 1 - length]) / length as real;
        }
        assert newSma == SmaNext(history, seenDataPoints, length);
        maHistories := maHistories[length := history + [newSma]];
      }
      SmaUpdateKeepsAligned(old(maHistories), maHistories, seenDataPoints);
    }
  }

  // ----- Exponential moving average -----

  /** EMA lengths: any length but -1, where the weight divides by zero, and,
      being dictionary keys, pairwise distinct. A length of 0 or below -1
      gives a weight outside [0, 1] but is computed all the same. */
  ghost predicate EmaLengths(lengths: seq<int>) {
    && (forall i :: 0 <= i < |lengths| ==> lengths[i] != -1)
    && (forall i, j :: 0 <= i < j < |lengths| ==> lengths[i] != lengths[j])
  }

  /** The weight `a = smoothing_factor / (1 + length)` of the newest price. */
  function SmoothingWeight(smoothingFactor: real, length: int): real
    requires length != -1
  {
    smoothingFactor / (1 + length) as real
  }

  /** With the default smoothing factor 2.0 every length gives a weight in (0, 1]. */
  lemma DefaultSmoothingWeightInRange(length: int)
    requires length >= 1
    ensures 0.0 < SmoothingWeight(2.0, length) <= 1.0
  {
  }

  /** The value one update appends: the newest price itself for an empty
      history, then `latest * a + previous * (1 - a)`. */
  function EmaNext(history: seq<real>, latest: real, length: int, smoothingFactor: real): real
    requires length != -1
  {
    if |history| == 0 then latest
    else
      var a := SmoothingWeight(smoothingFactor, length);
      latest * a + history[|history| - 1] * (1.0 - a)
  }

  /** For a weight in [0, 1], a later value lies between the previous value and
      the newest price; the first value is the newest price. */
  lemma EmaNextBetween(history: seq<real>, latest: real, length: int, smoothingFactor: real)
    requires length != -1 && 0.0 <= SmoothingWeight(smoothingFactor, length) <= 1.0
    ensures |history| == 0 ==> EmaNext(history, latest, length, smoothingFactor) == latest
    ensures |history| > 0 ==>
              var prev, next := history[|history| - 1], EmaNext(history, latest, length, smoothingFactor);
              (prev <= latest ==> prev <= next <= latest) && (latest <= prev ==> latest <= next <= prev)
  {
    if |history| > 0 {
      var a := SmoothingWeight(smoothingFactor, length);
      var prev := history[|history| - 1];
      assert latest * a + prev * (1.0 - a) == prev + a * (latest - prev);
      ScaleByWeight(a, latest - prev);
    }
  }

  /** An EMA history that has received one update per price of `seen`. */
  ghost predicate EmaAligned(history: seq<real>, seen: seq<real>, length: int, smoothingFactor: real)
    requires length != -1
  {
    && |history| == |seen|
    && (|seen| > 0 ==> history[0] == seen[0])
    && forall i :: 1 <= i < |history| ==>
         history[i] == EmaNext(history[..i], seen[i], length, smoothingFactor)
  }

  /** For a weight in [0, 1] an aligned EMA never leaves the range of the
      prices it was fed; in particular a constant series gives a constant EMA. */
  lemma EmaWithinPriceRange(history: seq<real>, seen: seq<real>, length: int,
                            smoothingFactor: real, lo: real, hi: real)
    requires length != -1 && 0.0 <= SmoothingWeight(smoothingFactor, length) <= 1.0
    requires EmaAligned(history, seen, length, smoothingFactor)
    requires forall i :: 0 <= i < |seen| ==> lo <= seen[i] <= hi
    ensures forall i :: 0 <= i < |history| ==> lo <= history[i] <= hi
  {
    forall i | 0 <= i < |history|
      ensures lo <= history[i] <= hi
    {
      EmaEntryInRange(history, seen, length, smoothingFactor, lo, hi, i);
    }
  }

  /** Entry `i` of an aligned EMA lies in the price range, by induction on `i`. */
  lemma {:induction false} EmaEntryInRange(history: seq<real>, seen: seq<real>, length: int,
                                          smoothingFactor: real, lo: real, hi: real, i: int)
    requires length != -1 && 0.0 <= SmoothingWeight(smoothingFactor, length) <= 1.0
    requires EmaAligned(history, seen, length, smoothingFactor)
    requires forall k :: 0 <= k < |seen| ==> lo <= seen[k] <= hi
    requires 0 <= i < |history|
    ensures lo <= history[i] <= hi
    decreases i
  {
    if i > 0 {
      var j := i - 1;
      EmaEntryInRange(history, seen, length, smoothingFactor, lo, hi, j);
      var prefix := history[..i];
      assert prefix[|prefix| - 1] == history[j];
      EmaNextBetween(prefix, seen[i], length, smoothingFactor);
    }
  }

  /** One more update keeps an EMA history aligned with the prices. */
  lemma EmaAlignedExtend(history: seq<real>, seen: seq<real>, length: int, smoothingFactor: real)
    requires length != -1 && |seen| >= 1
    requires EmaAligned(history, seen[..|seen| - 1], length, smoothingFactor)
    ensures EmaAligned(history + [EmaNext(history, Last(seen), length, smoothingFactor)], seen, length, smoothingFactor)
  {
    var n := |seen|;
    var h := history + [EmaNext(history, Last(seen), length, smoothingFactor)];
    forall i | 1 <= i < |h|
      ensures h[i] == EmaNext(h[..i], seen[i], length, smoothingFactor)
    {
      if i < n - 1 {
        assert h[..i] == history[..i];
        assert seen[i] == seen[..n - 1][i];
      } else {
        assert h[..i] == history;
      }
    }
    if n > 1 {
      assert seen[0] == seen[..n - 1][0];
    }
  }

  class ExponentialMovingAverageIndicator {
    const maLengths: seq<int>
    const smoothingFactor: real
    var maHistories: map<int, seq<real>>

    ghost predicate Valid()
      reads this
    {
      EmaLengths(maLengths) && forall l :: l in maHistories <==> l in maLengths
    }

    constructor (maLengths: seq<int>, smoothingFactor: real := 2.0)
      requires EmaLengths(maLengths)
      ensures Valid() && this.maLengths == maLengths && this.smoothingFactor == smoothingFactor
      ensures forall l :: l in maHistories ==> maHistories[l] == []
    {
      this.maLengths := maLengths;
      this.smoothingFactor := smoothingFactor;
      maHistories := map l | l in maLengths :: [];
    }

    /** Nothing happens for an empty list; otherwise every length gets exactly
        one new value, computed from the newest price, and aligned histories
        stay aligned. */
    method Update(seenDataPoints: seq<real>)
      requires Valid()
      modifies this
      ensures Valid()
      ensures seenDataPoints == [] ==> maHistories == old(maHistories)
      ensures seenDataPoints != [] ==> forall l :: l in maHistories ==>
                maHistories[l] == old(maHistories[l]) +
                  [EmaNext(old(maHistories[l]), Last(seenDataPoints), l, smoothingFactor)]
      ensures seenDataPoints != [] ==> forall l :: l in maHistories ==>
                old(EmaAligned(maHistories[l], seenDataPoints[..|seenDataPoints| - 1], l, smoothingFactor)) ==>
                EmaAligned(maHistories[l], seenDataPoints, l, smoothingFactor)
    {
      if seenDataPoints == [] {
        return;
      }
      var latest := seenDataPoints[|seenDataPoints| - 1];
      for i := 0 to |maLengths|
        invariant Valid()
        invariant forall j :: 0 <= j < i ==>
                    maHistories[maLengths[j]] == old(maHistories[maLengths[j]]) +
                      [EmaNext(old(maHistories[maLengths[j]]), latest, maLengths[j], smoothingFactor)]
        invariant forall j :: i <= j < |maLengths| ==> maHistories[maLengths[j]] == old(maHistories[maLengths[j]])
      {
        var length := maLengths[i];
        var history := maHistories[length];
        if |history| == 0 {
          maHistories := maHistories[length := history + [latest]];
          continue;
        }
        var a := smoothingFactor / (1 + length) as real;
        assert EmaNext(history, latest, length, smoothingFactor) == latest * a + history[|history| - 1] * (1.0 - a);
        maHistories := maHistories[length := history + [latest * a + history[|history| - 1] * (1.0 - a)]];
      }
      forall l | l in maHistories && old(EmaAligned(maHistories[l], seenDataPoints[..|seenDataPoints| - 1], l, smoothingFactor))
        ensures EmaAligned(maHistories[l], seenDataPoints, l, smoothingFactor)
      {
        var j :| 0 <= j < |maLengths| && maLengths[j] == l;
        EmaAlignedExtend(old(maHistories[l]), seenDataPoints, l, smoothingFactor);
      }
    }
  }

  // ----- Bollinger bands -----

  datatype Bands = Bands(upper: real, lower: real)

  /** Python's `sum((p - mean) ** 2 for p in window)`. */
  function SquaredDeviations(window: seq<real>, mean: real): (r: real)
    ensures r >= 0.0
    decreases |window|
  {
    if window == [] then 0.0
    else
      var d := window[|window| - 1] - mean;
      SquaredDeviations(window[..|window| - 1], mean) + d * d
  }

  /** Population variance of a non-empty window. */
  function Variance(window: seq<real>): (r: real)
    requires |window| > 0
    ensures r >= 0.0
  {
    SquaredDeviations(window, Mean(window)) / |window| as real
  }

  /** The square root (`** 0.5`) is supplied from outside: any total function
      that is a square root on the non-negative reals, zero at zero. (Zero at
      zero follows from the rest, but the solver does not find that itself.) */
  ghost predicate IsSqrt(sqrt: real -> real) {
    && sqrt(0.0) == 0.0
    && forall v :: v >= 0.0 ==> sqrt(v) >= 0.0 && sqrt(v) * sqrt(v) == v
  }

  /** The bands of a window: mean plus and minus `numStdDev` standard deviations. */
  function BollingerBandsOf(window: seq<real>, numStdDev: real, sqrt: real -> real): Bands
    requires |window| > 0
  {
    var mean := Sum(window) / |window| as real;
    var stdDev := sqrt(SquaredDeviations(window, mean) / |window| as real);
    Bands(mean + numStdDev * stdDev, mean - numStdDev * stdDev)
  }

  /** The bands lie symmetrically about the window mean, each at a squared
      distance of `numStdDev^2` times the population variance, and the upper
      band is not below the lower one when `numStdDev >= 0`. */
  lemma BandsAroundMean(window: seq<real>, numStdDev: real, sqrt: real -> real)
    requires |window| > 0 && IsSqrt(sqrt)
    ensures var b, m := BollingerBandsOf(window, numStdDev, sqrt), Mean(window);
      && b.upper + b.lower == 2.0 * m
      && b.upper - m == m - b.lower
      && (b.upper - m) * (b.upper - m) == numStdDev * numStdDev * Variance(window)
      && (numStdDev >= 0.0 ==> b.upper >= b.lower)
  {
    var m := Mean(window);
    var s := sqrt(Variance(window));
    assert s >= 0.0 && s * s == Variance(window);
    assert (numStdDev * s) * (numStdDev * s) == numStdDev * numStdDev * (s * s);
    if numStdDev >= 0.0 {
      assert numStdDev * s >= 0.0;
    }
  }

  class BollingerBandsIndicator {
    const windowSize: int
    const numStdDev: real
    const sqrt: real -> real
    var upperBandHistory: seq<real>
    var lowerBandHistory: seq<real>

    ghost predicate Valid()
      reads this
    {
      IsSqrt(sqrt) && windowSize >= 1 && |upperBandHistory| == |lowerBandHistory|
    }

    /** A window size of 0 makes every update divide by zero; a negative one
        drops the first `-windowSize` prices instead of keeping the last ones,
        divides by a negative count and takes `** 0.5` of a variance that is
        not positive, which Python answers with a complex number. Only window
        sizes of at least 1 give bands. */
    constructor (sqrt: real -> real, windowSize: int := 20, numStdDev: real := 2.0)
      requires IsSqrt(sqrt) && windowSize >= 1
      ensures Valid() && upperBandHistory == [] && lowerBandHistory == []
      ensures this.windowSize == windowSize && this.numStdDev == numStdDev && this.sqrt == sqrt
    {
      this.windowSize := windowSize;
      this.numStdDev := numStdDev;
      this.sqrt := sqrt;
      upperBandHistory := [];
      lowerBandHistory := [];
    }

    /** With fewer than `windowSize` prices there is no value and nothing is
        appended; otherwise the bands of the last `windowSize` prices are
        returned and one upper and one lower value appended. */
    method Update(seenDataPoints: seq<real>) returns (r: Option<Bands>)
      requires Valid()
      modifies this
      ensures Valid()
      ensures |seenDataPoints| < windowSize ==>
                r == None && upperBandHistory == old(upperBandHistory) && lowerBandHistory == old(lowerBandHistory)
      ensures |seenDataPoints| >= windowSize ==>
                var b := BollingerBandsOf(seenDataPoints[|seenDataPoints| - windowSize..], numStdDev, sqrt);
                && r == Some(b)
                && upperBandHistory == old(upperBandHistory) + [b.upper]
                && lowerBandHistory == old(lowerBandHistory) + [b.lower]
    {
      if |seenDataPoints| < windowSize {
        return None;
      }
      var window := seenDataPoints[|seenDataPoints| - windowSize..];
      assert |window| == windowSize;
      var mean := Sum(window) / windowSize as real;
      var variance := SquaredDeviations(window, mean) / windowSize as real;
      var stdDev := sqrt(variance);
      assert Bands(mean + numStdDev * stdDev, mean - numStdDev * stdDev) == BollingerBandsOf(window, numStdDev, sqrt);

      var upperBand := mean + numStdDev * stdDev;
      var lowerBand := mean - numStdDev * stdDev;
      upperBandHistory := upperBandHistory + [upperBand];
      lowerBandHistory := lowerBandHistory + [lowerBand];
      return Some(Bands(upperBand, lowerBand));
    }
  }
}
