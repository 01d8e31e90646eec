/** Sequences of prices and the Python built-ins the strategies apply to them:
    `sum`, `max`, `min`, the mean of a window and the suffix slice `s[-n:]`. */
module Series {

  datatype Option<T> = None | Some(value: T)

  /** Python's `sum`, adding from the left. */
  function Sum(s: seq<real>): real
    decreases |s|
  {
    if s == [] then 0.0 else Sum(s[..|s| - 1]) + s[|s| - 1]
  }

  lemma SumAppend(s: seq<real>, x: real)
    ensures Sum(s + [x]) == Sum(s) + x
  {
    assert (s + [x])[..|s|] == s;
  }

  /** Dropping the first element of a window takes it out of the sum. */
  lemma {:induction false} SumPrepend(x: real, s: seq<real>)
    ensures Sum([x] + s) == x + Sum(s)
    decreases |s|
  {
    if s == [] {
      assert [x] + s == [x];
      assert [x][..0] == [];
    } else {
      var init := s[..|s| - 1];
      SumPrepend(x, init);
      assert ([x] + s)[..|s|] == [x] + init;
    }
  }

  /** A constant window sums to its length times the constant. */
  lemma {:induction false} SumConstant(s: seq<real>, c: real)
    requires forall i :: 0 <= i < |s| ==> s[i] == c
    ensures Sum(s) == |s| as real * c
    decreases |s|
  {
    if s != [] {
      SumConstant(s[..|s| - 1], c);
    }
  }

  function Mean(s: seq<real>): real
    requires |s| > 0
  {
    Sum(s) / |s| as real
  }

  /** Python's `s[-n:]`: the last `n` elements, the whole sequence when it is
      shorter, and also the whole sequence when `n == 0` (because `-0 == 0`). */
  function Suffix(s: seq<real>, n: nat): (r: seq<real>)
    ensures |r| == if n == 0 || n >= |s| then |s| else n
    ensures r == s[|s| - |r|..]
  {
    if n == 0 || n >= |s| then s else s[|s| - n..]
  }

  /** Python's `max` of a non-empty list. */
  function Max(s: seq<real>): real
    requires |s| > 0
    decreases |s|
  {
    if |s| == 1 then s[0]
    else
      var m := Max(s[..|s| - 1]);
      if s[|s| - 1] > m then s[|s| - 1] else m
  }

  /** The maximum is an element and no element is above it. */
  lemma {:induction false} MaxBounds(s: seq<real>)
    requires |s| > 0
    ensures exists i :: 0 <= i < |s| && s[i] == Max(s)
    ensures forall i :: 0 <= i < |s| ==> s[i] <= Max(s)
    decreases |s|
  {
    if |s| == 1 {
      assert s[0] == Max(s);
    } else {
      var t := s[..|s| - 1];
      MaxBounds(t);
      assert forall i :: 0 <= i < |t| ==> t[i] == s[i];
      var j :| 0 <= j < |t| && t[j] == Max(t);
      if s[|s| - 1] <= Max(t) {
        assert s[j] == Max(s);
      } else {
        assert s[|s| - 1] == Max(s);
      }
    }
  }

  /** Python's `min` of a non-empty list. */
  function Min(s: seq<real>): real
    requires |s| > 0
    decreases |s|
  {
    if |s| == 1 then s[0]
    else
      var m := Min(s[..|s| - 1]);
      if s[|s| - 1] < m then s[|s| - 1] else m
  }

  /** The minimum is an element and no element is below it. */
  lemma {:induction false} MinBounds(s: seq<real>)
    requires |s| > 0
    ensures exists i :: 0 <= i < |s| && s[i] == Min(s)
    ensures forall i :: 0 <= i < |s| ==> Min(s) <= s[i]
    decreases |s|
  {
    if |s| == 1 {
      assert s[0] == Min(s);
    } else {
      var t := s[..|s| - 1];
      MinBounds(t);
      assert forall i :: 0 <= i < |t| ==> t[i] == s[i];
      var j :| 0 <= j < |t| && t[j] == Min(t);
      if s[|s| - 1] >= Min(t) {
        assert s[j] == Min(s);
      } else {
        assert s[|s| - 1] == Min(s);
      }
    }
  }

  function Last(s: seq<real>): real
    requires |s| > 0
  {
    s[|s| - 1]
  }

  /** Scaling by a weight in [0, 1] moves a quantity towards zero. */
  lemma ScaleByWeight(a: real, d: real)
    requires 0.0 <= a <= 1.0
    ensures d >= 0.0 ==> 0.0 <= a * d <= d
    ensures d <= 0.0 ==> d <= a * d <= 0.0
  {
  }

  /** Multiplying both sides by a non-negative factor keeps an inequality. */
  lemma MulMonotone(x: real, y: real, m: real)
    requires x <= y && m >= 0.0
    ensures x * m <= y * m
  {
  }

  /** Dividing by a positive number keeps the order of the dividends. */
  lemma DivOrder(a: real, b: real, c: real)
    requires c > 0.0
    ensures a / c > b / c <==> a > b
    ensures a / c == b / c <==> a == b
  {
    assert a / c - b / c == (a - b) / c;
  }

  ghost predicate NonZero(s: seq<real>) {
    forall i :: 0 <= i < |s| ==> s[i] != 0.0
  }

  ghost predicate AllPositive(s: seq<real>) {
    forall i :: 0 <= i < |s| ==> s[i] > 0.0
  }
}
