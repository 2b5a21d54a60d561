/** Closed forms of the volatility indicators: Bollinger bands around the
    moving average, and the average true range as the source computes it. */
module Volatility {
  import opened Arith
  import opened Kline
  import opened Averages

  // ---------------------------------------------------------------- BOLL

  function SquaredDeviations(xs: seq<int>, m: int): seq<int>
  {
    seq(|xs|, j => if 0 <= j < |xs| then (xs[j] - m) * (xs[j] - m) else 0)
  }

  /** Distance of each band from the middle line at i >= n - 1: twice the
      square root (the external integer square root `sqrt`) of the
      population variance of the window's closes around mid[i]. */
  function BollOffset(ks: seq<Bar>, n: int, sqrt: int -> int, i: int): int
    requires n >= 1 && n - 1 <= i < |ks|
  {
    var variance := Quot(Sum(SquaredDeviations(Closes(ks), MaAt(ks, n, i)), i - n + 1, i + 1), n);
    sqrt(variance) * 2
  }

  function BollUpperAt(ks: seq<Bar>, n: int, sqrt: int -> int, i: int): Price
    requires n >= 1 && 0 <= i < |ks|
  {
    if i >= n - 1 then MaAt(ks, n, i) + BollOffset(ks, n, sqrt, i) else 0
  }

  function BollLowerAt(ks: seq<Bar>, n: int, sqrt: int -> int, i: int): Price
    requires n >= 1 && 0 <= i < |ks|
  {
    if i >= n - 1 then MaAt(ks, n, i) - BollOffset(ks, n, sqrt, i) else 0
  }

  function BollUpper(ks: seq<Bar>, n: int, sqrt: int -> int): seq<Price>
    requires n >= 1
  {
    seq(|ks|, i => if 0 <= i < |ks| then BollUpperAt(ks, n, sqrt, i) else 0)
  }

  function BollLower(ks: seq<Bar>, n: int, sqrt: int -> int): seq<Price>
    requires n >= 1
  {
    seq(|ks|, i => if 0 <= i < |ks| then BollLowerAt(ks, n, sqrt, i) else 0)
  }

  /** Both bands at i >= n - 1 from the window's sum of squared deviations. */
  lemma BollStep(ks: seq<Bar>, n: int, sqrt: int -> int, i: int, sum: int)
    requires n >= 1 && n - 1 <= i < |ks|
    requires sum == Sum(SquaredDeviations(Closes(ks), MaSeries(ks, n)[i]), i - n + 1, i + 1)
    ensures BollUpper(ks, n, sqrt)[i] == MaSeries(ks, n)[i] + sqrt(Quot(sum, n)) * 2
    ensures BollLower(ks, n, sqrt)[i] == MaSeries(ks, n)[i] - sqrt(Quot(sum, n)) * 2
  {
  }

  /** The variance the square root is taken of is never negative. */
  lemma VarianceNonNegative(ks: seq<Bar>, n: int, i: int)
    requires n >= 1 && n - 1 <= i < |ks|
    ensures Quot(Sum(SquaredDeviations(Closes(ks), MaAt(ks, n, i)), i - n + 1, i + 1), n) >= 0
  {
    var sd := SquaredDeviations(Closes(ks), MaAt(ks, n, i));
    forall k | i - n + 1 <= k < i + 1
      ensures sd[k] >= 0
    {
      var d := Closes(ks)[k] - MaAt(ks, n, i);
      assert sd[k] == d * d;
    }
    SumNonNegative(sd, i - n + 1, i + 1);
    QuotOfNonNegative(Sum(sd, i - n + 1, i + 1), n);
  }

  /** The bands are 0 during the warm-up and afterwards sit symmetrically
      around the middle line, upper above and lower below, for any square
      root that is non-negative on non-negative input. */
  lemma BollBandsOrdered(ks: seq<Bar>, n: int, sqrt: int -> int)
    requires n >= 1
    requires forall v :: v >= 0 ==> sqrt(v) >= 0
    ensures forall i :: 0 <= i < n - 1 && i < |ks| ==>
      BollUpper(ks, n, sqrt)[i] == 0 && MaSeries(ks, n)[i] == 0 && BollLower(ks, n, sqrt)[i] == 0
    ensures forall i :: n - 1 <= i < |ks| ==>
      BollUpper(ks, n, sqrt)[i] - MaSeries(ks, n)[i] == MaSeries(ks, n)[i] - BollLower(ks, n, sqrt)[i] >= 0
  {
    forall i | n - 1 <= i < |ks|
      ensures BollUpper(ks, n, sqrt)[i] - MaSeries(ks, n)[i] == MaSeries(ks, n)[i] - BollLower(ks, n, sqrt)[i] >= 0
    {
      VarianceNonNegative(ks, n, i);
    }
  }

  /** Around its own value, a flat window has variance 0. */
  lemma FlatVarianceIsZero(xs: seq<int>, lo: int, hi: int, n: int, c: int)
    requires 0 <= lo <= hi <= |xs| && n >= 1
    requires forall k :: lo <= k < hi ==> xs[k] == c
    ensures Quot(Sum(SquaredDeviations(xs, c), lo, hi), n) == 0
  {
    var sd := SquaredDeviations(xs, c);
    forall k | lo <= k < hi
      ensures sd[k] == 0
    {
      assert xs[k] - c == 0;
    }
    SumConstant(sd, lo, hi, 0);
    QuotExact(0, n);
  }

  /** On a flat series, with a square root that maps 0 to 0, the three
      lines coincide at the price after the warm-up. */
  lemma BollOfConstant(ks: seq<Bar>, n: int, sqrt: int -> int, c: Price)
    requires n >= 1 && sqrt(0) == 0
    requires forall k :: 0 <= k < |ks| ==> ks[k].close == c
    ensures forall i :: n - 1 <= i < |ks| ==>
      BollUpper(ks, n, sqrt)[i] == c && MaSeries(ks, n)[i] == c && BollLower(ks, n, sqrt)[i] == c
  {
    MaOfConstant(ks, n, c);
    forall i | n - 1 <= i < |ks|
      ensures BollUpper(ks, n, sqrt)[i] == c && BollLower(ks, n, sqrt)[i] == c
    {
      assert MaAt(ks, n, i) == MaSeries(ks, n)[i];
      FlatVarianceIsZero(Closes(ks), i - n + 1, i + 1, n, c);
      assert BollOffset(ks, n, sqrt, i) == 0;
    }
  }

  // ---------------------------------------------------------------- ATR

  /** ATR at i as the source computes it: for i >= n the running sum holds
      the true ranges of bars i - n + 2 .. i (n - 1 of them, because each
      step subtracts the range of bar i - n + 1, the oldest one still
      inside the window) and is divided by n; 0 before. */
  function AtrAt(ks: seq<Bar>, n: int, i: int): Price
    requires n >= 1 || |ks| <= 1
    requires 0 <= i < |ks|
  {
    if i >= 1 && i >= n then Quot(Sum(TrueRanges(ks), i - n + 2, i + 1), n) else 0
  }

  function AtrSeries(ks: seq<Bar>, n: int): seq<Price>
    requires n >= 1 || |ks| <= 1
  {
    seq(|ks|, i requires 0 <= i < |ks| => AtrAt(ks, n, i))
  }

  /** One step of the source's ATR loop at bar i: the running sum of the
      true ranges since bar max(1, i - n + 1), plus the range of bar i and,
      from i = n on, minus the range of bar i - n + 1, is the running sum
      for the next step, and AtrAt at i is that sum over n (0 before n). */
  lemma AtrRunningSum(ks: seq<Bar>, n: int, i: int, sum: int)
    requires n >= 1 && 1 <= i < |ks|
    requires sum == Sum(TrueRanges(ks), Max(1, i - n + 1), i)
    ensures i < n ==> sum + TrueRange(ks[i - 1], ks[i]) == Sum(TrueRanges(ks), Max(1, i - n + 2), i + 1)
    ensures i < n ==> AtrAt(ks, n, i) == 0
    ensures i >= n ==>
      sum + TrueRange(ks[i - 1], ks[i]) - TrueRange(ks[i - n], ks[i - n + 1])
        == Sum(TrueRanges(ks), Max(1, i - n + 2), i + 1)
    ensures i >= n ==>
      AtrAt(ks, n, i) == Quot(sum + TrueRange(ks[i - 1], ks[i]) - TrueRange(ks[i - n], ks[i - n + 1]), n)
  {
    var trs := TrueRanges(ks);
    assert Sum(trs, Max(1, i - n + 1), i + 1) == sum + trs[i];
    if i >= n {
      SumFront(trs, i - n + 1, i + 1);
    }
  }

  /** A series that agrees with AtrAt everywhere is the ATR series. */
  lemma AtrSeriesFrom(ks: seq<Bar>, n: int, s: seq<Price>)
    requires n >= 1 || |ks| <= 1
    requires |s| == |ks| && forall k :: 0 <= k < |ks| ==> s[k] == AtrAt(ks, n, k)
    ensures s == AtrSeries(ks, n)
  {
  }

  /** True ranges are never negative, so neither is any ATR value. */
  lemma AtrNonNegative(ks: seq<Bar>, n: int)
    requires n >= 1 || |ks| <= 1
    ensures forall i :: 0 <= i < |ks| ==> AtrSeries(ks, n)[i] >= 0
  {
    forall i | 1 <= i < |ks| && i >= n
      ensures AtrSeries(ks, n)[i] >= 0
    {
      SumNonNegative(TrueRanges(ks), i - n + 2, i + 1);
      QuotOfNonNegative(Sum(TrueRanges(ks), i - n + 2, i + 1), n);
    }
  }

  /** When every bar has the same true range r, the source's ATR is
      (n - 1) * r / n rather than r. */
  lemma AtrOfConstantRange(ks: seq<Bar>, n: int, r: Price)
    requires n >= 1
    requires forall k :: 1 <= k < |ks| ==> TrueRanges(ks)[k] == r
    ensures forall i :: n <= i < |ks| ==> AtrSeries(ks, n)[i] == Quot((n - 1) * r, n)
  {
    forall i | n <= i < |ks|
      ensures AtrSeries(ks, n)[i] == Quot((n - 1) * r, n)
    {
      SumConstant(TrueRanges(ks), i - n + 2, i + 1, r);
    }
  }

  /** With a one-bar window the source's ATR is 0 everywhere: each step
      subtracts the range it has just added. */
  lemma AtrOneBarWindowIsZero(ks: seq<Bar>)
    ensures forall i :: 0 <= i < |ks| ==> AtrSeries(ks, 1)[i] == 0
  {
  }
}
