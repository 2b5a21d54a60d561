/** Closed forms of the averaging indicators (MA, EMA, MACD, VWAP) and
    the properties they have. The methods of module Klines are proved to
    compute exactly these series. */
module Averages {
  import opened Arith
  import opened Kline

  // ---------------------------------------------------------------- MA

  /** Simple moving average at index i: the truncated mean of the n closes
      ending at i once a full window exists, the sentinel 0 before. */
  function MaAt(ks: seq<Bar>, n: int, i: int): Price
    requires n >= 1 && 0 <= i < |ks|
  {
    if i >= n - 1 then Quot(Sum(Closes(ks), i - n + 1, i + 1), n) else 0
  }

  function MaSeries(ks: seq<Bar>, n: int): seq<Price>
    requires n >= 1 || ks == []
  {
    seq(|ks|, i => if 0 <= i < |ks| then MaAt(ks, n, i) else 0)
  }

  /** A moving average lies between the lowest and the highest close of its
      window, despite the truncation. */
  lemma MaWithinWindow(ks: seq<Bar>, n: int, i: int, lo: Price, hi: Price)
    requires n >= 1 && n - 1 <= i < |ks|
    requires forall k :: i - n + 1 <= k <= i ==> lo <= ks[k].close <= hi
    ensures lo <= MaSeries(ks, n)[i] <= hi
  {
    var cs := Closes(ks);
    SumBetween(cs, i - n + 1, i + 1, lo, hi);
    QuotBetween(Sum(cs, i - n + 1, i + 1), n, lo, hi);
  }

  /** On a flat series the average is the price itself after the warm-up
      and the sentinel before it. */
  lemma MaOfConstant(ks: seq<Bar>, n: int, c: Price)
    requires n >= 1
    requires forall k :: 0 <= k < |ks| ==> ks[k].close == c
    ensures |MaSeries(ks, n)| == |ks|
    ensures forall i :: 0 <= i < |ks| ==> MaSeries(ks, n)[i] == if i >= n - 1 then c else 0
  {
    forall i | n - 1 <= i < |ks|
      ensures MaSeries(ks, n)[i] == c
    {
      MaWithinWindow(ks, n, i, c, c);
    }
  }

  /** Five closes of 10 with a window of 3 give [0, 0, 10, 10, 10]. */
  lemma MaFlatExample(ks: seq<Bar>)
    requires |ks| == 5 && forall k :: 0 <= k < 5 ==> ks[k].close == 10
    ensures MaSeries(ks, 3) == [0, 0, 10, 10, 10]
  {
    MaOfConstant(ks, 3, 10);
  }

  // ---------------------------------------------------------------- EMA

  /** Seeded exponential smoothing with period n, as the EMA loop and the
      DEA loop run it: the first value is the seed, every later one is
      (2 x + (n - 1) prev) / (n + 1), truncated. */
  function Smooth(xs: seq<int>, n: int): (r: seq<int>)
    requires n != -1 || |xs| <= 1
    ensures |r| == |xs|
    decreases |xs|
  {
    if |xs| <= 1 then xs
    else
      var prev := Smooth(xs[..|xs| - 1], n);
      prev + [Quot(xs[|xs| - 1] * 2 + prev[|xs| - 2] * (n - 1), n + 1)]
  }

  /** Smoothing never looks ahead: a prefix of the input is smoothed to the
      same prefix of the output. */
  lemma {:induction false} SmoothPrefix(xs: seq<int>, n: int, k: int)
    requires n != -1 || |xs| <= 1
    requires 0 <= k <= |xs|
    ensures Smooth(xs[..k], n) == Smooth(xs, n)[..k]
    decreases |xs|
  {
    if k == |xs| {
      assert xs[..k] == xs;
    } else if |xs| >= 2 {
      var front := xs[..|xs| - 1];
      SmoothPrefix(front, n, k);
      assert front[..k] == xs[..k];
    }
  }

  /** The seed and the recurrence, index by index. */
  lemma SmoothStep(xs: seq<int>, n: int, i: int)
    requires n != -1 || |xs| <= 1
    requires 0 <= i < |xs|
    ensures i == 0 ==> Smooth(xs, n)[0] == xs[0]
    ensures i >= 1 ==> Smooth(xs, n)[i] == Quot(xs[i] * 2 + Smooth(xs, n)[i - 1] * (n - 1), n + 1)
  {
    var p := xs[..i + 1];
    SmoothPrefix(xs, n, i + 1);
    if i >= 1 {
      assert p[..i] == xs[..i];
      SmoothPrefix(xs, n, i);
    }
  }

  /** A flat input is a fixed point of smoothing. */
  lemma {:induction false} SmoothOfConstant(xs: seq<int>, n: int, c: int)
    requires n != -1 || |xs| <= 1
    requires forall k :: 0 <= k < |xs| ==> xs[k] == c
    ensures Smooth(xs, n) == xs
    decreases |xs|
  {
    if |xs| >= 2 {
      var front := xs[..|xs| - 1];
      SmoothOfConstant(front, n, c);
      assert c * 2 + c * (n - 1) == c * (n + 1);
      QuotExact(c, n + 1);
      assert xs == front + [c];
    }
  }

  /** EMA(n) is the close series smoothed with period n. */
  function EmaSeries(ks: seq<Bar>, n: int): seq<Price>
    requires n != -1 || |ks| <= 1
  {
    Smooth(Closes(ks), n)
  }

  /** The EMA of a bar prefix is the prefix of the EMA: no value depends on
      a later bar. */
  lemma EmaIsCausal(ks: seq<Bar>, n: int, m: int)
    requires n != -1 || |ks| <= 1
    requires 0 <= m <= |ks|
    ensures EmaSeries(ks[..m], n) == EmaSeries(ks, n)[..m]
  {
    assert Closes(ks[..m]) == Closes(ks)[..m];
    SmoothPrefix(Closes(ks), n, m);
  }

  /** Closes 10, 20, 10 with period 2 give 10, (40 + 10) / 3 = 16 and
      (20 + 16) / 3 = 12. */
  lemma EmaExample(ks: seq<Bar>)
    requires |ks| == 3 && ks[0].close == 10 && ks[1].close == 20 && ks[2].close == 10
    ensures EmaSeries(ks, 2) == [10, 16, 12]
  {
    var cs := Closes(ks);
    assert cs == [10, 20, 10];
    SmoothStep(cs, 2, 0);
    SmoothStep(cs, 2, 1);
    SmoothStep(cs, 2, 2);
    QuotOfNonNegative(50, 3);
    QuotOfNonNegative(36, 3);
  }

  /** A flat close series has a flat EMA, for every period. */
  lemma EmaOfConstant(ks: seq<Bar>, n: int, c: Price)
    requires n != -1 || |ks| <= 1
    requires forall k :: 0 <= k < |ks| ==> ks[k].close == c
    ensures forall i :: 0 <= i < |ks| ==> EmaSeries(ks, n)[i] == c
  {
    SmoothOfConstant(Closes(ks), n, c);
  }

  // ---------------------------------------------------------------- MACD

  /** dif: EMA(12) minus EMA(26). */
  function DifSeries(ks: seq<Bar>): seq<Price>
  {
    var fast, slow := EmaSeries(ks, 12), EmaSeries(ks, 26);
    seq(|ks|, i => if 0 <= i < |ks| then fast[i] - slow[i] else 0)
  }

  /** dea: the dif series smoothed with period 9 (weights 2 and 8 over 10). */
  function DeaSeries(ks: seq<Bar>): seq<Price>
  {
    Smooth(DifSeries(ks), 9)
  }

  /** hist: twice the gap between dif and dea. */
  function HistSeries(ks: seq<Bar>): seq<Price>
  {
    var dif, dea := DifSeries(ks), DeaSeries(ks);
    seq(|ks|, i => if 0 <= i < |ks| then (dif[i] - dea[i]) * 2 else 0)
  }

  /** Pointwise description of the dif line. */
  lemma DifFromEmas(ks: seq<Bar>, fast: seq<Price>, slow: seq<Price>, dif: seq<Price>)
    requires fast == EmaSeries(ks, 12) && slow == EmaSeries(ks, 26)
    requires |dif| == |ks| && forall k :: 0 <= k < |ks| ==> dif[k] == fast[k] - slow[k]
    ensures dif == DifSeries(ks)
  {
  }

  /** Pointwise description of the hist line. */
  lemma HistFromLines(ks: seq<Bar>, hist: seq<Price>)
    requires |hist| == |ks|
    requires forall k :: 0 <= k < |ks| ==> hist[k] == (DifSeries(ks)[k] - DeaSeries(ks)[k]) * 2
    ensures hist == HistSeries(ks)
  {
  }

  /** All three MACD lines start at 0: both EMAs are seeded with the first
      close, so dif, dea and hist vanish at index 0. */
  lemma MacdStartsAtZero(ks: seq<Bar>)
    requires |ks| >= 1
    ensures DifSeries(ks)[0] == 0 && DeaSeries(ks)[0] == 0 && HistSeries(ks)[0] == 0
  {
    SmoothStep(Closes(ks), 12, 0);
    SmoothStep(Closes(ks), 26, 0);
    SmoothStep(DifSeries(ks), 9, 0);
  }

  /** The signal line follows its recurrence with the source's constants. */
  lemma DeaStep(ks: seq<Bar>, i: int)
    requires 1 <= i < |ks|
    ensures DeaSeries(ks)[i] == Quot(DifSeries(ks)[i] * 2 + DeaSeries(ks)[i - 1] * 8, 10)
  {
    SmoothStep(DifSeries(ks), 9, i);
  }

  /** On a flat close series dif, dea and hist are 0 everywhere. */
  lemma MacdOfConstant(ks: seq<Bar>, c: Price)
    requires forall k :: 0 <= k < |ks| ==> ks[k].close == c
    ensures forall i :: 0 <= i < |ks| ==>
      DifSeries(ks)[i] == 0 && DeaSeries(ks)[i] == 0 && HistSeries(ks)[i] == 0
  {
    EmaOfConstant(ks, 12, c);
    EmaOfConstant(ks, 26, c);
    var dif := DifSeries(ks);
    assert forall k :: 0 <= k < |ks| ==> dif[k] == 0;
    SmoothOfConstant(dif, 9, 0);
    assert DeaSeries(ks) == dif;
  }

  // ---------------------------------------------------------------- VWAP

  /** VWAP at i: cumulative amount over cumulative volume from the first
      bar, once that volume is positive; the sentinel 0 before. */
  function VwapAt(ks: seq<Bar>, i: int): Price
    requires 0 <= i < |ks|
  {
    var volume := Sum(Volumes(ks), 0, i + 1);
    if volume > 0 then Quot(Sum(Amounts(ks), 0, i + 1), volume) else 0
  }

  function VwapSeries(ks: seq<Bar>): seq<Price>
  {
    seq(|ks|, i => if 0 <= i < |ks| then VwapAt(ks, i) else 0)
  }

  /** When every bar trades at the same price p (amount = p * volume), the
      VWAP is p at every index with traded volume. */
  lemma VwapOfConstantPrice(ks: seq<Bar>, p: Price)
    requires forall k :: 0 <= k < |ks| ==> ks[k].amount == p * ks[k].volume
    ensures forall i :: 0 <= i < |ks| && Sum(Volumes(ks), 0, i + 1) > 0 ==> VwapSeries(ks)[i] == p
  {
    forall i | 0 <= i < |ks| && Sum(Volumes(ks), 0, i + 1) > 0
      ensures VwapSeries(ks)[i] == p
    {
      var volume := Sum(Volumes(ks), 0, i + 1);
      SumScaled(Volumes(ks), Amounts(ks), 0, i + 1, p);
      assert Sum(Amounts(ks), 0, i + 1) == p * volume;
      QuotExact(p, volume);
    }
  }

  /** The average is cumulative, not windowed: four bars of volume 1 and
      amount 10 give 10 at every index. */
  lemma VwapFlatExample(ks: seq<Bar>)
    requires |ks| == 4 && forall k :: 0 <= k < 4 ==> ks[k].volume == 1 && ks[k].amount == 10
    ensures VwapSeries(ks) == [10, 10, 10, 10]
  {
    VwapOfConstantPrice(ks, 10);
    forall i | 0 <= i < 4
      ensures VwapSeries(ks)[i] == 10
    {
      SumConstant(Volumes(ks), 0, i + 1, 1);
    }
  }
}
