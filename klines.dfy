/** The indicator methods of `Klines` (a bar sequence). Each runs the
    source's forward loop with its O(1) running state, writes into output
    arrays it allocates zeroed (as Go's `make` does), never touches the
    bars, and is proved to produce the series defined in modules
    Averages, Volatility and Extremes. The preconditions are exactly the
    inputs on which the source neither indexes outside the series nor
    divides by zero. */
module Klines {
  import opened Arith
  import opened Kline
  import opened Averages
  import opened Volatility
  import opened Extremes
  import opened Oscillator

  /** Highest high of the last n bars, starting from 0: the maximum of 0
      and those highs (0 when n <= 0). */
  method HHV(ks: seq<Bar>, n: int) returns (p: Price)
    requires n <= |ks|
    ensures p >= 0
    ensures forall k :: |ks| - n <= k < |ks| ==> ks[k].high <= p
    ensures p == 0 || exists k :: |ks| - n <= k < |ks| && ks[k].high == p
  {
    p := 0;
    var i := |ks| - n;
    while i < |ks|
      invariant |ks| - n <= i && (n >= 0 ==> i <= |ks|)
      invariant p >= 0
      invariant forall k :: |ks| - n <= k < i && k < |ks| ==> ks[k].high <= p
      invariant p == 0 || exists k :: |ks| - n <= k < i && k < |ks| && ks[k].high == p
    {
      if p < ks[i].high {
        p := ks[i].high;
      }
      i := i + 1;
    }
  }

  /** Lowest low of the last n bars, where a running value of 0 counts as
      unset: always one of those lows (0 when n <= 0), and their minimum
      when none of them is 0. */
  method LLV(ks: seq<Bar>, n: int) returns (p: Price)
    requires n <= |ks|
    ensures p == LowestLow(0, TailLows(ks, n))
    ensures n <= 0 ==> p == 0
    ensures n >= 1 ==> exists k :: |ks| - n <= k < |ks| && ks[k].low == p
    ensures n >= 1 && (forall k :: |ks| - n <= k < |ks| ==> ks[k].low != 0) ==>
      forall k :: |ks| - n <= k < |ks| ==> p <= ks[k].low
  {
    ghost var start := |ks| - n;
    ghost var w := TailLows(ks, n);
    p := 0;
    var i := |ks| - n;
    while i < |ks|
      invariant start <= i <= start + |w|
      invariant LowestLow(p, w[i - start..]) == LowestLow(0, w)
    {
      assert w[i - start..][0] == ks[i].low;
      assert w[i - start..][1..] == w[i - start + 1..];
      if p == 0 || p > ks[i].low {
        p := ks[i].low;
      }
      i := i + 1;
    }
    assert w[i - start..] == [];
    if n >= 1 {
      LowestLowInWindow(w);
      ghost var j :| 0 <= j < |w| && w[j] == p;
      assert ks[start + j].low == p;
      if forall k :: |ks| - n <= k < |ks| ==> ks[k].low != 0 {
        LowestLowIsMinimum(w);
        forall k | |ks| - n <= k < |ks|
          ensures p <= ks[k].low
        {
          assert w[k - start] == ks[k].low;
        }
      }
    }
  }

  /** Simple moving average of the closes over a window of n. */
  method MA(ks: seq<Bar>, n: int) returns (out: array<Price>)
    requires n >= 1 || ks == []
    ensures out.Length == |ks| && out[..] == MaSeries(ks, n)
  {
    out := new Price[|ks|](_ => 0);
    ghost var cs := Closes(ks);
    var sum := 0;
    for i := 0 to |ks|
      invariant n >= 1 ==> sum == Sum(cs, Max(0, i - n), i)
      invariant forall k :: 0 <= k < i ==> out[k] == MaAt(ks, n, k)
      invariant forall k :: i <= k < |ks| ==> out[k] == 0
    {
      sum := sum + ks[i].close;
      if i >= n {
        SumFront(cs, i - n, i + 1);
        sum := sum - ks[i - n].close;
      }
      if i >= n - 1 {
        out[i] := Quot(sum, n);
      }
    }
  }

  /** Exponential moving average with period n, seeded with the first close. */
  method EMA(ks: seq<Bar>, n: int) returns (out: array<Price>)
    requires n != -1 || |ks| <= 1
    ensures out.Length == |ks| && out[..] == EmaSeries(ks, n)
  {
    out := new Price[|ks|](_ => 0);
    if |ks| == 0 {
      return;
    }
    ghost var cs := Closes(ks);
    out[0] := ks[0].close;
    var den := n + 1;
    var num := 2;
    for i := 1 to |ks|
      invariant out[..i] == Smooth(cs[..i], n)
    {
      assert cs[..i + 1][..i] == cs[..i];
      out[i] := (Quot(ks[i].close * num + out[i - 1] * (den - num), den));
      assert out[..i + 1] == out[..i] + [out[i]];
    }
    assert cs[..|ks|] == cs;
  }

  /** MACD: dif = EMA(12) - EMA(26), dea = dif smoothed with period 9,
      hist = 2 (dif - dea); all three start at 0. The source's single loop
      body is split into its three passes, one helper each. */
  method MACD(ks: seq<Bar>) returns (dif: array<Price>, dea: array<Price>, hist: array<Price>)
    requires |ks| >= 1
    ensures dif.Length == |ks| && dif[..] == DifSeries(ks)
    ensures dea.Length == |ks| && dea[..] == DeaSeries(ks)
    ensures hist.Length == |ks| && hist[..] == HistSeries(ks)
    ensures dif[0] == 0 && dea[0] == 0 && hist[0] == 0
  {
    dif := MacdDif(ks);
    dea := MacdDea(ks, dif);
    hist := MacdHist(ks, dif, dea);
    MacdStartsAtZero(ks);
  }

  /** The dif pass: the two EMAs subtracted bar by bar. */
  method MacdDif(ks: seq<Bar>) returns (dif: array<Price>)
    ensures dif.Length == |ks| && dif[..] == DifSeries(ks)
  {
    var ema12 := EMA(ks, 12);
    var ema26 := EMA(ks, 26);
    ghost var fast, slow := ema12[..], ema26[..];
    dif := new Price[|ks|](_ => 0);
    for i := 0 to |ks|
      modifies dif
      invariant forall k :: 0 <= k < i ==> dif[k] == fast[k] - slow[k]
    {
      dif[i] := ema12[i] - ema26[i];
    }
    DifFromEmas(ks, fast, slow, dif[..]);
  }

  /** The dea pass: seeded with dif[0], then weights 2 and 8 over 10. */
  method MacdDea(ks: seq<Bar>, dif: array<Price>) returns (dea: array<Price>)
    requires |ks| >= 1 && dif[..] == DifSeries(ks)
    ensures dea.Length == |ks| && dea[..] == DeaSeries(ks)
  {
    ghost var difs := dif[..];
    ghost var signal := DeaSeries(ks);
    dea := new Price[|ks|](_ => 0);
    SmoothStep(difs, 9, 0);
    dea[0] := dif[0];
    var den := 10;
    var num := 2;
    for i := 1 to |ks|
      modifies dea
      invariant forall k :: 0 <= k < i ==> dea[k] == signal[k]
    {
      SmoothStep(difs, 9, i);
      dea[i] := Quot(dif[i] * num + dea[i - 1] * (den - num), den);
    }
  }

  /** The hist pass: twice the gap between the two lines. */
  method MacdHist(ks: seq<Bar>, dif: array<Price>, dea: array<Price>) returns (hist: array<Price>)
    requires dif[..] == DifSeries(ks) && dea[..] == DeaSeries(ks)
    ensures hist.Length == |ks| && hist[..] == HistSeries(ks)
  {
    ghost var difs, deas := dif[..], dea[..];
    hist := new Price[|ks|](_ => 0);
    for i := 0 to |ks|
      modifies hist
      invariant forall k :: 0 <= k < i ==> hist[k] == (difs[k] - deas[k]) * 2
    {
      hist[i] := (dif[i] - dea[i]) * 2;
    }
    HistFromLines(ks, hist[..]);
  }

  /** RSI over a window of n, as written: on every input where it stays
      inside the series (RsiInBounds) it returns all zeros. For n = 0 each
      step removes the delta it has just added, so the loss sum stays 0;
      for n >= 1 the series is no longer than n, so no step reaches i >= n.
      The store of lines 143-144 is therefore never reached. */
  method RSI(ks: seq<Bar>, n: int) returns (out: array<int>)
    requires RsiInBounds(|ks|, n)
    ensures out.Length == |ks|
    ensures forall k :: 0 <= k < |ks| ==> out[k] == 0
  {
    out := new int[|ks|](_ => 0);
    var gain, loss := 0, 0;
    var i := 1;
    while i < |ks|
      invariant 1 <= i
      invariant n == 0 ==> gain == 0 && loss == 0
      invariant forall k :: 0 <= k < |ks| ==> out[k] == 0
    {
      var diff := ks[i].close - ks[i - 1].close;
      if diff > 0 {
        gain := gain + diff;
      } else {
        loss := loss - diff;
      }
      if i >= n {
        var prev := ks[i - n].close - ks[i - n - 1].close;
        if prev > 0 {
          gain := gain - prev;
        } else {
          loss := loss + prev;
        }
      }
      if i >= n && loss > 0 {
        assert false;
      }
      i := i + 1;
    }
  }

  /** Bollinger bands: the moving average and, from index n - 1 on, the
      average plus and minus twice the square root of the window's
      variance. `sqrt` is the external integer square root. */
  method BOLL(ks: seq<Bar>, n: int, sqrt: int -> int) returns (upper: array<Price>, mid: array<Price>, lower: array<Price>)
    requires n >= 1
    ensures mid.Length == |ks| && mid[..] == MaSeries(ks, n)
    ensures upper.Length == |ks| && upper[..] == BollUpper(ks, n, sqrt)
    ensures lower.Length == |ks| && lower[..] == BollLower(ks, n, sqrt)
  {
    mid := MA(ks, n);
    ghost var bu, bl := BollUpper(ks, n, sqrt), BollLower(ks, n, sqrt);
    upper := new Price[|ks|](_ => 0);
    lower := new Price[|ks|](_ => 0);
    var i := n - 1;
    while i < |ks|
      modifies upper, lower
      invariant n - 1 <= i && (i <= |ks| || i == n - 1)
      invariant forall k :: 0 <= k < |ks| && k < i ==> upper[k] == bu[k] && lower[k] == bl[k]
      invariant forall k :: i <= k < |ks| ==> upper[k] == 0 && lower[k] == 0
    {
      var sum := SquareSum(ks, i - n + 1, i + 1, mid[i]);
      BollStep(ks, n, sqrt, i, sum);
      var std := sqrt(Quot(sum, n));
      upper[i] := mid[i] + std * 2;
      lower[i] := mid[i] - std * 2;
      i := i + 1;
    }
  }

  /** The inner BOLL loop: the squared deviations of the closes of bars
      lo .. hi - 1 from m, summed. */
  method SquareSum(ks: seq<Bar>, lo: int, hi: int, m: Price) returns (sum: int)
    requires 0 <= lo <= hi <= |ks|
    ensures sum == Sum(SquaredDeviations(Closes(ks), m), lo, hi)
    ensures sum >= 0
  {
    ghost var sd := SquaredDeviations(Closes(ks), m);
    sum := 0;
    for j := lo to hi
      invariant sum == Sum(sd, lo, j) && sum >= 0
    {
      var d := ks[j].close - m;
      sum := sum + d * d;
    }
  }

  /** Average true range as written: from index n on, the sum of the true
      ranges of bars i - n + 2 .. i divided by n. */
  method ATR(ks: seq<Bar>, n: int) returns (out: array<Price>)
    requires n >= 1 || |ks| <= 1
    ensures out.Length == |ks| && out[..] == AtrSeries(ks, n)
  {
    out := new Price[|ks|](_ => 0);
    ghost var trs := TrueRanges(ks);
    var sum := 0;
    var i := 1;
    while i < |ks|
      invariant 1 <= i <= Max(1, |ks|)
      invariant n >= 1 && i <= |ks| ==> sum == Sum(trs, Max(1, i - n + 1), i)
      invariant forall k :: 0 <= k < i && k < |ks| ==> out[k] == AtrAt(ks, n, k)
      invariant forall k :: i <= k < |ks| ==> out[k] == 0
    {
      sum := AtrAdvance(ks, n, i, sum);
      if i >= n {
        out[i] := Quot(sum, n);
      }
      i := i + 1;
    }
    AtrSeriesFrom(ks, n, out[..]);
  }

  /** One pass of the ATR loop body on the running sum: add the true range
      of bar i and, from i = n on, subtract the one of bar i - n + 1. */
  method AtrAdvance(ks: seq<Bar>, n: int, i: int, sum: int) returns (next: int)
    requires n >= 1 && 1 <= i < |ks|
    requires sum == Sum(TrueRanges(ks), Max(1, i - n + 1), i)
    ensures next == Sum(TrueRanges(ks), Max(1, i - n + 2), i + 1)
    ensures AtrAt(ks, n, i) == if i >= n then Quot(next, n) else 0
  {
    AtrRunningSum(ks, n, i, sum);
    var tr := TrueRange(ks[i - 1], ks[i]);
    next := sum + tr;
    if i >= n {
      var prev := TrueRange(ks[i - n], ks[i - n + 1]);
      next := next - prev;
    }
  }

  /** Volume-weighted average price: cumulative amount over cumulative
      volume from the first bar, 0 while that volume is not positive. */
  method VWAP(ks: seq<Bar>) returns (out: array<Price>)
    ensures out.Length == |ks| && out[..] == VwapSeries(ks)
  {
    out := new Price[|ks|](_ => 0);
    var volSum, amtSum := 0, 0;
    for i := 0 to |ks|
      invariant volSum == Sum(Volumes(ks), 0, i) && amtSum == Sum(Amounts(ks), 0, i)
      invariant forall k :: 0 <= k < i ==> out[k] == VwapAt(ks, k)
      invariant forall k :: i <= k < |ks| ==> out[k] == 0
    {
      volSum := volSum + ks[i].volume;
      amtSum := amtSum + ks[i].amount;
      if volSum > 0 {
        out[i] := Quot(amtSum, volSum);
      }
    }
  }
}
