/** RSI and ATR as their sliding windows are evidently meant to work. The
    source's loops add the newest term and subtract the one leaving the
    window, but both subtract the wrong term: RSI reads the delta before
    bar i - n already at i = n (index -1), ATR drops the range of bar
    i - n + 1, which is still inside the window. Here the window after
    step i holds the terms of bars max(1, i - n + 1) .. i, and the term of
    bar i - n is subtracted once it leaves, from i = n + 1 on. */
module Corrected {
  import opened Arith
  import opened Kline
  import opened Volatility
  import opened Oscillator

  // ---------------------------------------------------------------- RSI

  /** The part of a close-to-close move d counted as gain ... */
  function Gain(d: int): (r: int)
    ensures r >= 0
  {
    if d > 0 then d else 0
  }

  /** ... and the part counted as loss, as a positive amount. */
  function Loss(d: int): (r: int)
    ensures r >= 0
  {
    if d > 0 then 0 else -d
  }

  /** The move from bar k - 1 to bar k (0 at bar 0, which has none). */
  function Move(ks: seq<Bar>, k: int): int
  {
    if 0 < k < |ks| then ks[k].close - ks[k - 1].close else 0
  }

  function Gains(ks: seq<Bar>): seq<int>
  {
    seq(|ks|, k => Gain(Move(ks, k)))
  }

  function Losses(ks: seq<Bar>): seq<int>
  {
    seq(|ks|, k => Loss(Move(ks, k)))
  }

  /** RSI at i over the window of the last n moves: 100 gain / (gain +
      loss), truncated, once i >= n and the window has lost something; the
      sentinel 0 otherwise. */
  function RsiAt(ks: seq<Bar>, n: int, i: int): int
    requires n >= 0 || |ks| <= 1
    requires 0 <= i < |ks|
  {
    if i >= 1 && i >= n then
      var lo := Max(1, i - n + 1);
      var g, l := Sum(Gains(ks), lo, i + 1), Sum(Losses(ks), lo, i + 1);
      SumNonNegative(Gains(ks), lo, i + 1);
      if l > 0 then Quot(100 * g, g + l) else 0
    else 0
  }

  function RsiSeries(ks: seq<Bar>, n: int): seq<int>
    requires n >= 0 || |ks| <= 1
  {
    seq(|ks|, i requires 0 <= i < |ks| => RsiAt(ks, n, i))
  }

  /** Every RSI value lies between 0 and 100. */
  lemma RsiBounded(ks: seq<Bar>, n: int)
    requires n >= 0 || |ks| <= 1
    ensures forall i :: 0 <= i < |ks| ==> 0 <= RsiSeries(ks, n)[i] <= 100
  {
    forall i | 1 <= i < |ks| && i >= n
      ensures 0 <= RsiAt(ks, n, i) <= 100
    {
      var lo := Max(1, i - n + 1);
      var g, l := Sum(Gains(ks), lo, i + 1), Sum(Losses(ks), lo, i + 1);
      SumNonNegative(Gains(ks), lo, i + 1);
      SumNonNegative(Losses(ks), lo, i + 1);
      if l > 0 {
        QuotBetween(100 * g, g + l, 0, 100);
      }
    }
  }

  /** A window in which the close never falls gives the sentinel 0, not
      100: the value is only stored when the loss sum is positive. */
  lemma RsiRisingWindowIsSentinel(ks: seq<Bar>, n: int, i: int)
    requires n >= 1 && n <= i < |ks|
    requires forall k :: i - n < k <= i ==> ks[k - 1].close <= ks[k].close
    ensures RsiSeries(ks, n)[i] == 0
  {
    var lo := i - n + 1;
    forall k | lo <= k < i + 1
      ensures Losses(ks)[k] == 0
    {
      assert Move(ks, k) >= 0;
    }
    SumConstant(Losses(ks), lo, i + 1, 0);
    assert RsiSeries(ks, n)[i] == RsiAt(ks, n, i);
  }

  /** A window in which the close only falls, and falls at least once,
      gives 0: all of the window's movement is loss. */
  lemma RsiFallingWindowIsZero(ks: seq<Bar>, n: int, i: int)
    requires n >= 1 && n <= i < |ks|
    requires forall k :: i - n < k <= i ==> ks[k - 1].close >= ks[k].close
    requires Sum(Losses(ks), i - n + 1, i + 1) > 0
    ensures RsiSeries(ks, n)[i] == 0
  {
    var lo := i - n + 1;
    forall k | lo <= k < i + 1
      ensures Gains(ks)[k] == 0
    {
      assert Move(ks, k) <= 0;
    }
    SumConstant(Gains(ks), lo, i + 1, 0);
    QuotExact(0, Sum(Losses(ks), lo, i + 1));
    assert RsiSeries(ks, n)[i] == RsiAt(ks, n, i);
  }

  /** Wherever the source's RSI stays inside the series it returns all
      zeros, and so does the corrected RSI: the two agree on every input
      the source accepts. */
  lemma RsiAgreesInBounds(ks: seq<Bar>, n: int)
    requires RsiInBounds(|ks|, n) && (n >= 0 || |ks| <= 1)
    ensures forall i :: 0 <= i < |ks| ==> RsiSeries(ks, n)[i] == 0
  {
    forall i | 0 <= i < |ks|
      ensures RsiSeries(ks, n)[i] == 0
    {
      if n == 0 && i >= 1 {
        assert Sum(Losses(ks), i + 1, i + 1) == 0;
      }
    }
  }

  /** RSI with the window slid correctly: the move of bar i - n leaves the
      sums once i > n, so after step i they hold the last n moves. */
  method RsiCorrected(ks: seq<Bar>, n: int) returns (out: array<int>)
    requires n >= 0 || |ks| <= 1
    ensures out.Length == |ks| && out[..] == RsiSeries(ks, n)
  {
    out := new int[|ks|](_ => 0);
    var gain, loss := 0, 0;
    var i := 1;
    while i < |ks|
      invariant 1 <= i <= Max(1, |ks|)
      invariant n >= 0 && i <= |ks| ==>
        gain == Sum(Gains(ks), Max(1, i - n), i) && loss == Sum(Losses(ks), Max(1, i - n), i)
      invariant forall k :: 0 <= k < i && k < |ks| ==> out[k] == RsiAt(ks, n, k)
      invariant forall k :: i <= k < |ks| ==> out[k] == 0
    {
      gain, loss := RsiAdvance(ks, n, i, gain, loss);
      if i >= n && loss > 0 {
        out[i] := Quot(100 * gain, gain + loss);
      }
      i := i + 1;
    }
    RsiSeriesFrom(ks, n, out[..]);
  }

  /** One pass of the corrected RSI loop body on the two running sums. */
  method RsiAdvance(ks: seq<Bar>, n: int, i: int, gain: int, loss: int) returns (g: int, l: int)
    requires n >= 0 && 1 <= i < |ks|
    requires gain == Sum(Gains(ks), Max(1, i - n), i) && loss == Sum(Losses(ks), Max(1, i - n), i)
    ensures g == Sum(Gains(ks), Max(1, i - n + 1), i + 1) && l == Sum(Losses(ks), Max(1, i - n + 1), i + 1)
    ensures g >= 0 && l >= 0
    ensures RsiAt(ks, n, i) == if i >= n && l > 0 then Quot(100 * g, g + l) else 0
  {
    RsiRunningSums(ks, n, i, gain, loss);
    g, l := gain, loss;
    var diff := ks[i].close - ks[i - 1].close;
    if diff > 0 {
      g := g + diff;
    } else {
      l := l - diff;
    }
    if i > n {
      var prev := ks[i - n].close - ks[i - n - 1].close;
      if prev > 0 {
        g := g - prev;
      } else {
        l := l + prev;
      }
    }
    SumNonNegative(Gains(ks), Max(1, i - n + 1), i + 1);
    SumNonNegative(Losses(ks), Max(1, i - n + 1), i + 1);
    RsiAtFromSums(ks, n, i, g, l);
  }

  /** One slide of the two window sums at step i: the move of bar i enters
      and, from i = n + 1 on, the move of bar i - n leaves. */
  lemma RsiRunningSums(ks: seq<Bar>, n: int, i: int, gain: int, loss: int)
    requires n >= 0 && 1 <= i < |ks|
    requires gain == Sum(Gains(ks), Max(1, i - n), i) && loss == Sum(Losses(ks), Max(1, i - n), i)
    ensures Sum(Gains(ks), Max(1, i - n + 1), i + 1)
      == gain + Gain(Move(ks, i)) - (if i > n then Gain(Move(ks, i - n)) else 0)
    ensures Sum(Losses(ks), Max(1, i - n + 1), i + 1)
      == loss + Loss(Move(ks, i)) - (if i > n then Loss(Move(ks, i - n)) else 0)
  {
    if i > n {
      SumFront(Gains(ks), i - n, i + 1);
      SumFront(Losses(ks), i - n, i + 1);
    }
  }

  /** RsiAt in terms of the window's two sums. */
  lemma RsiAtFromSums(ks: seq<Bar>, n: int, i: int, g: int, l: int)
    requires n >= 0 && 1 <= i < |ks| && g >= 0 && l >= 0
    requires g == Sum(Gains(ks), Max(1, i - n + 1), i + 1) && l == Sum(Losses(ks), Max(1, i - n + 1), i + 1)
    ensures RsiAt(ks, n, i) == if i >= n && l > 0 then Quot(100 * g, g + l) else 0
  {
  }

  /** A series that agrees with RsiAt everywhere is the RSI series. */
  lemma RsiSeriesFrom(ks: seq<Bar>, n: int, s: seq<int>)
    requires n >= 0 || |ks| <= 1
    requires |s| == |ks| && forall k :: 0 <= k < |ks| ==> s[k] == RsiAt(ks, n, k)
    ensures s == RsiSeries(ks, n)
  {
  }

  // ---------------------------------------------------------------- ATR

  /** ATR at i over the true ranges of bars i - n + 1 .. i (n of them),
      divided by n, from i = n on; 0 before. */
  function AtrCorrectedAt(ks: seq<Bar>, n: int, i: int): Price
    requires n >= 1 || |ks| <= 1
    requires 0 <= i < |ks|
  {
    if i >= 1 && i >= n then Quot(Sum(TrueRanges(ks), i - n + 1, i + 1), n) else 0
  }

  function AtrCorrectedSeries(ks: seq<Bar>, n: int): seq<Price>
    requires n >= 1 || |ks| <= 1
  {
    seq(|ks|, i requires 0 <= i < |ks| => AtrCorrectedAt(ks, n, i))
  }

  /** When every bar has the same true range r, the ATR is r itself. */
  lemma AtrCorrectedOfConstantRange(ks: seq<Bar>, n: int, r: Price)
    requires n >= 1
    requires forall k :: 1 <= k < |ks| ==> TrueRanges(ks)[k] == r
    ensures forall i :: n <= i < |ks| ==> AtrCorrectedSeries(ks, n)[i] == r
  {
    forall i | n <= i < |ks|
      ensures AtrCorrectedSeries(ks, n)[i] == r
    {
      SumConstant(TrueRanges(ks), i - n + 1, i + 1, r);
      assert (i + 1 - (i - n + 1)) * r == r * n;
      QuotExact(r, n);
    }
  }

  /** The ATR lies between the smallest and the largest true range of its
      window. */
  lemma AtrCorrectedWithinWindow(ks: seq<Bar>, n: int, i: int, lo: Price, hi: Price)
    requires n >= 1 && n <= i < |ks|
    requires forall k :: i - n < k <= i ==> lo <= TrueRanges(ks)[k] <= hi
    ensures lo <= AtrCorrectedSeries(ks, n)[i] <= hi
  {
    SumBetween(TrueRanges(ks), i - n + 1, i + 1, lo, hi);
    QuotBetween(Sum(TrueRanges(ks), i - n + 1, i + 1), n, lo, hi);
  }

  /** With a one-bar window the ATR is the bar's own true range, where the
      source returns 0. */
  lemma AtrCorrectedOneBarWindow(ks: seq<Bar>)
    ensures forall i :: 1 <= i < |ks| ==> AtrCorrectedSeries(ks, 1)[i] == TrueRange(ks[i - 1], ks[i])
    ensures forall i :: 0 <= i < |ks| ==> AtrSeries(ks, 1)[i] == 0
  {
    forall i | 1 <= i < |ks|
      ensures AtrCorrectedSeries(ks, 1)[i] == TrueRange(ks[i - 1], ks[i])
    {
      assert Sum(TrueRanges(ks), i, i + 1) == TrueRange(ks[i - 1], ks[i]);
      QuotExact(TrueRange(ks[i - 1], ks[i]), 1);
    }
  }

  /** Two bars, the second spanning 10 .. 14 after a close of 10, with a
      one-bar window: the source gives [0, 0], the corrected ATR [0, 4]. */
  lemma AtrTwoBarExample()
    ensures var ks := [Bar(0, 10, 10, 10, 10, 0, 0, 0, 0), Bar(1, 10, 14, 10, 12, 0, 0, 0, 0)];
      AtrSeries(ks, 1) == [0, 0] && AtrCorrectedSeries(ks, 1) == [0, 4]
  {
    var ks := [Bar(0, 10, 10, 10, 10, 0, 0, 0, 0), Bar(1, 10, 14, 10, 12, 0, 0, 0, 0)];
    AtrCorrectedOneBarWindow(ks);
    assert TrueRange(ks[0], ks[1]) == 4;
  }

  /** ATR with the window slid correctly: the range of bar i - n leaves the
      sum once i > n, so after step i it holds the last n ranges. */
  method AtrCorrected(ks: seq<Bar>, n: int) returns (out: array<Price>)
    requires n >= 1 || |ks| <= 1
    ensures out.Length == |ks| && out[..] == AtrCorrectedSeries(ks, n)
  {
    out := new Price[|ks|](_ => 0);
    ghost var trs := TrueRanges(ks);
    var sum := 0;
    var i := 1;
    while i < |ks|
      invariant 1 <= i <= Max(1, |ks|)
      invariant n >= 1 && i <= |ks| ==> sum == Sum(trs, Max(1, i - n), i)
      invariant forall k :: 0 <= k < i && k < |ks| ==> out[k] == AtrCorrectedAt(ks, n, k)
      invariant forall k :: i <= k < |ks| ==> out[k] == 0
    {
      sum := AtrCorrectedAdvance(ks, n, i, sum);
      if i >= n {
        out[i] := Quot(sum, n);
      }
      i := i + 1;
    }
    AtrCorrectedSeriesFrom(ks, n, out[..]);
  }

  /** One pass of the corrected ATR loop body on the running sum. */
  method AtrCorrectedAdvance(ks: seq<Bar>, n: int, i: int, sum: int) returns (next: int)
    requires n >= 1 && 1 <= i < |ks|
    requires sum == Sum(TrueRanges(ks), Max(1, i - n), i)
    ensures next == Sum(TrueRanges(ks), Max(1, i - n + 1), i + 1)
    ensures AtrCorrectedAt(ks, n, i) == if i >= n then Quot(next, n) else 0
  {
    AtrCorrectedRunningSum(ks, n, i, sum);
    var tr := TrueRange(ks[i - 1], ks[i]);
    next := sum + tr;
    if i > n {
      var prev := TrueRange(ks[i - n - 1], ks[i - n]);
      next := next - prev;
    }
  }

  /** One slide of the window sum at step i: the range of bar i enters
      and, from i = n + 1 on, the range of bar i - n leaves. */
  lemma AtrCorrectedRunningSum(ks: seq<Bar>, n: int, i: int, sum: int)
    requires n >= 1 && 1 <= i < |ks|
    requires sum == Sum(TrueRanges(ks), Max(1, i - n), i)
    ensures i <= n ==> sum + TrueRange(ks[i - 1], ks[i]) == Sum(TrueRanges(ks), Max(1, i - n + 1), i + 1)
    ensures i > n ==>
      sum + TrueRange(ks[i - 1], ks[i]) - TrueRange(ks[i - n - 1], ks[i - n])
        == Sum(TrueRanges(ks), Max(1, i - n + 1), i + 1)
    ensures AtrCorrectedAt(ks, n, i)
      == if i >= n then Quot(Sum(TrueRanges(ks), Max(1, i - n + 1), i + 1), n) else 0
  {
    if i > n {
      SumFront(TrueRanges(ks), i - n, i + 1);
    }
  }

  /** A series that agrees with AtrCorrectedAt everywhere is the ATR series. */
  lemma AtrCorrectedSeriesFrom(ks: seq<Bar>, n: int, s: seq<Price>)
    requires n >= 1 || |ks| <= 1
    requires |s| == |ks| && forall k :: 0 <= k < |ks| ==> s[k] == AtrCorrectedAt(ks, n, k)
    ensures s == AtrCorrectedSeries(ks, n)
  {
  }
}
