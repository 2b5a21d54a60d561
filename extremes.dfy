/** The tail extremes HHV and LLV read the last n bars of the whole
    series. LLV's running value starts at 0 and 0 also means "not set
    yet"; this module gives that scan as a fold and states what it
    returns. */
module Extremes {
  import opened Kline

  /** The lows of the last n bars, oldest first; empty when n <= 0. */
  function TailLows(ks: seq<Bar>, n: int): (w: seq<Price>)
    requires n <= |ks|
    ensures |w| == if n <= 0 then 0 else n
  {
    if n <= 0 then [] else seq(n, k => if 0 <= k < n then ks[|ks| - n + k].low else 0)
  }

  /** LLV's scan from running value p over the lows w: a low replaces p
      when p is 0 (unset) or larger than it. */
  function LowestLow(p: Price, w: seq<Price>): Price
    decreases |w|
  {
    if w == [] then p
    else LowestLow(if p == 0 || p > w[0] then w[0] else p, w[1..])
  }

  lemma {:induction false} LowestLowFrom(p: Price, w: seq<Price>)
    ensures LowestLow(p, w) == p || LowestLow(p, w) in w
    decreases |w|
  {
    if w != [] {
      var q := if p == 0 || p > w[0] then w[0] else p;
      LowestLowFrom(q, w[1..]);
    }
  }

  /** On a non-empty window the scan always returns one of its lows. */
  lemma LowestLowInWindow(w: seq<Price>)
    requires w != []
    ensures LowestLow(0, w) in w
  {
    LowestLowFrom(w[0], w[1..]);
  }

  lemma {:induction false} LowestLowBelow(p: Price, w: seq<Price>)
    requires p != 0
    requires forall k :: 0 <= k < |w| ==> w[k] != 0
    ensures LowestLow(p, w) <= p
    ensures forall k :: 0 <= k < |w| ==> LowestLow(p, w) <= w[k]
    decreases |w|
  {
    if w != [] {
      var q := if p > w[0] then w[0] else p;
      LowestLowBelow(q, w[1..]);
      assert forall k :: 1 <= k < |w| ==> w[k] == w[1..][k - 1];
    }
  }

  /** When no low in the window is 0, the scan returns their minimum. */
  lemma LowestLowIsMinimum(w: seq<Price>)
    requires w != []
    requires forall k :: 0 <= k < |w| ==> w[k] != 0
    ensures LowestLow(0, w) in w
    ensures forall k :: 0 <= k < |w| ==> LowestLow(0, w) <= w[k]
  {
    LowestLowInWindow(w);
    LowestLowBelow(w[0], w[1..]);
    assert forall k :: 1 <= k < |w| ==> w[k] == w[1..][k - 1];
  }

  /** A low of 0 is taken for "unset": the lows 5, 0, 7 give 7, not 0. */
  lemma LowestLowSkipsZero()
    ensures LowestLow(0, [5, 0, 7]) == 7
  {
    assert [5, 0, 7][1..] == [0, 7];
    assert [0, 7][1..] == [7];
  }
}
