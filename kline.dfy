/** The bar record the indicators read (`extend.Kline` with its embedded
    market-data kline), its two derived market values, and the per-bar
    series the indicators are computed from. */
module Kline {
  import opened Arith

  /** The fixed-point price: a scaled integer. */
  type Price = int

  /** One bar. `unix` is the stored key; open/high/low/close, volume and
      amount come from the embedded market-data kline; floatStock and
      totalStock are the tradable and total share counts. */
  datatype Bar = Bar(
    unix: int,
    open: Price,
    high: Price,
    low: Price,
    close: Price,
    volume: int,
    amount: Price,
    floatStock: int,
    totalStock: int)

  /** Market value of the tradable shares at the bar's close. */
  function FloatValue(b: Bar): Price
  {
    b.close * b.floatStock
  }

  /** Market value of all shares at the bar's close. */
  function TotalValue(b: Bar): Price
  {
    b.close * b.totalStock
  }

  /** At a non-negative close, the tradable value is a non-negative part of
      the total value, and the two differ by exactly the value of the
      non-tradable shares. */
  lemma MarketValueOrder(b: Bar)
    requires b.close >= 0 && 0 <= b.floatStock <= b.totalStock
    ensures 0 <= FloatValue(b) <= TotalValue(b)
    ensures TotalValue(b) - FloatValue(b) == b.close * (b.totalStock - b.floatStock)
  {
    assert b.close * b.totalStock == b.close * b.floatStock + b.close * (b.totalStock - b.floatStock);
    assert b.close * (b.totalStock - b.floatStock) >= 0;
  }

  /** True range of `cur` against the previous bar's close: the largest of
      the bar's own span and its two gaps to that close. */
  function TrueRange(prev: Bar, cur: Bar): (r: Price)
    ensures r >= 0 && r >= cur.high - cur.low
    ensures r >= Abs(cur.high - prev.close) && r >= Abs(cur.low - prev.close)
    ensures r == cur.high - cur.low || r == Abs(cur.high - prev.close) || r == Abs(cur.low - prev.close)
  {
    Max(cur.high - cur.low, Max(Abs(cur.high - prev.close), Abs(cur.low - prev.close)))
  }

  function Closes(ks: seq<Bar>): seq<Price>
  {
    seq(|ks|, k => if 0 <= k < |ks| then ks[k].close else 0)
  }

  function Volumes(ks: seq<Bar>): seq<int>
  {
    seq(|ks|, k => if 0 <= k < |ks| then ks[k].volume else 0)
  }

  function Amounts(ks: seq<Bar>): seq<Price>
  {
    seq(|ks|, k => if 0 <= k < |ks| then ks[k].amount else 0)
  }

  /** True range of every bar against its predecessor; the first bar has
      none and holds 0 (no indicator reads it). */
  function TrueRanges(ks: seq<Bar>): seq<Price>
  {
    seq(|ks|, k => if 0 < k < |ks| then TrueRange(ks[k - 1], ks[k]) else 0)
  }
}
