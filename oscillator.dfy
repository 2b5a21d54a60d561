/** When the source's RSI loop stays inside the series. Its removal step
    reads the close before bar i - n as soon as i reaches n, which is
    index -1 at i = n; so for a window n >= 1 it only runs on series of at
    most n bars, and for n = 0 it removes every delta it has just added. */
module Oscillator {

  /** The source's RSI indexes only inside a series of `len` bars. */
  predicate RsiInBounds(len: int, n: int)
  {
    n == 0 || len <= 1 || len <= n
  }

  /** The first loop step whose removal step indexes outside the series. */
  function RsiFaultStep(len: int, n: int): int
  {
    if n >= 1 then n else len - 1
  }

  /** Outside RsiInBounds some loop step i (1 <= i < len, i >= n) reads
      the closes at i - n and i - n - 1, one of which is not in the
      series: for n >= 1 that is index -1 at i = n. */
  lemma RsiFaultsOutsideBounds(len: int, n: int)
    requires len >= 0 && !RsiInBounds(len, n)
    ensures var i := RsiFaultStep(len, n);
      1 <= i < len && i >= n && (i - n - 1 < 0 || i - n >= len)
  {
  }
}
