/** Integer arithmetic the indicators are built on: Go's truncating
    division, absolute value, maximum, and sums over index ranges of a
    series (the running sums of the indicator loops). */
module Arith {

  /** Absolute value, as `Price.Abs` is used by the true range. */
  function Abs(x: int): (r: int)
    ensures r >= 0 && (r == x || r == -x)
  {
    if x < 0 then -x else x
  }

  /** Go's built-in two-argument `max`. */
  function Max(a: int, b: int): (r: int)
    ensures r >= a && r >= b && (r == a || r == b)
  {
    if a >= b then a else b
  }

  /** Go's integer `a / b`: the quotient truncated toward zero.
      Dafny's own `/` is Euclidean and differs for negative operands. */
  function Quot(a: int, b: int): int
    requires b != 0
  {
    var m := Abs(a) / Abs(b);
    if (a < 0) == (b < 0) then m else -m
  }

  /** Multiplying by a positive d keeps at least a gap of d between distinct integers. */
  lemma MulGap(x: int, y: int, d: int)
    requires x > y && d > 0
    ensures x * d >= y * d + d
  {
    assert x * d == (x - y - 1) * d + y * d + d;
    assert (x - y - 1) * d >= 0;
  }

  /** Euclidean division is pinned down by its bracket. */
  lemma DivUnique(a: int, d: int, q: int)
    requires d > 0 && q * d <= a < q * d + d
    ensures a / d == q
  {
    var p := a / d;
    assert a == p * d + a % d;
    if p > q {
      MulGap(p, q, d);
      assert false;
    } else if p < q {
      MulGap(q, p, d);
      assert false;
    }
  }

  /** Quot is truncation: the remainder is smaller than the divisor in
      magnitude and never has the opposite sign of the dividend. */
  lemma QuotTruncates(a: int, b: int)
    requires b != 0
    ensures var r := a - Quot(a, b) * b;
      Abs(r) < Abs(b) && (r == 0 || (r < 0) == (a < 0))
  {
    var m := Abs(a) / Abs(b);
    var rem := Abs(a) % Abs(b);
    assert Abs(a) == m * Abs(b) + rem && 0 <= rem < Abs(b);
    if a >= 0 && b > 0 {
      assert a - Quot(a, b) * b == rem;
    } else if a < 0 && b > 0 {
      assert Quot(a, b) * b == -(m * b);
      assert a - Quot(a, b) * b == -rem;
    } else if a >= 0 && b < 0 {
      assert m * Abs(b) == -(m * b);
      assert Quot(a, b) * b == -(m * b);
      assert a - Quot(a, b) * b == rem;
    } else {
      assert m * Abs(b) == -(m * b);
      assert a - Quot(a, b) * b == -rem;
    }
  }

  /** On a non-negative dividend and positive divisor truncation and
      Euclidean division agree. */
  lemma QuotOfNonNegative(a: int, b: int)
    requires a >= 0 && b > 0
    ensures Quot(a, b) == a / b && Quot(a, b) >= 0
  {
  }

  /** Dividing an exact multiple gives the multiplier back, whatever the signs. */
  lemma QuotExact(k: int, b: int)
    requires b != 0
    ensures Quot(k * b, b) == k
  {
    var d := Abs(b);
    var x := Abs(k);
    assert Abs(k * b) == x * d by {
      if k < 0 && b < 0 {
        assert k * b == (-k) * (-b);
      } else if k < 0 {
        assert k * b == -((-k) * b);
      } else if b < 0 {
        assert k * b == -(k * (-b));
      }
    }
    DivUnique(x * d, d, x);
    if k * b < 0 {
      assert (k < 0) != (b < 0);
    } else if k * b > 0 {
      assert (k < 0) == (b < 0);
    }
  }

  /** With a positive divisor the truncated quotient q brackets the
      dividend: q * n - n < s < q * n + n. */
  lemma QuotBracket(s: int, n: int)
    requires n > 0
    ensures Quot(s, n) * n - n < s < Quot(s, n) * n + n
  {
    QuotTruncates(s, n);
  }

  /** A multiplier that brackets s to within n lies between any bounds
      lo and hi with n * lo <= s <= n * hi. */
  lemma BracketBetween(s: int, n: int, q: int, lo: int, hi: int)
    requires n > 0 && q * n - n < s < q * n + n
    requires n * lo <= s <= n * hi
    ensures lo <= q <= hi
  {
    if q > hi {
      MulGap(q, hi, n);
      assert false;
    }
    if q < lo {
      MulGap(lo, q, n);
      assert false;
    }
  }

  /** A quotient of a sum of n values that all lie in [lo, hi] again lies in [lo, hi]. */
  lemma QuotBetween(s: int, n: int, lo: int, hi: int)
    requires n > 0 && n * lo <= s <= n * hi
    ensures lo <= Quot(s, n) <= hi
  {
    QuotBracket(s, n);
    BracketBetween(s, n, Quot(s, n), lo, hi);
  }

  /** Sum of xs[lo..hi], accumulated left to right as the running sums are. */
  function Sum(xs: seq<int>, lo: int, hi: int): int
    requires 0 <= lo <= hi <= |xs|
    decreases hi - lo
  {
    if lo == hi then 0 else Sum(xs, lo, hi - 1) + xs[hi - 1]
  }

  /** Dropping the oldest element of a window: what every sliding sum subtracts. */
  lemma {:induction false} SumFront(xs: seq<int>, lo: int, hi: int)
    requires 0 <= lo < hi <= |xs|
    ensures Sum(xs, lo, hi) == xs[lo] + Sum(xs, lo + 1, hi)
    decreases hi - lo
  {
    if lo + 1 < hi {
      SumFront(xs, lo, hi - 1);
    }
  }

  /** A sum of values bounded by [a, b] is bounded by the count times the bounds. */
  lemma {:induction false} SumBetween(xs: seq<int>, lo: int, hi: int, a: int, b: int)
    requires 0 <= lo <= hi <= |xs|
    requires forall k :: lo <= k < hi ==> a <= xs[k] <= b
    ensures (hi - lo) * a <= Sum(xs, lo, hi) <= (hi - lo) * b
    decreases hi - lo
  {
    if lo < hi {
      SumBetween(xs, lo, hi - 1, a, b);
      assert (hi - lo) * a == (hi - 1 - lo) * a + a;
      assert (hi - lo) * b == (hi - 1 - lo) * b + b;
    }
  }

  /** A sum of non-negative values is non-negative. */
  lemma {:induction false} SumNonNegative(xs: seq<int>, lo: int, hi: int)
    requires 0 <= lo <= hi <= |xs|
    requires forall k :: lo <= k < hi ==> xs[k] >= 0
    ensures Sum(xs, lo, hi) >= 0
    decreases hi - lo
  {
    if lo < hi {
      SumNonNegative(xs, lo, hi - 1);
    }
  }

  /** A sum of equal values is the count times the value. */
  lemma SumConstant(xs: seq<int>, lo: int, hi: int, c: int)
    requires 0 <= lo <= hi <= |xs|
    requires forall k :: lo <= k < hi ==> xs[k] == c
    ensures Sum(xs, lo, hi) == (hi - lo) * c
  {
    SumBetween(xs, lo, hi, c, c);
  }

  /** Scaling every element scales the sum. */
  lemma {:induction false} SumScaled(xs: seq<int>, ys: seq<int>, lo: int, hi: int, p: int)
    requires 0 <= lo <= hi <= |xs| && hi <= |ys|
    requires forall k :: lo <= k < hi ==> ys[k] == p * xs[k]
    ensures Sum(ys, lo, hi) == p * Sum(xs, lo, hi)
    decreases hi - lo
  {
    if lo < hi {
      SumScaled(xs, ys, lo, hi - 1, p);
      assert p * Sum(xs, lo, hi) == p * Sum(xs, lo, hi - 1) + p * xs[hi - 1];
    }
  }
}
