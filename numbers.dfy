/**
 * Arithmetic shared by the money and scoring code: sums, means, extrema of
 * price lists, Python's `round(x, 2)` / `round(x, 1)` and `int(x)`.
 *
 * Money is modelled with exact reals. `round` is modelled as rounding half up
 * at a fixed number of decimal places (Python rounds half to even on binary
 * floats; that difference is not modelled).
 */
module Numbers {

  /** Python's `sum` over a list of numbers. */
  function Sum(s: seq<real>): real {
    if s == [] then 0.0 else s[0] + Sum(s[1..])
  }

  lemma {:induction false} SumAppend(a: seq<real>, b: seq<real>)
    ensures Sum(a + b) == Sum(a) + Sum(b)
  {
    if a == [] {
      assert a + b == b;
    } else {
      assert (a + b)[1..] == a[1..] + b;
      SumAppend(a[1..], b);
    }
  }

  /** `min(s)`: the least element of a non-empty list. */
  function MinOf(s: seq<real>): (m: real)
    requires |s| > 0
    ensures m in s
    ensures forall x :: x in s ==> m <= x
  {
    if |s| == 1 then s[0]
    else
      var rest := MinOf(s[1..]);
      assert forall x :: x in s ==> x == s[0] || x in s[1..];
      if s[0] <= rest then s[0] else rest
  }

  /** `max(s)`: the greatest element of a non-empty list. */
  function MaxOf(s: seq<real>): (m: real)
    requires |s| > 0
    ensures m in s
    ensures forall x :: x in s ==> x <= m
  {
    if |s| == 1 then s[0]
    else
      var rest := MaxOf(s[1..]);
      assert forall x :: x in s ==> x == s[0] || x in s[1..];
      if s[0] >= rest then s[0] else rest
  }

  /** `sum(s) / len(s)` for a non-empty list. */
  function Mean(s: seq<real>): real
    requires |s| > 0
  {
    Sum(s) / (|s| as real)
  }

  /** `sum(s) / len(s) if s else 0`, the guarded average used throughout the services. */
  function MeanOrZero(s: seq<real>): (m: real)
    ensures s == [] ==> m == 0.0
  {
    if s == [] then 0.0 else Mean(s)
  }

  lemma {:induction false} SumAtLeast(s: seq<real>, lo: real)
    requires forall x :: x in s ==> lo <= x
    ensures (|s| as real) * lo <= Sum(s)
  {
    if s != [] {
      assert s[0] in s;
      assert forall x :: x in s[1..] ==> x in s;
      SumAtLeast(s[1..], lo);
      ScaleStep(|s|, lo);
    }
  }

  lemma {:induction false} SumAtMost(s: seq<real>, hi: real)
    requires forall x :: x in s ==> x <= hi
    ensures Sum(s) <= (|s| as real) * hi
  {
    if s != [] {
      assert s[0] in s;
      assert forall x :: x in s[1..] ==> x in s;
      SumAtMost(s[1..], hi);
      ScaleStep(|s|, hi);
    }
  }

  lemma ScaleStep(n: nat, c: real)
    requires n > 0
    ensures (n as real) * c == c + ((n - 1) as real) * c
  {
  }

  lemma QuotientBetween(total: real, n: real, lo: real, hi: real)
    requires n > 0.0
    requires n * lo <= total <= n * hi
    ensures lo <= total / n <= hi
  {
    var q := total / n;
    assert q * n == total;
    assert (q - lo) * n >= 0.0;
    assert (hi - q) * n >= 0.0;
  }

  /** The mean of a non-empty list whose elements lie in [lo, hi] lies in [lo, hi]. */
  lemma MeanWithin(s: seq<real>, lo: real, hi: real)
    requires |s| > 0
    requires forall x :: x in s ==> lo <= x <= hi
    ensures lo <= Mean(s) <= hi
  {
    SumAtLeast(s, lo);
    SumAtMost(s, hi);
    QuotientBetween(Sum(s), |s| as real, lo, hi);
  }

  /** The mean of a non-empty list lies between its least and its greatest element. */
  lemma MeanBetween(s: seq<real>)
    requires |s| > 0
    ensures MinOf(s) <= Mean(s) <= MaxOf(s)
  {
    MeanWithin(s, MinOf(s), MaxOf(s));
  }

  /** `[p for p in s if p > 0]`: the positive elements of `s`, in order. */
  function Positives(s: seq<real>): (r: seq<real>)
    ensures |r| <= |s|
    ensures forall x :: x in r <==> x in s && x > 0.0
  {
    if s == [] then []
    else
      assert forall x :: x in s <==> x == s[0] || x in s[1..];
      (if s[0] > 0.0 then [s[0]] else []) + Positives(s[1..])
  }

  /**
   * `Positives` keeps a one-element list exactly when its element is
   * positive, and distributes over concatenation: together these fix the
   * order and the repeats of what it keeps.
   */
  lemma {:induction false} PositivesAppend(a: seq<real>, b: seq<real>)
    ensures Positives(a + b) == Positives(a) + Positives(b)
    ensures |a| == 1 ==> Positives(a) == (if a[0] > 0.0 then a else [])
  {
    if a == [] {
      assert a + b == b;
    } else {
      assert (a + b)[1..] == a[1..] + b;
      PositivesAppend(a[1..], b);
    }
  }

  /** Python's `round(x, 2)`, rounding half up. */
  function Round2(x: real): real {
    ((x * 100.0 + 0.5).Floor as real) / 100.0
  }

  /** Python's `round(x, 1)`, rounding half up. */
  function Round1(x: real): real {
    ((x * 10.0 + 0.5).Floor as real) / 10.0
  }

  lemma FloorMonotone(a: real, b: real)
    requires a <= b
    ensures a.Floor <= b.Floor
  {
    assert (a.Floor as real) <= a;
    assert b < (b.Floor as real) + 1.0;
  }

  /** Rounding to two places never reverses an order and moves a value by at most half a cent. */
  lemma Round2Properties(x: real, y: real)
    ensures x <= y ==> Round2(x) <= Round2(y)
    ensures x - 0.005 < Round2(x) <= x + 0.005
    ensures x >= 0.0 ==> Round2(x) >= 0.0
  {
    var a, b := x * 100.0 + 0.5, y * 100.0 + 0.5;
    if x <= y {
      FloorMonotone(a, b);
    }
    assert (a.Floor as real) <= a < (a.Floor as real) + 1.0;
    if x >= 0.0 {
      FloorMonotone(0.5, a);
      assert (0.5).Floor == 0;
    }
  }

  /** Rounding to one place never reverses an order and moves a value by at most 0.05. */
  lemma Round1Properties(x: real, y: real)
    ensures x <= y ==> Round1(x) <= Round1(y)
    ensures x - 0.05 < Round1(x) <= x + 0.05
    ensures x >= 0.0 ==> Round1(x) >= 0.0
  {
    var a, b := x * 10.0 + 0.5, y * 10.0 + 0.5;
    if x <= y {
      FloorMonotone(a, b);
    }
    assert (a.Floor as real) <= a < (a.Floor as real) + 1.0;
    if x >= 0.0 {
      FloorMonotone(0.5, a);
      assert (0.5).Floor == 0;
    }
  }

  /** A part's percentage of a non-zero whole, scaled back by the whole, is the part in percent. */
  lemma PercentageOfTotal(part: real, whole: real)
    ensures whole != 0.0 ==> (part / whole * 100.0) * whole == part * 100.0
  {
    if whole != 0.0 {
      var q := part / whole;
      assert q * whole == part;
      assert (q * 100.0) * whole == (q * whole) * 100.0;
    }
  }

  /** Multiplying by a non-negative factor keeps an order. */
  lemma ScaleMonotone(a: real, b: real, m: real)
    requires a <= b && m >= 0.0
    ensures a * m <= b * m
  {
    assert (b - a) * m >= 0.0;
  }

  /** Python's `int(x)` on a float: truncation toward zero. */
  function Trunc(x: real): int {
    if x >= 0.0 then x.Floor else -((-x).Floor)
  }

  /** Truncating a non-negative value takes off less than one. */
  lemma TruncNonnegative(x: real)
    requires x >= 0.0
    ensures x - 1.0 < Trunc(x) as real <= x
  {
  }

  /** Truncation keeps the order of non-negative values. */
  lemma TruncMonotone(x: real, y: real)
    requires 0.0 <= x <= y
    ensures Trunc(x) <= Trunc(y)
  {
    FloorMonotone(x, y);
  }

  /** `min(a, b)` on integers, as slice bounds use it. */
  function Min(a: int, b: int): (m: int)
    ensures m <= a && m <= b && (m == a || m == b)
  {
    if a <= b then a else b
  }

  /** `min(hi, max(lo, x))`. */
  function Clamp(lo: real, hi: real, x: real): (r: real)
    requires lo <= hi
    ensures lo <= r <= hi
    ensures lo <= x <= hi ==> r == x
  {
    if x < lo then lo else if x > hi then hi else x
  }
}
