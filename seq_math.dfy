/**
 * Arithmetic over sequences that the Python code gets from builtins and numpy:
 * sum(), max()/min() followed by list.index(), and the squares used by the
 * Jain fairness index.
 */
module SeqMath {

  function Abs(x: real): (r: real)
    ensures r >= 0.0 && (r == x || r == -x)
  {
    if x < 0.0 then -x else x
  }

  /** Python's sum() over a sequence of reals, accumulated left to right. */
  function Sum(s: seq<real>): real
    decreases |s|
  {
    if s == [] then 0.0 else Sum(s[..|s| - 1]) + s[|s| - 1]
  }

  /** The sum of the squares of the entries. */
  function SumOfSquares(s: seq<real>): (r: real)
    ensures r >= 0.0
    decreases |s|
  {
    if s == [] then 0.0
    else
      var x := s[|s| - 1];
      assert x * x >= 0.0;
      SumOfSquares(s[..|s| - 1]) + x * x
  }

  /** Integers read as reals (an ivec handed to a floating-point mean). */
  function AsReals(s: seq<int>): (r: seq<real>)
    ensures |r| == |s| && forall i :: 0 <= i < |s| ==> r[i] == s[i] as real
  {
    seq(|s|, i requires 0 <= i < |s| => s[i] as real)
  }

  /** The arithmetic mean (pyp.stat.mean). */
  function Mean(s: seq<real>): real
    requires |s| > 0
  {
    Sum(s) / |s| as real
  }

  /** Column i of a row-major matrix. */
  function Column(matrix: seq<seq<real>>, i: nat): (c: seq<real>)
    requires forall row :: row in matrix ==> i < |row|
    ensures |c| == |matrix| && forall r :: 0 <= r < |matrix| ==> c[r] == matrix[r][i]
  {
    seq(|matrix|, r requires 0 <= r < |matrix| => matrix[r][i])
  }

  /** A sum of n entries, each within [lo, hi], lies within [n * lo, n * hi]. */
  lemma {:induction false} SumBounds(s: seq<real>, lo: real, hi: real)
    requires forall i :: 0 <= i < |s| ==> lo <= s[i] <= hi
    ensures |s| as real * lo <= Sum(s) <= |s| as real * hi
    decreases |s|
  {
    if s != [] {
      var p := s[..|s| - 1];
      SumBounds(p, lo, hi);
      var n := |p| as real;
      assert |s| as real * lo == n * lo + lo;
      assert |s| as real * hi == n * hi + hi;
    }
  }

  /** An average of entries within [lo, hi] lies within [lo, hi]. */
  lemma AverageBounds(s: seq<real>, lo: real, hi: real)
    requires |s| > 0 && forall i :: 0 <= i < |s| ==> lo <= s[i] <= hi
    ensures lo <= Sum(s) / |s| as real <= hi
  {
    SumBounds(s, lo, hi);
    QuotientBounds(Sum(s), |s| as real, lo, hi);
  }

  /** Dividing bounds on t by a positive n gives bounds on t / n. */
  lemma QuotientBounds(t: real, n: real, lo: real, hi: real)
    requires n > 0.0 && lo * n <= t <= hi * n
    ensures lo <= t / n <= hi
  {
    assert (t / n - lo) * n == t - lo * n;
    assert (hi - t / n) * n == hi * n - t;
  }

  /** `s.index(max(s))`: the lowest index holding the largest value. */
  function FirstArgMax(s: seq<real>): (k: nat)
    requires |s| > 0
    ensures k < |s|
    ensures forall j :: 0 <= j < |s| ==> s[j] <= s[k]
    ensures forall j :: 0 <= j < k ==> s[j] < s[k]
    decreases |s|
  {
    if |s| == 1 then 0
    else
      var k := FirstArgMax(s[..|s| - 1]);
      if s[|s| - 1] > s[k] then |s| - 1 else k
  }

  /** `s.index(min(s))`: the lowest index holding the smallest value. */
  function FirstArgMin(s: seq<real>): (k: nat)
    requires |s| > 0
    ensures k < |s|
    ensures forall j :: 0 <= j < |s| ==> s[k] <= s[j]
    ensures forall j :: 0 <= j < k ==> s[k] < s[j]
    decreases |s|
  {
    if |s| == 1 then 0
    else
      var k := FirstArgMin(s[..|s| - 1]);
      if s[|s| - 1] < s[k] then |s| - 1 else k
  }

  /**
   * Cauchy-Schwarz in the form the Jain index needs:
   * (x1 + ... + xn)^2 <= n * (x1^2 + ... + xn^2).
   */
  lemma {:induction false} SquareOfSumBound(s: seq<real>)
    ensures Sum(s) * Sum(s) <= |s| as real * SumOfSquares(s)
    decreases |s|
  {
    if s != [] {
      var p, x := s[..|s| - 1], s[|s| - 1];
      var t, q, n := Sum(p), SumOfSquares(p), |p| as real;
      assert Sum(s) == t + x;
      assert SumOfSquares(s) == q + x * x;
      assert |s| as real == n + 1.0;
      SquareOfSumBound(p);
      SquareOfSumStep(n, q, t, x);
    }
  }

  /** One more entry x keeps the bound: the induction step of SquareOfSumBound. */
  lemma SquareOfSumStep(n: real, q: real, t: real, x: real)
    requires n >= 0.0 && q >= 0.0 && t * t <= n * q
    ensures (t + x) * (t + x) <= (n + 1.0) * (q + x * x)
  {
    if n == 0.0 {
      // t * t <= 0 forces t == 0
      if t > 0.0 {
        assert t * t > 0.0;
      } else if t < 0.0 {
        assert (-t) * (-t) > 0.0;
      }
    } else {
      // q + n x^2 - 2 t x >= (t - n x)^2 / n >= 0
      var d := t - n * x;
      assert d * d >= 0.0;
      assert d * d == t * t - 2.0 * n * x * t + n * n * x * x;
      assert n * q + n * n * x * x - 2.0 * n * t * x >= d * d;
      assert n * (q + n * x * x - 2.0 * t * x) >= 0.0;
      assert q + n * x * x - 2.0 * t * x >= 0.0;
    }
  }
}
