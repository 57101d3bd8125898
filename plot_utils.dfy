/**
 * The statistics behind the result plots (src/plot_utils.py): windowed and
 * moving averages of a throughput trace, and Jain's fairness index across
 * UEs, one value per subframe.
 */
module PlotUtils {

  import opened SeqMath

  // ---------------------------------------------------------------------------
  // Averages

  /** Window k of a trace cut into consecutive windows of winSize values fits inside the trace. */
  lemma WindowFits(k: nat, winSize: nat, n: nat)
    requires winSize > 0 && k < n / winSize
    ensures (k + 1) * winSize <= n
  {
    var q := n / winSize;
    assert n == q * winSize + n % winSize;
    assert q * winSize - (k + 1) * winSize == (q - (k + 1)) * winSize;
    assert (q - (k + 1)) * winSize >= 0;
  }

  /** The mean of values[k * winSize .. (k + 1) * winSize). */
  function WindowMean(values: seq<real>, winSize: nat, k: nat): real
    requires winSize > 0 && k < |values| / winSize
  {
    WindowFits(k, winSize, |values|);
    Sum(values[k * winSize..(k + 1) * winSize]) / winSize as real
  }

  /**
   * The trace cut into floor(n / winSize) consecutive windows, each replaced
   * by its mean; the trailing n mod winSize values belong to no window.
   */
  function WindowAverage(values: seq<real>, winSize: nat): (r: seq<real>)
    requires winSize > 0
    ensures |r| == |values| / winSize
  {
    seq(|values| / winSize, k requires 0 <= k < |values| / winSize => WindowMean(values, winSize, k))
  }

  /** calculate_window_average, filling a preallocated vector. */
  method CalculateWindowAverage(values: seq<real>, winSize: nat) returns (winavg: seq<real>)
    requires winSize > 0
    ensures winavg == WindowAverage(values, winSize)
  {
    var nrofValues := |values|;
    var nrofWindows := nrofValues / winSize;
    var averages := new real[nrofWindows];
    for windowIndex := 0 to nrofWindows
      invariant forall k :: 0 <= k < windowIndex ==> averages[k] == WindowMean(values, winSize, k)
    {
      WindowFits(windowIndex, winSize, nrofValues);
      var windowValues := values[windowIndex * winSize..(windowIndex + 1) * winSize];
      averages[windowIndex] := Sum(windowValues) / winSize as real;
    }
    winavg := averages[..];
  }

  /**
   * The mean of every window of winSize consecutive values that starts before
   * position n - winSize: n - winSize entries, so the window ending at the
   * last value is not included.
   */
  function MovingAverage(values: seq<real>, winSize: nat): (r: seq<real>)
    requires winSize <= |values| && (winSize < |values| ==> winSize > 0)
    ensures |r| == |values| - winSize
  {
    seq(|values| - winSize, i requires 0 <= i < |values| - winSize => Sum(values[i..i + winSize]) / winSize as real)
  }

  /** calculate_moving_average, filling a preallocated vector. */
  method CalculateMovingAverage(values: seq<real>, winSize: nat) returns (movingAvgValues: seq<real>)
    requires winSize <= |values| && (winSize < |values| ==> winSize > 0)
    ensures movingAvgValues == MovingAverage(values, winSize)
  {
    var nrofValues := |values|;
    var averages := new real[nrofValues - winSize];
    for i := 0 to nrofValues - winSize
      invariant forall k :: 0 <= k < i ==> averages[k] == Sum(values[k..k + winSize]) / winSize as real
    {
      var winValues := values[i..i + winSize];
      averages[i] := Sum(winValues) / winSize as real;
    }
    movingAvgValues := averages[..];
  }

  /** The window averages are the moving averages sampled every winSize values. */
  lemma WindowAverageSamplesMovingAverage(values: seq<real>, winSize: nat, k: nat)
    requires 0 < winSize < |values|
    requires k < |values| / winSize && k * winSize < |values| - winSize
    ensures WindowAverage(values, winSize)[k] == MovingAverage(values, winSize)[k * winSize]
  {
    var start := k * winSize;
    WindowFits(k, winSize, |values|);
    assert (k + 1) * winSize == start + winSize;
    assert WindowAverage(values, winSize)[k] == WindowMean(values, winSize, k);
    assert MovingAverage(values, winSize)[start] == Sum(values[start..start + winSize]) / winSize as real;
  }

  /** A window average does not leave the range of the trace it averages. */
  lemma WindowAverageStaysInRange(values: seq<real>, winSize: nat, lo: real, hi: real, k: nat)
    requires winSize > 0 && forall i :: 0 <= i < |values| ==> lo <= values[i] <= hi
    requires k < |values| / winSize
    ensures lo <= WindowAverage(values, winSize)[k] <= hi
  {
    WindowFits(k, winSize, |values|);
    var w := values[k * winSize..(k + 1) * winSize];
    assert forall i :: 0 <= i < |w| ==> w[i] == values[k * winSize + i];
    AverageBounds(w, lo, hi);
  }

  /** A moving average does not leave the range of the trace it averages. */
  lemma MovingAverageStaysInRange(values: seq<real>, winSize: nat, lo: real, hi: real, i: nat)
    requires 0 < winSize <= |values| && forall j :: 0 <= j < |values| ==> lo <= values[j] <= hi
    requires i < |values| - winSize
    ensures lo <= MovingAverage(values, winSize)[i] <= hi
  {
    var w := values[i..i + winSize];
    assert forall j :: 0 <= j < |w| ==> w[j] == values[i + j];
    AverageBounds(w, lo, hi);
  }

  // ---------------------------------------------------------------------------
  // Jain's fairness index

  /** One row per resource (UE), all rows equally long (one value per subframe). */
  predicate IsRectangular(values: seq<seq<real>>)
  {
    |values| > 0 && forall row :: row in values ==> |row| == |values[0]|
  }

  /** s^2 / (n q): the fairness index of n values with sum s and sum of squares q. */
  function JainQuotient(s: real, q: real, n: real): real
    requires n > 0.0 && q > 0.0
  {
    ProductIsPositive(n, q);
    s * s / (n * q)
  }

  /** (sum x)^2 / (n * sum x^2) over the n resources at one position. */
  function JainEntry(values: seq<seq<real>>, i: nat): real
    requires IsRectangular(values) && i < |values[0]|
    requires SumOfSquares(Column(values, i)) != 0.0
  {
    var column := Column(values, i);
    JainQuotient(Sum(column), SumOfSquares(column), |values| as real)
  }

  /** The sum of squares at every position, across all resources. */
  function SquareSums(values: seq<seq<real>>): (r: seq<real>)
    requires IsRectangular(values)
    ensures |r| == |values[0]| && forall i :: 0 <= i < |r| ==> r[i] == SumOfSquares(Column(values, i))
  {
    seq(|values[0]|, i requires 0 <= i < |values[0]| => SumOfSquares(Column(values, i)))
  }

  /** The indices below m of the non-zero entries of s, in increasing order. */
  function NonzeroIndices(s: seq<real>, m: nat): (p: seq<nat>)
    requires m <= |s|
    decreases m
  {
    if m == 0 then []
    else if s[m - 1] != 0.0 then NonzeroIndices(s, m - 1) + [m - 1]
    else NonzeroIndices(s, m - 1)
  }

  /** NonzeroIndices lists exactly the non-zero entries below m, each once, in increasing order. */
  lemma {:induction false} NonzeroIndicesAreExact(s: seq<real>, m: nat)
    requires m <= |s|
    ensures forall k :: 0 <= k < |NonzeroIndices(s, m)| ==>
      NonzeroIndices(s, m)[k] < m && s[NonzeroIndices(s, m)[k]] != 0.0
    ensures forall k, l :: 0 <= k < l < |NonzeroIndices(s, m)| ==> NonzeroIndices(s, m)[k] < NonzeroIndices(s, m)[l]
    ensures forall i :: 0 <= i < m && s[i] != 0.0 ==> i in NonzeroIndices(s, m)
    decreases m
  {
    if m > 0 {
      NonzeroIndicesAreExact(s, m - 1);
      var p := NonzeroIndices(s, m - 1);
      if s[m - 1] != 0.0 {
        var q := p + [m - 1];
        assert forall k :: 0 <= k < |p| ==> q[k] == p[k];
        forall i | 0 <= i < m && s[i] != 0.0
          ensures i in q
        {
          if i < m - 1 {
            var k :| 0 <= k < |p| && p[k] == i;
            assert q[k] == i;
          } else {
            assert q[|p|] == i;
          }
        }
      }
    }
  }

  /** The entry each position would contribute; positions of all zeros get a placeholder 0 that is never kept. */
  function Entries(values: seq<seq<real>>): (r: seq<real>)
    requires IsRectangular(values)
    ensures |r| == |values[0]|
    ensures forall i :: 0 <= i < |r| && SumOfSquares(Column(values, i)) != 0.0 ==> r[i] == JainEntry(values, i)
  {
    seq(|values[0]|, i requires 0 <= i < |values[0]| =>
      if SumOfSquares(Column(values, i)) != 0.0 then JainEntry(values, i) else 0.0)
  }

  /** The entries of e below m whose matching entry of s is non-zero, in order. */
  function KeepNonzero(s: seq<real>, e: seq<real>, m: nat): seq<real>
    requires m <= |s| == |e|
    decreases m
  {
    if m == 0 then []
    else if s[m - 1] != 0.0 then KeepNonzero(s, e, m - 1) + [e[m - 1]]
    else KeepNonzero(s, e, m - 1)
  }

  /** Entry k of KeepNonzero is the entry of e at the k-th non-zero index of s. */
  lemma {:induction false} KeepNonzeroFollowsIndices(s: seq<real>, e: seq<real>, m: nat, k: nat)
    requires m <= |s| == |e|
    ensures |KeepNonzero(s, e, m)| == |NonzeroIndices(s, m)|
    ensures k < |KeepNonzero(s, e, m)| ==>
      NonzeroIndices(s, m)[k] < m && KeepNonzero(s, e, m)[k] == e[NonzeroIndices(s, m)[k]]
    decreases m
  {
    if m > 0 {
      KeepNonzeroFollowsIndices(s, e, m - 1, k);
    }
  }

  /** The fairness index of the first m positions, skipping positions where every value is 0. */
  function JainFairnessIndex(values: seq<seq<real>>, m: nat): seq<real>
    requires IsRectangular(values) && m <= |values[0]|
  {
    KeepNonzero(SquareSums(values), Entries(values), m)
  }

  /** calculate_jain_fairness_index: one entry per position with a non-zero sum of squares. */
  method CalculateJainFairnessIndex(values: seq<seq<real>>) returns (fairnessIndex: seq<real>)
    requires IsRectangular(values)
    ensures fairnessIndex == JainFairnessIndex(values, |values[0]|)
  {
    var nrofResources := |values|;
    fairnessIndex := [];
    for i := 0 to |values[0]|
      invariant fairnessIndex == JainFairnessIndex(values, i)
    {
      JainFairnessIndexStep(values, i);
      var column := Column(values, i);
      var sumOfSquaredValues := SumOfSquares(column);
      if sumOfSquaredValues != 0.0 {
        fairnessIndex := fairnessIndex + [JainQuotient(Sum(column), sumOfSquaredValues, nrofResources as real)];
      }
    }
  }

  lemma JainFairnessIndexStep(values: seq<seq<real>>, i: nat)
    requires IsRectangular(values) && i < |values[0]|
    ensures SumOfSquares(Column(values, i)) != 0.0 ==>
      JainFairnessIndex(values, i + 1) == JainFairnessIndex(values, i) + [JainEntry(values, i)]
    ensures SumOfSquares(Column(values, i)) == 0.0 ==> JainFairnessIndex(values, i + 1) == JainFairnessIndex(values, i)
  {
    assert SquareSums(values)[i] == SumOfSquares(Column(values, i));
  }

  /**
   * The fairness index has one entry per position with a non-zero sum of
   * squares, and entry k belongs to the k-th such position; positions where
   * every value is 0 are skipped.
   */
  lemma JainFairnessIndexFollowsNonzeroPositions(values: seq<seq<real>>, m: nat, k: nat)
    requires IsRectangular(values) && m <= |values[0]|
    ensures |JainFairnessIndex(values, m)| == |NonzeroIndices(SquareSums(values), m)|
    ensures k < |JainFairnessIndex(values, m)| ==>
      && NonzeroIndices(SquareSums(values), m)[k] < m
      && SquareSums(values)[NonzeroIndices(SquareSums(values), m)[k]] != 0.0
      && JainFairnessIndex(values, m)[k] == JainEntry(values, NonzeroIndices(SquareSums(values), m)[k])
  {
    var squares := SquareSums(values);
    KeepNonzeroFollowsIndices(squares, Entries(values), m, k);
    NonzeroIndicesAreExact(squares, m);
  }

  lemma SquareIsPositive(c: real)
    requires c != 0.0
    ensures c * c > 0.0
  {
    if c < 0.0 {
      assert c * c == (-c) * (-c);
    }
  }

  lemma SquareIsNonnegative(s: real)
    ensures s * s >= 0.0
  {
    if s < 0.0 {
      assert s * s == (-s) * (-s);
    }
  }

  lemma ProductIsPositive(n: real, q: real)
    requires n > 0.0 && q > 0.0
    ensures n * q > 0.0
  {
  }

  /** s^2 / (n q) lies in [0, 1] once s^2 <= n q: the arithmetic behind JainEntryInUnitInterval. */
  lemma JainQuotientBound(s: real, q: real, n: real)
    requires n > 0.0 && q > 0.0 && s * s <= n * q
    ensures 0.0 <= JainQuotient(s, q, n) <= 1.0
  {
    ProductIsPositive(n, q);
    SquareIsNonnegative(s);
  }

  /** Every entry lies in [0, 1] (Cauchy-Schwarz): the range the fairness plot is drawn on. */
  lemma JainEntryInUnitInterval(values: seq<seq<real>>, i: nat)
    requires IsRectangular(values) && i < |values[0]|
    requires SumOfSquares(Column(values, i)) != 0.0
    ensures 0.0 <= JainEntry(values, i) <= 1.0
  {
    var column := Column(values, i);
    SquareOfSumBound(column);
    assert |column| == |values|;
    JainQuotientBound(Sum(column), SumOfSquares(column), |values| as real);
  }

  /** Every entry of the fairness index fits the [0, 1] axis of the fairness plot. */
  lemma JainFairnessIndexInUnitInterval(values: seq<seq<real>>, m: nat)
    requires IsRectangular(values) && m <= |values[0]|
    ensures forall k :: 0 <= k < |JainFairnessIndex(values, m)| ==> 0.0 <= JainFairnessIndex(values, m)[k] <= 1.0
  {
    forall k | 0 <= k < |JainFairnessIndex(values, m)|
      ensures 0.0 <= JainFairnessIndex(values, m)[k] <= 1.0
    {
      JainFairnessIndexFollowsNonzeroPositions(values, m, k);
      JainEntryInUnitInterval(values, NonzeroIndices(SquareSums(values), m)[k]);
    }
  }

  /** A sum of n copies of c is n * c. */
  lemma {:induction false} SumOfConstant(s: seq<real>, c: real)
    requires forall i :: 0 <= i < |s| ==> s[i] == c
    ensures Sum(s) == |s| as real * c && SumOfSquares(s) == |s| as real * (c * c)
    decreases |s|
  {
    if s != [] {
      SumOfConstant(s[..|s| - 1], c);
      var n := (|s| - 1) as real;
      assert |s| as real * c == n * c + c;
      assert |s| as real * (c * c) == n * (c * c) + c * c;
    }
  }

  /** With s = n c and q = n c^2, s^2 / (n q) is exactly 1. */
  lemma EqualSharesQuotient(s: real, q: real, n: real, c: real)
    requires n > 0.0 && c != 0.0 && s == n * c && q == n * (c * c)
    ensures q > 0.0 && JainQuotient(s, q, n) == 1.0
  {
    SquareIsPositive(c);
    ProductIsPositive(n, c * c);
    ProductIsPositive(n, q);
    assert s * s == n * q;
    QuotientOfEqual(s * s, n * q);
  }

  lemma QuotientOfEqual(a: real, b: real)
    requires a == b && b > 0.0
    ensures a / b == 1.0
  {
  }

  /** Where every resource gets the same non-zero value, the allocation is perfectly fair. */
  lemma JainEntryOfEqualShares(values: seq<seq<real>>, i: nat, c: real)
    requires IsRectangular(values) && i < |values[0]| && c != 0.0
    requires forall r :: 0 <= r < |values| ==> values[r][i] == c
    ensures SumOfSquares(Column(values, i)) != 0.0 && JainEntry(values, i) == 1.0
  {
    var column := Column(values, i);
    assert |column| == |values|;
    SumOfConstant(column, c);
    var n := |values| as real;
    assert Sum(column) == n * c;
    assert SumOfSquares(column) == n * (c * c);
    EqualSharesQuotient(Sum(column), SumOfSquares(column), n, c);
    assert JainEntry(values, i) == JainQuotient(Sum(column), SumOfSquares(column), n);
  }
}
