/**
 * Properties of the dashboard's rolling average: what each smoothed value is
 * made of, the raw-data and single-row cases, bounds, and how the source's
 * window differs from a symmetric window clamped at both ends.
 */
module RollingAverageProps {
  import opened SeqMath
  import opened RollingAverage

  /**
   * Each smoothed value is the sum of the values before, the row itself and
   * the values after, divided by how many there are; the divisor is at least 1.
   */
  lemma MeanOfParts(s: seq<real>, k: nat, i: nat)
    requires i < |s|
    ensures 1 + |Before(s, i, k)| + |After(s, i, k)| >= 1
    ensures RollingAvg(s, k)[i]
         == (Sum(Before(s, i, k)) + s[i] + Sum(After(s, i, k)))
            / ((1 + |Before(s, i, k)| + |After(s, i, k)|) as real)
  {
    SumOfThree(Before(s, i, k), s[i], After(s, i, k));
  }

  /** With `k == 0` ("raw data") both neighbour lists are empty and every row keeps its value. */
  lemma RawDataMode(s: seq<real>)
    ensures RollingAvg(s, 0) == s
  {
    forall i | 0 <= i < |s|
      ensures RollingAvg(s, 0)[i] == s[i]
    {
      assert Window(s, i, 0) == [s[i]];
      assert Sum([s[i]]) == s[i];
    }
  }

  /** A single-row column is left as it is, whatever the half-window. */
  lemma SingleRow(s: seq<real>, k: nat)
    requires |s| == 1
    ensures RollingAvg(s, k) == s
  {
    assert Window(s, 0, k) == [s[0]];
    assert Sum([s[0]]) == s[0];
  }

  /** Each smoothed value lies between the smallest and largest value of its window. */
  lemma WithinWindow(s: seq<real>, k: nat, i: nat)
    requires i < |s|
    ensures SeqMin(Window(s, i, k)) <= RollingAvg(s, k)[i] <= SeqMax(Window(s, i, k))
  {
    MeanBetweenMinAndMax(Window(s, i, k));
  }

  /** Every value averaged for row `i` is a value of the column between rows `lo` and `hi`. */
  lemma WindowValuesWithin(s: seq<real>, k: nat, i: nat, lo: real, hi: real)
    requires i < |s|
    requires forall j :: 0 <= j < |s| ==> lo <= s[j] <= hi
    ensures forall j :: 0 <= j < |Window(s, i, k)| ==> lo <= Window(s, i, k)[j] <= hi
  {
    WindowIsSlice(s, i, k);
    var start := WindowStart(i, k);
    forall j | 0 <= j < |Window(s, i, k)|
      ensures lo <= Window(s, i, k)[j] <= hi
    {
      assert Window(s, i, k)[j] == s[start + j];
    }
  }

  /** Smoothing never leaves the range of the column: each output is between `min(s)` and `max(s)`. */
  lemma WithinSeries(s: seq<real>, k: nat, i: nat)
    requires i < |s|
    ensures SeqMin(s) <= RollingAvg(s, k)[i] <= SeqMax(s)
  {
    WindowValuesWithin(s, k, i, SeqMin(s), SeqMax(s));
    MeanWithinBounds(Window(s, i, k), SeqMin(s), SeqMax(s));
  }

  /** A constant column is a fixed point of the smoothing. */
  lemma ConstantSeries(s: seq<real>, c: real, k: nat)
    requires forall j :: 0 <= j < |s| ==> s[j] == c
    ensures RollingAvg(s, k) == s
  {
    forall i | 0 <= i < |s|
      ensures RollingAvg(s, k)[i] == s[i]
    {
      WindowValuesWithin(s, k, i, c, c);
      MeanWithinBounds(Window(s, i, k), c, c);
    }
  }

  /**
   * The reference window `s[max(0, i-k) .. min(N-1, i+k)]` (inclusive): up to
   * `k` neighbours on each side, clamped at both ends of the column.
   */
  function ClampedWindow(s: seq<real>, i: nat, k: nat): (w: seq<real>)
    requires i < |s|
    ensures |w| == Min(|s|, i + k + 1) - Max(0, i - k)
  {
    s[Max(0, i - k)..Min(|s|, i + k + 1)]
  }

  /**
   * At the end of the column the source's window is the clamped one, but at
   * the front it agrees with the clamped window only when `i >= k` or `i == 0`:
   * for `0 < i < k` the source averages no earlier rows at all.
   */
  lemma MatchesClampedWindowIff(s: seq<real>, i: nat, k: nat)
    requires i < |s|
    ensures Window(s, i, k) == ClampedWindow(s, i, k) <==> (k <= i || i == 0)
  {
    if 0 < i < k {
      assert |Window(s, i, k)| != |ClampedWindow(s, i, k)|;
    }
  }

  /** `[1, 2, 3, 4, 5]` with `k = 2`: row 1 averages 2, 3 and 4 (nothing before it). */
  lemma ExampleFrontHasNoPartialWindow()
    ensures RollingAvg([1.0, 2.0, 3.0, 4.0, 5.0], 2)[1] == 3.0
  {
    var s := [1.0, 2.0, 3.0, 4.0, 5.0];
    assert Before(s, 1, 2) == [];
    assert After(s, 1, 2) == s[2..4] == [3.0, 4.0];
    assert Window(s, 1, 2) == [2.0, 3.0, 4.0];
    assert Sum([2.0, 3.0, 4.0]) == 9.0;
  }

  /** `[1, 2, 3, 4, 5]` with `k = 1` smooths to `[1.5, 2, 3, 4, 4.5]`. */
  lemma ExampleHalfWindowOne()
    ensures RollingAvg([1.0, 2.0, 3.0, 4.0, 5.0], 1) == [1.5, 2.0, 3.0, 4.0, 4.5]
  {
    var s := [1.0, 2.0, 3.0, 4.0, 5.0];
    var r := RollingAvg(s, 1);
    assert r[0] == 1.5 by {
      assert Window(s, 0, 1) == [1.0, 2.0];
      assert Sum([1.0, 2.0]) == 3.0;
    }
    assert r[1] == 2.0 by {
      assert Window(s, 1, 1) == [1.0, 2.0, 3.0];
      assert Sum([1.0, 2.0, 3.0]) == 6.0;
    }
    assert r[2] == 3.0 by {
      assert Window(s, 2, 1) == [2.0, 3.0, 4.0];
      assert Sum([2.0, 3.0, 4.0]) == 9.0;
    }
    assert r[3] == 4.0 by {
      assert Window(s, 3, 1) == [3.0, 4.0, 5.0];
      assert Sum([3.0, 4.0, 5.0]) == 12.0;
    }
    assert r[4] == 4.5 by {
      assert Window(s, 4, 1) == [4.0, 5.0];
      assert Sum([4.0, 5.0]) == 9.0;
    }
  }

  /**
   * `[10, 20, 30]` with `k = 5` (a half-window wider than the column) gives
   * `[20, 25, 30]`, whereas the clamped window would average all three rows
   * everywhere and give `[20, 20, 20]`.
   */
  lemma ExampleWideHalfWindow()
    ensures RollingAvg([10.0, 20.0, 30.0], 5) == [20.0, 25.0, 30.0]
    ensures forall i :: 0 <= i < 3 ==> Mean(ClampedWindow([10.0, 20.0, 30.0], i, 5)) == 20.0
  {
    var s := [10.0, 20.0, 30.0];
    var r := RollingAvg(s, 5);
    assert r[0] == 20.0 by {
      assert Window(s, 0, 5) == [10.0, 20.0, 30.0];
      assert Sum([10.0, 20.0, 30.0]) == 60.0;
    }
    assert r[1] == 25.0 by {
      assert Window(s, 1, 5) == [20.0, 30.0];
      assert Sum([20.0, 30.0]) == 50.0;
    }
    assert r[2] == 30.0 by {
      assert Window(s, 2, 5) == [30.0];
      assert Sum([30.0]) == 30.0;
    }
    assert Sum(s) == 60.0;
    forall i | 0 <= i < 3
      ensures Mean(ClampedWindow(s, i, 5)) == 20.0
    {
      assert ClampedWindow(s, i, 5) == s;
    }
  }

  /** Smoothing twice is not smoothing once: `[0, 0, 3]` with `k = 1`. */
  lemma NotIdempotent()
    ensures RollingAvg(RollingAvg([0.0, 0.0, 3.0], 1), 1) != RollingAvg([0.0, 0.0, 3.0], 1)
  {
    var s := [0.0, 0.0, 3.0];
    var once := RollingAvg(s, 1);
    assert once[0] == 0.0 by {
      assert Window(s, 0, 1) == [0.0, 0.0];
      assert Sum([0.0, 0.0]) == 0.0;
    }
    assert once[1] == 1.0 by {
      assert Window(s, 1, 1) == [0.0, 0.0, 3.0];
      assert Sum([0.0, 0.0, 3.0]) == 3.0;
    }
    assert RollingAvg(once, 1)[0] == 0.5 by {
      assert Window(once, 0, 1) == [0.0, 1.0];
      assert Sum([0.0, 1.0]) == 1.0;
    }
  }
}
