/**
 * The rolling-average smoothing of the COVID-19 variants dashboard
 * (`calculate_rolling_avg` in graphing_tool_webapp.py).
 *
 * For row `i` of a column `s` of `N` rows and a half-window `k`
 * (the dashboard's "smoothing period"), the smoothed value is the mean of
 *   - the values collected before `i`: exactly the `k` values `s[i-k..i]`
 *     when `i >= k`, and none at all when `i < k`;
 *   - `s[i]` itself;
 *   - the values collected after `i`: `s[i+1..min(N, i+k+1)]`, that is
 *     `min(k, N-1-i)` values, the tail being clamped at the end of the column.
 * The two edges are handled differently: the front has no partial window.
 *
 * The specification functions come first; `RowAverage` is the per-row
 * computation with the source's two counter-driven loops, and `Frame` is
 * the table whose `rolling_avg` column is rewritten in place.
 */
module RollingAverage {
  import opened SeqMath

  /** The values averaged before row `i` (in column order). */
  function Before(s: seq<real>, i: nat, k: nat): (r: seq<real>)
    requires i < |s|
    ensures |r| == (if i < k then 0 else k)
    ensures i - |r| >= 0 && r == s[i - |r|..i]
  {
    if i < k then [] else s[i - k..i]
  }

  /** The values averaged after row `i`, clamped at the end of the column. */
  function After(s: seq<real>, i: nat, k: nat): (r: seq<real>)
    requires i < |s|
    ensures |r| == Min(k, |s| - 1 - i)
    ensures r == s[i + 1..i + 1 + |r|]
  {
    s[i + 1..Min(|s|, i + k + 1)]
  }

  /** Everything averaged for row `i`: before, the row itself, after. */
  function Window(s: seq<real>, i: nat, k: nat): (w: seq<real>)
    requires i < |s|
    ensures |w| == 1 + |Before(s, i, k)| + |After(s, i, k)|
    ensures w[|Before(s, i, k)|] == s[i]
  {
    Before(s, i, k) + [s[i]] + After(s, i, k)
  }

  /**
   * The window of row `i` is one contiguous stretch of the column, from row
   * `i-k` (or from `i` itself when `i < k`) up to row `min(N-1, i+k)`.
   */
  lemma WindowIsSlice(s: seq<real>, i: nat, k: nat)
    requires i < |s|
    ensures Window(s, i, k) == s[WindowStart(i, k)..Min(|s|, i + k + 1)]
  {
  }

  /** The first row of the window of row `i`: nothing before `i` is taken when `i < k`. */
  function WindowStart(i: nat, k: nat): nat
  {
    if i < k then i else i - k
  }

  /** The whole smoothed column: one mean per row. */
  function RollingAvg(s: seq<real>, k: nat): (r: seq<real>)
    ensures |r| == |s|
  {
    seq(|s|, i requires 0 <= i < |s| => Mean(Window(s, i, k)))
  }

  /**
   * The loop that gathers the values before row `i`
   * (graphing_tool_webapp.py:39-47): it stops at once for row 0 and for any
   * row `i < numRows`, and otherwise walks back `numRows` rows, nearest first.
   */
  method CollectBefore(s: seq<real>, i: nat, numRows: nat) returns (valuesBefore: seq<real>)
    requires i < |s|
    ensures valuesBefore == Reversed(Before(s, i, numRows))
  {
    var idx: int, count := i, 0;
    valuesBefore := [];
    while |valuesBefore| < numRows && count < numRows
      invariant count <= numRows && idx == i - count
      invariant count > 0 ==> numRows <= i
      invariant |valuesBefore| == count
      invariant valuesBefore == Reversed(s[idx..i])
      decreases numRows - count
    {
      if i == 0 {
        break;
      } else if i < numRows {
        break;
      }
      assert s[idx - 1..i][1..] == s[idx..i];
      valuesBefore := valuesBefore + [s[idx - 1]];
      idx := idx - 1;
      count := count + 1;
    }
  }

  /**
   * The loop that gathers the values after row `i`
   * (graphing_tool_webapp.py:49-59): nothing for the last row, the whole
   * remaining tail when at most `numRows` rows are left, and otherwise the
   * next `numRows` rows one by one.
   */
  method CollectAfter(s: seq<real>, i: nat, numRows: nat) returns (valuesAfter: seq<real>)
    requires i < |s|
    ensures valuesAfter == After(s, i, numRows)
  {
    var lastIdx := |s| - 1;
    var idx: int, count := i, 0;
    valuesAfter := [];
    while |valuesAfter| < numRows && count < numRows
      invariant count <= numRows && idx == i + count
      invariant count > 0 ==> i != lastIdx && |s| - i > numRows
      invariant |valuesAfter| == count
      invariant valuesAfter == s[i + 1..idx + 1]
      decreases numRows - count
    {
      if i == lastIdx {
        break;
      } else if |s| - i <= numRows {
        valuesAfter := s[i + 1..];
        break;
      }
      assert s[i + 1..idx + 2] == s[i + 1..idx + 1] + [s[idx + 1]];
      valuesAfter := valuesAfter + [s[idx + 1]];
      idx := idx + 1;
      count := count + 1;
    }
  }

  /**
   * The body of the row loop (graphing_tool_webapp.py:32-62): collect the
   * values before and after row `i`, then average them together with `s[i]`.
   */
  method RowAverage(s: seq<real>, i: nat, numRows: nat) returns (average: real)
    requires i < |s|
    ensures average == Mean(Window(s, i, numRows))
  {
    var valuesBefore := CollectBefore(s, i, numRows);
    var valuesAfter := CollectAfter(s, i, numRows);
    CollectedMean(s, i, numRows, valuesBefore, valuesAfter);
    average := Mean(valuesBefore + [s[i]] + valuesAfter);
  }

  /**
   * Averaging the earlier values nearest-first, as the row loop collects
   * them, gives the mean of the row's window.
   */
  lemma CollectedMean(s: seq<real>, i: nat, k: nat, valuesBefore: seq<real>, valuesAfter: seq<real>)
    requires i < |s|
    requires valuesBefore == Reversed(Before(s, i, k)) && valuesAfter == After(s, i, k)
    ensures Mean(valuesBefore + [s[i]] + valuesAfter) == Mean(Window(s, i, k))
  {
    SumOfThree(valuesBefore, s[i], valuesAfter);
    SumOfThree(Before(s, i, k), s[i], valuesAfter);
    SumReversed(Before(s, i, k));
  }

  /**
   * The part of a dataframe that the smoothing touches: its existing columns
   * (`columns[c]` is the column at position `c`, every one `rows` long) and
   * the `rolling_avg` column, which is `null` until the smoothing first
   * creates it and then has one cell per row.
   */
  class Frame {
    var columns: seq<seq<real>>
    var rows: nat
    var rollingAvg: array?<real>

    predicate Valid()
      reads this
    {
      (forall c :: 0 <= c < |columns| ==> |columns[c]| == rows) &&
      (rollingAvg != null ==> rollingAvg.Length == rows)
    }

    /** A frame holding only the given columns, without a `rolling_avg` column yet. */
    constructor (cols: seq<seq<real>>, n: nat)
      requires forall c :: 0 <= c < |cols| ==> |cols[c]| == n
      ensures Valid() && columns == cols && rows == n
      ensures rollingAvg == null
    {
      columns, rows := cols, n;
      rollingAvg := null;
    }

    /**
     * `calculate_rolling_avg(dataframe, column_idx, num_rows)`: a fresh
     * `rolling_avg` column of `rows` zeros replaces any earlier one, and each
     * of its cells `i` is overwritten with the smoothed value of row `i` of
     * the column at `columnIdx`. The existing columns are only read.
     */
    method CalculateRollingAvg(columnIdx: nat, numRows: nat)
      requires Valid() && columnIdx < |columns|
      modifies this
      ensures Valid()
      ensures columns == old(columns) && rows == old(rows)
      ensures rollingAvg != null && fresh(rollingAvg) && rollingAvg.Length == rows
      ensures rollingAvg[..] == RollingAvg(columns[columnIdx], numRows)
    {
      var column := columns[columnIdx];
      assert |column| == rows;
      ghost var expected := RollingAvg(column, numRows);
      var a := new real[rows](_ => 0.0);
      for i := 0 to rows
        modifies a
        invariant a[..i] == expected[..i]
      {
        var average := RowAverage(column, i, numRows);
        a[i] := average;
        assert a[..i + 1] == a[..i] + [average];
      }
      assert a[..] == a[..rows];
      rollingAvg := a;
    }
  }
}
