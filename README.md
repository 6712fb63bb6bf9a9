# Rolling-average smoothing of the COVID-19 variants dashboard

The dashboard in `graphing_tool_webapp.py` plots daily specimen counts per
virus variant. Before plotting, it can smooth each variant's series with
`calculate_rolling_avg(dataframe, column_idx, num_rows)`. That function adds a
`rolling_avg` column to the variant's dataframe, initialised to zeros. It then
overwrites cell `i` of that column with the mean of three parts:

- the values collected before row `i`;
- the row's own value `s[i]`;
- the values collected after row `i`.

The half-window `k = num_rows` is the "smoothing period" chosen in the UI.

The two ends of the column are handled differently:

- **Before row `i`.** When `i >= k`, exactly the `k` preceding values
  `s[i-k..i-1]` are taken. When `i < k`, nothing is taken: the loop breaks on
  its first iteration, so there is no partial window at the front.
- **After row `i`.** The values `s[i+1 .. min(N, i+k+1))` are taken, which is
  `min(k, N-1-i)` values. Near the end, the loop takes the whole remaining
  tail at once.

The program's own wording suggests a window that shrinks symmetrically at
both edges. The function's docstring speaks of "averaging 'num_rows' rows prior
and after" (graphing_tool_webapp.py:27-28). The UI label reads "rolling
averages of n days prior & after" (graphing_tool_webapp.py:169). Most
explicitly, the comment at graphing_tool_webapp.py:34-38 plans a partial
window at the front: at index 1, "assume num_rows-1 'before' values already
added", so that one earlier value is still averaged. Taken literally, that is
a window clamped at both ends, `mean(s[max(0, i-k) .. min(N-1, i+k)])`. The
`elif i < num_rows: break` at lines 43-44 does not implement that plan, and
this model follows the loops as written. The symmetric window matches the
after side of every row, but the before side only when `i >= k` or `i == 0`.
`RollingAverageProps.MatchesClampedWindowIff` proves exactly that. For example,
`[10, 20, 30]` with `k = 5` smooths to `[20, 25, 30]`, not `[20, 20, 20]`
(`RollingAverageProps.ExampleWideHalfWindow`).

Files:

- `seq_math.dfy` (module `SeqMath`): sums, means, minimum and maximum of
  sequences of exact reals.
- `rolling_average.dfy` (module `RollingAverage`): the specification functions
  `Before`, `After`, `Window` and `RollingAvg`; the methods `CollectBefore`
  and `CollectAfter`, which hold the source's two counter-driven `while`
  loops, breaks included; the method `RowAverage`, which runs both and
  averages; and the
  class `Frame`. `Frame` is a dataframe with positional `columns` and a
  `rolling_avg` array, which is `null` until the first smoothing. Its method `CalculateRollingAvg` allocates a fresh
  zero column and fills it row by row.
- `rolling_average_props.dfy` (module `RollingAverageProps`): lemmas about the
  specification.

## Model

| member | source | states |
|---|---|---|
| RollingAverage.Before | graphing_tool_webapp.py:39-47 | the values averaged before row `i` number `k` when `i >= k` and none when `i < k` (so none for row 0), and they are exactly the values immediately preceding row `i` |
| RollingAverage.After | graphing_tool_webapp.py:49-59 | the values averaged after row `i` number `min(k, N-1-i)` (none for the last row), and they are exactly the values immediately following row `i` |
| RollingAverage.Window | graphing_tool_webapp.py:39-62 | everything averaged for row `i` has `1 + before + after` elements and holds `s[i]` right after the before part |
| RollingAverage.WindowIsSlice | graphing_tool_webapp.py:39-62 | everything averaged for row `i` is the contiguous slice of the column from row `i-k` (or from `i` itself when `i < k`) to row `min(N-1, i+k)` |
| RollingAverage.RollingAvg | graphing_tool_webapp.py:30-31 | the smoothed column has exactly one entry per input row |
| RollingAverage.CollectBefore | graphing_tool_webapp.py:39-47 | the counter loop with its two `break`s collects exactly the values before row `i`, nearest first |
| RollingAverage.CollectAfter | graphing_tool_webapp.py:49-59 | the counter loop with its `break` and its tail slice collects exactly the values after row `i` |
| RollingAverage.RowAverage | graphing_tool_webapp.py:32-62 | the average returned for row `i` is the mean of that row's window |
| RollingAverage.Frame.CalculateRollingAvg | graphing_tool_webapp.py:25-65 | a fresh `rolling_avg` column of length `N` replaces any earlier one; each cell `i` holds the smoothed value of row `i` of the column at `column_idx`; the existing columns and the row count are unchanged; nothing is returned |
| RollingAverageProps.MeanOfParts | graphing_tool_webapp.py:62-63 | each output equals `(sum(before) + s[i] + sum(after)) / (1 + len(before) + len(after))`, and the divisor is at least 1 |
| RollingAverageProps.RawDataMode | graphing_tool_webapp.py:40-62 | with `k == 0` (the "0 ~ raw data" option) the output equals the input |
| RollingAverageProps.SingleRow | graphing_tool_webapp.py:41-53 | a one-row column is left unchanged for every `k` |
| RollingAverageProps.WithinWindow | graphing_tool_webapp.py:62 | each output lies between the minimum and the maximum of its own window |
| RollingAverageProps.WithinSeries | graphing_tool_webapp.py:62 | each output lies between the minimum and the maximum of the whole column |
| RollingAverageProps.ConstantSeries | graphing_tool_webapp.py:62 | a constant column smooths to itself |
| RollingAverageProps.MatchesClampedWindowIff | graphing_tool_webapp.py:40-59 | the source's window equals the symmetric window clamped at both ends if and only if `i >= k` or `i == 0` |
| RollingAverageProps.ExampleFrontHasNoPartialWindow | graphing_tool_webapp.py:43-44 | `[1,2,3,4,5]` with `k = 2` gives `3` at row 1, because nothing before row 1 is averaged |
| RollingAverageProps.ExampleHalfWindowOne | graphing_tool_webapp.py:31-63 | `[1,2,3,4,5]` with `k = 1` smooths to `[1.5, 2, 3, 4, 4.5]` |
| RollingAverageProps.ExampleWideHalfWindow | graphing_tool_webapp.py:54-56 | `[10,20,30]` with `k = 5` smooths to `[20, 25, 30]`, while the clamped window would give `20` at every row |
| RollingAverageProps.NotIdempotent | graphing_tool_webapp.py:31-63 | smoothing twice differs from smoothing once (`[0, 0, 3]`, `k = 1`) |
| SeqMath.SumReversed | graphing_tool_webapp.py:45 | collecting the earlier values nearest-first does not change their sum, so the order of `values_before` does not affect the mean |
| SeqMath.MeanBetweenMinAndMax | graphing_tool_webapp.py:62 | a mean lies between the smallest and the largest value averaged |

## Left out

- The Dash layout, widgets, callback wiring and server start (graphing_tool_webapp.py:14-20, 75-201, 283-284) are UI framework glue and are not modelled.
- `update_output` (graphing_tool_webapp.py:204-279) is not modelled. Its date parsing and formatting, pandas filtering, index resets, concatenation, palette generation and figure construction are thin calls into libraries that are not part of this model. In particular, the model does not capture that the dashboard only passes `k` in 1..5 and bypasses smoothing for `k == 0`; the model accepts any `k >= 0`.
- CSV loading (graphing_tool_webapp.py:68-69) is I/O and is not modelled.
- Floating point is not modelled. Values are exact reals and the mean is exact division, instead of `np.mean` over floats. The integer-to-float dtype change caused by initialising the column with `0` is not modelled either.
- Pandas label-versus-position indexing is not modelled. Rows are addressed by position, which matches the labels `0..N-1` that the caller's `reset_index` provides.
- The dataframe's other columns are modelled as positional sequences of reals. Their labels and dtypes are not.
- `RollingAverage.Frame.CalculateRollingAvg` requires `0 <= column_idx < |columns|`, that is, a column other than `rolling_avg` that exists before the call. The source accepts more, and these behaviours are not modelled:
  - `column_idx` equal to the number of other columns. If the frame has no `rolling_avg` column yet, line 30 appends one at exactly that position. If it already has one from an earlier call, that column sits at that position and line 30 zeroes it in place. Either way, lines 45, 55, 57 and 62 read the column being overwritten, and no error is raised.
  - A frame with no rows. The loop at line 31 is then empty, so no column is read and any `column_idx` is accepted without error.
  - A negative `column_idx`. Python's positional indexing counts it from the end.
  - A `column_idx` beyond every column, including `rolling_avg`, on a non-empty frame. This raises an `IndexError`.

  The only caller passes `5` (graphing_tool_webapp.py:261), after the `reset_index` at line 260. Whether position 5 is a data column depends on the layout of the loaded CSV file, which is not part of this model. The plots at lines 243-247 and 268-275 indicate that it is meant to be `specimens`. This model assumes it is an existing data column.
- `RollingAverage.Frame.CalculateRollingAvg` takes `numRows` as a `nat`. A negative `num_rows` makes both loop guards false at once (lines 40 and 51), so the source returns the raw data. The model does not cover that input. The dashboard only passes 0..5 (lines 174-180).
