# pointplots: scales, chart bookkeeping, rasterisation and histograms in Dafny

This project models the core of pointplots, a terminal plotting library that draws
line charts, scatter plots, step charts and bar charts onto a Braille canvas.

- **`Scales`** (`scale.dfy`, from `src/scale.rs`). A `Scale` maps a domain interval onto a
  range interval. `linear` and `inv_linear` clamp their results into the target interval.
- **`PointPlots`** (`lib.dfy`, from `src/lib.rs`). The `Point` and `Shape` types and the
  `Chart` class. The class has the source's fields: `width`, `height`, `xmin`, `xmax`,
  `ymin`, `ymax`, `shapes` and `labels`.
  - The drawille canvas is an external library. The chart's `canvas` field stands in for
    it: an append-only log of the `set`, `set_colored` and `line_colored` calls made on it.
  - `lineplot_with_tags` registers a shape and widens the automatic y range.
  - `vline`, `hline`, `borders` and `axis` draw dashed lines.
  - `figures` translates every registered shape into canvas dots, then draws them
    according to the shape's kind.
  - The pure halves are functions: the y-values a shape contributes, the dots a shape maps
    to, and the calls drawn for them. The methods are proved to append exactly those calls.
- **`Utils`** (`utils.dfy`, from `src/utils.rs`). `histogram` counts values into buckets of
  equal width in place. `f64s_into_points` turns pairs into points.
- **`Float`** (`float.dfy`). Only the IEEE facts the library relies on, stated over reals:
  `round` (halves away from zero), `is_normal`, and the saturating `as u32` cast.
- **`Wrappers`** (`wrappers.dfy`). `Option` and `Result`.

Doubles are modelled as `real`, so every scale computation is exact. The y bounds start at
`+∞` and `−∞`; the model writes an unset bound as `None`.

Three behaviours of the code are easy to misread:

- **Off-canvas points are not dropped.** `figures` keeps a mapped point only when
  `i <= width && j <= height`. But `linear` has already clamped both coordinates into the
  canvas, so that test never drops anything. A point outside `[xmin, xmax]` is drawn on the
  left or right border column instead of disappearing. The model follows the code, and
  `DiscreteDotsKeepEveryPoint` and `OutOfDomainPointOnBorder` state it.
- **Continuous shapes sample columns `0..width`.** The right border column `width` is
  never sampled, both when registering and when drawing.
- **Over reals, `histogram` never counts `y == max`.** On a proper interval such a value
  gets index `bins`, which is dropped, as the documented example `[(0,0), (9,9), (10,10)]`
  shows. `MaxIsNotBinned` states it for exact arithmetic; with f64 rounding it can land in
  the last bucket instead (see "Left out").

## Model

| member | source | states |
|---|---|---|
| `Scales.New` | src/scale.rs:34-36 | the scale holds exactly the given domain and range |
| `Scales.Clamp` | src/scale.rs:20 | `max` then `min` yields a value in `[lo, hi]`, leaves a value already inside unchanged, sends a value below `lo` to `lo` and one above `hi` to `hi`, and yields `hi` when `hi < lo` |
| `Scales.Linear` | src/scale.rs:17-21 | for every input, including a zero-width domain, the result lies in `[range.start, range.end]` |
| `Scales.InvLinear` | src/scale.rs:28-32 | the result lies in `[domain.start, domain.end]`; for a reversed domain it is `domain.end` |
| `Scales.LinearAtDomainEnds` | src/scale.rs:17-21 | `linear(domain.start) == range.start` and `linear(domain.end) == range.end` |
| `Scales.LinearClampsOutsideDomain` | src/scale.rs:18-20 | inputs left of the domain map to `range.start`, inputs right of it to `range.end` |
| `Scales.InvLinearClampsOutsideRange` | src/scale.rs:29-31 | inputs left of the range map to `domain.start`, inputs right of it to `domain.end` |
| `Scales.LinearMonotone` | src/scale.rs:18-20 | on increasing intervals `linear` is monotone non-decreasing |
| `Scales.InvLinearOfLinear` | src/scale.rs:17-32 | `inv_linear(linear(x)) == x` for every x in the domain |
| `Scales.LinearOfInvLinear` | src/scale.rs:17-32 | `linear(inv_linear(v)) == v` for every v in the range |
| `Scales.LinearExample` | src/scale.rs:15 | `Scale::new(0..10, -1..1).linear(1.0) == -0.8` |
| `Scales.InvLinearExample` | src/scale.rs:26 | `Scale::new(0..10, -1..1).inv_linear(0.1) == 5.5` |
| `Float.Round` | src/lib.rs:286 | `round` is within 0.5 of its argument and is non-negative for a non-negative argument |
| `Float.CastU32` | src/lib.rs:266 | `as u32` truncates a value within `u32` (result ≤ v < result + 1) and sends non-positive values to 0 |
| `Float.IsNormal` | src/lib.rs:285 | zero is not normal, nothing strictly between the negative and positive smallest normals is, and every value of magnitude at least 1 is |
| `PointPlots.CanvasScale` | src/lib.rs:262-263 | the data-to-canvas scale has the domain `lo..hi` and the range `0..size`, a proper interval |
| `PointPlots.SampleAtColumn` | src/lib.rs:378-379 | column `i` samples `f` at the x in `[xmin, xmax]` that the x-scale sends back to column `i` |
| `PointPlots.NormalSamples` | src/lib.rs:376-386 | at most one value per column, and every kept sample is normal |
| `PointPlots.InDomainYs` | src/lib.rs:387-398 | a discrete shape contributes at most one y per point |
| `PointPlots.Contribution` | src/lib.rs:375-399 | a function contributes at most one normal value per column `0..width`; a discrete shape at most one value per point |
| `PointPlots.ContributionMembers` | src/lib.rs:375-399 | a y is contributed iff it is the normal sample of some column `i < width` (functions) or the y of some point with x in `[xmin, xmax]` (discrete shapes) |
| `PointPlots.SeqMin` | src/lib.rs:405-408 | the minimum is an element and is ≤ every element |
| `PointPlots.SeqMax` | src/lib.rs:401-404 | the maximum is an element and is ≥ every element |
| `PointPlots.LowOrZero` | src/lib.rs:405-408 | 0.0 for no values, otherwise the least value |
| `PointPlots.HighOrZero` | src/lib.rs:401-404 | 0.0 for no values, otherwise the greatest value |
| `PointPlots.Widen` | src/lib.rs:410-411 | both bounds become set; the new low is the smaller of the old low and the contribution's minimum (an unset low gives way), and the high likewise |
| `PointPlots.YBounds` | src/lib.rs:362-414 | the bounds after registering shapes are unset exactly when no shape was registered, and then low ≤ high |
| `PointPlots.InDomainYsMembers` | src/lib.rs:387-398 | a y is contributed iff some point with that y has x in `[xmin, xmax]` |
| `PointPlots.OutOfDomainPointIgnored` | src/lib.rs:389-397 | inserting a point outside `[xmin, xmax]` anywhere leaves the contribution unchanged |
| `PointPlots.NormalSamplesMembers` | src/lib.rs:376-386 | a y is contributed iff it is the normal sample of some column `i < width` |
| `PointPlots.BoundsCoverContributions` | src/lib.rs:401-411 | after registration, every y any registered shape contributed lies within `[ymin, ymax]` |
| `PointPlots.BoundsAttained` | src/lib.rs:401-411 | each bound is the contributed minimum (maximum) of some registered shape, 0.0 for an empty contribution |
| `PointPlots.BoundsCoverExtremes` | src/lib.rs:401-411 | after registration, the bounds cover every registered shape's contributed minimum and maximum, 0.0 standing in for an empty contribution |
| `PointPlots.EmptyContributionCoversZero` | src/lib.rs:401-411 | a shape contributing no values pulls the bounds to cover 0.0, whatever was registered before |
| `PointPlots.EmptyContributionGivesZero` | src/lib.rs:401-411 | example: on a fresh chart with domain `[0, 10]`, the single point (20, 5) gives the bounds `[0.0, 0.0]` |
| `PointPlots.RegistrationExample` | src/lib.rs:387-411 | points with y = -8, -8, -3 inside the domain give bounds `[-8, -3]` |
| `PointPlots.YBoundsAppend` | src/lib.rs:410-411 | registering one more shape widens the previous bounds by that shape's contribution |
| `PointPlots.PixelWithin` | src/lib.rs:301-302 | a clamped coordinate in `[0, n]` rounds to a pixel in `[0, n]`, without saturation |
| `PointPlots.Pixel` | src/lib.rs:301-302 | `round() as u32` is the rounded value within `u32`, 0 for every value at or below zero, and `u32::MAX` for every value at or above it |
| `PointPlots.MapPoint` | src/lib.rs:298-308 | a point that passes the on-canvas test becomes a dot on the canvas in the shape's colour |
| `PointPlots.DiscreteDots` | src/lib.rs:296-309 | at most one dot per data point, each on the canvas in the shape's colour |
| `PointPlots.ContinuousDots` | src/lib.rs:281-292 | the dots' columns lie below `n` and strictly increase, so there is at most one dot per column, in column order; each dot is on the canvas in the shape's colour |
| `PointPlots.SampleDot` | src/lib.rs:285-287 | the dot of a sampled column sits in that column, on the canvas, in the shape's colour |
| `PointPlots.ShapeDots` | src/lib.rs:280-310 | a function gives at most one dot per column, with strictly increasing columns, a discrete shape at most one per point, and every dot lies on the canvas in the shape's colour |
| `PointPlots.MapPointOnCanvas` | src/lib.rs:299-307 | a mapped point passes the on-canvas test and becomes the dot at the rounded scaled column and the flipped row `height - j` |
| `PointPlots.DiscreteDotsKeepEveryPoint` | src/lib.rs:296-309 | the filter drops no point: there is exactly one dot per point, in order, each the point's mapping |
| `PointPlots.OutOfDomainPointOnBorder` | src/lib.rs:301-305 | a point left of `xmin` is drawn in column 0, one right of `xmax` in column `width` |
| `PointPlots.ContinuousDotsMatchSamples` | src/lib.rs:281-292 | drawing keeps exactly the samples registration keeps: one dot per normal sample, in order, on a column whose sample it is, at the flipped scaled row |
| `PointPlots.ContinuousDotsEveryNormalColumn` | src/lib.rs:281-292 | every column `i < n` whose sample is normal gets a dot at column `i`, placed right after the dots of the columns before `i` |
| `PointPlots.ContinuousDotsExtend` | src/lib.rs:281-292 | the dots over columns `0..n` extend those over `0..n - 1`, adding a dot in column `n - 1` when its sample is normal |
| `PointPlots.ContinuousDotsSkip` | src/lib.rs:283-291 | a column whose sample is not normal adds no dot |
| `PointPlots.PairOps` | src/lib.rs:313-346 | one window issues 1 call for lines and functions, 2 for steps, 4 for bars, none for points |
| `PointPlots.DotOps` | src/lib.rs:322-326 | a scatter plot issues one `set_colored` per dot, in order, at the dot's place and colour |
| `PointPlots.WindowOpsLength` | src/lib.rs:313-346 | n dots give n − 1 windows, each issuing the kind's number of calls |
| `PointPlots.WindowOpsAt` | src/lib.rs:313-346 | call m of window k sits at position `PerPair * k + m` and is that window's call m: `(x1,y1)-(x2,y2)` for lines; `(x1,y2)-(x2,y2)` then `(x1,y1)-(x1,y2)` for steps; those plus `(x1,height)-(x1,y1)` and `(x2,height)-(x2,y2)` for bars |
| `PointPlots.StepsAndBarsAxisParallel` | src/lib.rs:327-346 | every segment of a step or bar chart is horizontal or vertical |
| `PointPlots.DashedColumnDots` | src/lib.rs:185-193 | a dashed column sets exactly the dots of its column whose row is a multiple of 3 in range |
| `PointPlots.DashedRowDots` | src/lib.rs:196-204 | a dashed row sets exactly the dots of its row whose column is a multiple of 3 in range |
| `PointPlots.DashedLength` | src/lib.rs:185-204 | a dashed line over n positions sets `(n + 2) / 3` dots |
| `PointPlots.BorderDots` | src/lib.rs:174-182 | the border sets exactly every third dot of columns 0 and `width` and of rows 0 and `height` |
| `PointPlots.AxisColumn` | src/lib.rs:262-267 | the vertical axis stands at the truncated canvas column of x = 0, which lies on the canvas |
| `PointPlots.AxisVertical` | src/lib.rs:261-271 | with 0 in `[xmin, xmax]` the vertical axis covers every third row; otherwise `axis` draws exactly the horizontal axis when the y bounds are set and `ymin ≤ 0 ≤ ymax`, and nothing when not |
| `PointPlots.AxisHorizontal` | src/lib.rs:261-271 | with set y bounds and `ymin ≤ 0 ≤ ymax` the horizontal axis covers every third column at row `height - row`, where `row` is the truncated canvas row of y = 0 and lies on the canvas; otherwise `axis` draws exactly the vertical axis when `xmin ≤ 0 ≤ xmax`, and nothing when not |
| `PointPlots.CheckSize` | src/lib.rs:151-158 | the size is refused iff width < 32 or height < 32, the width being checked first |
| `PointPlots.Chart.constructor` | src/lib.rs:160-171 | a fresh chart has the given size and domain, unset bounds, no shapes, no labels and a blank canvas |
| `PointPlots.Chart.New` | src/lib.rs:151-171 | fails with the guard's error exactly when the size is refused, otherwise gives a fresh valid empty chart |
| `PointPlots.Chart.Default` | src/lib.rs:136-138 | the default chart is 120 x 60 with x from -10 to 10 |
| `PointPlots.Chart.VLine` | src/lib.rs:185-193 | appends a dashed column at `i` over rows `0..=height` if `i <= width`, and nothing otherwise |
| `PointPlots.Chart.HLine` | src/lib.rs:196-204 | appends a dashed row at `height - j` over columns `0..=width` if `j <= height`, and nothing otherwise |
| `PointPlots.Chart.Borders` | src/lib.rs:174-182 | appends `vline(0)`, `vline(width)`, `hline(0)`, `hline(height)` in that order |
| `PointPlots.Chart.Axis` | src/lib.rs:261-271 | appends the vertical axis when `xmin ≤ 0 ≤ xmax`, then the horizontal one when the bounds are set and `ymin ≤ 0 ≤ ymax` |
| `PointPlots.Chart.DrawShape` | src/lib.rs:313-347 | appends exactly the calls of the shape's kind for its dots |
| `PointPlots.Chart.DrawScatter` | src/lib.rs:322-326 | appends one `set_colored` per dot |
| `PointPlots.Chart.DrawSegments` | src/lib.rs:314-321 | appends one segment per window |
| `PointPlots.Chart.DrawSteps` | src/lib.rs:327-335 | appends the two step segments per window |
| `PointPlots.Chart.DrawBars` | src/lib.rs:336-346 | appends the four bar segments per window |
| `PointPlots.Chart.DrawEntry` | src/lib.rs:275-310 | one pass of the loop: build both scales, map the shape to dots, and append its calls |
| `PointPlots.Chart.Figures` | src/lib.rs:274-349 | appends the calls of every registered shape, in registration order |
| `PointPlots.Chart.LinePlotWithTags` | src/lib.rs:362-414 | appends one shape entry, appends a label only when one is given, widens the bounds by the contribution (they never shrink and cover every contributed y), and keeps the bounds equal to those of all registered shapes |
| `PointPlots.Chart.LinePlot` | src/lib.rs:416-418 | registers the shape in white without a label |
| `Utils.Step` | src/utils.rs:19 | the bucket width is non-negative on an ordered interval, and `bins` buckets span it exactly |
| `Utils.BucketIndex` | src/utils.rs:26 | the index is the truncated quotient `(y - min) / step` |
| `Utils.BucketOf` | src/utils.rs:21-29 | a value is counted only if it lies in `[min, max]` and its index is below `bins` |
| `Utils.CountBucket` | src/utils.rs:21-30 | no bucket counts more values than there are |
| `Utils.Binned` | src/utils.rs:21-30 | no more values are binned than there are |
| `Utils.HistogramOf` | src/utils.rs:32-41 | there are exactly `bins` points |
| `Utils.Histogram` | src/utils.rs:16-42 | the in-place counting loop yields point k at `min + k*step`, with the count of bucket k as its height |
| `Utils.BucketIsHalfOpenInterval` | src/utils.rs:19-29 | on a proper interval bucket k holds exactly the values in `[min + k*step, min + (k+1)*step)` |
| `Utils.MaxIsNotBinned` | src/utils.rs:26-29 | over reals, on a proper interval, `y == max` gets index `bins` and is dropped |
| `Utils.DegenerateIntervalFirstBucket` | src/utils.rs:19-29 | with `min == max` the value `min` goes to bucket 0 and every other value is dropped |
| `Utils.OutOfRangeIgnored` | src/utils.rs:22-24 | inserting a value outside `[min, max]` anywhere changes no count |
| `Utils.CountsAddUp` | src/utils.rs:21-30 | the bucket counts add up to the number of binned values, which is at most `data.len()` |
| `Utils.HistogramExample` | src/utils.rs:13 | `histogram([(0,0), (9,9), (10,10)], 0, 10, 2) == [(0,1), (5,1)]` |
| `Utils.IntoPoints` | src/utils.rs:44-48 | one point per pair |
| `Utils.IntoPointsRoundTrip` | src/utils.rs:44-48 | converting pairs to points keeps length, order and both coordinates: the conversion is undone by taking coordinates, and the other way round |

## Left out

- The drawille canvas is an external library. It appears only as the log of calls made on
  it; Braille glyph rendering and `frame` are not modelled.
- `display`, `legends`, `nice` and `frame` (src/lib.rs:207-258, 352-354) are text output:
  printing, `type_name` checks, colouring and padding arithmetic.
- IEEE-754 details. There are no NaN or infinities among reals, so:
  - the `partial_cmp(..).unwrap_or(Equal)` fallback is not modelled;
  - `is_normal` is a magnitude test, with no exponent limit at the top;
  - rounding error is not modelled.
  A zero-width domain makes `linear` divide by zero: the y bounds with `ymin == ymax`, or a
  chart built with `xmin == xmax`. `Scales.Linear` writes out the IEEE outcome there (NaN
  and −∞ clamp to `range.start`, +∞ to `range.end`). `histogram` divides by zero too, when
  `bins == 0` and when `min == max`. `Utils.Step` and `Utils.BucketIndex` write out those
  cases.
- The closure of `Shape::Continuous` is an arbitrary `real -> real` function.
- Lifetimes and borrowing: shape slices are immutable sequences. The `&mut Chart` returned
  for chaining calls is not modelled; the methods update the receiver.
- `PointPlots.Chart.Axis` and `PointPlots.Chart.Figures` require `Drawable()`: the size guard
  holds and the y bounds are set once a shape is registered. This is weaker than `Valid()`,
  and every chart built by `New` and extended by `LinePlotWithTags` satisfies it.
- `Utils.MaxIsNotBinned` holds over reals only. With f64 rounding, `(max - min) / step` can
  fall just below `bins` (for instance min 0, max 10, bins 29), and then `y == max` is
  counted in bucket `bins - 1`. Rounding error is not modelled.
- `Utils.Histogram`: the source's counters are `i32` (the type of the `vec![0; bins]` literal
  defaults to it). A bucket holding more than 2^31 − 1 values overflows there: a panic in a
  debug build, a wrap-around in a release build. The model counts with unbounded `nat`
  and does not model that overflow.
- `Utils.Step`: with `bins == 0`, Rust's `(max - min) / 0.0` is an infinity or NaN. The model
  uses 0.0. The output is empty either way, and no count is affected.
- src/main.rs (command-line parsing and expression evaluation) and examples/ are not part
  of this model.
