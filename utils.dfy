/**
 * Helpers for passing data into plots (src/utils.rs): the frequency distribution behind
 * histograms and the conversion of coordinate pairs into points.
 */
module Utils {
  import opened Wrappers
  import opened Scales
  import opened PointPlots

  /**
   * Width of one bucket, `(max - min) / bins`. With no buckets the f64 quotient is an
   * infinity or NaN; no bucket index is below zero then, so any value serves and 0.0 is used.
   */
  function Step(min: real, max: real, bins: nat): (step: real)
    ensures min <= max ==> 0.0 <= step
    ensures 0 < bins ==> bins as real * step == max - min
  {
    if bins == 0 then 0.0
    else
      QuotientBounds(max - min, bins as real);
      (max - min) / bins as real
  }

  /**
   * The bucket a value falls into, if any: values outside `[min, max]` are skipped, and the
   * truncated quotient `(y - min) / step` must be a valid index. When `min == max` the quotient
   * is 0/0 = NaN, which the saturating cast to `usize` turns into 0.
   */
  function BucketOf(y: real, min: real, max: real, bins: nat): (r: Option<nat>)
    ensures r.Some? ==> min <= y <= max && r.value < bins
  {
    if y < min || y > max then None
    else
      var b := BucketIndex(y, min, Step(min, max, bins));
      if b < bins then Some(b) else None
  }

  /**
   * `((y - min) / step) as usize` for a value at or above `min`: the truncated quotient, or 0
   * for the NaN that a zero step gives when `y == min`.
   */
  function BucketIndex(y: real, min: real, step: real): (b: nat)
    requires min <= y && 0.0 <= step
    ensures 0.0 < step ==> b as real <= (y - min) / step < b as real + 1.0
  {
    if step == 0.0 then 0
    else
      QuotientBounds(y - min, step);
      ((y - min) / step).Floor
  }

  /** Counting one more value raises bucket `k` by one exactly when the value lands there. */
  lemma CountBucketStep(data: seq<(real, real)>, n: nat, min: real, max: real, bins: nat, k: nat)
    requires n < |data|
    ensures CountBucket(data[..n + 1], min, max, bins, k)
      == CountBucket(data[..n], min, max, bins, k) + (if BucketOf(data[n].1, min, max, bins) == Some(k) then 1 else 0)
  {
    assert data[..n + 1][..n] == data[..n];
  }

  /** How many of `data`'s values land in bucket `k`. */
  function CountBucket(data: seq<(real, real)>, min: real, max: real, bins: nat, k: nat): (r: nat)
    ensures r <= |data|
  {
    if data == [] then 0
    else
      var last := data[|data| - 1];
      CountBucket(data[..|data| - 1], min, max, bins, k)
        + (if BucketOf(last.1, min, max, bins) == Some(k) then 1 else 0)
  }

  /** How many of `data`'s values land in some bucket. */
  function Binned(data: seq<(real, real)>, min: real, max: real, bins: nat): (r: nat)
    ensures r <= |data|
  {
    if data == [] then 0
    else
      Binned(data[..|data| - 1], min, max, bins)
        + (if BucketOf(data[|data| - 1].1, min, max, bins).Some? then 1 else 0)
  }

  /** The frequency distribution: bucket `k` sits at its left edge with its count as height. */
  function HistogramOf(data: seq<(real, real)>, min: real, max: real, bins: nat): (r: seq<Point>)
    ensures |r| == bins
  {
    var step := Step(min, max, bins);
    seq(bins, k requires 0 <= k < bins => Point(min + k as real * step, CountBucket(data, min, max, bins, k) as real))
  }

  /** `histogram`: counts every value into its bucket, in place, then lists the buckets. */
  method Histogram(data: seq<(real, real)>, min: real, max: real, bins: nat) returns (output: seq<Point>)
    ensures output == HistogramOf(data, min, max, bins)
  {
    var counts := new nat[bins](_ => 0);
    var step := Step(min, max, bins);
    for n := 0 to |data|
      invariant forall k :: 0 <= k < bins ==> counts[k] == CountBucket(data[..n], min, max, bins, k)
    {
      forall k | 0 <= k < bins {
        CountBucketStep(data, n, min, max, bins, k);
      }
      var y := data[n].1;
      if y < min || y > max {
        continue;
      }
      var b := BucketIndex(y, min, step);
      if b < counts.Length {
        counts[b] := counts[b] + 1;
      }
    }
    assert data[..|data|] == data;
    output := [];
    for k := 0 to bins
      invariant |output| == k
      invariant forall i :: 0 <= i < k ==> output[i] == HistogramOf(data, min, max, bins)[i]
    {
      output := output + [Point(min + k as real * step, counts[k] as real)];
    }
  }

  /**
   * On a proper interval, bucket `k` holds exactly the values in `[min + k*step, min + (k+1)*step)`.
   */
  lemma BucketIsHalfOpenInterval(y: real, min: real, max: real, bins: nat, k: nat)
    requires min < max && 0 < bins && k < bins
    ensures BucketOf(y, min, max, bins) == Some(k) <==>
      min + k as real * Step(min, max, bins) <= y < min + (k + 1) as real * Step(min, max, bins)
  {
    var step := Step(min, max, bins);
    assert 0.0 < step;
    ScaledOrder((k + 1) as real, bins as real, step);
    ScaledOrder(0.0, k as real, step);
    assert (k + 1) as real * step <= max - min;
    if min <= y <= max {
      var q := (y - min) / step;
      EdgeOrder(k as real, y, min, step);
      EdgeOrder((k + 1) as real, y, min, step);
      var b := BucketIndex(y, min, step);
      assert BucketOf(y, min, max, bins) == if b < bins then Some(b) else None;
      assert b == k <==> k as real <= q < (k + 1) as real;
    }
  }

  /** A value lies beyond the `e`-th bucket edge exactly when its quotient lies beyond `e`. */
  lemma EdgeOrder(e: real, y: real, min: real, step: real)
    requires 0.0 < step
    ensures e <= (y - min) / step <==> min + e * step <= y
    ensures (y - min) / step < e <==> y < min + e * step
  {
    var q := (y - min) / step;
    assert q * step == y - min;
    ScaledOrder(e, q, step);
    ScaledOrder(q, e, step);
  }

  /**
   * Over reals, on a proper interval with at least one bucket, the value `max` itself is
   * never counted: its quotient is exactly `bins`. (With f64 rounding the quotient can fall
   * just below `bins`, and then `max` lands in the last bucket.)
   */
  lemma MaxIsNotBinned(min: real, max: real, bins: nat)
    requires min < max && 0 < bins
    ensures BucketOf(max, min, max, bins) == None
  {
    var step := Step(min, max, bins);
    assert step * bins as real == max - min;
    assert (max - min) / step == bins as real;
  }

  /** With `min == max` every value equal to `min` lands in the first bucket, all others in none. */
  lemma DegenerateIntervalFirstBucket(y: real, min: real, bins: nat)
    requires 0 < bins
    ensures BucketOf(y, min, min, bins) == (if y == min then Some(0) else None)
  {
  }

  /** Values outside `[min, max]` do not change any count, wherever they occur in the data. */
  lemma {:induction false} OutOfRangeIgnored(a: seq<(real, real)>, v: (real, real), b: seq<(real, real)>,
                                             min: real, max: real, bins: nat)
    requires v.1 < min || v.1 > max
    ensures HistogramOf(a + [v] + b, min, max, bins) == HistogramOf(a + b, min, max, bins)
  {
    forall k | 0 <= k < bins
      ensures CountBucket(a + [v] + b, min, max, bins, k) == CountBucket(a + b, min, max, bins, k)
    {
      CountInsertOutOfRange(a, v, b, min, max, bins, k);
    }
  }

  lemma {:induction false} CountInsertOutOfRange(a: seq<(real, real)>, v: (real, real), b: seq<(real, real)>,
                                                 min: real, max: real, bins: nat, k: nat)
    requires v.1 < min || v.1 > max
    ensures CountBucket(a + [v] + b, min, max, bins, k) == CountBucket(a + b, min, max, bins, k)
  {
    if b == [] {
      assert a + [v] + b == a + [v];
      assert (a + [v])[..|a|] == a;
      assert a + b == a;
    } else {
      var b' := b[..|b| - 1];
      CountInsertOutOfRange(a, v, b', min, max, bins, k);
      assert (a + [v] + b)[..|a + [v] + b| - 1] == a + [v] + b';
      assert (a + b)[..|a + b| - 1] == a + b';
    }
  }

  /** Sum of the heights of the first `n` buckets. */
  function TotalCount(data: seq<(real, real)>, min: real, max: real, bins: nat, n: nat): nat
    requires n <= bins
  {
    if n == 0 then 0 else TotalCount(data, min, max, bins, n - 1) + CountBucket(data, min, max, bins, n - 1)
  }

  /** Every binned value is counted exactly once: the bucket heights add up to the binned values. */
  lemma {:induction false} CountsAddUp(data: seq<(real, real)>, min: real, max: real, bins: nat)
    ensures TotalCount(data, min, max, bins, bins) == Binned(data, min, max, bins) <= |data|
  {
    if data == [] {
      TotalOfNoData(min, max, bins, bins);
    } else {
      var init := data[..|data| - 1];
      var bucket := BucketOf(data[|data| - 1].1, min, max, bins);
      CountsAddUp(init, min, max, bins);
      TotalStep(data, min, max, bins, bins);
      assert Binned(data, min, max, bins) == Binned(init, min, max, bins) + (if bucket.Some? then 1 else 0);
    }
  }

  lemma {:induction false} TotalOfNoData(min: real, max: real, bins: nat, n: nat)
    requires n <= bins
    ensures TotalCount([], min, max, bins, n) == 0
  {
    if n > 0 {
      TotalOfNoData(min, max, bins, n - 1);
    }
  }

  /** Appending one value to the data raises the first `n` buckets' total by one iff it lands there. */
  lemma {:induction false} TotalStep(data: seq<(real, real)>, min: real, max: real, bins: nat, n: nat)
    requires data != [] && n <= bins
    ensures var bucket := BucketOf(data[|data| - 1].1, min, max, bins);
      TotalCount(data, min, max, bins, n)
        == TotalCount(data[..|data| - 1], min, max, bins, n) + (if bucket.Some? && bucket.value < n then 1 else 0)
  {
    if n > 0 {
      TotalStep(data, min, max, bins, n - 1);
    }
  }

  /** The documented example: `[(0,0), (9,9), (10,10)]` over `0..10` in 2 buckets. */
  lemma HistogramExample()
    ensures HistogramOf([(0.0, 0.0), (9.0, 9.0), (10.0, 10.0)], 0.0, 10.0, 2)
      == [Point(0.0, 1.0), Point(5.0, 1.0)]
  {
    var data := [(0.0, 0.0), (9.0, 9.0), (10.0, 10.0)];
    assert Step(0.0, 10.0, 2) == 5.0;
    assert BucketOf(0.0, 0.0, 10.0, 2) == Some(0);
    assert (9.0 - 0.0) / 5.0 == 1.8;
    assert BucketOf(9.0, 0.0, 10.0, 2) == Some(1);
    MaxIsNotBinned(0.0, 10.0, 2);
    assert data[..2] == [(0.0, 0.0), (9.0, 9.0)];
    assert data[..2][..1] == [(0.0, 0.0)];
    assert [(0.0, 0.0)][..0] == [];
    assert CountBucket(data, 0.0, 10.0, 2, 0) == 1;
    assert CountBucket(data, 0.0, 10.0, 2, 1) == 1;
  }

  /** `f64s_into_points`: each pair `(x, y)` becomes the point at `x`, `y`, in order. */
  function IntoPoints(data: seq<(real, real)>): (r: seq<Point>)
    ensures |r| == |data|
  {
    seq(|data|, k requires 0 <= k < |data| => Point(data[k].0, data[k].1))
  }

  /** The coordinates of a sequence of points, as pairs. */
  function Coordinates(points: seq<Point>): (r: seq<(real, real)>)
    ensures |r| == |points|
  {
    seq(|points|, k requires 0 <= k < |points| => (points[k].x, points[k].y))
  }

  /** Converting pairs into points loses nothing, and neither does the way back. */
  lemma IntoPointsRoundTrip(data: seq<(real, real)>, points: seq<Point>)
    ensures Coordinates(IntoPoints(data)) == data
    ensures IntoPoints(Coordinates(points)) == points
  {
  }
}
