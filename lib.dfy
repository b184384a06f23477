/**
 * The chart of src/lib.rs: shapes, the automatic y range, the translation of data into
 * canvas dots and the draw calls each kind of shape issues. The drawille canvas is
 * external; the chart's `canvas` field is the ordered log of the calls made on it.
 */
module PointPlots {
  import opened Wrappers
  import opened Float
  import opened Scales

  /** A data point after both axis values went through `Into<f64>`. */
  datatype Point = Point(x: real, y: real)

  /** The kinds of plotted data (`Shape`). The slices are immutable sequences here. */
  datatype Shape =
    | Continuous(f: real -> real)
    | Points(points: seq<Point>)
    | Lines(points: seq<Point>)
    | Steps(points: seq<Point>)
    | Bars(points: seq<Point>)

  type U8 = x: nat | x < 256

  /** drawille's `PixelColor`. */
  datatype PixelColor =
    | Black | Red | Green | Yellow | Blue | Magenta | Cyan | White
    | BrightBlack | BrightRed | BrightGreen | BrightYellow
    | BrightBlue | BrightMagenta | BrightCyan | BrightWhite
    | TrueColor(r: U8, g: U8, b: U8)

  /** A canvas dot `(i, j, colour)`: column, row (row 0 is the top of the canvas), colour. */
  datatype Dot = Dot(i: U32, j: U32, color: PixelColor)

  /** One call on the canvas: `set`, `set_colored` or `line_colored`. */
  datatype DrawOp =
    | Set(i: U32, j: U32)
    | SetColored(i: U32, j: U32, color: PixelColor)
    | Line(x1: U32, y1: U32, x2: U32, y2: U32, color: PixelColor)

  /** `Scale::new(lo..hi, 0.0..size as f64)`, the scale from data to canvas points. */
  function CanvasScale(lo: real, hi: real, size: U32): (s: Scale)
    requires 0 < size
    ensures s.domain == Interval(lo, hi) && s.range == Interval(0.0, size as real)
    ensures s.range.start < s.range.end
  {
    New(Interval(lo, hi), Interval(0.0, size as real))
  }

  // ---------------------------------------------------------------------------------
  // Registration: the y-values a shape contributes and the running y range
  // ---------------------------------------------------------------------------------

  /** `f(x_scale.inv_linear(i as f64))`: the function sampled at canvas column `i`. */
  function Sample(f: real -> real, xs: Scale, i: nat): real
    requires xs.range.start < xs.range.end
  {
    f(InvLinear(xs, i as real))
  }

  /** The normal samples of `f` at columns `0..n`, in column order. */
  function NormalSamples(f: real -> real, xs: Scale, n: nat): (ys: seq<real>)
    requires xs.range.start < xs.range.end
    ensures |ys| <= n
    ensures forall k :: 0 <= k < |ys| ==> IsNormal(ys[k])
  {
    if n == 0 then []
    else
      var y := Sample(f, xs, n - 1);
      NormalSamples(f, xs, n - 1) + (if IsNormal(y) then [y] else [])
  }

  /** The y of every point whose x lies in `[xmin, xmax]`, in order. */
  function InDomainYs(points: seq<Point>, xmin: real, xmax: real): (ys: seq<real>)
    ensures |ys| <= |points|
  {
    if points == [] then []
    else
      var p := points[|points| - 1];
      InDomainYs(points[..|points| - 1], xmin, xmax) + (if xmin <= p.x <= xmax then [p.y] else [])
  }

  /** The y-values `lineplot_with_tags` takes from a shape to rescale the chart. */
  function Contribution(shape: Shape, xmin: real, xmax: real, width: U32): (ys: seq<real>)
    requires 0 < width
    ensures shape.Continuous? ==> |ys| <= width && forall k :: 0 <= k < |ys| ==> IsNormal(ys[k])
    ensures !shape.Continuous? ==> |ys| <= |shape.points|
  {
    match shape
    case Continuous(f) => NormalSamples(f, CanvasScale(xmin, xmax, width), width)
    case _ => InDomainYs(shape.points, xmin, xmax)
  }

  /** Smallest element of a non-empty sequence. */
  function SeqMin(ys: seq<real>): (m: real)
    requires ys != []
    ensures m in ys && forall k :: 0 <= k < |ys| ==> m <= ys[k]
  {
    if |ys| == 1 then ys[0]
    else
      var m := SeqMin(ys[1..]);
      if ys[0] <= m then ys[0] else m
  }

  /** Largest element of a non-empty sequence. */
  function SeqMax(ys: seq<real>): (m: real)
    requires ys != []
    ensures m in ys && forall k :: 0 <= k < |ys| ==> ys[k] <= m
  {
    if |ys| == 1 then ys[0]
    else
      var m := SeqMax(ys[1..]);
      if m <= ys[0] then ys[0] else m
  }

  /** `ys.iter().min_by(..).unwrap_or(&0.0)`: the least kept value, 0.0 when none was kept. */
  function LowOrZero(ys: seq<real>): (m: real)
    ensures ys == [] ==> m == 0.0
    ensures ys != [] ==> m in ys && forall k :: 0 <= k < |ys| ==> m <= ys[k]
  {
    if ys == [] then 0.0 else SeqMin(ys)
  }

  /** `ys.iter().max_by(..).unwrap_or(&0.0)`: the greatest kept value, 0.0 when none was kept. */
  function HighOrZero(ys: seq<real>): (m: real)
    ensures ys == [] ==> m == 0.0
    ensures ys != [] ==> m in ys && forall k :: 0 <= k < |ys| ==> ys[k] <= m
  {
    if ys == [] then 0.0 else SeqMax(ys)
  }

  /**
   * `f64::min(self.ymin, ymin)` and `f64::max(self.ymax, ymax)`, where an unset bound
   * (`None`) is the initial infinity and so gives way to the new value.
   */
  function Widen(ymin: Option<real>, ymax: Option<real>, ys: seq<real>): (b: (Option<real>, Option<real>))
    ensures b.0.Some? && b.1.Some?
    ensures b.0.value <= LowOrZero(ys) && (ymin.Some? ==> b.0.value <= ymin.value)
    ensures b.0.value == LowOrZero(ys) || (ymin.Some? && b.0.value == ymin.value)
    ensures HighOrZero(ys) <= b.1.value && (ymax.Some? ==> ymax.value <= b.1.value)
    ensures b.1.value == HighOrZero(ys) || (ymax.Some? && b.1.value == ymax.value)
  {
    var low, high := LowOrZero(ys), HighOrZero(ys);
    (Some(if ymin.Some? && ymin.value < low then ymin.value else low),
     Some(if ymax.Some? && high < ymax.value then ymax.value else high))
  }

  /** The widened bounds cover every value they were widened by. */
  lemma WidenCovers(ymin: Option<real>, ymax: Option<real>, ys: seq<real>)
    ensures forall y :: y in ys ==> Widen(ymin, ymax, ys).0.value <= y <= Widen(ymin, ymax, ys).1.value
  {
    forall y | y in ys
      ensures Widen(ymin, ymax, ys).0.value <= y <= Widen(ymin, ymax, ys).1.value
    {
      var i :| 0 <= i < |ys| && ys[i] == y;
    }
  }

  /**
   * The `(ymin, ymax)` a chart with domain `[xmin, xmax]` and the given width holds after
   * registering `entries` in order, starting from the unset pair.
   */
  function YBounds(entries: seq<(Shape, PixelColor)>, xmin: real, xmax: real, width: U32): (b: (Option<real>, Option<real>))
    requires 0 < width
    ensures b.0.None? <==> entries == []
    ensures b.1.None? <==> entries == []
    ensures b.0.Some? ==> b.0.value <= b.1.value
  {
    if entries == [] then (None, None)
    else
      var prev := YBounds(entries[..|entries| - 1], xmin, xmax, width);
      var ys := Contribution(entries[|entries| - 1].0, xmin, xmax, width);
      assert ys != [] ==> LowOrZero(ys) <= ys[0] <= HighOrZero(ys);
      Widen(prev.0, prev.1, ys)
  }

  /** A point's y is kept exactly when its x lies in `[xmin, xmax]`. */
  lemma {:induction false} InDomainYsMembers(points: seq<Point>, xmin: real, xmax: real, y: real)
    ensures y in InDomainYs(points, xmin, xmax) <==>
            exists p :: p in points && xmin <= p.x <= xmax && p.y == y
  {
    if points != [] {
      var init := points[..|points| - 1];
      InDomainYsMembers(init, xmin, xmax, y);
      assert points == init + [points[|points| - 1]];
    }
  }

  /** A point outside `[xmin, xmax]`, wherever it stands, changes nothing in the contribution. */
  lemma {:induction false} OutOfDomainPointIgnored(a: seq<Point>, p: Point, b: seq<Point>, xmin: real, xmax: real)
    requires p.x < xmin || xmax < p.x
    ensures InDomainYs(a + [p] + b, xmin, xmax) == InDomainYs(a + b, xmin, xmax)
  {
    if b == [] {
      assert (a + [p])[..|a|] == a;
      assert a + [p] + b == a + [p];
      assert a + b == a;
    } else {
      var init := b[..|b| - 1];
      OutOfDomainPointIgnored(a, p, init, xmin, xmax);
      assert (a + [p] + b)[..|a + [p] + b| - 1] == a + [p] + init;
      assert (a + b)[..|a + b| - 1] == a + init;
    }
  }

  /**
   * Column `i` of the canvas samples `f` at the data x that the x-scale sends to column `i`,
   * which lies in the domain.
   */
  lemma SampleAtColumn(f: real -> real, xmin: real, xmax: real, width: U32, i: nat)
    requires xmin < xmax && 0 < width && i <= width
    ensures var xs := CanvasScale(xmin, xmax, width);
      var x := InvLinear(xs, i as real);
      xmin <= x <= xmax && Linear(xs, x) == i as real && Sample(f, xs, i) == f(x)
  {
    LinearOfInvLinear(CanvasScale(xmin, xmax, width), i as real);
  }

  /**
   * A function contributes exactly its normal samples at columns `0..width`; a discrete
   * shape exactly the y of each point whose x lies in `[xmin, xmax]`.
   */
  lemma ContributionMembers(shape: Shape, xmin: real, xmax: real, width: U32, y: real)
    requires 0 < width
    ensures shape.Continuous? ==>
      (y in Contribution(shape, xmin, xmax, width) <==>
       exists i :: 0 <= i < width && y == Sample(shape.f, CanvasScale(xmin, xmax, width), i) && IsNormal(y))
    ensures !shape.Continuous? ==>
      (y in Contribution(shape, xmin, xmax, width) <==>
       exists p :: p in shape.points && xmin <= p.x <= xmax && p.y == y)
  {
    if shape.Continuous? {
      NormalSamplesMembers(shape.f, CanvasScale(xmin, xmax, width), width, y);
    } else {
      InDomainYsMembers(shape.points, xmin, xmax, y);
    }
  }

  /** A sample is kept exactly when it is normal. */
  lemma {:induction false} NormalSamplesMembers(f: real -> real, xs: Scale, n: nat, y: real)
    requires xs.range.start < xs.range.end
    ensures y in NormalSamples(f, xs, n) <==>
            exists i :: 0 <= i < n && y == Sample(f, xs, i) && IsNormal(Sample(f, xs, i))
  {
    if n > 0 {
      NormalSamplesMembers(f, xs, n - 1, y);
    }
  }

  /** After the registrations, every y-value any registered shape contributed lies within the bounds. */
  lemma {:induction false} BoundsCoverContributions(entries: seq<(Shape, PixelColor)>, xmin: real, xmax: real, width: U32, k: nat, y: real)
    requires 0 < width
    requires k < |entries|
    requires y in Contribution(entries[k].0, xmin, xmax, width)
    ensures YBounds(entries, xmin, xmax, width).0.value <= y <= YBounds(entries, xmin, xmax, width).1.value
  {
    var init := entries[..|entries| - 1];
    var ys := Contribution(entries[|entries| - 1].0, xmin, xmax, width);
    if k < |init| {
      assert init[k] == entries[k];
      BoundsCoverContributions(init, xmin, xmax, width, k, y);
    } else {
      var i :| 0 <= i < |ys| && ys[i] == y;
      assert LowOrZero(ys) <= ys[i] <= HighOrZero(ys);
    }
  }

  /**
   * After the registrations, the bounds cover each registered shape's contributed minimum and
   * maximum, including the 0.0 that stands in for an empty contribution.
   */
  lemma {:induction false} BoundsCoverExtremes(entries: seq<(Shape, PixelColor)>, xmin: real, xmax: real, width: U32, k: nat)
    requires 0 < width
    requires k < |entries|
    ensures YBounds(entries, xmin, xmax, width).0.value <= LowOrZero(Contribution(entries[k].0, xmin, xmax, width))
    ensures HighOrZero(Contribution(entries[k].0, xmin, xmax, width)) <= YBounds(entries, xmin, xmax, width).1.value
  {
    var init, last := entries[..|entries| - 1], entries[|entries| - 1];
    assert entries == init + [last];
    YBoundsAppend(init, last, xmin, xmax, width);
    if k < |init| {
      assert init[k] == entries[k];
      BoundsCoverExtremes(init, xmin, xmax, width, k);
    }
  }

  /**
   * A shape that contributes no value pulls both bounds to cover 0.0, whatever was
   * registered before it.
   */
  lemma EmptyContributionCoversZero(entries: seq<(Shape, PixelColor)>, xmin: real, xmax: real, width: U32)
    requires 0 < width && entries != []
    requires Contribution(entries[|entries| - 1].0, xmin, xmax, width) == []
    ensures YBounds(entries, xmin, xmax, width).0.value <= 0.0 <= YBounds(entries, xmin, xmax, width).1.value
  {
  }

  /**
   * The bounds are no wider than needed: each of them is the contributed minimum
   * (maximum) of one registered shape, with 0.0 standing in for an empty contribution.
   */
  lemma {:induction false} BoundsAttained(entries: seq<(Shape, PixelColor)>, xmin: real, xmax: real, width: U32)
    requires 0 < width
    requires entries != []
    ensures exists k :: (0 <= k < |entries| &&
              YBounds(entries, xmin, xmax, width).0.value == LowOrZero(Contribution(entries[k].0, xmin, xmax, width)))
    ensures exists k :: (0 <= k < |entries| &&
              YBounds(entries, xmin, xmax, width).1.value == HighOrZero(Contribution(entries[k].0, xmin, xmax, width)))
  {
    var n := |entries|;
    var init := entries[..n - 1];
    var b := YBounds(entries, xmin, xmax, width);
    var ys := Contribution(entries[n - 1].0, xmin, xmax, width);
    if init == [] {
      assert b.0.value == LowOrZero(ys) && b.1.value == HighOrZero(ys);
    } else {
      BoundsAttained(init, xmin, xmax, width);
      var prev := YBounds(init, xmin, xmax, width);
      if b.0.value != LowOrZero(ys) {
        var k :| 0 <= k < |init| && prev.0.value == LowOrZero(Contribution(init[k].0, xmin, xmax, width));
        assert init[k] == entries[k];
      }
      if b.1.value != HighOrZero(ys) {
        var k :| 0 <= k < |init| && prev.1.value == HighOrZero(Contribution(init[k].0, xmin, xmax, width));
        assert init[k] == entries[k];
      }
    }
  }

  /**
   * A shape that contributes nothing still pulls both bounds to cover 0.0: on a fresh
   * chart with domain [0, 10], points lying only at x = 20 give the range [0.0, 0.0].
   */
  lemma EmptyContributionGivesZero(color: PixelColor)
    ensures YBounds([(Points([Point(20.0, 5.0)]), color)], 0.0, 10.0, 120) == (Some(0.0), Some(0.0))
  {
    var pts := [Point(20.0, 5.0)];
    assert pts[..0] == [];
    assert InDomainYs(pts, 0.0, 10.0) == [];
  }

  /**
   * On a 120-wide chart with domain [0, 11], registering the points
   * (0, -8), (1, -8), (2, -3) gives ymin = -8 and ymax = -3.
   */
  lemma RegistrationExample(color: PixelColor)
    ensures YBounds([(Points([Point(0.0, -8.0), Point(1.0, -8.0), Point(2.0, -3.0)]), color)], 0.0, 11.0, 120)
            == (Some(-8.0), Some(-3.0))
  {
    var entries := [(Points([Point(0.0, -8.0), Point(1.0, -8.0), Point(2.0, -3.0)]), color)];
    assert entries[..0] == [];
    ExampleYs();
    ExampleExtremes();
  }

  lemma ExampleYs()
    ensures InDomainYs([Point(0.0, -8.0), Point(1.0, -8.0), Point(2.0, -3.0)], 0.0, 11.0) == [-8.0, -8.0, -3.0]
  {
    var pts := [Point(0.0, -8.0), Point(1.0, -8.0), Point(2.0, -3.0)];
    assert pts[..2][..1] == [Point(0.0, -8.0)];
    assert pts[..2][..1][..0] == [];
    assert InDomainYs(pts[..2][..1], 0.0, 11.0) == [-8.0];
    assert InDomainYs(pts[..2], 0.0, 11.0) == [-8.0, -8.0];
  }

  lemma ExampleExtremes()
    ensures SeqMin([-8.0, -8.0, -3.0]) == -8.0 && SeqMax([-8.0, -8.0, -3.0]) == -3.0
  {
    var ys := [-8.0, -8.0, -3.0];
    assert ys[1..] == [-8.0, -3.0] && ys[1..][1..] == [-3.0];
  }

  // ---------------------------------------------------------------------------------
  // Rendering: data to canvas dots
  // ---------------------------------------------------------------------------------

  /**
   * `v.round() as u32`: the nearest integer within `u32`, with everything at or below zero
   * going to 0 and everything at or above `u32::MAX` going to `u32::MAX`.
   */
  function Pixel(v: real): (r: U32)
    ensures v <= 0.0 ==> r == 0
    ensures 0.0 <= v <= U32Max as real ==> r == Round(v)
    ensures U32Max as real <= v ==> r == U32Max
  {
    var n := Round(v);
    assert 0.0 <= v <= U32Max as real ==> 0 <= n <= U32Max;
    assert U32Max as real <= v ==> U32Max <= n;
    CastU32(n as real)
  }

  /** A coordinate already clamped into `[0, n]` rounds to a pixel in `[0, n]`, without saturating. */
  lemma PixelWithin(v: real, n: U32)
    requires 0.0 <= v <= n as real
    ensures Pixel(v) == Round(v) && Pixel(v) <= n
  {
    var r := Round(v);
    assert r as real <= n as real + 0.5;
    assert r <= n;
  }

  /**
   * The `filter_map` body of `figures` for a data point: scale both coordinates, round,
   * keep the dot if it lies on the canvas, and flip the row because row 0 is the top.
   */
  function MapPoint(p: Point, xs: Scale, ys: Scale, width: U32, height: U32, color: PixelColor): (r: Option<Dot>)
    requires xs.range.start < xs.range.end && ys.range.start < ys.range.end
    ensures r.Some? ==> r.value.i <= width && r.value.j <= height && r.value.color == color
  {
    var i := Pixel(Linear(xs, p.x));
    var j := Pixel(Linear(ys, p.y));
    if i <= width && j <= height then Some(Dot(i, height - j, color)) else None
  }

  /** The dots of a discrete shape, in the order of its points. */
  function DiscreteDots(points: seq<Point>, xs: Scale, ys: Scale, width: U32, height: U32, color: PixelColor): (dots: seq<Dot>)
    requires xs.range.start < xs.range.end && ys.range.start < ys.range.end
    ensures |dots| <= |points|
    ensures forall k :: 0 <= k < |dots| ==> dots[k].i <= width && dots[k].j <= height && dots[k].color == color
  {
    if points == [] then []
    else
      var prev := DiscreteDots(points[..|points| - 1], xs, ys, width, height, color);
      match MapPoint(points[|points| - 1], xs, ys, width, height, color)
      case Some(d) => prev + [d]
      case None => prev
  }

  /**
   * The dots of a continuous shape over columns `0..n`: a column whose sample is not
   * normal gives no dot. The row subtraction cannot underflow because the y-scale clamps.
   */
  function ContinuousDots(f: real -> real, xs: Scale, ys: Scale, n: U32, height: U32, color: PixelColor): (dots: seq<Dot>)
    requires xs.range.start < xs.range.end
    requires ys.range == Interval(0.0, height as real) && 0 < height
    ensures |dots| <= n
    ensures forall k :: 0 <= k < |dots| ==> dots[k].i < n && dots[k].j <= height && dots[k].color == color
    ensures forall k, l :: 0 <= k < l < |dots| ==> dots[k].i < dots[l].i
  {
    if n == 0 then []
    else
      var prev := ContinuousDots(f, xs, ys, n - 1, height, color);
      var y := Sample(f, xs, n - 1);
      if IsNormal(y) then prev + [SampleDot(n - 1, y, ys, height, color)] else prev
  }

  /** The dot of column `i` for the sample `y`: its scaled value, rounded, with the row flipped. */
  function SampleDot(i: U32, y: real, ys: Scale, height: U32, color: PixelColor): (d: Dot)
    requires ys.range == Interval(0.0, height as real) && 0 < height
    ensures d.i == i && d.j <= height && d.color == color
  {
    var v := Linear(ys, y);
    PixelWithin(v, height);
    Dot(i, height - Pixel(v), color)
  }

  /** The translated `(i, j, colour)` points of one registered shape. */
  function ShapeDots(shape: Shape, color: PixelColor, xs: Scale, ys: Scale, width: U32, height: U32): (dots: seq<Dot>)
    requires xs.range.start < xs.range.end
    requires ys.range == Interval(0.0, height as real) && 0 < height
    ensures shape.Continuous? ==> |dots| <= width
    ensures shape.Continuous? ==> forall k, l :: 0 <= k < l < |dots| ==> dots[k].i < dots[l].i
    ensures !shape.Continuous? ==> |dots| <= |shape.points|
    ensures forall k :: 0 <= k < |dots| ==> dots[k].i <= width && dots[k].j <= height && dots[k].color == color
  {
    match shape
    case Continuous(f) => ContinuousDots(f, xs, ys, width, height, color)
    case _ => DiscreteDots(shape.points, xs, ys, width, height, color)
  }

  /** Draw calls per consecutive pair of dots: 1 for lines, 2 for steps, 4 for bars. */
  function PerPair(shape: Shape): nat {
    match shape
    case Continuous(_) => 1
    case Lines(_) => 1
    case Points(_) => 0
    case Steps(_) => 2
    case Bars(_) => 4
  }

  /** The draw calls for one window `[d1, d2]` of the dots (a scatter plot has no windows). */
  function PairOps(shape: Shape, d1: Dot, d2: Dot, height: U32): (ops: seq<DrawOp>)
    ensures |ops| == PerPair(shape)
  {
    var c := d1.color;
    match shape
    case Continuous(_) => [Line(d1.i, d1.j, d2.i, d2.j, c)]
    case Lines(_) => [Line(d1.i, d1.j, d2.i, d2.j, c)]
    case Points(_) => []
    case Steps(_) => [Line(d1.i, d2.j, d2.i, d2.j, c), Line(d1.i, d1.j, d1.i, d2.j, c)]
    case Bars(_) =>
      [Line(d1.i, d2.j, d2.i, d2.j, c), Line(d1.i, d1.j, d1.i, d2.j, c),
       Line(d1.i, height, d1.i, d1.j, c), Line(d2.i, height, d2.i, d2.j, c)]
  }

  /** The draw calls for `dots.windows(2)`, window after window. */
  function WindowOps(shape: Shape, dots: seq<Dot>, height: U32): seq<DrawOp> {
    if |dots| < 2 then []
    else
      var n := |dots|;
      WindowOps(shape, dots[..n - 1], height) + PairOps(shape, dots[n - 2], dots[n - 1], height)
  }

  /** The windows of `dots[..w + 2]` are those of `dots[..w + 1]` followed by `[dots[w], dots[w + 1]]`. */
  lemma WindowOpsStep(shape: Shape, dots: seq<Dot>, w: nat, height: U32)
    requires w + 1 < |dots|
    ensures WindowOps(shape, dots[..w + 2], height)
      == WindowOps(shape, dots[..w + 1], height) + PairOps(shape, dots[w], dots[w + 1], height)
  {
    assert dots[..w + 2][..w + 1] == dots[..w + 1];
  }

  /** The `set_colored` calls of a scatter plot, one per dot. */
  function DotOps(dots: seq<Dot>): (ops: seq<DrawOp>)
    ensures |ops| == |dots|
    ensures forall k :: 0 <= k < |dots| ==> ops[k] == SetColored(dots[k].i, dots[k].j, dots[k].color)
  {
    seq(|dots|, k requires 0 <= k < |dots| => SetColored(dots[k].i, dots[k].j, dots[k].color))
  }

  /** Everything `figures` draws for one shape, given its dots. */
  function ShapeOps(shape: Shape, dots: seq<Dot>, height: U32): seq<DrawOp> {
    if shape.Points? then DotOps(dots) else WindowOps(shape, dots, height)
  }

  /**
   * Everything `figures` draws for one registered shape, with the scales built from the
   * x domain and the y bounds `[lo, hi]`.
   */
  function EntryOps(e: (Shape, PixelColor), xmin: real, xmax: real, lo: real, hi: real, width: U32, height: U32): seq<DrawOp>
    requires 0 < width && 0 < height
  {
    var xs, ys := CanvasScale(xmin, xmax, width), CanvasScale(lo, hi, height);
    ShapeOps(e.0, ShapeDots(e.0, e.1, xs, ys, width, height), height)
  }

  /** Everything `figures` draws for the registered shapes, in registration order. */
  function FiguresOps(entries: seq<(Shape, PixelColor)>, xmin: real, xmax: real, lo: real, hi: real, width: U32, height: U32): seq<DrawOp>
    requires 0 < width && 0 < height
  {
    if entries == [] then []
    else
      FiguresOps(entries[..|entries| - 1], xmin, xmax, lo, hi, width, height)
        + EntryOps(entries[|entries| - 1], xmin, xmax, lo, hi, width, height)
  }

  /**
   * Because the scales clamp, the on-canvas test of `figures` never drops a data point:
   * every point gives one dot, in order (`MapPointOnCanvas` says which dot).
   */
  lemma {:induction false} DiscreteDotsKeepEveryPoint(points: seq<Point>, xmin: real, xmax: real, ymin: real, ymax: real,
                                                     width: U32, height: U32, color: PixelColor)
    requires 0 < width && 0 < height
    ensures var xs, ys := CanvasScale(xmin, xmax, width), CanvasScale(ymin, ymax, height);
      var dots := DiscreteDots(points, xs, ys, width, height, color);
      |dots| == |points| &&
      forall k :: 0 <= k < |points| ==> MapPoint(points[k], xs, ys, width, height, color) == Some(dots[k])
  {
    var xs, ys := CanvasScale(xmin, xmax, width), CanvasScale(ymin, ymax, height);
    if points != [] {
      var init := points[..|points| - 1];
      var p := points[|points| - 1];
      DiscreteDotsKeepEveryPoint(init, xmin, xmax, ymin, ymax, width, height, color);
      MapPointOnCanvas(p, xs, ys, width, height, color);
      var prev := DiscreteDots(init, xs, ys, width, height, color);
      var dots := DiscreteDots(points, xs, ys, width, height, color);
      DiscreteDotsAppend(points, xs, ys, width, height, color);
      forall k | 0 <= k < |init|
        ensures MapPoint(points[k], xs, ys, width, height, color) == Some(dots[k])
      {
        assert init[k] == points[k];
      }
    }
  }

  /** A point that passes the on-canvas test adds its dot after those of the points before it. */
  lemma DiscreteDotsAppend(points: seq<Point>, xs: Scale, ys: Scale, width: U32, height: U32, color: PixelColor)
    requires xs.range.start < xs.range.end && ys.range.start < ys.range.end
    requires points != [] && MapPoint(points[|points| - 1], xs, ys, width, height, color).Some?
    ensures DiscreteDots(points, xs, ys, width, height, color)
         == DiscreteDots(points[..|points| - 1], xs, ys, width, height, color)
            + [MapPoint(points[|points| - 1], xs, ys, width, height, color).value]
  {
  }

  /** A point mapped through scales onto `[0, width] x [0, height]` always passes the on-canvas test. */
  lemma MapPointOnCanvas(p: Point, xs: Scale, ys: Scale, width: U32, height: U32, color: PixelColor)
    requires xs.range == Interval(0.0, width as real) && ys.range == Interval(0.0, height as real)
    requires 0 < width && 0 < height
    ensures Pixel(Linear(ys, p.y)) <= height
    ensures MapPoint(p, xs, ys, width, height, color)
         == Some(Dot(Pixel(Linear(xs, p.x)), height - Pixel(Linear(ys, p.y)), color))
  {
    PixelWithin(Linear(xs, p.x), width);
    PixelWithin(Linear(ys, p.y), height);
  }

  /**
   * A data point outside the x domain is not dropped but drawn on the border:
   * left of `xmin` in column 0, right of `xmax` in column `width`.
   */
  lemma OutOfDomainPointOnBorder(p: Point, xmin: real, xmax: real, ymin: real, ymax: real,
                                 width: U32, height: U32, color: PixelColor)
    requires xmin < xmax && 0 < width && 0 < height
    requires p.x < xmin || xmax < p.x
    ensures var d := MapPoint(p, CanvasScale(xmin, xmax, width), CanvasScale(ymin, ymax, height), width, height, color);
      d.Some? && d.value.i == (if p.x < xmin then 0 else width)
  {
    var xs, ys := CanvasScale(xmin, xmax, width), CanvasScale(ymin, ymax, height);
    LinearClampsOutsideDomain(xs, p.x);
    PixelWithin(Linear(xs, p.x), width);
    PixelWithin(Linear(ys, p.y), height);
  }

  /**
   * Drawing a continuous shape keeps exactly the samples registration kept: one dot per
   * normal sample, in the same order, on a column left of `n`, at the flipped scaled row.
   */
  lemma {:induction false} ContinuousDotsMatchSamples(f: real -> real, xs: Scale, ys: Scale, n: U32, height: U32, color: PixelColor)
    requires xs.range.start < xs.range.end
    requires ys.range == Interval(0.0, height as real) && 0 < height
    ensures var dots, samples := ContinuousDots(f, xs, ys, n, height, color), NormalSamples(f, xs, n);
      |dots| == |samples| &&
      forall k :: 0 <= k < |dots| ==>
        dots[k].i < n && Sample(f, xs, dots[k].i) == samples[k] &&
        Pixel(Linear(ys, samples[k])) <= height &&
        dots[k].j == height - Pixel(Linear(ys, samples[k])) && dots[k].color == color
  {
    if n > 0 {
      ContinuousDotsMatchSamples(f, xs, ys, n - 1, height, color);
      PixelWithin(Linear(ys, Sample(f, xs, n - 1)), height);
    }
  }

  /**
   * Every column `i` left of `n` whose sample is normal gets a dot, and it is the dot that
   * follows those of the columns before `i`.
   */
  lemma {:induction false} ContinuousDotsEveryNormalColumn(f: real -> real, xs: Scale, ys: Scale, n: U32, height: U32,
                                                           color: PixelColor, i: U32)
    requires xs.range.start < xs.range.end
    requires ys.range == Interval(0.0, height as real) && 0 < height
    requires i < n && IsNormal(Sample(f, xs, i))
    ensures var before := |ContinuousDots(f, xs, ys, i, height, color)|;
      before < |ContinuousDots(f, xs, ys, n, height, color)| && ContinuousDots(f, xs, ys, n, height, color)[before].i == i
  {
    if i < n - 1 {
      ContinuousDotsEveryNormalColumn(f, xs, ys, n - 1, height, color, i);
      ContinuousDotsKeep(f, xs, ys, n, height, color, |ContinuousDots(f, xs, ys, i, height, color)|);
    } else {
      ContinuousDotsAdd(f, xs, ys, n, height, color);
    }
  }

  /** Dot `k` over columns `0..n - 1` stays dot `k` over columns `0..n`. */
  lemma ContinuousDotsKeep(f: real -> real, xs: Scale, ys: Scale, n: U32, height: U32, color: PixelColor, k: nat)
    requires xs.range.start < xs.range.end
    requires ys.range == Interval(0.0, height as real) && 0 < height && 0 < n
    requires k < |ContinuousDots(f, xs, ys, n - 1, height, color)|
    ensures k < |ContinuousDots(f, xs, ys, n, height, color)|
    ensures ContinuousDots(f, xs, ys, n, height, color)[k] == ContinuousDots(f, xs, ys, n - 1, height, color)[k]
  {
  }

  /** A normal sample in column `n - 1` adds a dot in that column after the earlier ones. */
  lemma ContinuousDotsAdd(f: real -> real, xs: Scale, ys: Scale, n: U32, height: U32, color: PixelColor)
    requires xs.range.start < xs.range.end
    requires ys.range == Interval(0.0, height as real) && 0 < height && 0 < n
    requires IsNormal(Sample(f, xs, n - 1))
    ensures |ContinuousDots(f, xs, ys, n - 1, height, color)| < |ContinuousDots(f, xs, ys, n, height, color)|
    ensures ContinuousDots(f, xs, ys, n, height, color)[|ContinuousDots(f, xs, ys, n - 1, height, color)|].i == n - 1
  {
  }

  /** The dots over columns `0..n` extend those over `0..n - 1`, by a dot in column `n - 1` when its sample is normal. */
  lemma ContinuousDotsExtend(f: real -> real, xs: Scale, ys: Scale, n: U32, height: U32, color: PixelColor)
    requires xs.range.start < xs.range.end
    requires ys.range == Interval(0.0, height as real) && 0 < height && 0 < n
    ensures var dots, prev := ContinuousDots(f, xs, ys, n, height, color), ContinuousDots(f, xs, ys, n - 1, height, color);
      |prev| <= |dots| && dots[..|prev|] == prev &&
      (IsNormal(Sample(f, xs, n - 1)) ==> |dots| == |prev| + 1 && dots[|prev|].i == n - 1)
  {
  }

  /** A column whose sample is not normal adds no dot. */
  lemma ContinuousDotsSkip(f: real -> real, xs: Scale, ys: Scale, n: U32, height: U32, color: PixelColor)
    requires xs.range.start < xs.range.end
    requires ys.range == Interval(0.0, height as real) && 0 < height && 0 < n
    requires !IsNormal(Sample(f, xs, n - 1))
    ensures ContinuousDots(f, xs, ys, n, height, color) == ContinuousDots(f, xs, ys, n - 1, height, color)
  {
  }

  /** `windows(2)` over n dots issues `PerPair` calls for each of the n - 1 windows. */
  lemma {:induction false} WindowOpsLength(shape: Shape, dots: seq<Dot>, height: U32)
    ensures |WindowOps(shape, dots, height)| == if |dots| < 2 then 0 else PerPair(shape) * (|dots| - 1)
  {
    if |dots| >= 2 {
      WindowOpsLength(shape, dots[..|dots| - 1], height);
    }
  }

  /** Call `m` of window `k` sits at position `PerPair * k + m` and is that window's call `m`. */
  lemma {:induction false} WindowOpsAt(shape: Shape, dots: seq<Dot>, height: U32, k: nat, m: nat)
    requires k + 1 < |dots| && m < PerPair(shape)
    ensures PerPair(shape) * k + m < |WindowOps(shape, dots, height)|
    ensures WindowOps(shape, dots, height)[PerPair(shape) * k + m] == PairOps(shape, dots[k], dots[k + 1], height)[m]
  {
    var n, c := |dots|, PerPair(shape);
    var init := dots[..n - 1];
    WindowOpsLength(shape, init, height);
    WindowOpsLength(shape, dots, height);
    if k + 2 < n {
      WindowOpsAt(shape, init, height, k, m);
      assert init[k] == dots[k] && init[k + 1] == dots[k + 1];
    } else {
      assert k == n - 2;
      assert |WindowOps(shape, init, height)| == c * k;
    }
  }

  /** Steps and bars are drawn only with vertical and horizontal segments, never a diagonal. */
  lemma {:induction false} StepsAndBarsAxisParallel(shape: Shape, dots: seq<Dot>, height: U32)
    requires shape.Steps? || shape.Bars?
    ensures forall op :: op in WindowOps(shape, dots, height) ==> op.Line? && (op.x1 == op.x2 || op.y1 == op.y2)
  {
    if |dots| >= 2 {
      StepsAndBarsAxisParallel(shape, dots[..|dots| - 1], height);
    }
  }

  // ---------------------------------------------------------------------------------
  // Dashed lines, borders and axes
  // ---------------------------------------------------------------------------------

  /** `set(i, j)` for every row `j < n` with `j % 3 == 0`, top to bottom. */
  function DashedColumn(i: U32, n: nat): seq<DrawOp>
    requires n <= U32Max + 1
  {
    if n == 0 then []
    else DashedColumn(i, n - 1) + (if (n - 1) % 3 == 0 then [Set(i, n - 1)] else [])
  }

  /** `set(i, j)` for every column `i < n` with `i % 3 == 0`, left to right. */
  function DashedRow(j: U32, n: nat): seq<DrawOp>
    requires n <= U32Max + 1
  {
    if n == 0 then []
    else DashedRow(j, n - 1) + (if (n - 1) % 3 == 0 then [Set(n - 1, j)] else [])
  }

  /** What `vline(i)` draws: a dashed column over rows `0..=height`, if `i <= width`. */
  function VLineOps(i: U32, width: U32, height: U32): seq<DrawOp> {
    if i <= width then DashedColumn(i, height + 1) else []
  }

  /** What `hline(j)` draws: a dashed row at `height - j` over columns `0..=width`, if `j <= height`. */
  function HLineOps(j: U32, width: U32, height: U32): seq<DrawOp> {
    if j <= height then DashedRow(height - j, width + 1) else []
  }

  /** A dashed column holds exactly the dots of column `i` whose row is a multiple of 3 below `n`. */
  lemma {:induction false} DashedColumnDots(i: U32, n: nat, op: DrawOp)
    requires n <= U32Max + 1
    ensures op in DashedColumn(i, n) <==> op.Set? && op.i == i && op.j < n && op.j % 3 == 0
  {
    if n > 0 {
      DashedColumnDots(i, n - 1, op);
    }
  }

  /** A dashed row holds exactly the dots of row `j` whose column is a multiple of 3 below `n`. */
  lemma {:induction false} DashedRowDots(j: U32, n: nat, op: DrawOp)
    requires n <= U32Max + 1
    ensures op in DashedRow(j, n) <==> op.Set? && op.j == j && op.i < n && op.i % 3 == 0
  {
    if n > 0 {
      DashedRowDots(j, n - 1, op);
    }
  }

  /** A dashed line of `n` positions sets `(n + 2) / 3` dots. */
  lemma {:induction false} DashedLength(i: U32, n: nat)
    requires n <= U32Max + 1
    ensures |DashedColumn(i, n)| == (n + 2) / 3 && |DashedRow(i, n)| == (n + 2) / 3
  {
    if n > 0 {
      DashedLength(i, n - 1);
    }
  }

  /** What `borders` draws: `vline(0)`, `vline(width)`, `hline(0)`, `hline(height)`. */
  function BorderOps(width: U32, height: U32): seq<DrawOp> {
    VLineOps(0, width, height) + VLineOps(width, width, height)
      + HLineOps(0, width, height) + HLineOps(height, width, height)
  }

  /**
   * The border is the dashed frame of the canvas: every third dot of columns 0 and
   * `width` and of rows 0 and `height`, and nothing else.
   */
  lemma BorderDots(width: U32, height: U32, op: DrawOp)
    ensures op in BorderOps(width, height) <==>
      op.Set? &&
      (((op.i == 0 || op.i == width) && op.j <= height && op.j % 3 == 0) ||
       ((op.j == 0 || op.j == height) && op.i <= width && op.i % 3 == 0))
  {
    var left, right := DashedColumn(0, height + 1), DashedColumn(width, height + 1);
    var bottom, top := DashedRow(height, width + 1), DashedRow(0, width + 1);
    assert BorderOps(width, height) == left + right + bottom + top;
    assert op in BorderOps(width, height) <==> op in left || op in right || op in bottom || op in top;
    DashedColumnDots(0, height + 1, op);
    DashedColumnDots(width, height + 1, op);
    DashedRowDots(height, width + 1, op);
    DashedRowDots(0, width + 1, op);
  }

  /**
   * What `axis` draws: the dashed vertical axis at the column of x = 0 when 0 lies in
   * `[xmin, xmax]`, then the dashed horizontal axis at the row of y = 0 when 0 lies in
   * `[ymin, ymax]` (never while the y bounds are still unset, as the infinities compare).
   * The column and row are `linear(0.0) as u32`, a truncation.
   */
  function AxisOps(width: U32, height: U32, xmin: real, xmax: real, ymin: Option<real>, ymax: Option<real>): seq<DrawOp>
    requires 0 < width && 0 < height
  {
    VerticalAxisOps(width, height, xmin, xmax) + HorizontalAxisOps(width, height, ymin, ymax)
  }

  /** The first half of `axis`: `vline` at the column of x = 0, when 0 lies in `[xmin, xmax]`. */
  function VerticalAxisOps(width: U32, height: U32, xmin: real, xmax: real): seq<DrawOp>
    requires 0 < width
  {
    if xmin <= 0.0 && xmax >= 0.0
    then VLineOps(CastU32(Linear(CanvasScale(xmin, xmax, width), 0.0)), width, height)
    else []
  }

  /** The second half of `axis`: `hline` at the row of y = 0, when 0 lies in `[ymin, ymax]`. */
  function HorizontalAxisOps(width: U32, height: U32, ymin: Option<real>, ymax: Option<real>): seq<DrawOp>
    requires 0 < height
  {
    if ymin.Some? && ymax.Some? && ymin.value <= 0.0 && ymax.value >= 0.0
    then HLineOps(CastU32(Linear(CanvasScale(ymin.value, ymax.value, height), 0.0)), width, height)
    else []
  }

  /** The vertical axis stands at the column where x = 0 falls, truncated, which is on the canvas. */
  lemma AxisColumn(width: U32, xmin: real, xmax: real)
    requires 0 < width && xmin < xmax && xmin <= 0.0 <= xmax
    ensures var col := CastU32(Linear(CanvasScale(xmin, xmax, width), 0.0));
      var v := 0.0 + (0.0 - xmin) / (xmax - xmin) * (width as real - 0.0);
      col <= width && col as real <= v < col as real + 1.0
  {
    var xs := CanvasScale(xmin, xmax, width);
    LinearOfProperScale(xs, 0.0);
    AffineRoundTrip(xmin, xmax, 0.0, width as real, 0.0);
  }

  /**
   * When 0 lies in `[xmin, xmax]` the vertical axis is drawn over the full height (every
   * third row); otherwise `axis` draws the horizontal axis when its condition holds, and
   * nothing else.
   */
  lemma AxisVertical(width: U32, height: U32, xmin: real, xmax: real, ymin: Option<real>, ymax: Option<real>)
    requires 0 < width && 0 < height
    ensures var col := CastU32(Linear(CanvasScale(xmin, xmax, width), 0.0));
      xmin <= 0.0 <= xmax ==>
        forall j: U32 :: j <= height && j % 3 == 0 ==> Set(col, j) in AxisOps(width, height, xmin, xmax, ymin, ymax)
    ensures !(xmin <= 0.0 <= xmax) ==>
      AxisOps(width, height, xmin, xmax, ymin, ymax)
        == (if ymin.Some? && ymax.Some? && ymin.value <= 0.0 && ymax.value >= 0.0
            then HLineOps(CastU32(Linear(CanvasScale(ymin.value, ymax.value, height), 0.0)), width, height)
            else [])
  {
    var col := CastU32(Linear(CanvasScale(xmin, xmax, width), 0.0));
    var vertical := VerticalAxisOps(width, height, xmin, xmax);
    var horizontal := HorizontalAxisOps(width, height, ymin, ymax);
    if xmin <= 0.0 <= xmax {
      assert col <= width;
      assert vertical == DashedColumn(col, height + 1);
      forall j: U32 | j <= height && j % 3 == 0
        ensures Set(col, j) in vertical + horizontal
      {
        DashedColumnDots(col, height + 1, Set(col, j));
      }
    } else {
      assert vertical + horizontal == horizontal;
    }
  }

  /**
   * When both y bounds are set and 0 lies between them, the horizontal axis is drawn over
   * the full width (every third column) at the flipped row of y = 0, whose scaled value is
   * truncated; otherwise `axis` draws the vertical axis when its condition holds, and
   * nothing else.
   */
  lemma AxisHorizontal(width: U32, height: U32, xmin: real, xmax: real, ymin: Option<real>, ymax: Option<real>)
    requires 0 < width && 0 < height
    ensures ymin.Some? && ymax.Some? && ymin.value <= 0.0 <= ymax.value ==>
      var v := Linear(CanvasScale(ymin.value, ymax.value, height), 0.0);
      var row := CastU32(v);
      row <= height && row as real <= v < row as real + 1.0 &&
      forall i: U32 :: i <= width && i % 3 == 0 ==> Set(i, height - row) in AxisOps(width, height, xmin, xmax, ymin, ymax)
    ensures !(ymin.Some? && ymax.Some? && ymin.value <= 0.0 <= ymax.value) ==>
      AxisOps(width, height, xmin, xmax, ymin, ymax)
        == (if xmin <= 0.0 && xmax >= 0.0
            then VLineOps(CastU32(Linear(CanvasScale(xmin, xmax, width), 0.0)), width, height)
            else [])
  {
    var vertical := VerticalAxisOps(width, height, xmin, xmax);
    var horizontal := HorizontalAxisOps(width, height, ymin, ymax);
    if ymin.Some? && ymax.Some? && ymin.value <= 0.0 <= ymax.value {
      var row := CastU32(Linear(CanvasScale(ymin.value, ymax.value, height), 0.0));
      assert row <= height;
      assert horizontal == DashedRow(height - row, width + 1);
      forall i: U32 | i <= width && i % 3 == 0
        ensures Set(i, height - row) in vertical + horizontal
      {
        DashedRowDots(height - row, width + 1, Set(i, height - row));
      }
    } else {
      assert vertical + horizontal == vertical;
    }
  }

  /** Registering one more shape widens the bounds of the shapes before it. */
  lemma YBoundsAppend(entries: seq<(Shape, PixelColor)>, e: (Shape, PixelColor), xmin: real, xmax: real, width: U32)
    requires 0 < width
    ensures var b := YBounds(entries, xmin, xmax, width);
      YBounds(entries + [e], xmin, xmax, width) == Widen(b.0, b.1, Contribution(e.0, xmin, xmax, width))
  {
    assert (entries + [e])[..|entries|] == entries;
  }

  /** Re-associates a concatenation, for the loops that append to the canvas log. */
  lemma AppendAssociative(a: seq<DrawOp>, b: seq<DrawOp>, c: seq<DrawOp>)
    ensures (a + b) + c == a + (b + c)
  {
  }

  /** Drawing the first k + 1 shapes appends the calls of shape k to those of the first k. */
  lemma FiguresOpsPrefix(entries: seq<(Shape, PixelColor)>, k: nat, xmin: real, xmax: real, lo: real, hi: real, width: U32, height: U32)
    requires 0 < width && 0 < height && k < |entries|
    ensures FiguresOps(entries[..k + 1], xmin, xmax, lo, hi, width, height)
         == FiguresOps(entries[..k], xmin, xmax, lo, hi, width, height) + EntryOps(entries[k], xmin, xmax, lo, hi, width, height)
  {
    assert entries[..k + 1][..k] == entries[..k];
  }

  /** Why `Chart::new` refuses a canvas size (the source panics with a message). */
  datatype SizeError = WidthTooSmall(width: U32) | HeightTooSmall(height: U32)

  /** The guard of `Chart::new`: the width is checked first, then the height; each must be at least 32. */
  function CheckSize(width: U32, height: U32): (r: Option<SizeError>)
    ensures r.None? <==> 32 <= width && 32 <= height
    ensures width < 32 ==> r == Some(WidthTooSmall(width))
    ensures 32 <= width && height < 32 ==> r == Some(HeightTooSmall(height))
  {
    if width < 32 then Some(WidthTooSmall(width))
    else if height < 32 then Some(HeightTooSmall(height))
    else None
  }

  /** Controls the drawing (`Chart`). */
  class Chart {
    /** Canvas width in points. */
    var width: U32
    /** Canvas height in points. */
    var height: U32
    /** X-axis start value. */
    var xmin: real
    /** X-axis end value. */
    var xmax: real
    /** Y-axis start value; `None` is the initial positive infinity. */
    var ymin: Option<real>
    /** Y-axis end value; `None` is the initial negative infinity. */
    var ymax: Option<real>
    /** Shapes to draw, with their colours, in registration (and drawing) order. */
    var shapes: seq<(Shape, PixelColor)>
    /** Labels of the shapes registered with one, with their colours. */
    var labels: seq<(string, PixelColor)>
    /** The canvas, as the ordered log of the calls made on it. */
    var canvas: seq<DrawOp>

    /** The size guard holds, and the y bounds are set once a shape is registered. */
    ghost predicate Drawable()
      reads this
    {
      CheckSize(width, height).None? && (shapes != [] ==> ymin.Some? && ymax.Some?)
    }

    /** The size guard holds, and the y bounds are exactly those the registered shapes produce. */
    ghost predicate Valid()
      reads this
      ensures Valid() ==> Drawable()
    {
      CheckSize(width, height).None? && (ymin, ymax) == YBounds(shapes, xmin, xmax, width)
    }

    /** `Chart::new` past its size guard: unset y bounds, no shapes, no labels, a blank canvas. */
    constructor (width: U32, height: U32, xmin: real, xmax: real)
      requires CheckSize(width, height).None?
      ensures Valid()
      ensures this.width == width && this.height == height && this.xmin == xmin && this.xmax == xmax
      ensures ymin.None? && ymax.None? && shapes == [] && labels == [] && canvas == []
    {
      this.width, this.height := width, height;
      this.xmin, this.xmax := xmin, xmax;
      ymin, ymax := None, None;
      shapes, labels := [], [];
      canvas := [];
    }

    /** `Chart::new`: fails on a width or height below 32, otherwise a fresh empty chart. */
    static method New(width: U32, height: U32, xmin: real, xmax: real) returns (r: Result<Chart, SizeError>)
      ensures r.Failure? <==> CheckSize(width, height).Some?
      ensures r.Failure? ==> r.error == CheckSize(width, height).value
      ensures r.Success? ==> fresh(r.value) && r.value.Valid()
      ensures r.Success? ==> r.value.width == width && r.value.height == height
      ensures r.Success? ==> r.value.xmin == xmin && r.value.xmax == xmax
      ensures r.Success? ==> r.value.ymin.None? && r.value.ymax.None?
      ensures r.Success? ==> r.value.shapes == [] && r.value.labels == [] && r.value.canvas == []
    {
      var err := CheckSize(width, height);
      if err.Some? {
        return Failure(err.value);
      }
      var c := new Chart(width, height, xmin, xmax);
      return Success(c);
    }

    /** `Chart::default()`: 120 x 60 points, x from -10 to 10. */
    static method Default() returns (c: Chart)
      ensures fresh(c) && c.Valid()
      ensures c.width == 120 && c.height == 60 && c.xmin == -10.0 && c.xmax == 10.0
      ensures c.shapes == [] && c.labels == [] && c.canvas == []
    {
      c := new Chart(120, 60, -10.0, 10.0);
    }

    /** `vline(i)`: every third dot of column `i`, rows `0..=height`, if the column is on the canvas. */
    method VLine(i: U32)
      modifies this`canvas
      ensures canvas == old(canvas) + VLineOps(i, width, height)
    {
      if i <= width {
        for j := 0 to height + 1
          invariant canvas == old(canvas) + DashedColumn(i, j)
        {
          if j % 3 == 0 {
            canvas := canvas + [Set(i, j)];
          }
        }
      }
    }

    /** `hline(j)`: every third dot of row `height - j`, columns `0..=width`, if `j <= height`. */
    method HLine(j: U32)
      modifies this`canvas
      ensures canvas == old(canvas) + HLineOps(j, width, height)
    {
      if j <= height {
        for i := 0 to width + 1
          invariant canvas == old(canvas) + DashedRow(height - j, i)
        {
          if i % 3 == 0 {
            canvas := canvas + [Set(i, height - j)];
          }
        }
      }
    }

    /** `borders`: the dashed frame of the canvas. */
    method Borders()
      modifies this`canvas
      ensures canvas == old(canvas) + BorderOps(width, height)
    {
      var w := width;
      var h := height;
      VLine(0);
      VLine(w);
      HLine(0);
      HLine(h);
    }

    /** `axis`: the dashed lines through x = 0 and y = 0, each only when 0 is within the bounds. */
    method Axis()
      requires Drawable()
      modifies this`canvas
      ensures canvas == old(canvas) + AxisOps(width, height, xmin, xmax, ymin, ymax)
    {
      var xs := CanvasScale(xmin, xmax, width);
      ghost var vertical := if xmin <= 0.0 && xmax >= 0.0 then VLineOps(CastU32(Linear(xs, 0.0)), width, height) else [];
      if xmin <= 0.0 && xmax >= 0.0 {
        VLine(CastU32(Linear(xs, 0.0)));
      }
      assert canvas == old(canvas) + vertical;
      if ymin.Some? && ymax.Some? && ymin.value <= 0.0 && ymax.value >= 0.0 {
        var ys := CanvasScale(ymin.value, ymax.value, height);
        HLine(CastU32(Linear(ys, 0.0)));
      }
    }

    /** The drawing half of `figures` for one shape: its dots, or the segments of each window. */
    method DrawShape(shape: Shape, dots: seq<Dot>)
      modifies this`canvas
      ensures canvas == old(canvas) + ShapeOps(shape, dots, height)
    {
      match shape {
        case Points(_) => DrawScatter(dots);
        case Continuous(_) | Lines(_) => DrawSegments(shape, dots);
        case Steps(_) => DrawSteps(shape, dots);
        case Bars(_) => DrawBars(shape, dots);
      }
    }

    /** A scatter plot: one `set_colored` per dot. */
    method DrawScatter(dots: seq<Dot>)
      modifies this`canvas
      ensures canvas == old(canvas) + DotOps(dots)
    {
      for k := 0 to |dots|
        invariant canvas == old(canvas) + DotOps(dots[..k])
      {
        canvas := canvas + [SetColored(dots[k].i, dots[k].j, dots[k].color)];
      }
      assert dots[..|dots|] == dots;
    }

    /** A function or a line chart: one segment from each dot to the next. */
    method DrawSegments(shape: Shape, dots: seq<Dot>)
      requires shape.Continuous? || shape.Lines?
      modifies this`canvas
      ensures canvas == old(canvas) + WindowOps(shape, dots, height)
    {
      if dots != [] {
        for w := 0 to |dots| - 1
          invariant canvas == old(canvas) + WindowOps(shape, dots[..w + 1], height)
        {
          var d1, d2 := dots[w], dots[w + 1];
          ghost var before := canvas;
          canvas := canvas + [Line(d1.i, d1.j, d2.i, d2.j, d1.color)];
          assert canvas == before + PairOps(shape, d1, d2, height);
          WindowOpsStep(shape, dots, w, height);
          AppendAssociative(old(canvas), WindowOps(shape, dots[..w + 1], height), PairOps(shape, d1, d2, height));
        }
        assert dots[..|dots|] == dots;
      }
    }

    /** A step chart: per window, the horizontal tread at the second dot's height, then the riser. */
    method DrawSteps(shape: Shape, dots: seq<Dot>)
      requires shape.Steps?
      modifies this`canvas
      ensures canvas == old(canvas) + WindowOps(shape, dots, height)
    {
      if dots != [] {
        for w := 0 to |dots| - 1
          invariant canvas == old(canvas) + WindowOps(shape, dots[..w + 1], height)
        {
          var d1, d2 := dots[w], dots[w + 1];
          ghost var before := canvas;
          canvas := canvas + [Line(d1.i, d2.j, d2.i, d2.j, d1.color)];
          canvas := canvas + [Line(d1.i, d1.j, d1.i, d2.j, d1.color)];
          assert canvas == before + PairOps(shape, d1, d2, height);
          WindowOpsStep(shape, dots, w, height);
          AppendAssociative(old(canvas), WindowOps(shape, dots[..w + 1], height), PairOps(shape, d1, d2, height));
        }
        assert dots[..|dots|] == dots;
      }
    }

    /** A bar chart: the steps of a step chart plus both bar sides down to the bottom row. */
    method DrawBars(shape: Shape, dots: seq<Dot>)
      requires shape.Bars?
      modifies this`canvas
      ensures canvas == old(canvas) + WindowOps(shape, dots, height)
    {
      if dots != [] {
        for w := 0 to |dots| - 1
          invariant canvas == old(canvas) + WindowOps(shape, dots[..w + 1], height)
        {
          var d1, d2 := dots[w], dots[w + 1];
          ghost var before := canvas;
          canvas := canvas + [Line(d1.i, d2.j, d2.i, d2.j, d1.color)];
          canvas := canvas + [Line(d1.i, d1.j, d1.i, d2.j, d1.color)];
          canvas := canvas + [Line(d1.i, height, d1.i, d1.j, d1.color)];
          canvas := canvas + [Line(d2.i, height, d2.i, d2.j, d1.color)];
          assert canvas == before + PairOps(shape, d1, d2, height);
          WindowOpsStep(shape, dots, w, height);
          AppendAssociative(old(canvas), WindowOps(shape, dots[..w + 1], height), PairOps(shape, d1, d2, height));
        }
        assert dots[..|dots|] == dots;
      }
    }

    /** One pass of the loop of `figures`: build the scales, translate the shape, draw it. */
    method DrawEntry(k: nat)
      requires Drawable() && k < |shapes|
      modifies this`canvas
      ensures canvas == old(canvas) + EntryOps(shapes[k], xmin, xmax, ymin.value, ymax.value, width, height)
    {
      var xs := CanvasScale(xmin, xmax, width);
      var ys := CanvasScale(ymin.value, ymax.value, height);
      var (shape, color) := shapes[k];
      var dots := ShapeDots(shape, color, xs, ys, width, height);
      DrawShape(shape, dots);
    }

    /** `figures`: every registered shape, in order, translated to dots and drawn according to its kind. */
    method Figures()
      requires Drawable()
      modifies this`canvas
      ensures shapes == [] ==> canvas == old(canvas)
      ensures shapes != [] ==> canvas == old(canvas) + FiguresOps(shapes, xmin, xmax, ymin.value, ymax.value, width, height)
    {
      ghost var lo := if ymin.Some? then ymin.value else 0.0;
      ghost var hi := if ymax.Some? then ymax.value else 0.0;
      for k := 0 to |shapes|
        invariant canvas == old(canvas) + FiguresOps(shapes[..k], xmin, xmax, lo, hi, width, height)
      {
        ghost var prefix := FiguresOps(shapes[..k], xmin, xmax, lo, hi, width, height);
        ghost var entry := EntryOps(shapes[k], xmin, xmax, lo, hi, width, height);
        ghost var before := canvas;
        DrawEntry(k);
        assert canvas == before + entry;
        FiguresOpsPrefix(shapes, k, xmin, xmax, lo, hi, width, height);
        AppendAssociative(old(canvas), prefix, entry);
      }
      assert shapes[..|shapes|] == shapes;
    }

    /**
     * `lineplot_with_tags`: append the shape with its colour, append the label (`name`, as
     * `label` is a Dafny keyword) if there is one, and widen the y bounds by the values the shape contributes.
     */
    method LinePlotWithTags(shape: Shape, name: Option<string>, colour: PixelColor)
      requires Valid()
      modifies this`shapes, this`labels, this`ymin, this`ymax
      ensures Valid()
      ensures shapes == old(shapes) + [(shape, colour)]
      ensures labels == old(labels) + (if name.Some? then [(name.value, colour)] else [])
      ensures (ymin, ymax) == Widen(old(ymin), old(ymax), Contribution(shape, xmin, xmax, width))
      ensures old(ymin).Some? ==> ymin.value <= old(ymin).value
      ensures old(ymax).Some? ==> old(ymax).value <= ymax.value
      ensures forall y :: y in Contribution(shape, xmin, xmax, width) ==> ymin.value <= y <= ymax.value
    {
      shapes := shapes + [(shape, colour)];
      if name.Some? {
        labels := labels + [(name.value, colour)];
      }
      var ys := Contribution(shape, xmin, xmax, width);
      var bounds := Widen(ymin, ymax, ys);
      ymin, ymax := bounds.0, bounds.1;
      YBoundsAppend(old(shapes), (shape, colour), xmin, xmax, width);
      WidenCovers(old(ymin), old(ymax), ys);
    }

    /** `lineplot`: `lineplot_with_tags` without a label, in white. */
    method LinePlot(shape: Shape)
      requires Valid()
      modifies this`shapes, this`labels, this`ymin, this`ymax
      ensures Valid()
      ensures shapes == old(shapes) + [(shape, White)]
      ensures labels == old(labels)
      ensures (ymin, ymax) == Widen(old(ymin), old(ymax), Contribution(shape, xmin, xmax, width))
    {
      LinePlotWithTags(shape, None, White);
    }
  }
}
