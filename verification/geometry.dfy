/** The curve metrics of scripts/polylines_to_crops_attrs.py: the padded crop
    box, polyline length, average slope and average curvature of a traced
    point list. Coordinates are reals; Python's float rounding is not
    modelled. */
module Geometry {

  datatype Point = Point(x: real, y: real)

  /** `math.sqrt` (written `(...)**0.5` in the source), `math.degrees`
      composed with `math.atan2`, and `math.degrees` composed with
      `math.acos`. They are parameters because only a few of their facts are
      used; `Sound` lists those facts. */
  datatype RealFns = RealFns(sqrt: real -> real, atan2Deg: (real, real) -> real, acosDeg: real -> real)

  /** The facts about the real functions that the metrics rely on: a square
      root is non-negative, zero only at zero, and undoes squaring; `atan2`
      in degrees lies in [-180, 180] and is 0 along the positive x axis;
      `acos` in degrees maps [-1, 1] into [0, 180], with acos(1) = 0 and
      acos(0) = 90. */
  ghost predicate Sound(f: RealFns) {
    && (forall v :: v >= 0.0 ==> f.sqrt(v) >= 0.0)
    && (forall v :: v > 0.0 ==> f.sqrt(v) > 0.0)
    && f.sqrt(0.0) == 0.0
    && (forall d :: d >= 0.0 ==> f.sqrt(Square(d)) == d)
    && (forall dy, dx :: -180.0 <= f.atan2Deg(dy, dx) <= 180.0)
    && (forall dx :: dx > 0.0 ==> f.atan2Deg(0.0, dx) == 0.0)
    && (forall c :: -1.0 <= c <= 1.0 ==> 0.0 <= f.acosDeg(c) <= 180.0)
    && f.acosDeg(1.0) == 0.0
    && f.acosDeg(0.0) == 90.0
  }

  function Square(d: real): real {
    d * d
  }

  /** The square root of a square is the absolute value. */
  lemma SqrtOfSquare(f: RealFns, d: real)
    requires Sound(f)
    ensures f.sqrt(Square(d)) == (if d >= 0.0 then d else -d)
  {
    if d < 0.0 {
      assert Square(d) == Square(-d);
    }
  }

  // ---------------------------------------------------------------------
  // Small numeric helpers

  function MinOf(xs: seq<real>): (m: real)
    requires |xs| > 0
    ensures m in xs && forall i :: 0 <= i < |xs| ==> m <= xs[i]
  {
    if |xs| == 1 then xs[0]
    else
      var rest := MinOf(xs[1..]);
      if xs[0] <= rest then xs[0] else rest
  }

  function MaxOf(xs: seq<real>): (m: real)
    requires |xs| > 0
    ensures m in xs && forall i :: 0 <= i < |xs| ==> xs[i] <= m
  {
    if |xs| == 1 then xs[0]
    else
      var rest := MaxOf(xs[1..]);
      if xs[0] >= rest then xs[0] else rest
  }

  function Max(a: real, b: real): real {
    if a >= b then a else b
  }

  function Min(a: real, b: real): real {
    if a <= b then a else b
  }

  /** Python's `int()` on a float: truncation toward zero. */
  function Trunc(r: real): (t: int)
    ensures r >= 0.0 ==> 0 <= t && t as real <= r < t as real + 1.0
    ensures r < 0.0 ==> t <= 0 && t as real - 1.0 < r <= t as real
  {
    if r >= 0.0 then r.Floor else -((-r).Floor)
  }

  /** `sum(xs)`, accumulated left to right. */
  function Sum(xs: seq<real>): real {
    if |xs| == 0 then 0.0 else Sum(xs[..|xs| - 1]) + xs[|xs| - 1]
  }

  /** `sum(xs)/len(xs) if xs else 0.0`. */
  function Mean(xs: seq<real>): real {
    if |xs| == 0 then 0.0 else Sum(xs) / (|xs| as real)
  }

  /** A sum of values drawn from [lo, hi] lies between n*lo and n*hi. */
  lemma {:induction false} SumBounds(xs: seq<real>, lo: real, hi: real)
    requires forall i :: 0 <= i < |xs| ==> lo <= xs[i] <= hi
    ensures (|xs| as real) * lo <= Sum(xs) <= (|xs| as real) * hi
  {
    if |xs| > 0 {
      SumBounds(xs[..|xs| - 1], lo, hi);
    }
  }

  /** The mean of values drawn from [lo, hi] lies in [lo, hi]. */
  lemma MeanWithin(xs: seq<real>, lo: real, hi: real)
    requires |xs| > 0
    requires forall i :: 0 <= i < |xs| ==> lo <= xs[i] <= hi
    ensures lo <= Mean(xs) <= hi
  {
    SumBounds(xs, lo, hi);
    var n := |xs| as real;
    assert Mean(xs) * n == Sum(xs);
  }

  // ---------------------------------------------------------------------
  // bbox_from_points

  /** A crop rectangle in integer pixel coordinates. */
  datatype Box = Box(x1: int, y1: int, x2: int, y2: int)

  function Xs(pts: seq<Point>): (xs: seq<real>)
    ensures |xs| == |pts| && forall i :: 0 <= i < |pts| ==> xs[i] == pts[i].x
  {
    seq(|pts|, i requires 0 <= i < |pts| => pts[i].x)
  }

  function Ys(pts: seq<Point>): (ys: seq<real>)
    ensures |ys| == |pts| && forall i :: 0 <= i < |pts| ==> ys[i] == pts[i].y
  {
    seq(|pts|, i requires 0 <= i < |pts| => pts[i].y)
  }

  /** `bbox_from_points(pts, W, H, pad)`: the points' bounding box, widened
      on each side by `pad` times its extent, clamped to [0, W] x [0, H] and
      truncated toward zero. `min` of an empty list raises, so the source
      needs at least one point. The box never leaves the image. */
  function BboxFromPoints(pts: seq<Point>, w: int, h: int, pad: real): (b: Box)
    requires |pts| > 0
    ensures 0 <= b.x1 && 0 <= b.y1 && b.x2 <= w && b.y2 <= h
  {
    var (lo, hi) := PaddedRange(Xs(pts), pad);
    var (lo', hi') := PaddedRange(Ys(pts), pad);
    Box(Trunc(Max(0.0, lo)), Trunc(Max(0.0, lo')), Trunc(Min(w as real, hi)), Trunc(Min(h as real, hi')))
  }

  /** One axis of the box before clamping: the extent of `vs` widened by
      `pad` times itself on both sides. */
  function PaddedRange(vs: seq<real>, pad: real): (r: (real, real))
    requires |vs| > 0
    ensures pad >= 0.0 ==> r.0 <= MinOf(vs) && MaxOf(vs) <= r.1
  {
    var lo, hi := MinOf(vs), MaxOf(vs);
    var p := (hi - lo) * pad;
    assert pad >= 0.0 ==> p >= 0.0;
    (lo - p, hi + p)
  }

  /** With a non-negative pad and points in the non-negative quadrant, the
      box's top-left corner is at or before every point. */
  lemma BboxCoversFromTopLeft(pts: seq<Point>, w: int, h: int, pad: real)
    requires |pts| > 0 && pad >= 0.0
    requires forall i :: 0 <= i < |pts| ==> 0.0 <= pts[i].x && 0.0 <= pts[i].y
    ensures var b := BboxFromPoints(pts, w, h, pad);
      forall i :: 0 <= i < |pts| ==> b.x1 as real <= pts[i].x && b.y1 as real <= pts[i].y
  {
    var xs, ys := Xs(pts), Ys(pts);
    assert 0.0 <= MinOf(xs) && 0.0 <= MinOf(ys);
  }

  /** With a non-negative pad and points inside the image, the box is not
      inverted. */
  lemma BboxOrdered(pts: seq<Point>, w: int, h: int, pad: real)
    requires |pts| > 0 && pad >= 0.0
    requires forall i :: 0 <= i < |pts| ==> InImage(pts[i], w, h)
    ensures var b := BboxFromPoints(pts, w, h, pad);
      b.x1 <= b.x2 && b.y1 <= b.y2
  {
    var xs, ys := Xs(pts), Ys(pts);
    assert 0.0 <= MinOf(xs) <= w as real && 0.0 <= MaxOf(xs);
    assert 0.0 <= MinOf(ys) <= h as real && 0.0 <= MaxOf(ys);
    assert MinOf(xs) <= MaxOf(xs) && MinOf(ys) <= MaxOf(ys);
  }

  predicate InImage(p: Point, w: int, h: int) {
    0.0 <= p.x <= w as real && 0.0 <= p.y <= h as real
  }

  /** The default padding of `bbox_from_points`. */
  const DefaultPad: real := 0.15

  // ---------------------------------------------------------------------
  // poly_length

  /** The Euclidean length of the segment from `p` to `q`. */
  function SegLen(f: RealFns, p: Point, q: Point): real {
    Norm(f, q.x - p.x, q.y - p.y)
  }

  /** `poly_length(pts)`: the segment lengths summed in path order. */
  function PolyLength(f: RealFns, pts: seq<Point>): (len: real)
    requires Sound(f)
    ensures len >= 0.0
    ensures |pts| < 2 ==> len == 0.0
  {
    if |pts| < 2 then 0.0
    else
      var n := |pts|;
      var d := SegLen(f, pts[n - 2], pts[n - 1]);
      assert d >= 0.0;
      PolyLength(f, pts[..n - 1]) + d
  }

  /** `max(W, H)`: the image's longer side (the width on a tie). */
  function LongSide(w: int, h: int): int {
    if w >= h then w else h
  }

  /** `length_norm = L / max(W, H)`; Python raises on a zero divisor. */
  function LengthNorm(f: RealFns, pts: seq<Point>, w: int, h: int): (r: real)
    requires Sound(f)
    requires LongSide(w, h) != 0
    ensures r * (LongSide(w, h) as real) == PolyLength(f, pts)
    ensures (w > 0 || h > 0) ==> r >= 0.0
  {
    PolyLength(f, pts) / (LongSide(w, h) as real)
  }

  // ---------------------------------------------------------------------
  // avg_slope_deg

  /** The direction, in degrees, of each step with nonzero displacement, in
      path order; steps that stay put are skipped. */
  function SlopeAngles(f: RealFns, pts: seq<Point>): (angles: seq<real>)
    ensures |pts| >= 1 ==> |angles| <= |pts| - 1
    ensures |pts| < 2 ==> angles == []
    ensures Sound(f) ==> forall i :: 0 <= i < |angles| ==> -180.0 <= angles[i] <= 180.0
  {
    if |pts| < 2 then []
    else
      var n := |pts|;
      var dx, dy := pts[n - 1].x - pts[n - 2].x, pts[n - 1].y - pts[n - 2].y;
      SlopeAngles(f, pts[..n - 1]) + (if dx == 0.0 && dy == 0.0 then [] else [f.atan2Deg(dy, dx)])
  }

  /** `avg_slope_deg(pts)`. */
  function AvgSlope(f: RealFns, pts: seq<Point>): real {
    if |pts| < 2 then 0.0 else Mean(SlopeAngles(f, pts))
  }

  /** The average slope is an angle in [-180, 180]. */
  lemma AvgSlopeRange(f: RealFns, pts: seq<Point>)
    requires Sound(f)
    ensures -180.0 <= AvgSlope(f, pts) <= 180.0
  {
    var angles := SlopeAngles(f, pts);
    if |pts| >= 2 && |angles| > 0 {
      MeanWithin(angles, -180.0, 180.0);
    }
  }

  // ---------------------------------------------------------------------
  // avg_curvature_deg

  /** `max(-1.0, min(1.0, c))`. */
  function Clamp(c: real): (r: real)
    ensures -1.0 <= r <= 1.0
    ensures -1.0 <= c <= 1.0 ==> r == c
  {
    Max(-1.0, Min(1.0, c))
  }

  /** The Euclidean length of the displacement (dx, dy). */
  function Norm(f: RealFns, dx: real, dy: real): real {
    f.sqrt(Square(dx) + Square(dy))
  }

  /** The dot product of the displacements `a`-`b` and `b`-`c`. */
  function Dot(a: Point, b: Point, c: Point): real {
    (b.x - a.x) * (c.x - b.x) + (b.y - a.y) * (c.y - b.y)
  }

  /** The cosine of the angle between two displacements, from their dot
      product and their lengths. */
  function Cosine(dot: real, n1: real, n2: real): real
    requires n1 != 0.0 && n2 != 0.0
  {
    assert n1 * n2 != 0.0;
    dot / (n1 * n2)
  }

  /** The turning angle at `b` between the segments `a`-`b` and `b`-`c`, in
      degrees, or nothing when either segment has length zero. */
  function Turn(f: RealFns, a: Point, b: Point, c: Point): (t: seq<real>)
    ensures |t| <= 1
    ensures Sound(f) ==> forall i :: 0 <= i < |t| ==> 0.0 <= t[i] <= 180.0
  {
    var n1 := Norm(f, b.x - a.x, b.y - a.y);
    var n2 := Norm(f, c.x - b.x, c.y - b.y);
    if n1 == 0.0 || n2 == 0.0 then []
    else [f.acosDeg(Clamp(Cosine(Dot(a, b, c), n1, n2)))]
  }

  /** The turning angles at the interior points, in path order, skipping
      points next to a zero-length segment. */
  function TurnAngles(f: RealFns, pts: seq<Point>): (angles: seq<real>)
    ensures |pts| >= 2 ==> |angles| <= |pts| - 2
    ensures |pts| < 3 ==> angles == []
    ensures Sound(f) ==> forall i :: 0 <= i < |angles| ==> 0.0 <= angles[i] <= 180.0
  {
    if |pts| < 3 then []
    else
      var n := |pts|;
      TurnAngles(f, pts[..n - 1]) + Turn(f, pts[n - 3], pts[n - 2], pts[n - 1])
  }

  /** `avg_curvature_deg(pts)`. */
  function AvgCurvature(f: RealFns, pts: seq<Point>): real {
    if |pts| < 3 then 0.0 else Mean(TurnAngles(f, pts))
  }

  /** The average curvature is an angle in [0, 180]: the clamp keeps every
      cosine inside the domain on which `acos` yields such angles. */
  lemma AvgCurvatureRange(f: RealFns, pts: seq<Point>)
    requires Sound(f)
    ensures 0.0 <= AvgCurvature(f, pts) <= 180.0
  {
    var angles := TurnAngles(f, pts);
    if |pts| >= 3 && |angles| > 0 {
      MeanWithin(angles, 0.0, 180.0);
    }
  }
}
