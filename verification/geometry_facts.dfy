/** Properties of the curve metrics in `Geometry`: how length composes, which
    steps and vertices the averages skip, and the values they take on
    straight and right-angled curves. */
module GeometryFacts {
  import opened Geometry

  // ---------------------------------------------------------------------
  // Crop box

  /** Points left of the image give an inverted box: the left edge is
      clamped to 0 while the right edge stays negative. */
  lemma BboxInvertedLeftOfImage()
    ensures var b := BboxFromPoints([Point(-10.0, 50.0), Point(-5.0, 50.0)], 100, 100, DefaultPad);
      b.x1 == 0 && b.x2 == -4 && b.x2 < b.x1
  {
    var xs := Xs([Point(-10.0, 50.0), Point(-5.0, 50.0)]);
    assert xs == [-10.0, -5.0];
    assert MinOf(xs) == -10.0 && MaxOf(xs) == -5.0;
    assert PaddedRange(xs, DefaultPad) == (-10.75, -4.25);
    assert Trunc(-4.25) == -4;
  }

  // ---------------------------------------------------------------------
  // Length

  /** Joining two paths adds their lengths and the length of the bridging
      segment. */
  lemma {:induction false} PolyLengthConcat(f: RealFns, a: seq<Point>, b: seq<Point>)
    requires Sound(f) && |a| > 0 && |b| > 0
    ensures PolyLength(f, a + b) == PolyLength(f, a) + SegLen(f, a[|a| - 1], b[0]) + PolyLength(f, b)
  {
    if |b| == 1 {
      assert (a + b)[..|a + b| - 1] == a;
    } else {
      var b' := b[..|b| - 1];
      PolyLengthConcat(f, a, b');
      assert (a + b)[..|a + b| - 1] == a + b';
      assert b'[0] == b[0];
    }
  }

  /** A segment is as long in either direction. */
  lemma SegLenSymmetric(f: RealFns, p: Point, q: Point)
    ensures SegLen(f, p, q) == SegLen(f, q, p)
  {
    assert Square(q.x - p.x) == Square(p.x - q.x);
    assert Square(q.y - p.y) == Square(p.y - q.y);
  }

  function Reverse<T>(s: seq<T>): (r: seq<T>)
    ensures |r| == |s| && forall i :: 0 <= i < |s| ==> r[i] == s[|s| - 1 - i]
  {
    seq(|s|, i requires 0 <= i < |s| => s[|s| - 1 - i])
  }

  /** Tracing a curve backwards gives the same length. */
  lemma {:induction false} PolyLengthReverse(f: RealFns, pts: seq<Point>)
    requires Sound(f)
    ensures PolyLength(f, Reverse(pts)) == PolyLength(f, pts)
  {
    if |pts| >= 2 {
      var n := |pts|;
      var init := pts[..n - 1];
      PolyLengthReverse(f, init);
      assert Reverse(pts) == [pts[n - 1]] + Reverse(init);
      PolyLengthConcat(f, [pts[n - 1]], Reverse(init));
      SegLenSymmetric(f, pts[n - 2], pts[n - 1]);
      assert PolyLength(f, [pts[n - 1]]) == 0.0;
    }
  }

  /** A horizontal path traced left to right is as long as the distance
      between its ends. */
  lemma {:induction false} HorizontalLength(f: RealFns, pts: seq<Point>)
    requires Sound(f) && |pts| > 0
    requires forall i :: 0 <= i < |pts| ==> pts[i].y == pts[0].y
    requires forall i :: 0 < i < |pts| ==> pts[i - 1].x <= pts[i].x
    ensures PolyLength(f, pts) == pts[|pts| - 1].x - pts[0].x
  {
    if |pts| >= 2 {
      var n := |pts|;
      var init := pts[..n - 1];
      assert forall i :: 0 <= i < |init| ==> init[i] == pts[i];
      HorizontalLength(f, init);
      HorizontalSegLen(f, pts[n - 2], pts[n - 1]);
    }
  }

  /** A horizontal segment traced left to right is as long as its run. */
  lemma HorizontalSegLen(f: RealFns, p: Point, q: Point)
    requires Sound(f) && p.y == q.y && p.x <= q.x
    ensures SegLen(f, p, q) == q.x - p.x
  {
    assert Square(q.y - p.y) == 0.0;
    SqrtOfSquare(f, q.x - p.x);
  }

  /** The points (0,0) and (40,0) on a 100 x 100 image give a normalised
      length of 0.4. */
  lemma LengthNormExample(f: RealFns)
    requires Sound(f)
    ensures LengthNorm(f, [Point(0.0, 0.0), Point(40.0, 0.0)], 100, 100) == 0.4
  {
    HorizontalLength(f, [Point(0.0, 0.0), Point(40.0, 0.0)]);
  }

  // ---------------------------------------------------------------------
  // Slope

  /** No step has a direction exactly when the curve never moves. */
  lemma {:induction false} SlopeAnglesEmptyIff(f: RealFns, pts: seq<Point>)
    ensures SlopeAngles(f, pts) == [] <==> forall i :: 0 < i < |pts| ==> pts[i] == pts[i - 1]
  {
    if |pts| >= 2 {
      var n := |pts|;
      SlopeAnglesEmptyIff(f, pts[..n - 1]);
      var init := pts[..n - 1];
      if forall i :: 0 < i < |init| ==> init[i] == init[i - 1] {
        assert forall i :: 0 < i < n - 1 ==> pts[i] == pts[i - 1] by {
          forall i | 0 < i < n - 1 ensures pts[i] == pts[i - 1] {
            assert init[i] == init[i - 1];
          }
        }
      } else {
        var i :| 0 < i < |init| && init[i] != init[i - 1];
        assert pts[i] != pts[i - 1];
      }
    }
  }

  /** A curve that never moves has slope 0. */
  lemma StationarySlope(f: RealFns, pts: seq<Point>)
    requires forall i :: 0 < i < |pts| ==> pts[i] == pts[i - 1]
    ensures AvgSlope(f, pts) == 0.0
  {
    SlopeAnglesEmptyIff(f, pts);
  }

  /** Repeating a point changes nothing: a step that stays put is left out of
      both the sum and the count of directions. */
  lemma {:induction false} SlopeAnglesStutter(f: RealFns, a: seq<Point>, p: Point, b: seq<Point>)
    ensures SlopeAngles(f, a + [p, p] + b) == SlopeAngles(f, a + [p] + b)
  {
    if |b| == 0 {
      assert (a + [p, p] + b)[..|a| + 1] == a + [p];
      assert a + [p] + b == a + [p];
    } else {
      var b' := b[..|b| - 1];
      SlopeAnglesStutter(f, a, p, b');
      var long, short := a + [p, p] + b, a + [p] + b;
      assert long[..|long| - 1] == a + [p, p] + b';
      assert short[..|short| - 1] == a + [p] + b';
      assert long[|long| - 2] == short[|short| - 2];
    }
  }

  lemma AvgSlopeStutter(f: RealFns, a: seq<Point>, p: Point, b: seq<Point>)
    ensures AvgSlope(f, a + [p, p] + b) == AvgSlope(f, a + [p] + b)
  {
    SlopeAnglesStutter(f, a, p, b);
    if |a + [p] + b| < 2 {
      SlopeAnglesEmptyIff(f, a + [p, p] + b);
    }
  }

  /** A horizontal path traced left to right has every direction 0. */
  lemma {:induction false} HorizontalSlopeAngles(f: RealFns, pts: seq<Point>)
    requires Sound(f) && |pts| > 0
    requires forall i :: 0 <= i < |pts| ==> pts[i].y == pts[0].y
    requires forall i :: 0 < i < |pts| ==> pts[i - 1].x <= pts[i].x
    ensures forall i :: 0 <= i < |SlopeAngles(f, pts)| ==> SlopeAngles(f, pts)[i] == 0.0
  {
    if |pts| >= 2 {
      HorizontalSlopeAngles(f, pts[..|pts| - 1]);
    }
  }

  lemma {:induction false} SumOfZeros(xs: seq<real>)
    requires forall i :: 0 <= i < |xs| ==> xs[i] == 0.0
    ensures Sum(xs) == 0.0
  {
    if |xs| > 0 {
      SumOfZeros(xs[..|xs| - 1]);
    }
  }

  /** A horizontal path traced left to right has slope 0. */
  lemma HorizontalSlope(f: RealFns, pts: seq<Point>)
    requires Sound(f) && |pts| > 0
    requires forall i :: 0 <= i < |pts| ==> pts[i].y == pts[0].y
    requires forall i :: 0 < i < |pts| ==> pts[i - 1].x <= pts[i].x
    ensures AvgSlope(f, pts) == 0.0
  {
    HorizontalSlopeAngles(f, pts);
    SumOfZeros(SlopeAngles(f, pts));
  }

  // ---------------------------------------------------------------------
  // Curvature

  lemma SquareNonNegative(d: real)
    ensures Square(d) >= 0.0
  {
  }

  /** The squared length of a displacement is zero only for no
      displacement. */
  lemma SquareSumZero(f: RealFns, dx: real, dy: real)
    requires Sound(f)
    ensures Square(dx) + Square(dy) >= 0.0
    ensures Square(dx) + Square(dy) == 0.0 <==> dx == 0.0 && dy == 0.0
  {
    SquareNonNegative(dx);
    SquareNonNegative(dy);
    SqrtOfSquare(f, dx);
    SqrtOfSquare(f, dy);
  }

  /** A vertex is skipped exactly when it coincides with a neighbour. */
  lemma TurnSkippedIff(f: RealFns, a: Point, b: Point, c: Point)
    requires Sound(f)
    ensures Turn(f, a, b, c) == [] <==> a == b || b == c
  {
    SquareSumZero(f, b.x - a.x, b.y - a.y);
    SquareSumZero(f, c.x - b.x, c.y - b.y);
  }

  /** When no two neighbouring points coincide, every interior point
      contributes one turning angle. */
  lemma {:induction false} TurnAnglesCount(f: RealFns, pts: seq<Point>)
    requires Sound(f) && |pts| >= 2
    requires forall i :: 0 < i < |pts| ==> pts[i] != pts[i - 1]
    ensures |TurnAngles(f, pts)| == |pts| - 2
  {
    if |pts| >= 3 {
      var n := |pts|;
      TurnAnglesCount(f, pts[..n - 1]);
      TurnSkippedIff(f, pts[n - 3], pts[n - 2], pts[n - 1]);
    }
  }

  /** The length of a horizontal displacement is its absolute value. */
  lemma NormHorizontal(f: RealFns, dx: real)
    requires Sound(f)
    ensures Norm(f, dx, 0.0) == (if dx >= 0.0 then dx else -dx)
  {
    assert Square(dx) + Square(0.0) == Square(dx);
    SqrtOfSquare(f, dx);
  }

  /** Two displacements pointing the same way have cosine 1. */
  lemma CosineAligned(p: real, q: real)
    requires p > 0.0 && q > 0.0
    ensures Cosine(p * q, p, q) == 1.0
  {
    assert p * q > 0.0 * q;
  }

  /** Three points in a row along a horizontal line, left to right, make no
      turn. */
  lemma StraightTurn(f: RealFns, a: Point, b: Point, c: Point)
    requires Sound(f) && a.y == b.y == c.y && a.x < b.x < c.x
    ensures Turn(f, a, b, c) == [0.0]
  {
    var p, q := b.x - a.x, c.x - b.x;
    NormHorizontal(f, p);
    NormHorizontal(f, q);
    assert Norm(f, p, b.y - a.y) == p && Norm(f, q, c.y - b.y) == q;
    assert Dot(a, b, c) == p * q + 0.0 * 0.0;
    CosineAligned(p, q);
    assert Clamp(Cosine(Dot(a, b, c), p, q)) == 1.0;
  }

  /** A horizontal path traced strictly left to right does not turn. */
  lemma {:induction false} StraightTurnAngles(f: RealFns, pts: seq<Point>)
    requires Sound(f) && |pts| > 0
    requires forall i :: 0 <= i < |pts| ==> pts[i].y == pts[0].y
    requires forall i :: 0 < i < |pts| ==> pts[i - 1].x < pts[i].x
    ensures forall i :: 0 <= i < |TurnAngles(f, pts)| ==> TurnAngles(f, pts)[i] == 0.0
  {
    if |pts| >= 3 {
      var n := |pts|;
      StraightTurnAngles(f, pts[..n - 1]);
      StraightTurn(f, pts[n - 3], pts[n - 2], pts[n - 1]);
    }
  }

  /** A horizontal path traced strictly left to right has curvature 0. */
  lemma StraightCurvature(f: RealFns, pts: seq<Point>)
    requires Sound(f) && |pts| > 0
    requires forall i :: 0 <= i < |pts| ==> pts[i].y == pts[0].y
    requires forall i :: 0 < i < |pts| ==> pts[i - 1].x < pts[i].x
    ensures AvgCurvature(f, pts) == 0.0
  {
    StraightTurnAngles(f, pts);
    SumOfZeros(TurnAngles(f, pts));
  }

  /** A unit step followed by a perpendicular unit step turns 90 degrees. */
  lemma RightTurn(f: RealFns, a: Point, b: Point, c: Point)
    requires Sound(f)
    requires Norm(f, b.x - a.x, b.y - a.y) == 1.0 && Norm(f, c.x - b.x, c.y - b.y) == 1.0
    requires Dot(a, b, c) == 0.0
    ensures Turn(f, a, b, c) == [90.0]
  {
    assert Cosine(0.0, 1.0, 1.0) == 0.0;
  }

  /** A unit step along an axis has length 1. */
  lemma UnitNorm(f: RealFns)
    requires Sound(f)
    ensures Norm(f, 1.0, 0.0) == 1.0 && Norm(f, 0.0, 1.0) == 1.0 && Norm(f, -1.0, 0.0) == 1.0
  {
    SqrtOfSquare(f, 1.0);
    assert Square(1.0) == 1.0 && Square(0.0) == 0.0 && Square(-1.0) == 1.0;
  }

  lemma FourPointTurns(f: RealFns, pts: seq<Point>)
    requires |pts| == 4
    ensures TurnAngles(f, pts) == Turn(f, pts[0], pts[1], pts[2]) + Turn(f, pts[1], pts[2], pts[3])
  {
    assert pts[..3][..2] == pts[..2];
  }

  /** Along three sides of the unit square both turns are perpendicular. */
  lemma UnitSquareDots()
    ensures Dot(Point(0.0, 0.0), Point(1.0, 0.0), Point(1.0, 1.0)) == 0.0
    ensures Dot(Point(1.0, 0.0), Point(1.0, 1.0), Point(0.0, 1.0)) == 0.0
  {
    AxisTurnDot(Point(0.0, 0.0), Point(1.0, 0.0), Point(1.0, 1.0));
    AxisTurnDot(Point(1.0, 0.0), Point(1.0, 1.0), Point(0.0, 1.0));
  }

  /** A horizontal step followed by a vertical one, or the other way round,
      is a right angle. */
  lemma AxisTurnDot(a: Point, b: Point, c: Point)
    requires (a.y == b.y && b.x == c.x) || (a.x == b.x && b.y == c.y)
    ensures Dot(a, b, c) == 0.0
  {
    if a.y == b.y && b.x == c.x {
      assert b.y - a.y == 0.0 && c.x - b.x == 0.0;
    } else {
      assert b.x - a.x == 0.0 && c.y - b.y == 0.0;
    }
  }

  lemma MeanOfTwo(x: real)
    ensures Mean([x, x]) == x
  {
    assert [x, x][..1] == [x];
    assert Sum([x]) == x;
  }

  /** Two perpendicular unit turns average to 90 degrees. */
  lemma TwoRightTurns(f: RealFns, p0: Point, p1: Point, p2: Point, p3: Point)
    requires Sound(f)
    requires Norm(f, p1.x - p0.x, p1.y - p0.y) == 1.0 && Norm(f, p2.x - p1.x, p2.y - p1.y) == 1.0
    requires Norm(f, p3.x - p2.x, p3.y - p2.y) == 1.0
    requires Dot(p0, p1, p2) == 0.0 && Dot(p1, p2, p3) == 0.0
    ensures AvgCurvature(f, [p0, p1, p2, p3]) == 90.0
  {
    RightTurn(f, p0, p1, p2);
    RightTurn(f, p1, p2, p3);
    FourPointTurns(f, [p0, p1, p2, p3]);
    var angles := TurnAngles(f, [p0, p1, p2, p3]);
    assert angles == [90.0] + [90.0] == [90.0, 90.0];
    MeanOfTwo(90.0);
    assert AvgCurvature(f, [p0, p1, p2, p3]) == Mean(angles);
  }

  /** Three sides of the unit square turn 90 degrees at both interior
      vertices, so the curvature is 90. */
  lemma RightAngleCurvature(f: RealFns)
    requires Sound(f)
    ensures AvgCurvature(f, [Point(0.0, 0.0), Point(1.0, 0.0), Point(1.0, 1.0), Point(0.0, 1.0)]) == 90.0
  {
    var p0, p1, p2, p3 := Point(0.0, 0.0), Point(1.0, 0.0), Point(1.0, 1.0), Point(0.0, 1.0);
    UnitSquareSides(f, p0, p1, p2, p3);
    UnitSquareDots();
    TwoRightTurns(f, p0, p1, p2, p3);
  }

  lemma UnitSquareSides(f: RealFns, p0: Point, p1: Point, p2: Point, p3: Point)
    requires Sound(f)
    requires p0 == Point(0.0, 0.0) && p1 == Point(1.0, 0.0) && p2 == Point(1.0, 1.0) && p3 == Point(0.0, 1.0)
    ensures Norm(f, p1.x - p0.x, p1.y - p0.y) == 1.0 && Norm(f, p2.x - p1.x, p2.y - p1.y) == 1.0
    ensures Norm(f, p3.x - p2.x, p3.y - p2.y) == 1.0
  {
    UnitNorm(f);
  }
}
