/** Points, distances, compass angles and the distance from a point to a segment.
    The planner calls two floating-point library routines, `math.hypot` and
    `math.degrees(math.atan2(...))`. Every member that needs them receives them as a
    `MathLib` value; the facts the proofs rely on are collected in `ValidMath`.
    Arithmetic is on `real`. */
module Geometry {
  import opened RealFacts

  datatype Option<T> = None | Some(value: T)

  /** A position in table coordinates (x along the long rail, y along the short one). */
  datatype Point = Point(x: real, y: real)

  /** The library routines: `hypot(x, y)` and `atan2Degrees(dx, dy)`, the latter being
      `math.degrees(math.atan2(dx, dy))`. Note the argument order: the x-offset comes
      first, so the angle is measured from +y. */
  datatype MathLib = MathLib(hypot: (real, real) -> real, atan2Degrees: (real, real) -> real)

  /** Euclidean length: non-negative, squares to the sum of squares, zero exactly for
      the zero vector. */
  ghost predicate HypotSpec(h: (real, real) -> real)
  {
    forall x: real, y: real ::
      && 0.0 <= h(x, y)
      && h(x, y) * h(x, y) == x * x + y * y
      && (h(x, y) == 0.0 <==> x == 0.0 && y == 0.0)
  }

  /** `degrees(atan2(dx, dy))`: a value in (-180, 180], 0 at the origin, and the
      compass values on the four half-axes. */
  ghost predicate Atan2DegreesSpec(a: (real, real) -> real)
  {
    && (forall dx: real, dy: real :: -180.0 < a(dx, dy) <= 180.0)
    && a(0.0, 0.0) == 0.0
    && (forall d: real :: d > 0.0 ==> a(0.0, d) == 0.0 && a(d, 0.0) == 90.0)
    && (forall d: real :: d < 0.0 ==> a(0.0, d) == 180.0 && a(d, 0.0) == -90.0)
  }

  ghost predicate ValidMath(m: MathLib)
  {
    HypotSpec(m.hypot) && Atan2DegreesSpec(m.atan2Degrees)
  }

  function Min(a: real, b: real): real { if a <= b then a else b }

  function Max(a: real, b: real): real { if a >= b then a else b }

  // ---------------------------------------------------------------------------
  // Distance

  function SquaredDist(a: Point, b: Point): real
  {
    (b.x - a.x) * (b.x - a.x) + (b.y - a.y) * (b.y - a.y)
  }

  /** `dist(ax, ay, bx, by)`: the length of the vector from a to b. */
  function Dist(m: MathLib, a: Point, b: Point): real
  {
    m.hypot(b.x - a.x, b.y - a.y)
  }

  /** Dist is a distance: non-negative, squares to the squared distance, zero exactly
      between equal points, and the same in both directions. */
  lemma DistProperties(m: MathLib, a: Point, b: Point)
    requires ValidMath(m)
    ensures 0.0 <= Dist(m, a, b)
    ensures Dist(m, a, b) * Dist(m, a, b) == SquaredDist(a, b)
    ensures Dist(m, a, b) == 0.0 <==> a == b
    ensures Dist(m, a, b) == Dist(m, b, a)
  {
    SqrtEq(Dist(m, a, b), Dist(m, b, a), SquaredDist(a, b));
  }

  lemma SquaredDistNonneg(m: MathLib, a: Point, b: Point)
    requires ValidMath(m)
    ensures !(SquaredDist(a, b) < 0.0)
  {
    MulNonneg(Dist(m, a, b), Dist(m, a, b));
  }

  /** The squared distance vanishes exactly between equal points. */
  lemma SquaredDistZero(m: MathLib, a: Point, b: Point)
    requires ValidMath(m)
    ensures SquaredDist(a, b) == 0.0 <==> a == b
  {
    if SquaredDist(a, b) == 0.0 {
      SqrtEq(Dist(m, a, b), 0.0, SquaredDist(a, b));
    }
  }

  // ---------------------------------------------------------------------------
  // Compass angle

  /** `angle_to_game_degree`: the direction from `from` to `to`, 0 degrees towards +y
      ("north"), growing clockwise, folded into [0, 360). */
  function AngleToGameDegree(m: MathLib, from: Point, to: Point): real
  {
    var deg := m.atan2Degrees(to.x - from.x, to.y - from.y);
    if deg < 0.0 then deg + 360.0 else deg
  }

  /** The folded angle lies in [0, 360) and differs from the library's angle by 0 or
      by one full turn. */
  lemma AngleInRange(m: MathLib, from: Point, to: Point)
    requires Atan2DegreesSpec(m.atan2Degrees)
    ensures 0.0 <= AngleToGameDegree(m, from, to) < 360.0
    ensures var deg := m.atan2Degrees(to.x - from.x, to.y - from.y);
            AngleToGameDegree(m, from, to) == deg || AngleToGameDegree(m, from, to) == deg + 360.0
    ensures var deg := m.atan2Degrees(to.x - from.x, to.y - from.y);
            AngleToGameDegree(m, from, to) == deg <==> deg >= 0.0
  {
    var deg := m.atan2Degrees(to.x - from.x, to.y - from.y);
    assert -180.0 < deg <= 180.0;
  }

  /** North is 0, east 90, south 180, west 270, and a zero-length direction gives 0. */
  lemma AngleCompass(m: MathLib, from: Point, d: real)
    requires Atan2DegreesSpec(m.atan2Degrees) && d > 0.0
    ensures AngleToGameDegree(m, from, Point(from.x, from.y + d)) == 0.0
    ensures AngleToGameDegree(m, from, Point(from.x + d, from.y)) == 90.0
    ensures AngleToGameDegree(m, from, Point(from.x, from.y - d)) == 180.0
    ensures AngleToGameDegree(m, from, Point(from.x - d, from.y)) == 270.0
    ensures AngleToGameDegree(m, from, from) == 0.0
  {
    var a := m.atan2Degrees;
    assert a(0.0, d) == 0.0 && a(d, 0.0) == 90.0;
    assert a(0.0, -d) == 180.0 && a(-d, 0.0) == -90.0;
    assert from.x - from.x == 0.0 && from.y - from.y == 0.0;
    assert (from.y + d) - from.y == d && (from.x + d) - from.x == d;
    assert (from.y - d) - from.y == -d && (from.x - d) - from.x == -d;
  }

  // ---------------------------------------------------------------------------
  // Point-to-segment distance

  /** The point a fraction `s` of the way from a to b. */
  function Lerp(a: Point, b: Point, s: real): Point
  {
    Point(a.x + s * (b.x - a.x), a.y + s * (b.y - a.y))
  }

  /** The dot product of the vectors a->p and a->b. */
  function Dot(a: Point, b: Point, p: Point): real
  {
    (p.x - a.x) * (b.x - a.x) + (p.y - a.y) * (b.y - a.y)
  }

  /** The parameter of the orthogonal projection of p onto the line through a and b:
      0 at a, 1 at b. */
  function ProjectionParameter(a: Point, b: Point, p: Point): real
    requires SquaredDist(a, b) != 0.0
  {
    Dot(a, b, p) / SquaredDist(a, b)
  }

  /** `line_point_distance`: the distance from p to the segment from a to b, found by
      clamping the projection parameter to the segment. */
  function LinePointDistance(m: MathLib, a: Point, b: Point, p: Point): real
  {
    if SquaredDist(a, b) == 0.0 then m.hypot(p.x - a.x, p.y - a.y)
    else if ProjectionParameter(a, b, p) <= 0.0 then m.hypot(p.x - a.x, p.y - a.y)
    else if ProjectionParameter(a, b, p) >= 1.0 then m.hypot(p.x - b.x, p.y - b.y)
    else
      var proj := Lerp(a, b, ProjectionParameter(a, b, p));
      m.hypot(p.x - proj.x, p.y - proj.y)
  }

  /** The three cases of the segment distance: the distance to a (degenerate segment,
      or the projection falls at or before a), to b (the projection falls at or past
      b), or to the foot of the perpendicular strictly inside the segment. */
  lemma LinePointDistanceCases(m: MathLib, a: Point, b: Point, p: Point)
    requires ValidMath(m)
    ensures a == b ==> LinePointDistance(m, a, b, p) == Dist(m, a, p)
    ensures a != b ==> SquaredDist(a, b) != 0.0
    ensures a != b && ProjectionParameter(a, b, p) <= 0.0 ==>
              LinePointDistance(m, a, b, p) == Dist(m, a, p)
    ensures a != b && ProjectionParameter(a, b, p) >= 1.0 ==>
              LinePointDistance(m, a, b, p) == Dist(m, b, p)
    ensures a != b && 0.0 < ProjectionParameter(a, b, p) < 1.0 ==>
              LinePointDistance(m, a, b, p) == Dist(m, Lerp(a, b, ProjectionParameter(a, b, p)), p)
  {
    SquaredDistZero(m, a, b);
  }

  /** `line_point_distance` is the minimum distance between p and the segment: no
      point of the segment is nearer to p, and some point of the segment is exactly
      that far. */
  lemma LinePointDistanceMinimal(m: MathLib, a: Point, b: Point, p: Point)
    requires ValidMath(m)
    ensures forall s :: 0.0 <= s <= 1.0 ==> LinePointDistance(m, a, b, p) <= Dist(m, Lerp(a, b, s), p)
    ensures exists s :: 0.0 <= s <= 1.0 && LinePointDistance(m, a, b, p) == Dist(m, Lerp(a, b, s), p)
  {
    SquaredDistNonneg(m, a, b);
    forall s | 0.0 <= s <= 1.0
      ensures LinePointDistance(m, a, b, p) <= Dist(m, Lerp(a, b, s), p)
    {
      if SquaredDist(a, b) == 0.0 {
        SquaredDistZero(m, a, b);
        assert Lerp(a, b, s) == a;
      } else if ProjectionParameter(a, b, p) <= 0.0 {
        MinimalBefore(m, a, b, p, s);
      } else if ProjectionParameter(a, b, p) >= 1.0 {
        MinimalAfter(m, a, b, p, s);
      } else {
        MinimalInside(m, a, b, p, s);
      }
    }
    if SquaredDist(a, b) == 0.0 || ProjectionParameter(a, b, p) <= 0.0 {
      assert Lerp(a, b, 0.0) == a;
      assert LinePointDistance(m, a, b, p) == Dist(m, Lerp(a, b, 0.0), p);
    } else if ProjectionParameter(a, b, p) >= 1.0 {
      assert Lerp(a, b, 1.0) == b;
      assert LinePointDistance(m, a, b, p) == Dist(m, Lerp(a, b, 1.0), p);
    } else {
      var t := ProjectionParameter(a, b, p);
      assert LinePointDistance(m, a, b, p) == Dist(m, Lerp(a, b, t), p);
    }
  }

  /** A smaller squared distance means a smaller distance. */
  lemma DistMono(m: MathLib, a: Point, b: Point, c: Point, d: Point)
    requires ValidMath(m)
    requires !((b.x - a.x) * (b.x - a.x) + (b.y - a.y) * (b.y - a.y)
               > (d.x - c.x) * (d.x - c.x) + (d.y - c.y) * (d.y - c.y))
    ensures Dist(m, a, b) <= Dist(m, c, d)
  {
    SqrtMono(Dist(m, a, b), Dist(m, c, d),
             (b.x - a.x) * (b.x - a.x) + (b.y - a.y) * (b.y - a.y),
             (d.x - c.x) * (d.x - c.x) + (d.y - c.y) * (d.y - c.y));
  }

  lemma MinimalBefore(m: MathLib, a: Point, b: Point, p: Point, s: real)
    requires ValidMath(m) && SquaredDist(a, b) > 0.0 && !(ProjectionParameter(a, b, p) > 0.0)
    requires 0.0 <= s <= 1.0
    ensures Dist(m, a, p) <= Dist(m, Lerp(a, b, s), p)
  {
    BeforeSquares(a, b, p, s);
    NearerFromSquares(m, a, b, p, s, a);
  }

  lemma BeforeSquares(a: Point, b: Point, p: Point, s: real)
    requires SquaredDist(a, b) > 0.0 && !(ProjectionParameter(a, b, p) > 0.0) && 0.0 <= s <= 1.0
    ensures !(SumOfSquares(p.x - a.x, p.y - a.y) > SumOfSquares(p.x - Lerp(a, b, s).x, p.y - Lerp(a, b, s).y))
  {
    DivCancel(Dot(a, b, p), SquaredDist(a, b));
    BeforeMono(p.x - a.x, p.y - a.y, b.x - a.x, b.y - a.y, ProjectionParameter(a, b, p), s,
               p.x - Lerp(a, b, s).x, p.y - Lerp(a, b, s).y);
  }

  lemma MinimalAfter(m: MathLib, a: Point, b: Point, p: Point, s: real)
    requires ValidMath(m) && SquaredDist(a, b) > 0.0 && !(ProjectionParameter(a, b, p) < 1.0)
    requires 0.0 <= s <= 1.0
    ensures Dist(m, b, p) <= Dist(m, Lerp(a, b, s), p)
  {
    AfterSquares(a, b, p, s);
    NearerFromSquares(m, a, b, p, s, b);
  }

  lemma AfterSquares(a: Point, b: Point, p: Point, s: real)
    requires SquaredDist(a, b) > 0.0 && !(ProjectionParameter(a, b, p) < 1.0) && 0.0 <= s <= 1.0
    ensures !(SumOfSquares(p.x - b.x, p.y - b.y) > SumOfSquares(p.x - Lerp(a, b, s).x, p.y - Lerp(a, b, s).y))
  {
    DivCancel(Dot(a, b, p), SquaredDist(a, b));
    AfterMono(p.x - a.x, p.y - a.y, b.x - a.x, b.y - a.y, ProjectionParameter(a, b, p), s,
              p.x - b.x, p.y - b.y, p.x - Lerp(a, b, s).x, p.y - Lerp(a, b, s).y);
  }

  lemma MinimalInside(m: MathLib, a: Point, b: Point, p: Point, s: real)
    requires ValidMath(m) && SquaredDist(a, b) > 0.0
    ensures Dist(m, Lerp(a, b, ProjectionParameter(a, b, p)), p) <= Dist(m, Lerp(a, b, s), p)
  {
    DivCancel(Dot(a, b, p), SquaredDist(a, b));
    MinimalAtFoot(m, a, b, p, s, ProjectionParameter(a, b, p));
  }

  /** The same, for any t that satisfies the projection equation. */
  lemma MinimalAtFoot(m: MathLib, a: Point, b: Point, p: Point, s: real, t: real)
    requires ValidMath(m) && t * SquaredDist(a, b) == Dot(a, b, p)
    ensures Dist(m, Lerp(a, b, t), p) <= Dist(m, Lerp(a, b, s), p)
  {
    InsideSquares(a, b, p, s, t);
    NearerFromSquares(m, a, b, p, s, Lerp(a, b, t));
  }

  /** The step from squared distances to distances, for a point e and the point s of
      the way along the segment, kept apart from the facts that give the squares. */
  lemma NearerFromSquares(m: MathLib, a: Point, b: Point, p: Point, s: real, e: Point)
    requires ValidMath(m)
    requires !(SumOfSquares(p.x - e.x, p.y - e.y) > SumOfSquares(p.x - Lerp(a, b, s).x, p.y - Lerp(a, b, s).y))
    ensures Dist(m, e, p) <= Dist(m, Lerp(a, b, s), p)
  {
    DistMono(m, e, p, Lerp(a, b, s), p);
  }

  /** The squared form of `MinimalAtFoot`. */
  lemma InsideSquares(a: Point, b: Point, p: Point, s: real, t: real)
    ensures Scales(t, SquaredDist(a, b), Dot(a, b, p)) ==>
              !(SumOfSquares(p.x - Lerp(a, b, t).x, p.y - Lerp(a, b, t).y)
                > SumOfSquares(p.x - Lerp(a, b, s).x, p.y - Lerp(a, b, s).y))
  {
    LerpOffset(a, b, p, t);
    LerpOffset(a, b, p, s);
    InsideMono(p.x - a.x, p.y - a.y, b.x - a.x, b.y - a.y, t, s,
               p.x - Lerp(a, b, t).x, p.y - Lerp(a, b, t).y, p.x - Lerp(a, b, s).x, p.y - Lerp(a, b, s).y,
               SquaredDist(a, b), Dot(a, b, p));
  }

  /** The offset from the point s of the way along the segment to p. */
  lemma LerpOffset(a: Point, b: Point, p: Point, s: real)
    ensures p.x - Lerp(a, b, s).x == (p.x - a.x) - s * (b.x - a.x)
    ensures p.y - Lerp(a, b, s).y == (p.y - a.y) - s * (b.y - a.y)
  {}

  /** In particular the segment distance is non-negative and at most the distance
      from p to either end. */
  lemma LinePointDistanceAtMostEnds(m: MathLib, a: Point, b: Point, p: Point)
    requires ValidMath(m)
    ensures 0.0 <= LinePointDistance(m, a, b, p)
    ensures LinePointDistance(m, a, b, p) <= Dist(m, a, p)
    ensures LinePointDistance(m, a, b, p) <= Dist(m, b, p)
  {
    LinePointDistanceMinimal(m, a, b, p);
    assert Lerp(a, b, 0.0) == a;
    assert Lerp(a, b, 1.0) == b;
    var s :| 0.0 <= s <= 1.0 && LinePointDistance(m, a, b, p) == Dist(m, Lerp(a, b, s), p);
  }

  /** Walking the segment backwards visits the same points. */
  lemma LerpReverse(a: Point, b: Point, s: real)
    ensures Lerp(b, a, 1.0 - s) == Lerp(a, b, s)
  {}

  /** The segment distance does not depend on the direction of the segment. */
  lemma LinePointDistanceSymmetric(m: MathLib, a: Point, b: Point, p: Point)
    requires ValidMath(m)
    ensures LinePointDistance(m, a, b, p) == LinePointDistance(m, b, a, p)
  {
    LinePointDistanceMinimal(m, a, b, p);
    LinePointDistanceMinimal(m, b, a, p);
    var s :| 0.0 <= s <= 1.0 && LinePointDistance(m, a, b, p) == Dist(m, Lerp(a, b, s), p);
    var r :| 0.0 <= r <= 1.0 && LinePointDistance(m, b, a, p) == Dist(m, Lerp(b, a, r), p);
    LerpReverse(a, b, s);
    LerpReverse(b, a, r);
    assert LinePointDistance(m, b, a, p) <= Dist(m, Lerp(b, a, 1.0 - s), p);
    assert LinePointDistance(m, a, b, p) <= Dist(m, Lerp(a, b, 1.0 - r), p);
  }
}
