/** Where the cue ball must be at impact to send a target ball into a pocket. */
module Aim {
  import opened RealFacts
  import opened Geometry
  import opened Table

  /** `ghost_ball_position`: the point two ball radii behind the target on the line from
      the pocket through the target; none when the target sits on the pocket. */
  function GhostBallPosition(m: MathLib, target: Point, hole: Point): Option<Point>
  {
    var vx := hole.x - target.x;
    var vy := hole.y - target.y;
    var norm := m.hypot(vx, vy);
    if norm == 0.0 then None
    else
      var ux := vx / norm;
      var uy := vy / norm;
      Some(Point(target.x - ux * (BallRadius * 2.0), target.y - uy * (BallRadius * 2.0)))
  }

  /** There is a ghost position exactly when the target is not on the pocket. */
  lemma GhostExists(m: MathLib, target: Point, hole: Point)
    requires ValidMath(m)
    ensures GhostBallPosition(m, target, hole).None? <==> target == hole
  {
    assert m.hypot(hole.x - target.x, hole.y - target.y) == 0.0 <==>
           hole.x - target.x == 0.0 && hole.y - target.y == 0.0;
  }

  /** The ghost ball touches the target: their centres are two radii apart, and the
      ghost lies straight behind the target as seen from the pocket (the offset from
      the target to the ghost has dot product -2R * |target->hole| with the direction
      to the pocket, which by Cauchy-Schwarz pins it to the opposite direction). */
  lemma GhostTouchesTarget(m: MathLib, target: Point, hole: Point)
    requires ValidMath(m) && target != hole
    ensures GhostBallPosition(m, target, hole).Some?
    ensures Dist(m, GhostBallPosition(m, target, hole).value, target) == 2.0 * BallRadius
    ensures var g := GhostBallPosition(m, target, hole).value;
            (hole.x - target.x) * (g.x - target.x) + (hole.y - target.y) * (g.y - target.y)
              == -(2.0 * BallRadius) * Dist(m, target, hole)
  {
    GhostExists(m, target, hole);
    GhostOffset(m.hypot, hole.x - target.x, hole.y - target.y, BallRadius * 2.0);
  }

  /** The arithmetic core: for a non-zero vector (dx, dy) of length n, the vector
      (dx / n, dy / n) * c has length c and dot product c * n with (dx, dy). */
  lemma GhostOffset(h: (real, real) -> real, dx: real, dy: real, c: real)
    requires HypotSpec(h) && h(dx, dy) != 0.0 && c > 0.0
    ensures h((dx / h(dx, dy)) * c, (dy / h(dx, dy)) * c) == c
    ensures dx * ((dx / h(dx, dy)) * c) + dy * ((dy / h(dx, dy)) * c) == c * h(dx, dy)
  {
    DivCancel(dx, h(dx, dy));
    DivCancel(dy, h(dx, dy));
    DivCancel(c, h(dx, dy));
    DivNonneg(c, h(dx, dy));
    MulNonneg(c / h(dx, dy), h(dx, dy));
    ScaledUnitSquare(dx / h(dx, dy), dy / h(dx, dy), c / h(dx, dy), h(dx, dy), dx, dy, c);
    ScaledUnitDot(dx / h(dx, dy), dy / h(dx, dy), c / h(dx, dy), h(dx, dy), dx, dy, c);
    SqrtEq(h((dx / h(dx, dy)) * c, (dy / h(dx, dy)) * c), (c / h(dx, dy)) * h(dx, dy),
           ((dx / h(dx, dy)) * c) * ((dx / h(dx, dy)) * c) + ((dy / h(dx, dy)) * c) * ((dy / h(dx, dy)) * c));
  }
}
