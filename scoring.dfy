/** The score of one candidate shot (a target ball sent into a pocket from the ghost
    position). */
module Scoring {
  import opened RealFacts
  import opened Geometry
  import opened Table
  import opened Aim
  import opened Occlusion

  /** The score of a shot that cannot be played. */
  const Sentinel: real := -1000000000.0

  /** How far from the rails the ghost position must lie. */
  const GhostMargin: real := BallRadius * 0.6

  /** `shot_score`, with the set of slots the cue-ball leg ignores as a parameter
      (see `CueLeg`). */
  function ShotScoreWith(m: MathLib, cueIgnore: set<int>, white: Point, target: Point,
                         hole: Point, ghostBall: Point, balls: Balls): real
  {
    if !InsideTable(ghostBall, GhostMargin) then Sentinel
    else
      var d1 := Dist(m, white, ghostBall);
      var d2 := Dist(m, target, hole);
      var v1x := ghostBall.x - white.x;
      var v1y := ghostBall.y - white.y;
      var v2x := target.x - white.x;
      var v2y := target.y - white.y;
      var n1 := m.hypot(v1x, v1y);
      var n2 := m.hypot(v2x, v2y);
      if n1 == 0.0 || n2 == 0.0 then Sentinel
      else
        MulNonzero(n1, n2);
        var cosAlign := (v1x * v2x + v1y * v2y) / (n1 * n2);
        var clear1 := PathClear(m, white, ghostBall, balls, cueIgnore);
        var clear2 := PathClear(m, target, hole, balls, {0});
        var s1 := 0.0 + (if clear1 then 1600.0 else -1200.0);
        var s2 := s1 + (if clear2 then 2200.0 else -1800.0);
        var s3 := s2 + cosAlign * 320.0 - d1 * 4.6 - d2 * 2.8;
        var s4 := if d1 > 130.0 then s3 - (d1 - 130.0) * 3.5 else s3;
        if cosAlign < 0.35 then s4 - (0.35 - cosAlign) * 700.0 else s4
  }

  /** Which slots the cue-ball leg of a shot at target slot `bi` ignores. The program
      passes only the cue ball's slot (`AsWritten`); `Corrected` also ignores the
      target's own slot. */
  datatype CueLeg = AsWritten | Corrected

  function CueIgnore(leg: CueLeg, bi: int): set<int>
  {
    match leg
    case AsWritten => {0}
    case Corrected => {0, bi}
  }

  /** `shot_score` for target slot `bi`, with the cue-ball leg checked as `leg` says. */
  function ShotScore(m: MathLib, leg: CueLeg, bi: int, white: Point, target: Point, hole: Point,
                     ghostBall: Point, balls: Balls): real
  {
    ShotScoreWith(m, CueIgnore(leg, bi), white, target, hole, ghostBall, balls)
  }

  /** The two cases in which a shot gets the sentinel score: the ghost position is
      not at least `GhostMargin` inside the rails (closed bounds), or the cue ball
      sits on the ghost position or on the target. */
  lemma ShotScoreSentinel(m: MathLib, cueIgnore: set<int>, white: Point, target: Point,
                          hole: Point, ghostBall: Point, balls: Balls)
    requires ValidMath(m)
    ensures !InsideTable(ghostBall, GhostMargin) ==>
              ShotScoreWith(m, cueIgnore, white, target, hole, ghostBall, balls) == Sentinel
    ensures white == ghostBall || white == target ==>
              ShotScoreWith(m, cueIgnore, white, target, hole, ghostBall, balls) == Sentinel
  {
    DistProperties(m, white, ghostBall);
    DistProperties(m, white, target);
  }

  // ---------------------------------------------------------------------------
  // The cue-ball leg and the target ball

  /** As written, the cue-ball leg of every real shot is reported blocked by the
      target ball itself, unless the cue ball already touches the target: the target
      is two radii from the ghost position, which is more than `EndpointClearance`
      and less than `BlockingDistance`. */
  lemma CueLegBlockedByTarget(m: MathLib, white: Point, bi: int, hole: Point, balls: Balls)
    requires ValidMath(m) && 1 <= bi < 6 && OnTable(balls[bi]) && balls[bi] != hole
    requires !(Dist(m, white, balls[bi]) < EndpointClearance)
    ensures GhostBallPosition(m, balls[bi], hole).Some?
    ensures !PathClear(m, white, GhostBallPosition(m, balls[bi], hole).value, balls, CueIgnore(AsWritten, bi))
  {
    GhostTouchesTarget(m, balls[bi], hole);
    LinePointDistanceAtMostEnds(m, white, GhostBallPosition(m, balls[bi], hole).value, balls[bi]);
    assert Blocks(m, white, GhostBallPosition(m, balls[bi], hole).value, balls, CueIgnore(AsWritten, bi), bi);
  }

  /** Corrected: with the target's slot ignored, the cue-ball leg is reported blocked
      only when some other object ball is in the way. */
  lemma CorrectedCueLegBlockedOnlyByOthers(m: MathLib, white: Point, bi: int, ghostBall: Point,
                                           balls: Balls)
    requires 1 <= bi < 6
    ensures !PathClear(m, white, ghostBall, balls, CueIgnore(Corrected, bi)) ==>
              exists i :: 1 <= i < 6 && i != bi && OnTable(balls[i])
                && LinePointDistance(m, white, ghostBall, balls[i]) <= BlockingDistance
  {
    if !PathClear(m, white, ghostBall, balls, CueIgnore(Corrected, bi)) {
      var i :| 1 <= i < 6 && Blocks(m, white, ghostBall, balls, CueIgnore(Corrected, bi), i);
      assert i != bi;
    }
  }

  /** A concrete table that shows the difference: the cue ball at (50, 63.5), ball 1 at
      (100, 63.5), every other object ball off the table, aiming ball 1 at the top
      middle pocket. As written the cue-ball leg is blocked; corrected it is clear. */
  lemma LoneTargetExample(m: MathLib)
    requires ValidMath(m)
    ensures var balls: Balls := [Point(50.0, 63.5), Point(100.0, 63.5), Point(-1.0, -1.0),
                                 Point(-1.0, -1.0), Point(-1.0, -1.0), Point(-1.0, -1.0)];
            var g := GhostBallPosition(m, balls[1], Holes[4]);
            && g.Some?
            && !PathClear(m, balls[0], g.value, balls, CueIgnore(AsWritten, 1))
            && PathClear(m, balls[0], g.value, balls, CueIgnore(Corrected, 1))
  {
    var balls: Balls := [Point(50.0, 63.5), Point(100.0, 63.5), Point(-1.0, -1.0),
                         Point(-1.0, -1.0), Point(-1.0, -1.0), Point(-1.0, -1.0)];
    SqrtEq(Dist(m, balls[0], balls[1]), 50.0, 2500.0);
    CueLegBlockedByTarget(m, balls[0], 1, Holes[4], balls);
  }

  /** The score difference the correction makes for such a shot: when no other ball is
      in the cue ball's way, the corrected score is higher by the full clearance swing
      of 1600 - (-1200). */
  lemma CorrectionScoreGap(m: MathLib, white: Point, bi: int, hole: Point, balls: Balls)
    requires ValidMath(m) && 1 <= bi < 6 && OnTable(balls[bi]) && balls[bi] != hole
    requires !(Dist(m, white, balls[bi]) < EndpointClearance)
    requires GhostBallPosition(m, balls[bi], hole).Some?
    requires PathClear(m, white, GhostBallPosition(m, balls[bi], hole).value, balls, CueIgnore(Corrected, bi))
    requires InsideTable(GhostBallPosition(m, balls[bi], hole).value, GhostMargin)
    requires white != GhostBallPosition(m, balls[bi], hole).value && white != balls[bi]
    ensures ShotScore(m, Corrected, bi, white, balls[bi], hole, GhostBallPosition(m, balls[bi], hole).value, balls)
         == ShotScore(m, AsWritten, bi, white, balls[bi], hole, GhostBallPosition(m, balls[bi], hole).value, balls) + 2800.0
  {
    CueLegBlockedByTarget(m, white, bi, hole, balls);
    DistProperties(m, white, GhostBallPosition(m, balls[bi], hole).value);
    DistProperties(m, white, balls[bi]);
  }
}
