/** Choosing the shot: the best-scoring (ball, pocket) pair, or a fallback aimed at the
    nearest own ball, and the power of the stroke. */
module Planner {
  import opened Geometry
  import opened Table
  import opened Aim
  import opened Occlusion
  import opened Scoring

  /** One entry of the candidate list: its score, the target's slot, the pocket and
      the ghost position. */
  datatype Candidate = Candidate(score: real, ball: int, hole: Point, ghostBall: Point)

  // ---------------------------------------------------------------------------
  // Best shot
  //
  // Every member below takes the cue-leg policy `leg`: `AsWritten` is the program's
  // own decision, `Corrected` the one with the cue-ball leg fixed.

  /** The candidates for target slot `bi` and the pockets `holes`, in pocket order: one
      per pocket that has a ghost position. */
  function HoleCandidates(m: MathLib, leg: CueLeg, balls: Balls, bi: int, holes: seq<Point>): seq<Candidate>
    requires 1 <= bi < 6
  {
    if holes == [] then []
    else
      var rest := HoleCandidates(m, leg, balls, bi, holes[..|holes| - 1]);
      var hole := holes[|holes| - 1];
      match GhostBallPosition(m, balls[bi], hole)
      case None => rest
      case Some(g) => rest + [Candidate(ShotScore(m, leg, bi, balls[0], balls[bi], hole, g, balls), bi, hole, g)]
  }

  /** The candidate list built by `choose_best_shot`: own slots in order, skipping balls
      off the table, and for each the pockets in order. */
  function BallCandidates(m: MathLib, leg: CueLeg, balls: Balls, own: seq<int>): seq<Candidate>
    requires forall k :: 0 <= k < |own| ==> 1 <= own[k] < 6
  {
    if own == [] then []
    else
      var rest := BallCandidates(m, leg, balls, own[..|own| - 1]);
      var bi := own[|own| - 1];
      if balls[bi].x < 0.0 then rest else rest + HoleCandidates(m, leg, balls, bi, Holes)
  }

  function Candidates(m: MathLib, leg: CueLeg, order: int, balls: Balls): seq<Candidate>
  {
    BallCandidates(m, leg, balls, OwnBalls(order))
  }

  /** Index k holds the first maximum of the scores in `cs`. */
  predicate FirstMaximum(cs: seq<Candidate>, k: int)
  {
    && 0 <= k < |cs|
    && (forall j :: 0 <= j < |cs| ==> cs[j].score <= cs[k].score)
    && (forall j :: 0 <= j < k ==> cs[j].score < cs[k].score)
  }

  /** The two nested loops of `choose_best_shot` that build the candidate list. */
  method CollectCandidates(m: MathLib, leg: CueLeg, order: int, balls: Balls) returns (candidates: seq<Candidate>)
    ensures candidates == Candidates(m, leg, order, balls)
  {
    var own := OwnBalls(order);
    candidates := [];
    for b := 0 to |own|
      invariant candidates == BallCandidates(m, leg, balls, own[..b])
    {
      var bi := own[b];
      assert own[..b + 1][..b] == own[..b];
      if balls[bi].x < 0.0 {
        continue;
      }
      var forBall := CollectHoleCandidates(m, leg, balls, bi);
      candidates := candidates + forBall;
    }
    assert own[..|own|] == own;
  }

  /** The inner loop of `choose_best_shot`: the candidates for one target slot, one per
      pocket that has a ghost position, in pocket order. */
  method CollectHoleCandidates(m: MathLib, leg: CueLeg, balls: Balls, bi: int) returns (candidates: seq<Candidate>)
    requires 1 <= bi < 6
    ensures candidates == HoleCandidates(m, leg, balls, bi, Holes)
  {
    candidates := [];
    for h := 0 to |Holes|
      invariant candidates == HoleCandidates(m, leg, balls, bi, Holes[..h])
    {
      var hole := Holes[h];
      assert Holes[..h + 1][..h] == Holes[..h];
      var g := GhostBallPosition(m, balls[bi], hole);
      if g.None? {
        continue;
      }
      var score := ShotScore(m, leg, bi, balls[0], balls[bi], hole, g.value, balls);
      candidates := candidates + [Candidate(score, bi, hole, g.value)];
    }
    assert Holes[..|Holes|] == Holes;
  }

  /** `choose_best_shot`: builds the candidate list, then takes the head of the list
      sorted by score, highest first. The sort is stable, so the head is the first
      candidate of maximum score; no shot at an own ball on the table scores higher. */
  method ChooseBestShot(m: MathLib, leg: CueLeg, order: int, balls: Balls) returns (best: Option<Candidate>)
    ensures best.None? <==> Candidates(m, leg, order, balls) == []
    ensures best.Some? ==> exists k :: FirstMaximum(Candidates(m, leg, order, balls), k)
                                       && best.value == Candidates(m, leg, order, balls)[k]
    ensures best.Some? ==> best.value.ball in OwnBalls(order) && 1 <= best.value.ball < 6
                           && OnTable(balls[best.value.ball])
    ensures best.Some? ==>
              forall bi, h :: 1 <= bi < 6 && bi in OwnBalls(order) && OnTable(balls[bi]) && 0 <= h < |Holes|
                              && GhostBallPosition(m, balls[bi], Holes[h]).Some? ==>
                ShotScore(m, leg, bi, balls[0], balls[bi], Holes[h], GhostBallPosition(m, balls[bi], Holes[h]).value, balls)
                  <= best.value.score
  {
    var candidates := CollectCandidates(m, leg, order, balls);
    var own := OwnBalls(order);
    if candidates == [] {
      return None;
    }
    var k := 0;
    for i := 1 to |candidates|
      invariant FirstMaximum(candidates[..i], k)
    {
      if candidates[i].score > candidates[k].score {
        k := i;
      }
    }
    assert candidates[..|candidates|] == candidates;
    BallCandidatesSound(m, leg, balls, own, candidates[k]);
    BestScoresHighest(m, leg, order, balls, k);
    return Some(candidates[k]);
  }

  /** The first maximum of the candidate list scores at least as high as every shot
      at an own ball on the table into a pocket it has a ghost position for. */
  lemma BestScoresHighest(m: MathLib, leg: CueLeg, order: int, balls: Balls, k: int)
    requires FirstMaximum(Candidates(m, leg, order, balls), k)
    ensures forall bi, h :: 1 <= bi < 6 && bi in OwnBalls(order) && OnTable(balls[bi]) && 0 <= h < |Holes|
                            && GhostBallPosition(m, balls[bi], Holes[h]).Some? ==>
              ShotScore(m, leg, bi, balls[0], balls[bi], Holes[h], GhostBallPosition(m, balls[bi], Holes[h]).value, balls)
                <= Candidates(m, leg, order, balls)[k].score
  {
    var own := OwnBalls(order);
    var cs := Candidates(m, leg, order, balls);
    forall bi, h | 1 <= bi < 6 && bi in own && OnTable(balls[bi]) && 0 <= h < |Holes|
                   && GhostBallPosition(m, balls[bi], Holes[h]).Some?
      ensures ShotScore(m, leg, bi, balls[0], balls[bi], Holes[h], GhostBallPosition(m, balls[bi], Holes[h]).value, balls)
                <= cs[k].score
    {
      var j :| 0 <= j < |own| && own[j] == bi;
      BallCandidatesComplete(m, leg, balls, own, j, h);
      var c :| c in cs && c.ball == bi && c.hole == Holes[h]
               && c.ghostBall == GhostBallPosition(m, balls[bi], Holes[h]).value;
      BallCandidatesSound(m, leg, balls, own, c);
      var i :| 0 <= i < |cs| && cs[i] == c;
    }
  }

  /** Every candidate aims the given ball at one of the pockets, from that ball's
      ghost position, and carries that shot's score. */
  lemma {:induction false} HoleCandidatesSound(m: MathLib, leg: CueLeg, balls: Balls, bi: int, holes: seq<Point>,
                                               c: Candidate)
    requires 1 <= bi < 6 && c in HoleCandidates(m, leg, balls, bi, holes)
    ensures c.ball == bi && c.hole in holes
    ensures GhostBallPosition(m, balls[bi], c.hole) == Some(c.ghostBall)
    ensures c.score == ShotScore(m, leg, bi, balls[0], balls[bi], c.hole, c.ghostBall, balls)
  {
    var rest := HoleCandidates(m, leg, balls, bi, holes[..|holes| - 1]);
    if c in rest {
      HoleCandidatesSound(m, leg, balls, bi, holes[..|holes| - 1], c);
    }
  }

  lemma {:induction false} BallCandidatesSound(m: MathLib, leg: CueLeg, balls: Balls, own: seq<int>, c: Candidate)
    requires forall k :: 0 <= k < |own| ==> 1 <= own[k] < 6
    requires c in BallCandidates(m, leg, balls, own)
    ensures c.ball in own && 1 <= c.ball < 6 && OnTable(balls[c.ball]) && c.hole in Holes
    ensures GhostBallPosition(m, balls[c.ball], c.hole) == Some(c.ghostBall)
    ensures c.score == ShotScore(m, leg, c.ball, balls[0], balls[c.ball], c.hole, c.ghostBall, balls)
  {
    var rest := BallCandidates(m, leg, balls, own[..|own| - 1]);
    var bi := own[|own| - 1];
    if c in rest {
      BallCandidatesSound(m, leg, balls, own[..|own| - 1], c);
    } else {
      HoleCandidatesSound(m, leg, balls, bi, Holes, c);
    }
  }

  /** Every pocket `holes[k]` with a ghost position for ball `bi` has a candidate. */
  lemma {:induction false} HoleCandidatesComplete(m: MathLib, leg: CueLeg, balls: Balls, bi: int, holes: seq<Point>,
                                                  k: int)
    requires 1 <= bi < 6 && 0 <= k < |holes| && GhostBallPosition(m, balls[bi], holes[k]).Some?
    ensures exists c :: c in HoleCandidates(m, leg, balls, bi, holes) && c.ball == bi && c.hole == holes[k]
                        && c.ghostBall == GhostBallPosition(m, balls[bi], holes[k]).value
  {
    var init := holes[..|holes| - 1];
    var rest := HoleCandidates(m, leg, balls, bi, init);
    assert rest <= HoleCandidates(m, leg, balls, bi, holes);
    if k < |holes| - 1 {
      assert init[k] == holes[k];
      HoleCandidatesComplete(m, leg, balls, bi, init, k);
      var c :| c in rest && c.ball == bi && c.hole == holes[k]
               && c.ghostBall == GhostBallPosition(m, balls[bi], holes[k]).value;
      assert c in HoleCandidates(m, leg, balls, bi, holes);
    } else {
      var g := GhostBallPosition(m, balls[bi], holes[k]).value;
      var c := Candidate(ShotScore(m, leg, bi, balls[0], balls[bi], holes[k], g, balls), bi, holes[k], g);
      assert HoleCandidates(m, leg, balls, bi, holes) == rest + [c];
    }
  }

  /** Every own ball on the table has a candidate for every pocket it has a ghost
      position for. */
  lemma {:induction false} BallCandidatesComplete(m: MathLib, leg: CueLeg, balls: Balls, own: seq<int>, j: int, k: int)
    requires forall i :: 0 <= i < |own| ==> 1 <= own[i] < 6
    requires 0 <= j < |own| && OnTable(balls[own[j]])
    requires 0 <= k < |Holes| && GhostBallPosition(m, balls[own[j]], Holes[k]).Some?
    ensures exists c :: c in BallCandidates(m, leg, balls, own) && c.ball == own[j] && c.hole == Holes[k]
                        && c.ghostBall == GhostBallPosition(m, balls[own[j]], Holes[k]).value
  {
    var init := own[..|own| - 1];
    var rest := BallCandidates(m, leg, balls, init);
    assert rest <= BallCandidates(m, leg, balls, own);
    if j < |own| - 1 {
      assert init[j] == own[j];
      BallCandidatesComplete(m, leg, balls, init, j, k);
      var c :| c in rest && c.ball == own[j] && c.hole == Holes[k]
               && c.ghostBall == GhostBallPosition(m, balls[own[j]], Holes[k]).value;
      assert c in BallCandidates(m, leg, balls, own);
    } else {
      HoleCandidatesComplete(m, leg, balls, own[j], Holes, k);
      var c :| c in HoleCandidates(m, leg, balls, own[j], Holes) && c.ball == own[j] && c.hole == Holes[k]
               && c.ghostBall == GhostBallPosition(m, balls[own[j]], Holes[k]).value;
      assert BallCandidates(m, leg, balls, own) == rest + HoleCandidates(m, leg, balls, own[j], Holes);
    }
  }

  /** `choose_best_shot` finds no candidate exactly when none of the player's balls is
      on the table (a ball on the table cannot sit on two pockets at once, so it always
      has a ghost position). The candidates are exactly the shots at an own ball on the
      table into a pocket it does not sit on. */
  lemma BestShotProperties(m: MathLib, leg: CueLeg, order: int, balls: Balls)
    requires ValidMath(m)
    ensures Candidates(m, leg, order, balls) == [] <==>
              forall k :: 0 <= k < 3 ==> !OnTable(balls[OwnBalls(order)[k]])
    ensures forall c :: c in Candidates(m, leg, order, balls) ==>
              c.ball in OwnBalls(order) && OnTable(balls[c.ball]) && c.hole in Holes && balls[c.ball] != c.hole
              && GhostBallPosition(m, balls[c.ball], c.hole) == Some(c.ghostBall)
    ensures forall j, h :: 0 <= j < 3 && OnTable(balls[OwnBalls(order)[j]]) && 0 <= h < |Holes|
                           && balls[OwnBalls(order)[j]] != Holes[h] ==>
              exists c :: c in Candidates(m, leg, order, balls) && c.ball == OwnBalls(order)[j] && c.hole == Holes[h]
  {
    var own := OwnBalls(order);
    forall c | c in Candidates(m, leg, order, balls)
      ensures c.ball in own && OnTable(balls[c.ball]) && c.hole in Holes && balls[c.ball] != c.hole
              && GhostBallPosition(m, balls[c.ball], c.hole) == Some(c.ghostBall)
    {
      BallCandidatesSound(m, leg, balls, own, c);
      GhostExists(m, balls[c.ball], c.hole);
    }
    forall j, h | 0 <= j < 3 && OnTable(balls[own[j]]) && 0 <= h < |Holes| && balls[own[j]] != Holes[h]
      ensures exists c :: c in Candidates(m, leg, order, balls) && c.ball == own[j] && c.hole == Holes[h]
    {
      GhostExists(m, balls[own[j]], Holes[h]);
      BallCandidatesComplete(m, leg, balls, own, j, h);
    }
    forall k | 0 <= k < 3 && OnTable(balls[own[k]])
      ensures Candidates(m, leg, order, balls) != []
    {
      var h := if balls[own[k]] == Holes[0] then 1 else 0;
      GhostExists(m, balls[own[k]], Holes[h]);
      BallCandidatesComplete(m, leg, balls, own, k, h);
    }
    if Candidates(m, leg, order, balls) != [] {
      var c := Candidates(m, leg, order, balls)[0];
      BallCandidatesSound(m, leg, balls, own, c);
    }
  }

  // ---------------------------------------------------------------------------
  // Fallback shot

  /** The distance `best_d` starts from: a ball this far away or farther is never
      chosen. */
  const FarAway: real := 1000000000.0

  /** The state of the fallback loop: the chosen slot and its distance. */
  datatype Nearest = Nearest(best: Option<int>, bestD: real)

  /** The fallback loop's state after the own slots `own`: a ball replaces the current
      choice only when it is on the table and strictly nearer. */
  function NearestOwn(m: MathLib, balls: Balls, own: seq<int>): Nearest
    requires forall k :: 0 <= k < |own| ==> 1 <= own[k] < 6
  {
    if own == [] then Nearest(None, FarAway)
    else
      var acc := NearestOwn(m, balls, own[..|own| - 1]);
      var bi := own[|own| - 1];
      if balls[bi].x < 0.0 then acc
      else
        var d := Dist(m, balls[0], balls[bi]);
        if d < acc.bestD then Nearest(Some(bi), d) else acc
  }

  /** The chosen ball is an own ball on the table and `bestD` is its distance; no ball on
      the table is nearer; and nothing is chosen exactly when no own ball on the table
      is nearer than `FarAway`. */
  lemma {:induction false} NearestOwnProperties(m: MathLib, balls: Balls, own: seq<int>)
    requires forall k :: 0 <= k < |own| ==> 1 <= own[k] < 6
    ensures var r := NearestOwn(m, balls, own);
            && r.bestD <= FarAway
            && (r.best.None? ==> r.bestD == FarAway)
            && (r.best.Some? ==> r.best.value in own && 1 <= r.best.value < 6 && OnTable(balls[r.best.value])
                                 && r.bestD == Dist(m, balls[0], balls[r.best.value]))
            && (forall k :: 0 <= k < |own| && OnTable(balls[own[k]]) ==>
                  r.bestD <= Dist(m, balls[0], balls[own[k]]))
            && (r.best.None? <==> forall k :: 0 <= k < |own| && OnTable(balls[own[k]]) ==>
                  Dist(m, balls[0], balls[own[k]]) >= FarAway)
  {
    if own != [] {
      var init := own[..|own| - 1];
      NearestOwnProperties(m, balls, init);
      assert forall k :: 0 <= k < |own| - 1 ==> init[k] == own[k];
    }
  }

  /** The nearest-ball branch of the fallback is never reached from the decision: the
      fallback runs only when there is no candidate, and then no own ball is on the
      table, so the loop chooses nothing and the shot aims at the centre. */
  lemma FallbackAlwaysCentre(m: MathLib, leg: CueLeg, order: int, balls: Balls)
    requires ValidMath(m)
    ensures Candidates(m, leg, order, balls) == [] ==> NearestOwn(m, balls, OwnBalls(order)).best.None?
  {
    var own := OwnBalls(order);
    BestShotProperties(m, leg, order, balls);
    NearestOwnProperties(m, balls, own);
  }

  /** Ties go to the ball listed first: every ball on the table listed before the
      chosen one is strictly farther away. */
  lemma {:induction false} NearestOwnFirst(m: MathLib, balls: Balls, own: seq<int>, j: int, k: int)
    requires forall i :: 0 <= i < |own| ==> 1 <= own[i] < 6
    requires forall i, i' :: 0 <= i < i' < |own| ==> own[i] != own[i']
    requires 0 <= j < k < |own| && NearestOwn(m, balls, own).best == Some(own[k])
    requires OnTable(balls[own[j]])
    ensures Dist(m, balls[0], balls[own[j]]) > NearestOwn(m, balls, own).bestD
  {
    var init := own[..|own| - 1];
    var acc := NearestOwn(m, balls, init);
    assert forall i :: 0 <= i < |own| - 1 ==> init[i] == own[i];
    if NearestOwn(m, balls, own) == acc {
      NearestOwnProperties(m, balls, init);
      assert k < |own| - 1;
      NearestOwnFirst(m, balls, init, j, k);
    } else {
      assert k == |own| - 1;
      NearestOwnProperties(m, balls, init);
      assert acc.bestD <= Dist(m, balls[0], balls[init[j]]);
    }
  }

  /** The fallback power: 92% of the distance, clamped to [30, 90]. */
  function FallbackPower(d: real): (power: real)
    ensures 30.0 <= power <= 90.0
    ensures 30.0 <= d * 0.92 <= 90.0 ==> power == d * 0.92
  {
    Min(90.0, Max(30.0, d * 0.92))
  }

  /** The point the fallback aims at when the player has no ball on the table. */
  const TableCentre: Point := Point(TableWidth / 2.0, TableHeight / 2.0)

  /** `choose_fallback_attack_shot`: aim at the nearest own ball on the table (the first
      one listed among equally near ones), or at the table centre with power 60 when
      there is none. */
  method ChooseFallbackAttackShot(m: MathLib, order: int, balls: Balls) returns (angle: real, power: real)
    ensures var r := NearestOwn(m, balls, OwnBalls(order));
            && (r.best.None? ==> angle == AngleToGameDegree(m, balls[0], TableCentre) && power == 60.0)
            && (r.best.Some? ==> 1 <= r.best.value < 6
                                 && angle == AngleToGameDegree(m, balls[0], balls[r.best.value])
                                 && power == FallbackPower(r.bestD))
    ensures 30.0 <= power <= 90.0
  {
    var white := balls[0];
    var own := OwnBalls(order);
    var best: Option<int> := None;
    var bestD := FarAway;
    for b := 0 to |own|
      invariant NearestOwn(m, balls, own[..b]) == Nearest(best, bestD)
    {
      var bi := own[b];
      assert own[..b + 1][..b] == own[..b];
      var target := balls[bi];
      if target.x < 0.0 {
        continue;
      }
      var d := Dist(m, white, target);
      if d < bestD {
        bestD := d;
        best := Some(bi);
      }
    }
    assert own[..|own|] == own;
    NearestOwnProperties(m, balls, own);
    if best.None? {
      return AngleToGameDegree(m, white, TableCentre), 60.0;
    }
    angle := AngleToGameDegree(m, white, balls[best.value]);
    power := FallbackPower(bestD);
  }

  // ---------------------------------------------------------------------------
  // Power

  /** `power_from_distance`: 28 plus weighted cue-to-ghost and target-to-pocket
      distances, clamped to [24, 100]. */
  function PowerFromDistance(m: MathLib, white: Point, ghostBall: Point, target: Point, hole: Point): (power: real)
    ensures 24.0 <= power <= 100.0
  {
    var w2g := Dist(m, white, ghostBall);
    var t2h := Dist(m, target, hole);
    var base := 28.0 + w2g * 0.72 + t2h * 0.42;
    Max(24.0, Min(100.0, base))
  }

  /** Distances are never negative, so the base power is at least 28 and the lower
      clamp at 24 never takes effect; longer shots never get less power. */
  lemma PowerFromDistanceProperties(m: MathLib, white: Point, ghostBall: Point, target: Point, hole: Point,
                                    white': Point, ghostBall': Point, target': Point, hole': Point)
    requires ValidMath(m)
    ensures 28.0 <= PowerFromDistance(m, white, ghostBall, target, hole)
    ensures PowerFromDistance(m, white, ghostBall, target, hole)
              == Min(100.0, 28.0 + Dist(m, white, ghostBall) * 0.72 + Dist(m, target, hole) * 0.42)
    ensures Dist(m, white, ghostBall) <= Dist(m, white', ghostBall') && Dist(m, target, hole) <= Dist(m, target', hole') ==>
              PowerFromDistance(m, white, ghostBall, target, hole) <= PowerFromDistance(m, white', ghostBall', target', hole')
  {
    DistProperties(m, white, ghostBall);
    DistProperties(m, target, hole);
  }

  // ---------------------------------------------------------------------------
  // One decision

  /** The decision `play` takes for one table state: the best candidate's ghost
      position and its power, or the fallback when there is no candidate. The angle is
      a compass angle and the power lies in [24, 100]. Since a candidate exists
      whenever an own ball is on the table, the fallback only ever runs with none on
      the table, and then aims at the centre with power 60. The program's own decision
      is `leg == AsWritten`. */
  method PlanShot(m: MathLib, leg: CueLeg, order: int, balls: Balls) returns (angle: real, power: real)
    ensures ValidMath(m) ==> 0.0 <= angle < 360.0
    ensures 24.0 <= power <= 100.0
    ensures var cs := Candidates(m, leg, order, balls);
            cs != [] ==>
              exists k :: FirstMaximum(cs, k) && 1 <= cs[k].ball < 6
                && angle == AngleToGameDegree(m, balls[0], cs[k].ghostBall)
                && power == PowerFromDistance(m, balls[0], cs[k].ghostBall, balls[cs[k].ball], cs[k].hole)
    ensures var r := NearestOwn(m, balls, OwnBalls(order));
            Candidates(m, leg, order, balls) == [] ==>
              && (r.best.None? ==> angle == AngleToGameDegree(m, balls[0], TableCentre) && power == 60.0)
              && (r.best.Some? ==> 1 <= r.best.value < 6
                                   && angle == AngleToGameDegree(m, balls[0], balls[r.best.value])
                                   && power == FallbackPower(r.bestD))
    ensures ValidMath(m) ==>
              (Candidates(m, leg, order, balls) == [] <==> forall k :: 0 <= k < 3 ==> !OnTable(balls[OwnBalls(order)[k]]))
    ensures ValidMath(m) && (forall k :: 0 <= k < 3 ==> !OnTable(balls[OwnBalls(order)[k]])) ==>
              angle == AngleToGameDegree(m, balls[0], TableCentre) && power == 60.0
  {
    var best := ChooseBestShot(m, leg, order, balls);
    if ValidMath(m) {
      BestShotProperties(m, leg, order, balls);
    }
    if best.None? {
      angle, power := ChooseFallbackAttackShot(m, order, balls);
      if ValidMath(m) {
        NearestOwnProperties(m, balls, OwnBalls(order));
        AngleInRange(m, balls[0], TableCentre);
      }
    } else {
      var c := best.value;
      angle := AngleToGameDegree(m, balls[0], c.ghostBall);
      var targetIdx := c.ball;
      power := PowerFromDistance(m, balls[0], c.ghostBall, balls[targetIdx], c.hole);
      if ValidMath(m) {
        AngleInRange(m, balls[0], c.ghostBall);
      }
    }
  }
}
