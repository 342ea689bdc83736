/** Whether a straight path between two points is blocked by an object ball. */
module Occlusion {
  import opened Geometry
  import opened Table

  /** A ball this close to either end of the path belongs to the shot itself. */
  const EndpointClearance: real := BallRadius * 1.05

  /** A ball whose centre is this close to the path blocks it. */
  const BlockingDistance: real := BallRadius * 2.15

  /** Object ball `i` blocks the path from a to b: it is not ignored, it is on the
      table, it is not next to either end, and the path passes within
      `BlockingDistance` of its centre. */
  predicate Blocks(m: MathLib, a: Point, b: Point, balls: Balls, ignore: set<int>, i: int)
    requires 0 <= i < 6
  {
    && i !in ignore
    && OnTable(balls[i])
    && !(Dist(m, a, balls[i]) < EndpointClearance || Dist(m, b, balls[i]) < EndpointClearance)
    && LinePointDistance(m, a, b, balls[i]) <= BlockingDistance
  }

  /** No object ball (slots 1..5) blocks the path; the cue ball's slot is never
      examined. */
  predicate PathClear(m: MathLib, a: Point, b: Point, balls: Balls, ignore: set<int>)
  {
    forall i :: 1 <= i < 6 ==> !Blocks(m, a, b, balls, ignore, i)
  }

  /** `is_path_clear`: scans slots 1..5 in order and reports a blocked path at the
      first blocking ball. */
  method IsPathClear(m: MathLib, a: Point, b: Point, balls: Balls, ignore: set<int>)
    returns (clear: bool)
    ensures clear <==> PathClear(m, a, b, balls, ignore)
    ensures !clear <==> exists i :: 1 <= i < 6 && Blocks(m, a, b, balls, ignore, i)
  {
    for i := 1 to 6
      invariant forall j :: 1 <= j < i ==> !Blocks(m, a, b, balls, ignore, j)
    {
      if i in ignore {
        continue;
      }
      var q := balls[i];
      if q.x < 0.0 {
        continue;
      }
      if Dist(m, a, q) < EndpointClearance || Dist(m, b, q) < EndpointClearance {
        continue;
      }
      if LinePointDistance(m, a, b, q) <= BlockingDistance {
        assert Blocks(m, a, b, balls, ignore, i);
        return false;
      }
    }
    return true;
  }

  /** The verdict does not depend on where the cue ball is, nor on any ignored ball. */
  lemma PathClearIgnoresSlots(m: MathLib, a: Point, b: Point, balls: Balls, other: Balls, ignore: set<int>)
    requires forall i :: 1 <= i < 6 && i !in ignore ==> balls[i] == other[i]
    ensures PathClear(m, a, b, balls, ignore) <==> PathClear(m, a, b, other, ignore)
  {
    forall i | 1 <= i < 6
      ensures Blocks(m, a, b, balls, ignore, i) == Blocks(m, a, b, other, ignore, i)
    {
      if i !in ignore {
        assert balls[i] == other[i];
      }
    }
  }

  /** Ignoring more balls can only turn a blocked path into a clear one. */
  lemma PathClearIgnoreMore(m: MathLib, a: Point, b: Point, balls: Balls, ignore: set<int>, more: set<int>)
    requires ignore <= more && PathClear(m, a, b, balls, ignore)
    ensures PathClear(m, a, b, balls, more)
  {
    forall i | 1 <= i < 6
      ensures !Blocks(m, a, b, balls, more, i)
    {
      assert !Blocks(m, a, b, balls, ignore, i);
    }
  }

  /** The verdict does not depend on the direction of the path. */
  lemma PathClearSymmetric(m: MathLib, a: Point, b: Point, balls: Balls, ignore: set<int>)
    requires ValidMath(m)
    ensures PathClear(m, a, b, balls, ignore) <==> PathClear(m, b, a, balls, ignore)
  {
    forall i | 1 <= i < 6
      ensures Blocks(m, a, b, balls, ignore, i) == Blocks(m, b, a, balls, ignore, i)
    {
      LinePointDistanceSymmetric(m, a, b, balls[i]);
    }
  }

  /** A table with no object ball on it never blocks a path. */
  lemma EmptyTableIsClear(m: MathLib, a: Point, b: Point, balls: Balls, ignore: set<int>)
    requires forall i :: 1 <= i < 6 ==> !OnTable(balls[i])
    ensures PathClear(m, a, b, balls, ignore)
  {}
}
