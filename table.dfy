/** The table: its size, the ball radius, the six pockets, the ball slots and the
    two players' ball sets. */
module Table {
  import opened Geometry

  const TableWidth: real := 254.0
  const TableHeight: real := 127.0
  const BallRadius: real := 2.865

  /** The six pockets: the four corners and the middle of each long rail. */
  const Holes: seq<Point> := [
    Point(0.0, 0.0), Point(127.0, 0.0), Point(254.0, 0.0),
    Point(0.0, 127.0), Point(127.0, 127.0), Point(254.0, 127.0)
  ]

  /** The positions of the six balls: slot 0 is the cue ball, slots 1..5 the object
      balls. A ball that has left the table has a negative x. */
  type Balls = s: seq<Point> | |s| == 6
    witness [Point(0.0, 0.0), Point(0.0, 0.0), Point(0.0, 0.0),
             Point(0.0, 0.0), Point(0.0, 0.0), Point(0.0, 0.0)]

  predicate OnTable(q: Point)
  {
    !(q.x < 0.0)
  }

  /** `inside_table`: both coordinates lie in the closed band `margin` away from the
      rails. */
  predicate InsideTable(q: Point, margin: real)
  {
    margin <= q.x <= TableWidth - margin && margin <= q.y <= TableHeight - margin
  }

  /** A larger margin only shrinks the region, and every pocket sits on the rim of the
      table (inside with margin 0, outside with any positive margin). */
  lemma InsideTableMonotone(q: Point, small: real, large: real)
    requires small <= large && InsideTable(q, large)
    ensures InsideTable(q, small)
  {}

  lemma HolesOnRim(k: nat, margin: real)
    requires k < |Holes|
    ensures InsideTable(Holes[k], 0.0)
    ensures margin > 0.0 ==> !InsideTable(Holes[k], margin)
  {}

  /** The ball slots of the player to move: 1, 3, 5 for the first player, 2, 4, 5 for
      the second; both sets end with slot 5. */
  function OwnBalls(order: int): (own: seq<int>)
    ensures |own| == 3 && own[2] == 5
    ensures forall k :: 0 <= k < |own| ==> 1 <= own[k] <= 5
    ensures forall j, k :: 0 <= j < k < |own| ==> own[j] != own[k]
    ensures order == 1 <==> 1 in own
    ensures order == 1 <==> 2 !in own
  {
    if order == 1 then [1, 3, 5] else [2, 4, 5]
  }
}
