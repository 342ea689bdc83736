# Billiards shot planner, modelled in Dafny

This project models the shot-planning core of `billiards_champion_bot.py`. The bot
is told where six balls lie: slot 0 is the cue ball and slots 1..5 the object balls,
and a ball off the table has a negative x. It must answer with a stroke angle and a
stroke power. The core has these parts:

- **Geometry.** Distance, the compass angle (0 degrees north, growing clockwise), the
  distance from a point to a segment, and the table bounds test.
- **Ghost ball.** The ghost-ball position: where the cue ball must be at impact to send
  a target ball towards a pocket.
- **Occlusion.** The test that decides whether a straight path is blocked by an object
  ball.
- **Scoring.** The score of a (target ball, pocket) shot.
- **Selection.** The choice of the best shot. When there is no candidate, the fallback
  aims at the nearest own ball, or at the table centre with power 60 when none is on
  the table. A candidate exists whenever an own ball is on the table, because shots
  scored with the -1e9 sentinel are still listed (billiards_champion_bot.py:146). So the decision only
  ever takes the centre branch.
- **Power.** The stroke power.

Numbers are Dafny `real`s. The library routines `math.hypot` and
`math.degrees(math.atan2(..))` are passed in as a `MathLib` value. The facts the
proofs use about them are collected in `Geometry.ValidMath`:

- hypot is non-negative, squares to the sum of squares, and is zero only for the zero
  vector;
- atan2-in-degrees lies in (-180, 180], gives 0 at the origin, and gives the compass
  values on the four half-axes.

Modules follow the structure of the program:

| module | file | contents |
|---|---|---|
| `RealFacts` | real_facts.dfy | small real-arithmetic facts used by the proofs |
| `Geometry` | geometry.dfy | `dist`, `angle_to_game_degree`, `line_point_distance` |
| `Table` | table.dfy | table constants, pockets, `inside_table`, own ball sets |
| `Aim` | aim.dfy | `ghost_ball_position` |
| `Occlusion` | occlusion.dfy | `is_path_clear` |
| `Scoring` | scoring.dfy | `shot_score`, as written and corrected |
| `Planner` | planner.dfy | `choose_best_shot`, `choose_fallback_attack_shot`, `power_from_distance`, and the decision taken for one table state |

`shot_score` and everything that uses it take a `CueLeg` policy. `AsWritten` checks
the cue-ball leg ignoring only the cue ball's slot, as the program does. `Corrected`
also ignores the target's slot (see Findings). `Planner.PlanShot` with `AsWritten` is
the program's own decision.

`is_path_clear`, `choose_best_shot` and `choose_fallback_attack_shot` are loops in the
source. Each is a method with loop invariants, proved against a specification
function: `PathClear`, `Candidates` with `FirstMaximum`, and `NearestOwn`. The
straight-line routines are functions, and lemmas state their properties.

## Model

| member | source | states |
|---|---|---|
| `Geometry.DistProperties` | billiards_champion_bot.py:21-22 | the distance is non-negative, squares to the squared distance, is zero exactly between equal points, and is symmetric |
| `Geometry.SquaredDistZero` | billiards_champion_bot.py:42-44 | the squared segment length `ab2` is zero exactly when the two ends coincide |
| `Geometry.AngleInRange` | billiards_champion_bot.py:25-33 | the game angle lies in [0, 360); it equals the library angle when that is non-negative, and the library angle plus 360 otherwise |
| `Geometry.AngleCompass` | billiards_champion_bot.py:25-33 | north is 0, east 90, south 180, west 270; a zero-length direction gives 0 |
| `Geometry.LinePointDistanceCases` | billiards_champion_bot.py:36-52 | the three cases: the distance to A when the segment is degenerate or t <= 0; the distance to B when t >= 1; otherwise the distance to the interior foot of the perpendicular |
| `Geometry.LinePointDistanceMinimal` | billiards_champion_bot.py:36-52 | the result is the minimum distance between P and segment AB: no point of the segment is nearer to P, and some point of the segment is exactly that far |
| `Geometry.LinePointDistanceAtMostEnds` | billiards_champion_bot.py:36-52 | the segment distance is non-negative and never exceeds the distance from P to either end |
| `Geometry.LinePointDistanceSymmetric` | billiards_champion_bot.py:36-52 | the segment distance is the same for the segment AB and the segment BA |
| `Table.InsideTableMonotone` | billiards_champion_bot.py:55-56 | a point inside with a larger margin is inside with any smaller one |
| `Table.HolesOnRim` | billiards_champion_bot.py:18 | every pocket lies on the table's rim: inside with margin 0, outside with any positive margin |
| `Table.OwnBalls` | billiards_champion_bot.py:133 | the own set is three distinct slots in 1..5 ending with 5; it holds 1 (and not 2) exactly when `order == 1` |
| `Aim.GhostExists` | billiards_champion_bot.py:76-82 | there is a ghost position exactly when the target is not on the pocket |
| `Aim.GhostTouchesTarget` | billiards_champion_bot.py:76-87 | the ghost centre is exactly 2R from the target, directly opposite the pocket: its offset has dot product -2R times the target-to-pocket distance with the pocket direction |
| `Aim.GhostOffset` | billiards_champion_bot.py:80-86 | the unit vector scaled by c has length c and dot product c times the norm with the original vector |
| `Occlusion.IsPathClear` | billiards_champion_bot.py:59-73 | returns true exactly when no slot in 1..5 blocks the path. A slot blocks when it is not ignored, its ball is on the table, the ball is not within 1.05R of either end, and it is within 2.15R of the segment; otherwise some slot does block |
| `Occlusion.PathClearIgnoresSlots` | billiards_champion_bot.py:62-67 | the verdict depends neither on the cue ball's slot nor on any ignored slot |
| `Occlusion.PathClearIgnoreMore` | billiards_champion_bot.py:63-64 | ignoring more slots never turns a clear path into a blocked one |
| `Occlusion.PathClearSymmetric` | billiards_champion_bot.py:59-73 | a path from A to B is clear exactly when the path from B to A is clear |
| `Occlusion.EmptyTableIsClear` | billiards_champion_bot.py:65-67 | with every object ball off the table, every path is clear |
| `Scoring.ShotScoreSentinel` | billiards_champion_bot.py:96-108 | the score is -1e9 when the ghost is not within the closed band 0.6R inside the rails, or when the cue ball is on the ghost or on the target |
| `Scoring.CueLegBlockedByTarget` | billiards_champion_bot.py:111 | as written, the cue-ball leg of every shot is reported blocked by the target ball itself, unless the cue ball is within 1.05R of the target |
| `Scoring.LoneTargetExample` | billiards_champion_bot.py:111 | on a table holding only the cue ball and one object ball, the as-written cue-ball leg is blocked and the corrected one is clear |
| `Scoring.CorrectedCueLegBlockedOnlyByOthers` | billiards_champion_bot.py:111 | corrected, the cue-ball leg is reported blocked only when a ball other than the target is on the table within 2.15R of the path |
| `Scoring.CorrectionScoreGap` | billiards_champion_bot.py:111-116 | for a shot that is not a sentinel case (the ghost inside the 0.6R band, the cue ball on neither the ghost nor the target) with the cue ball at least 1.05R from the target, and when nothing else is in the way, the score with the corrected cue-ball leg exceeds the as-written one by the full clearance swing, 2800 |
| `Planner.CollectCandidates` | billiards_champion_bot.py:135-146 | the outer loop builds exactly the candidate list `Candidates`: own slots in order, balls off the table skipped, and for each ball the entries of the inner loop |
| `Planner.CollectHoleCandidates` | billiards_champion_bot.py:141-146 | the inner loop builds exactly `HoleCandidates` for the target slot: the pockets in order, one entry per pocket that has a ghost position, carrying that shot's score |
| `Planner.ChooseBestShot` | billiards_champion_bot.py:131-152 | returns None exactly when the candidate list is empty. Otherwise it returns the first candidate of maximum score (the head of the list after a stable sort, highest first). Its target is an own ball on the table, and no shot at an own ball on the table into a pocket that has a ghost position scores higher |
| `Planner.BestScoresHighest` | billiards_champion_bot.py:136-152 | the first maximum of the candidate list scores at least as high as every shot at an own ball on the table into a pocket that has a ghost position |
| `Planner.HoleCandidatesSound` | billiards_champion_bot.py:141-146 | a candidate for a ball aims that ball at one of the pockets, from its ghost position, and carries that shot's score |
| `Planner.BallCandidatesSound` | billiards_champion_bot.py:136-146 | every candidate aims an own ball that is on the table at a pocket from its ghost position, with that shot's score |
| `Planner.HoleCandidatesComplete` | billiards_champion_bot.py:141-146 | for every pocket that has a ghost position, the ball's list holds a candidate aiming it at that pocket from that ghost position |
| `Planner.BallCandidatesComplete` | billiards_champion_bot.py:136-146 | for every own ball on the table and every pocket that has a ghost position, the list holds a candidate aiming that ball at that pocket from that ghost position |
| `Planner.BestShotProperties` | billiards_champion_bot.py:133-149 | `choose_best_shot` finds no candidate exactly when none of the player's balls is on the table. The candidates are exactly the shots at an own ball on the table into a pocket it does not sit on: every candidate is such a shot, and every such shot has a candidate |
| `Planner.NearestOwnProperties` | billiards_champion_bot.py:158-171 | the fallback picks an own ball on the table at minimum distance from the cue ball. It picks none exactly when no own ball on the table is nearer than 1e9 |
| `Planner.NearestOwnFirst` | billiards_champion_bot.py:162-169 | ties go to the ball listed first: every own ball on the table listed earlier is strictly farther |
| `Planner.FallbackPower` | billiards_champion_bot.py:177 | the fallback power lies in [30, 90] and is 0.92 times the distance when that is in range |
| `Planner.FallbackAlwaysCentre` | billiards_champion_bot.py:226-228 | under the library facts, when the candidate list is empty the fallback's loop chooses no ball, so its nearest-ball branch (lines 162-169, 175-178) is never reached from the decision |
| `Planner.ChooseFallbackAttackShot` | billiards_champion_bot.py:155-178 | with no own ball chosen it aims at the table centre (127, 63.5) with power 60. Otherwise it aims at the chosen ball with the clamped power. The power is always in [30, 90] |
| `Planner.PowerFromDistance` | billiards_champion_bot.py:181-185 | the power lies in [24, 100] whatever the distances |
| `Planner.PowerFromDistanceProperties` | billiards_champion_bot.py:181-185 | the power is at least 28, so the floor of 24 never takes effect; it is 28 + 0.72 w2g + 0.42 t2h capped at 100, and never decreases as either distance grows |
| `Planner.PlanShot` | billiards_champion_bot.py:226-234 | the decision for one table state has an angle in [0, 360) and a power in [24, 100]. With a candidate, the angle and power come from the first candidate of maximum score: the angle towards its ghost position, and the power from its distances. With none, they are the fallback's. Under the library facts there is no candidate exactly when no own ball is on the table, and then it aims at the centre with power 60 |

## Left out

- `play()` (billiards_champion_bot.py:188-241) is left out: the socket exchange, splitting and parsing of the message, the order and close signals, and formatting and printing the reply are input/output. `Planner.PlanShot` models only the decision it takes for one table state (lines 226-234).
- Floating-point rounding is not modelled: all arithmetic is exact on reals. `math.hypot`, `math.atan2` and `math.degrees` are given only by the facts in `ValidMath`. The signed zero is not modelled: `atan2(-0.0, x)` gives -180 for negative x, which the fold at lines 31-32 turns into 180, as in the model. NaN inputs are not modelled.
- `Geometry.AngleInRange` and `Planner.PlanShot`: the bound [0, 360) holds over reals only. In doubles, a library angle in about (-2.9e-14, 0) degrees folds to exactly 360.0, because adding 360 rounds to 360 (half an ulp of 360 is about 2.8e-14).
- The weights of `shot_score` (lines 114-126) are modelled as written, but the model makes no claim about the quality of the ranking they produce.
- `Scoring.ShotScoreSentinel`: states only that the two sentinel cases give -1e9. The converse is not stated, because an ordinary score could in principle equal -1e9.
- The candidate list of `choose_best_shot` is reduced to its first maximum instead of being sorted, since only the head of the sorted list is used.
- `choose_fallback_attack_shot` keeps the coordinates of the chosen ball; the model keeps its slot number, which determines the same coordinates.

## Findings

| source | as written | input that shows it | evidently intended | confidence | as-written member | corrected member |
|---|---|---|---|---|---|---|
| billiards_champion_bot.py:111 | The cue-ball leg is checked with `ignore_idxs={0}`. The target ball is then examined as an obstacle. It lies 2R from the ghost, farther than the 1.05R end exclusion, and within 2R of the segment, which is inside the 2.15R limit. So every shot is scored as blocked (-1200), and real obstacles on the cue-ball leg are never told apart | cue ball at (50, 63.5), ball 1 at (100, 63.5), balls 2..5 off the table, pocket (127, 127): the cue-ball leg is reported blocked on an otherwise empty table | the cue-ball leg ignores the target's own slot, `{0, bi}` | high; not executed | `Scoring.LoneTargetExample` | `Scoring.CorrectedCueLegBlockedOnlyByOthers` |
