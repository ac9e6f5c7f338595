/**
 * Normalisation of one SSL-Vision detection frame into team-relative field
 * coordinates (`assign_empty_values`).
 *
 * A decoded frame is a dictionary whose keys may be missing; every key that
 * may be missing is an `Option` here. Coordinates, field sizes and angles are
 * exact reals: floating-point rounding is not modelled.
 */
module Normalization {
  import opened Optional

  /** `math.pi`, the double closest to pi, as an exact real. */
  const Pi: real := 3.141592653589793

  /** Millimetres per metre: raw positions are millimetres, output positions metres. */
  const MillimetresPerMetre: real := 1000.0

  /** The x and y of the ball sentinel written when no ball is seen. */
  const NoBall: real := -1.0

  /** The side the team plays on; every `team_side` other than 'right' acts as Left. */
  datatype Side = Left | Right

  /** `field_size`: width and height of the field in metres. */
  datatype FieldSize = FieldSize(width: real, height: real)

  /** One entry of the `balls` list; `x`/`y` in millimetres, either may be missing. */
  datatype RawBall = RawBall(x: Option<real>, y: Option<real>)

  /** The `ball` entry of a normalised frame, in metres. */
  datatype Ball = Ball(x: real, y: real)

  /**
   * One robot dictionary of `robotsYellow` or `robotsBlue`. Raw robots may lack
   * any key; a normalised robot has all four (see `Complete`).
   */
  datatype Robot = Robot(robotId: Option<nat>, x: Option<real>, y: Option<real>, orientation: Option<real>)

  /**
   * The `detection` section. The same dictionary is the result of the
   * normalisation, with a `ball` key added and the robots rewritten, so the
   * previous normalised frame (`last_frame`) has this type as well.
   */
  datatype Detection = Detection(
    balls: Option<seq<RawBall>>,
    robotsYellow: Option<seq<Robot>>,
    robotsBlue: Option<seq<Robot>>,
    ball: Option<Ball>)

  /** A decoded wrapper packet; `detection` is missing in e.g. geometry-only packets. */
  datatype RawFrame = RawFrame(detection: Option<Detection>)

  /** All four keys of a robot are present. */
  predicate Complete(r: Robot)
  {
    r.robotId.Some? && r.x.Some? && r.y.Some? && r.orientation.Some?
  }

  /** Every robot of an optional robot list is complete. */
  predicate AllComplete(robots: Option<seq<Robot>>)
  {
    robots.Some? ==> forall i :: 0 <= i < |robots.value| ==> Complete(robots.value[i])
  }

  /** The shape of a frame this normalisation produces: a ball and complete robots. */
  predicate IsNormalizedFrame(d: Detection)
  {
    d.ball.Some? && AllComplete(d.robotsYellow) && AllComplete(d.robotsBlue)
  }

  /** Python truthiness of `frame.get('balls')`: the list is present and not empty. */
  predicate HasBalls(balls: Option<seq<RawBall>>)
  {
    balls.Some? && |balls.value| > 0
  }

  /**
   * Calling the normalisation on `raw` is defined: when a detection section
   * without balls is to reuse the last ball, `last_frame` must exist and hold
   * a `ball` (otherwise the source raises TypeError or KeyError).
   */
  predicate LastBallAvailable(raw: RawFrame, last: Option<Detection>, ballLp: bool)
  {
    (raw.detection.Some? && !HasBalls(raw.detection.value.balls) && ballLp) ==>
      last.Some? && last.value.ball.Some?
  }

  /** A raw coordinate in the frame of the team: mirrored on the right. */
  function Oriented(v: real, side: Side): real
  {
    if side == Right then -v else v
  }

  /**
   * A raw millimetre coordinate on an axis of length `extent` metres, in
   * metres, seen from `side`, with the field centre moved to `extent / 2`.
   */
  function ToField(mm: real, side: Side, extent: real): (r: real)
    ensures side == Left ==> (r - extent / 2.0) * MillimetresPerMetre == mm
    ensures side == Right ==> (r - extent / 2.0) * MillimetresPerMetre == -mm
  {
    Oriented(mm, side) / MillimetresPerMetre + extent / 2.0
  }

  /** A robot heading seen from `side`: turned by pi on the right. */
  function Heading(orientation: real, side: Side): real
  {
    if side == Right then orientation + Pi else orientation
  }

  /** The `ball` entry that the normalisation writes. */
  function BallOf(det: Detection, field: FieldSize, side: Side, last: Option<Detection>, ballLp: bool): (r: Ball)
    requires !HasBalls(det.balls) && ballLp ==> last.Some? && last.value.ball.Some?
    ensures HasBalls(det.balls) ==>
      (r.x - field.width / 2.0) * MillimetresPerMetre == Oriented(det.balls.value[0].x.GetOr(0.0), side) &&
      (r.y - field.height / 2.0) * MillimetresPerMetre == Oriented(det.balls.value[0].y.GetOr(0.0), side)
    ensures !HasBalls(det.balls) && ballLp ==> r == last.value.ball.value
    ensures !HasBalls(det.balls) && !ballLp ==> r == Ball(NoBall, NoBall)
  {
    if HasBalls(det.balls) then
      var b := det.balls.value[0];
      Ball(ToField(b.x.GetOr(0.0), side, field.width), ToField(b.y.GetOr(0.0), side, field.height))
    else if ballLp then
      last.value.ball.value
    else
      Ball(NoBall, NoBall)
  }

  /** One robot dictionary after the rewriting, missing keys defaulting to 0. */
  function NormalizeRobot(r: Robot, field: FieldSize, side: Side): (n: Robot)
    ensures Complete(n)
    ensures r.robotId.Some? ==> n.robotId == r.robotId
    ensures r.robotId.None? ==> n.robotId == Some(0)
  {
    Robot(
      Some(r.robotId.GetOr(0)),
      Some(ToField(r.x.GetOr(0.0), side, field.width)),
      Some(ToField(r.y.GetOr(0.0), side, field.height)),
      Some(Heading(r.orientation.GetOr(0.0), side)))
  }

  /** A robot list after the rewriting loop, robot by robot. */
  function NormalizeAll(robots: seq<Robot>, field: FieldSize, side: Side): (rs: seq<Robot>)
    ensures |rs| == |robots|
    ensures forall i :: 0 <= i < |rs| ==> rs[i] == NormalizeRobot(robots[i], field, side)
  {
    seq(|robots|, i requires 0 <= i < |robots| => NormalizeRobot(robots[i], field, side))
  }

  /** A missing robot list stays missing; a present one is rewritten. */
  function NormalizeList(robots: Option<seq<Robot>>, field: FieldSize, side: Side): (r: Option<seq<Robot>>)
    ensures r.Some? <==> robots.Some?
    ensures AllComplete(r)
  {
    match robots
    case None => None
    case Some(rs) => Some(NormalizeAll(rs, field, side))
  }

  /**
   * The result of `assign_empty_values(raw_frame, field_size, team_side,
   * last_frame, ball_lp)`.
   */
  function Normalized(raw: RawFrame, field: FieldSize, side: Side, last: Option<Detection>, ballLp: bool): (r: Option<Detection>)
    requires LastBallAvailable(raw, last, ballLp)
    ensures raw.detection.None? ==> r == last
    ensures raw.detection.Some? ==> r.Some? && IsNormalizedFrame(r.value)
    ensures raw.detection.Some? ==> r.value.balls == raw.detection.value.balls
    ensures raw.detection.Some? ==>
      (r.value.robotsYellow.Some? <==> raw.detection.value.robotsYellow.Some?) &&
      (r.value.robotsBlue.Some? <==> raw.detection.value.robotsBlue.Some?)
  {
    match raw.detection
    case None => last
    case Some(det) =>
      Some(det.(
        ball := Some(BallOf(det, field, side, last, ballLp)),
        robotsYellow := NormalizeList(det.robotsYellow, field, side),
        robotsBlue := NormalizeList(det.robotsBlue, field, side)))
  }

  /** The rewriting loop over one robot list, robot dictionaries updated in place. */
  method NormalizeRobots(robots: array<Robot>, field: FieldSize, side: Side)
    modifies robots
    ensures robots[..] == NormalizeAll(old(robots[..]), field, side)
  {
    for i := 0 to robots.Length
      invariant forall k :: 0 <= k < i ==> robots[k] == NormalizeRobot(old(robots[k]), field, side)
      invariant forall k :: i <= k < robots.Length ==> robots[k] == old(robots[k])
    {
      var robot := robots[i];
      if side == Right {
        robot := robot.(
          x := Some(-robot.x.GetOr(0.0)),
          y := Some(-robot.y.GetOr(0.0)),
          orientation := Some(robot.orientation.GetOr(0.0) + Pi));
      }
      robot := robot.(
        x := Some(robot.x.GetOr(0.0) / MillimetresPerMetre + field.width / 2.0),
        y := Some(robot.y.GetOr(0.0) / MillimetresPerMetre + field.height / 2.0),
        robotId := Some(robot.robotId.GetOr(0)),
        orientation := Some(robot.orientation.GetOr(0.0)));
      robots[i] := robot;
    }
  }

  /** `for robot in frame.get(key, [])`: a missing list is left missing. */
  method RewriteRobotList(robots: Option<seq<Robot>>, field: FieldSize, side: Side) returns (r: Option<seq<Robot>>)
    ensures r == NormalizeList(robots, field, side)
  {
    if robots.None? {
      return None;
    }
    var rs := robots.value;
    var a := new Robot[|rs|](i requires 0 <= i < |rs| => rs[i]);
    assert a[..] == rs;
    NormalizeRobots(a, field, side);
    return Some(a[..]);
  }

  /**
   * `assign_empty_values`: the detection section with the ball entry written
   * and both robot lists rewritten, or `last_frame` when there is no
   * detection section.
   */
  method AssignEmptyValues(raw: RawFrame, field: FieldSize, side: Side, last: Option<Detection>, ballLp: bool)
    returns (r: Option<Detection>)
    requires LastBallAvailable(raw, last, ballLp)
    ensures r == Normalized(raw, field, side, last, ballLp)
  {
    if raw.detection.None? {
      return last;
    }
    var frame := raw.detection.value;
    var w, h := field.width, field.height;

    var ball: Ball;
    if HasBalls(frame.balls) {
      var x := frame.balls.value[0].x.GetOr(0.0);
      var y := frame.balls.value[0].y.GetOr(0.0);
      if side == Right {
        x, y := -x, -y;
      }
      ball := Ball(x / MillimetresPerMetre + w / 2.0, y / MillimetresPerMetre + h / 2.0);
    } else if ballLp {
      ball := last.value.ball.value;
    } else {
      ball := Ball(NoBall, NoBall);
    }
    frame := frame.(ball := Some(ball));

    var yellow := RewriteRobotList(frame.robotsYellow, field, side);
    var blue := RewriteRobotList(frame.robotsBlue, field, side);
    r := Some(frame.(robotsYellow := yellow, robotsBlue := blue));
  }

  // ---------------------------------------------------------------------
  // Properties of the normalisation
  // ---------------------------------------------------------------------

  /** With balls in view on the left, the first ball is scaled to metres and shifted by half the field. */
  lemma LeftBallScaled(raw: RawFrame, field: FieldSize, last: Option<Detection>, ballLp: bool)
    requires raw.detection.Some? && HasBalls(raw.detection.value.balls)
    ensures
      var b := raw.detection.value.balls.value[0];
      Normalized(raw, field, Left, last, ballLp).value.ball ==
        Some(Ball(b.x.GetOr(0.0) / 1000.0 + field.width / 2.0, b.y.GetOr(0.0) / 1000.0 + field.height / 2.0))
  {
  }

  /** On the right the first ball is negated before scaling: both sides add up to the field size. */
  lemma BallMirror(raw: RawFrame, field: FieldSize, last: Option<Detection>, ballLp: bool)
    requires raw.detection.Some? && HasBalls(raw.detection.value.balls)
    ensures
      var l := Normalized(raw, field, Left, last, ballLp).value.ball.value;
      var r := Normalized(raw, field, Right, last, ballLp).value.ball.value;
      var b := raw.detection.value.balls.value[0];
      r == Ball(-b.x.GetOr(0.0) / 1000.0 + field.width / 2.0, -b.y.GetOr(0.0) / 1000.0 + field.height / 2.0) &&
      l.x + r.x == field.width && l.y + r.y == field.height
  {
  }

  /** Only the first ball of the list is used. */
  lemma OnlyFirstBallCounts(det: Detection, rest: seq<RawBall>, field: FieldSize, side: Side, last: Option<Detection>, ballLp: bool)
    requires HasBalls(det.balls)
    ensures BallOf(det.(balls := Some(det.balls.value[..1] + rest)), field, side, last, ballLp)
         == BallOf(det, field, side, last, ballLp)
  {
  }

  /** No ball (list missing or empty) and no reuse of the last ball: the sentinel (-1, -1). */
  lemma MissingBallSentinel(raw: RawFrame, field: FieldSize, side: Side, last: Option<Detection>)
    requires raw.detection.Some? && !HasBalls(raw.detection.value.balls)
    ensures Normalized(raw, field, side, last, false).value.ball == Some(Ball(-1.0, -1.0))
  {
  }

  /** No ball and `ball_lp`: the ball of `last_frame` is carried over unchanged. */
  lemma MissingBallCarriedOver(raw: RawFrame, field: FieldSize, side: Side, last: Option<Detection>)
    requires raw.detection.Some? && !HasBalls(raw.detection.value.balls)
    requires last.Some? && last.value.ball.Some?
    ensures Normalized(raw, field, side, last, true).value.ball == last.value.ball
  {
  }

  /**
   * The per-robot rule: id defaults to 0, position scaled and shifted after
   * negation on the right, orientation kept on the left and turned by pi on
   * the right, every missing key read as 0.
   */
  lemma RobotRule(r: Robot, field: FieldSize)
    ensures
      var n := NormalizeRobot(r, field, Left);
      n == Robot(Some(r.robotId.GetOr(0)),
                 Some(r.x.GetOr(0.0) / 1000.0 + field.width / 2.0),
                 Some(r.y.GetOr(0.0) / 1000.0 + field.height / 2.0),
                 Some(r.orientation.GetOr(0.0)))
    ensures
      var n := NormalizeRobot(r, field, Right);
      n == Robot(Some(r.robotId.GetOr(0)),
                 Some(-r.x.GetOr(0.0) / 1000.0 + field.width / 2.0),
                 Some(-r.y.GetOr(0.0) / 1000.0 + field.height / 2.0),
                 Some(r.orientation.GetOr(0.0) + Pi))
  {
  }

  /** A robot seen from the right is the robot seen from the left, mirrored through the field centre. */
  lemma RobotMirror(r: Robot, field: FieldSize)
    ensures
      var nl := NormalizeRobot(r, field, Left);
      var nr := NormalizeRobot(r, field, Right);
      nr.robotId == nl.robotId &&
      nl.x.value + nr.x.value == field.width &&
      nl.y.value + nr.y.value == field.height &&
      nr.orientation.value == nl.orientation.value + Pi
  {
  }

  /** Mirror relation between two robot lists, index by index. */
  predicate MirroredList(left: Option<seq<Robot>>, right: Option<seq<Robot>>, field: FieldSize)
    requires AllComplete(left) && AllComplete(right)
  {
    (left.Some? <==> right.Some?) &&
    (left.Some? ==>
      |left.value| == |right.value| &&
      forall i :: 0 <= i < |left.value| ==>
        right.value[i].robotId == left.value[i].robotId &&
        left.value[i].x.value + right.value[i].x.value == field.width &&
        left.value[i].y.value + right.value[i].y.value == field.height &&
        right.value[i].orientation.value == left.value[i].orientation.value + Pi)
  }

  /**
   * Left/right symmetry of a whole frame: the same raw frame normalised for
   * both sides gives mirrored robots of both colours, a mirrored first ball,
   * and the same fallback ball when there is none.
   */
  lemma FrameMirror(raw: RawFrame, field: FieldSize, last: Option<Detection>, ballLp: bool)
    requires raw.detection.Some? && LastBallAvailable(raw, last, ballLp)
    ensures
      var l := Normalized(raw, field, Left, last, ballLp).value;
      var r := Normalized(raw, field, Right, last, ballLp).value;
      MirroredList(l.robotsYellow, r.robotsYellow, field) &&
      MirroredList(l.robotsBlue, r.robotsBlue, field) &&
      (HasBalls(raw.detection.value.balls) ==>
        l.ball.value.x + r.ball.value.x == field.width && l.ball.value.y + r.ball.value.y == field.height) &&
      (!HasBalls(raw.detection.value.balls) ==> l.ball == r.ball)
  {
  }

  /** Yellow and blue are handled alike: swapping the colours swaps the outputs. */
  lemma ColoursSwapped(det: Detection, field: FieldSize, side: Side, last: Option<Detection>, ballLp: bool)
    requires LastBallAvailable(RawFrame(Some(det)), last, ballLp)
    ensures
      var swapped := det.(robotsYellow := det.robotsBlue, robotsBlue := det.robotsYellow);
      var a := Normalized(RawFrame(Some(det)), field, side, last, ballLp).value;
      var b := Normalized(RawFrame(Some(swapped)), field, side, last, ballLp).value;
      b.robotsYellow == a.robotsBlue && b.robotsBlue == a.robotsYellow && b.ball == a.ball
  {
  }

  /**
   * Each colour's output depends only on that colour's raw list: replacing
   * one list leaves the other colour's output and the ball unchanged.
   */
  lemma ColoursIndependent(det: Detection, robots: Option<seq<Robot>>, field: FieldSize, side: Side, last: Option<Detection>, ballLp: bool)
    requires LastBallAvailable(RawFrame(Some(det)), last, ballLp)
    ensures
      var a := Normalized(RawFrame(Some(det)), field, side, last, ballLp).value;
      var y := Normalized(RawFrame(Some(det.(robotsYellow := robots))), field, side, last, ballLp).value;
      var b := Normalized(RawFrame(Some(det.(robotsBlue := robots))), field, side, last, ballLp).value;
      y.robotsBlue == a.robotsBlue && y.ball == a.ball &&
      y.robotsYellow == NormalizeList(robots, field, side) &&
      b.robotsYellow == a.robotsYellow && b.ball == a.ball &&
      b.robotsBlue == NormalizeList(robots, field, side)
  {
  }

  /**
   * Feeding each result back as `last_frame` is always defined once a frame
   * exists: the result is again a normalised frame (or the unchanged previous
   * one), and a normalised `last_frame` satisfies the next call's requirement.
   */
  lemma ResultFeedsNextCall(raw: RawFrame, next: RawFrame, field: FieldSize, side: Side, last: Option<Detection>, ballLp: bool)
    requires LastBallAvailable(raw, last, ballLp)
    requires last.Some? ==> IsNormalizedFrame(last.value)
    ensures
      var r := Normalized(raw, field, side, last, ballLp);
      (r.Some? ==> IsNormalizedFrame(r.value)) &&
      (r.Some? ==> LastBallAvailable(next, r, ballLp))
  {
  }

  /** A ball at (1000, 2000) mm on a 9 x 6 m field, playing left, lands at (5.5, 5.0). */
  lemma ScalingExample()
    ensures
      var raw := RawFrame(Some(Detection(Some([RawBall(Some(1000.0), Some(2000.0))]), None, None, None)));
      Normalized(raw, FieldSize(9.0, 6.0), Left, None, false).value.ball == Some(Ball(5.5, 5.0))
  {
  }

  /** Yellow robot 3 at (500, 500) mm heading 0.5, playing right on a 9 x 6 m field. */
  lemma OrientationFlipExample()
    ensures
      var robot := Robot(Some(3), Some(500.0), Some(500.0), Some(0.5));
      var raw := RawFrame(Some(Detection(None, Some([robot]), None, None)));
      Normalized(raw, FieldSize(9.0, 6.0), Right, None, false).value.robotsYellow ==
        Some([Robot(Some(3), Some(4.0), Some(2.5), Some(0.5 + Pi))])
  {
    var robot := Robot(Some(3), Some(500.0), Some(500.0), Some(0.5));
    var out := NormalizeAll([robot], FieldSize(9.0, 6.0), Right);
    assert out[0] == Robot(Some(3), Some(4.0), Some(2.5), Some(0.5 + Pi));
    assert out == [out[0]];
  }
}
