/**
 * The decision part of the tracker's control loop (ball_tracker.py, `run`):
 * from the white-pixel count and the stored centroid column, choose the
 * velocity command of one tick.
 */
module Control {
  import opened Wrappers

  /** geometry_msgs Vector3. */
  datatype Vector3 = Vector3(x: real, y: real, z: real)

  /** geometry_msgs Twist: linear and angular velocity in the robot's body frame. */
  datatype Twist = Twist(linear: Vector3, angular: Vector3)

  const ZeroVector: Vector3 := Vector3(0.0, 0.0, 0.0)

  /** A freshly constructed `Twist()`: every component 0. */
  const ZeroTwist: Twist := Twist(ZeroVector, ZeroVector)

  /** Fewer white pixels than this is treated as "ball not seen". */
  const PixelThreshold: int := 20
  /** Spin rate about the vertical axis while searching. */
  const SearchRate: real := 0.5
  /** Forward speed while approaching. */
  const ForwardSpeed: real := 1.0
  /** Proportional steering gain. */
  const Gain: real := 0.005
  /** Reference column the ball is steered towards. */
  const CenterColumn: real := 300.0

  /** The command that spins in place to look for the ball. */
  const SearchTwist: Twist := Twist(ZeroVector, Vector3(0.0, 0.0, SearchRate))

  /** The command that drives forward while turning the ball towards the reference column. */
  function ApproachTwist(centerX: real): Twist {
    Twist(Vector3(ForwardSpeed, 0.0, 0.0), Vector3(0.0, 0.0, Gain * (CenterColumn - centerX)))
  }

  predicate IsSearch(t: Twist) {
    t == SearchTwist
  }

  /** Forward at the fixed speed, turning about the vertical axis only. */
  predicate IsApproach(t: Twist) {
    t.linear == Vector3(ForwardSpeed, 0.0, 0.0) && t.angular.x == 0.0 && t.angular.y == 0.0
  }

  /**
   * The Twist one tick publishes, given the number of white mask pixels and the
   * stored centroid column (None while `center_x` has never been set).
   * Precedence as in the source: search first, then approach, else the untouched `Twist()`.
   */
  function Command(whitePixels: int, centerX: Option<real>): Twist {
    if whitePixels < PixelThreshold then SearchTwist
    else if centerX.Some? then ApproachTwist(centerX.value)
    else ZeroTwist
  }

  /** Below 20 white pixels: no linear motion, spin at 0.5 about z, whatever the centroid. */
  lemma SearchBelowThreshold(whitePixels: int, centerX: Option<real>)
    requires whitePixels < 20
    ensures Command(whitePixels, centerX).linear == Vector3(0.0, 0.0, 0.0)
    ensures Command(whitePixels, centerX).angular == Vector3(0.0, 0.0, 0.5)
  {
  }

  /** At least 20 white pixels and a centroid: linear.x = 1, angular.z = 0.005 * (300 - centerX), all else 0. */
  lemma ApproachAboveThreshold(whitePixels: int, cx: real)
    requires whitePixels >= 20
    ensures Command(whitePixels, Some(cx)).linear == Vector3(1.0, 0.0, 0.0)
    ensures Command(whitePixels, Some(cx)).angular == Vector3(0.0, 0.0, 0.005 * (300.0 - cx))
  {
  }

  /**
   * While approaching, the robot turns left (positive z) exactly when the ball is
   * left of column 300, right exactly when it is right of it, and goes straight
   * exactly when it is on that column.
   */
  lemma ApproachSteersToCenter(whitePixels: int, cx: real)
    requires whitePixels >= PixelThreshold
    ensures Command(whitePixels, Some(cx)).angular.z == 0.0 <==> cx == CenterColumn
    ensures Command(whitePixels, Some(cx)).angular.z > 0.0 <==> cx < CenterColumn
    ensures Command(whitePixels, Some(cx)).angular.z < 0.0 <==> cx > CenterColumn
  {
  }

  /** The steering command strictly decreases as the centroid moves right, with slope -Gain. */
  lemma ApproachMonotone(whitePixels: int, cx1: real, cx2: real)
    requires whitePixels >= PixelThreshold
    requires cx1 < cx2
    ensures Command(whitePixels, Some(cx1)).angular.z > Command(whitePixels, Some(cx2)).angular.z
    ensures Command(whitePixels, Some(cx1)).angular.z - Command(whitePixels, Some(cx2)).angular.z
         == Gain * (cx2 - cx1)
  {
  }

  /** The untouched all-zero Twist is chosen exactly when the count is at least 20 and no centroid was ever stored. */
  lemma ZeroOnlyWithoutCentroid(whitePixels: int, centerX: Option<real>)
    ensures Command(whitePixels, centerX) == ZeroTwist <==> whitePixels >= PixelThreshold && centerX.None?
  {
  }

  /** Every command is one of the three regimes, and only linear.x and angular.z are ever non-zero. */
  lemma CommandIsPlanar(whitePixels: int, centerX: Option<real>)
    ensures var t := Command(whitePixels, centerX);
      IsSearch(t) || IsApproach(t) || t == ZeroTwist
    ensures var t := Command(whitePixels, centerX);
      t.linear.y == 0.0 && t.linear.z == 0.0 && t.angular.x == 0.0 && t.angular.y == 0.0
  {
  }

  /** 50 white pixels with the ball at column 250: forward at 1, turning left at 0.25. */
  lemma ApproachExample()
    ensures Command(50, Some(250.0)) == Twist(Vector3(1.0, 0.0, 0.0), Vector3(0.0, 0.0, 0.25))
  {
  }
}
