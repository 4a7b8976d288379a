/**
 * `joypadPoseCallback` of src/main.cpp: a joystick twist message scaled into
 * the manual body-pose adjustment (roll, pitch, yaw and translation).
 */
module Joypad {
  import opened Geometry

  datatype Twist = Twist(linear: Vec3, angular: Vec3)

  /** The globals rollJoy, pitchJoy, yawJoy, xJoy, yJoy and zJoy. */
  datatype PoseAdjustment = PoseAdjustment(roll: real, pitch: real, yaw: real, x: real, y: real, z: real)

  const ROLL_GAIN: real := 0.075
  const PITCH_GAIN: real := -0.075
  const YAW_GAIN: real := 0.2
  const TRANSLATION_GAIN: real := 0.05

  /**
   * The joystick twist scaled by the fixed gains. No information is lost:
   * every gain is non-zero, so dividing by the gains recovers the twist.
   */
  function PoseFromTwist(t: Twist): (r: PoseAdjustment)
    ensures TwistFromPose(r) == t
  {
    PoseAdjustment(t.angular.x * ROLL_GAIN, t.angular.y * PITCH_GAIN, t.angular.z * YAW_GAIN,
                   t.linear.x * TRANSLATION_GAIN, t.linear.y * TRANSLATION_GAIN, t.linear.z * TRANSLATION_GAIN)
  }

  /** The twist that a pose adjustment was scaled from. */
  function TwistFromPose(p: PoseAdjustment): Twist {
    Twist(Vec3(p.x / TRANSLATION_GAIN, p.y / TRANSLATION_GAIN, p.z / TRANSLATION_GAIN),
          Vec3(p.roll / ROLL_GAIN, p.pitch / PITCH_GAIN, p.yaw / YAW_GAIN))
  }

  /** Every pose adjustment is reached: scaling the recovered twist gives the adjustment back. */
  lemma TwistFromPoseInverse(p: PoseAdjustment)
    ensures PoseFromTwist(TwistFromPose(p)) == p
  {
  }

  /**
   * The scaling is linear: the adjustment for the sum of two twists is the
   * sum of their adjustments, and a full stick deflection of 1 gives roll
   * 0.075, pitch -0.075, yaw 0.2 and 0.05 of translation.
   */
  lemma PoseFromTwistLinear(a: Twist, b: Twist)
    ensures var p, q, r := PoseFromTwist(a), PoseFromTwist(b),
                           PoseFromTwist(Twist(Add(a.linear, b.linear), Add(a.angular, b.angular)));
            r == PoseAdjustment(p.roll + q.roll, p.pitch + q.pitch, p.yaw + q.yaw, p.x + q.x, p.y + q.y, p.z + q.z)
    ensures PoseFromTwist(Twist(Vec3(1.0, 1.0, 1.0), Vec3(1.0, 1.0, 1.0))) ==
              PoseAdjustment(0.075, -0.075, 0.2, 0.05, 0.05, 0.05)
  {
  }
}
