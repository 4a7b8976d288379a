/**
 * Move-to-start of src/main.cpp: the six legs' start angles are read from the
 * 18 received joint positions (leg-major, left side first, coxa/femur/tibia),
 * with the left side's direction mirrored; the motor-command loop of the main
 * loop turns a leg's yaw, lift and knee angles back into joint positions.
 */
module MoveToStart {
  import opened Geometry
  import JointStates

  const LEG_PAIRS: nat := 3
  const SIDES: nat := 2

  /** `dir`: -1 on the left side (side 0), +1 on the right. */
  function Direction(side: nat): (d: real)
    requires side < SIDES
    ensures d * d == 1.0 && (d == 1.0 <==> side == 1)
  {
    if side == 0 then -1.0 else 1.0
  }

  /** `index`: the slot of a leg's coxa joint; femur and tibia follow it. */
  function StartIndex(leg: nat, side: nat): (i: nat)
    requires leg < LEG_PAIRS && side < SIDES
    ensures i + 2 < JointStates.JOINT_COUNT
  {
    leg * 6 + (if side == 0 then 0 else 3)
  }

  /** Different legs, sides or joints never share a slot. */
  lemma StartIndexInjective(leg1: nat, side1: nat, j1: nat, leg2: nat, side2: nat, j2: nat)
    requires leg1 < LEG_PAIRS && side1 < SIDES && j1 < 3
    requires leg2 < LEG_PAIRS && side2 < SIDES && j2 < 3
    requires StartIndex(leg1, side1) + j1 == StartIndex(leg2, side2) + j2
    ensures leg1 == leg2 && side1 == side2 && j1 == j2
  {
  }

  /** Every one of the 18 slots is read: slot s is joint s % 3 of side (s % 6) / 3 of leg pair s / 6. */
  lemma StartIndexCovers(s: nat)
    requires s < JointStates.JOINT_COUNT
    ensures s / 6 < LEG_PAIRS && (s % 6) / 3 < SIDES
    ensures StartIndex(s / 6, (s % 6) / 3) + s % 3 == s
  {
  }

  /**
   * The slots a leg reads are the ones the joint-state table names after it:
   * their short names start with A, B or C for the leg pair and L or R for
   * the side.
   */
  lemma StartIndexMatchesNames(leg: nat, side: nat, j: nat)
    requires leg < LEG_PAIRS && side < SIDES && j < 3
    ensures var name := JointStates.ALIASES[StartIndex(leg, side) + j].1;
            |name| > 2 && name[0] == "ABC"[leg] && name[1] == "LR"[side]
  {
    var s := StartIndex(leg, side) + j;
    if s < 6 {
      if s == 0 {} else if s == 1 {} else if s == 2 {} else if s == 3 {} else if s == 4 {}
    } else if s < 12 {
      if s == 6 {} else if s == 7 {} else if s == 8 {} else if s == 9 {} else if s == 10 {}
    } else {
      if s == 12 {} else if s == 13 {} else if s == 14 {} else if s == 15 {} else if s == 16 {}
    }
  }

  /**
   * The argument of `setLegStartAngles`: dir * (coxa + dir * stanceYaw,
   * -femur, tibia), as yaw, lift and knee angles. Converting them back into
   * joint positions, as the main loop does, gives the received positions.
   */
  function StartAngles(positions: seq<real>, stanceYaw: real, leg: nat, side: nat): (r: Vec3)
    requires |positions| == JointStates.JOINT_COUNT && leg < LEG_PAIRS && side < SIDES
    ensures var i := StartIndex(leg, side);
            JointAngles(r, stanceYaw, side) == Vec3(positions[i], positions[i + 1], positions[i + 2])
  {
    var dir, i := Direction(side), StartIndex(leg, side);
    assert dir * (dir * positions[i]) == (dir * dir) * positions[i];
    assert -dir * (dir * -positions[i + 1]) == (dir * dir) * positions[i + 1];
    assert dir * (dir * positions[i + 2]) == (dir * dir) * positions[i + 2];
    Vec3(dir * (positions[i] + dir * stanceYaw), dir * -positions[i + 1], dir * positions[i + 2])
  }

  /**
   * Joint positions from a leg's yaw, lift and knee angles, as the main loop
   * computes them: the yaw is taken relative to the stance yaw, and the
   * left side's coxa, femur and tibia turn the opposite way.
   */
  function JointAngles(angles: Vec3, stanceYaw: real, side: nat): (r: Vec3)
    requires side < SIDES
    ensures Direction(side) * r.x + stanceYaw == angles.x
    ensures -Direction(side) * r.y == angles.y
    ensures Direction(side) * r.z == angles.z
  {
    var dir := Direction(side);
    assert dir * (dir * angles.x) == (dir * dir) * angles.x;
    assert dir * (dir * stanceYaw) == (dir * dir) * stanceYaw;
    assert -dir * (-dir * angles.y) == (dir * dir) * angles.y;
    assert dir * (dir * angles.z) == (dir * dir) * angles.z;
    Vec3(dir * (angles.x - stanceYaw), -dir * angles.y, dir * angles.z)
  }

  /** Conversely, positions that encode a leg's angles give those angles back as its start angles. */
  lemma JointAnglesRoundTrip(positions: seq<real>, angles: Vec3, stanceYaw: real, leg: nat, side: nat)
    requires |positions| == JointStates.JOINT_COUNT && leg < LEG_PAIRS && side < SIDES
    requires var i := StartIndex(leg, side);
             Vec3(positions[i], positions[i + 1], positions[i + 2]) == JointAngles(angles, stanceYaw, side)
    ensures StartAngles(positions, stanceYaw, leg, side) == angles
  {
    var dir := Direction(side);
    assert dir * (dir * (angles.x - stanceYaw) + dir * stanceYaw) == (dir * dir) * angles.x;
    assert dir * -(-dir * angles.y) == (dir * dir) * angles.y;
    assert dir * (dir * angles.z) == (dir * dir) * angles.z;
  }

  /**
   * The nested loop over leg pairs and sides that sets every leg's start
   * angles from the received positions; `starts[leg][side]` is the value
   * handed to `setLegStartAngles(side, leg, ...)`.
   */
  method ReadStartAngles(positions: array<real>, stanceYaws: seq<real>) returns (starts: seq<seq<Vec3>>)
    requires positions.Length == JointStates.JOINT_COUNT && |stanceYaws| >= LEG_PAIRS
    ensures |starts| == LEG_PAIRS
    ensures forall leg | 0 <= leg < LEG_PAIRS ::
              |starts[leg]| == SIDES &&
              forall side | 0 <= side < SIDES ::
                starts[leg][side] == StartAngles(positions[..], stanceYaws[leg], leg, side)
  {
    starts := [];
    for leg := 0 to LEG_PAIRS
      invariant |starts| == leg
      invariant forall l | 0 <= l < leg ::
                  |starts[l]| == SIDES &&
                  forall side | 0 <= side < SIDES ::
                    starts[l][side] == StartAngles(positions[..], stanceYaws[l], l, side)
    {
      var pair: seq<Vec3> := [];
      for side := 0 to SIDES
        invariant |pair| == side
        invariant forall s | 0 <= s < side :: pair[s] == StartAngles(positions[..], stanceYaws[leg], leg, s)
      {
        var dir := Direction(side);
        var index := StartIndex(leg, side);
        pair := pair + [Vec3(dir * (positions[index] + dir * stanceYaws[leg]),
                             dir * -positions[index + 1],
                             dir * positions[index + 2])];
      }
      starts := starts + [pair];
    }
  }
}
