/**
 * The Leg and Model objects of src/model.cpp.
 *
 * The Denavit-Hartenberg transforms, the Jacobian and its damped least squares
 * inverse are not modelled: forward kinematics enters as a function of the
 * links and the joints' desired positions, the maximum virtual leg length as a
 * function of the links and an angle vector, an inverse kinematics step's joint
 * deltas as an input vector and the tip force Jacobian as an input matrix.
 */
module LegModel {
  import opened Wrappers
  import opened Geometry
  import opened Chain

  /** Leg-base-frame tip position for the given links at the given joint angles. */
  type TipPositionFn = (seq<Link>, seq<real>) -> Vec3

  /** Norm of the tip offset of the DH product of the given links at the given joint angles. */
  type LegLengthFn = (seq<Link>, seq<real>) -> real

  const UNASSIGNED_VECTOR: Vec3 := Vec3(UNASSIGNED_VALUE, UNASSIGNED_VALUE, UNASSIGNED_VALUE)

  /**
   * Velocity a forward kinematics pass derives from the old and new local tip
   * positions: moving from the old position at that velocity for one time
   * delta reaches the new one; an unassigned old position keeps the old velocity.
   */
  function TipVelocity(oldLocal: Vec3, newTip: Vec3, oldVelocity: Vec3, timeDelta: real): (r: Vec3)
    requires oldLocal.x != UNASSIGNED_VALUE ==> timeDelta != 0.0
    ensures oldLocal.x != UNASSIGNED_VALUE ==>
              oldLocal.x + r.x * timeDelta == newTip.x &&
              oldLocal.y + r.y * timeDelta == newTip.y &&
              oldLocal.z + r.z * timeDelta == newTip.z
    ensures oldLocal.x == UNASSIGNED_VALUE ==> r == oldVelocity
  {
    if oldLocal.x != UNASSIGNED_VALUE then Div(Sub(newTip, oldLocal), timeDelta) else oldVelocity
  }

  /** The joint and link tables of leg `id`: joint k and link k from the parameter entries of key k. */
  method BuildChain(params: Parameters, id: nat) returns (js: array<Joint>, ls: array<Link>)
    requires LegParametersPresent(params, id)
    ensures fresh(js) && fresh(ls)
    ensures js.Length == NumJoints(params, id) && ls.Length == js.Length + 1
    ensures forall k :: 0 <= k < js.Length ==> js[k] == MakeJoint(params, id, k + 1, k)
    ensures ls[0] == MakeLink(params, id, 0, None)
    ensures forall k :: 1 <= k < ls.Length ==> ls[k] == MakeLink(params, id, k, Some(k))
  {
    var n := NumJoints(params, id);
    js := new Joint[n];
    ls := new Link[n + 1];
    ls[0] := MakeLink(params, id, 0, None);
    var i := 1;
    while i < n + 1
      invariant 1 <= i <= n + 1
      invariant ls[0] == MakeLink(params, id, 0, None)
      invariant forall k :: 0 <= k < i - 1 ==> js[k] == MakeJoint(params, id, k + 1, k)
      invariant forall k :: 1 <= k < i ==> ls[k] == MakeLink(params, id, k, Some(k))
    {
      js[i - 1] := MakeJoint(params, id, i, i - 1);
      ls[i] := MakeLink(params, id, i, Some(i));
      i := i + 1;
    }
  }

  class Leg {
    const idNumber: nat
    const idName: string
    const numJoints: nat
    const mirrorDir: real
    const stanceLegYaw: real
    const group: nat
    /** Joint with key k is `joints[k - 1]`. */
    const joints: array<Joint>
    /** Link with key k is `links[k]`; `links[0]` is the fixed base link. */
    const links: array<Link>
    const tip: Tip
    const maxVirtualLegLength: real
    const minVirtualLegLength: real
    /** Set when a joint or link parameter entry was uninitialised: the source requests shutdown. */
    const initialisationError: bool

    var legState: LegState
    var deltaZ: real
    var localTipPosition: Vec3
    var desiredTipPosition: Vec3
    var desiredTipVelocity: Vec3
    var tipForce: Vec3

    ghost predicate Valid()
      reads this, joints, links
    {
      joints.Length == numJoints && Wired(joints[..], links[..], tip)
    }

    /** Builds leg `id` of the robot from the parameter tables (`Leg::Leg`). */
    constructor (id: nat, params: Parameters, legLength: LegLengthFn)
      requires LegParametersPresent(params, id)
      ensures Built(this, params, id, legLength) && fresh(joints) && fresh(links)
    {
      var name := params.legIds[id];
      var n := NumJoints(params, id);
      var js, ls := BuildChain(params, id);
      // Maximum virtual leg length: every link after the base, each at its joint's zero-clamped angle.
      var angles: seq<real> := [];
      var k := 1;
      while k < n + 1
        invariant 1 <= k <= n + 1
        invariant angles == ZeroPose(js[..k - 1])
      {
        var joint := js[ls[k].actuatingJoint.value - 1];
        angles := angles + [Clamp(0.0, joint.minPosition, joint.maxPosition)];
        k := k + 1;
      }
      assert js[..n] == js[..];

      idNumber := id;
      idName := name;
      numJoints := n;
      mirrorDir := Pow(-1.0, id % 2 + 1);
      stanceLegYaw := StanceYaw(params, name);
      joints := js;
      links := ls;
      tip := Tip(name + "_tip", n);
      maxVirtualLegLength := legLength(ls[1..], angles);
      minVirtualLegLength := 0.0;
      group := id % 2;
      initialisationError := !ChainInitialised(params, id);
      legState := Walking;
      deltaZ := 0.0;
      localTipPosition := UNASSIGNED_VECTOR;
      desiredTipPosition := UNASSIGNED_VECTOR;
      desiredTipVelocity := Vec3(0.0, 0.0, 0.0);
      tipForce := Vec3(0.0, 0.0, 0.0);
    }

    /**
     * Snapshots every joint's current (or default) position as desired and
     * previous desired, runs forward kinematics and takes the resulting tip
     * position as the desired one (`Leg::init`).
     */
    method Init(useDefault: bool, fk: TipPositionFn, timeDelta: real)
      requires Valid()
      requires localTipPosition.x != UNASSIGNED_VALUE ==> timeDelta != 0.0
      modifies this, joints
      ensures Initialised(this, old(Snapshot(this)), useDefault, fk, timeDelta)
    {
      for i := 0 to joints.Length
        modifies joints
        invariant forall k :: 0 <= k < i ==> joints[k] == InitJoint(old(joints[k]), useDefault)
        invariant forall k :: i <= k < joints.Length ==> joints[k] == old(joints[k])
      {
        var joint := joints[i];
        if useDefault {
          joint := joint.(currentPosition := Clamp(0.0, joint.minPosition, joint.maxPosition),
                          currentVelocity := 0.0, currentEffort := 0.0);
        }
        joint := joint.(desiredPosition := joint.currentPosition);
        joint := joint.(prevDesiredPosition := joint.desiredPosition);
        joints[i] := joint;
      }
      assert joints[..] == InitJoints(old(joints[..]), useDefault);
      var _ := ApplyFK(true, fk, timeDelta);
      desiredTipPosition := localTipPosition;
    }

    /** The first joint in key order named `name`, as an array index, or None (`Leg::getJointByIDName`). */
    method GetJointByIDName(name: string) returns (r: Option<nat>)
      ensures r.Some? ==> r.value < joints.Length && joints[r.value].name == name
      ensures r.Some? ==> forall k :: 0 <= k < r.value ==> joints[k].name != name
      ensures r.None? ==> forall k :: 0 <= k < joints.Length ==> joints[k].name != name
    {
      var i := 0;
      while i < joints.Length
        invariant 0 <= i <= joints.Length
        invariant forall k :: 0 <= k < i ==> joints[k].name != name
      {
        if joints[i].name == name {
          return Some(i);
        }
        i := i + 1;
      }
      return None;
    }

    /** The first link in key order named `name`, as its key, or None (`Leg::getLinkByIDName`). */
    method GetLinkByIDName(name: string) returns (r: Option<nat>)
      ensures r.Some? ==> r.value < links.Length && links[r.value].name == name
      ensures r.Some? ==> forall k :: 0 <= k < r.value ==> links[k].name != name
      ensures r.None? ==> forall k :: 0 <= k < links.Length ==> links[k].name != name
    {
      var i := 0;
      while i < links.Length
        invariant 0 <= i <= links.Length
        invariant forall k :: 0 <= k < i ==> links[k].name != name
      {
        if links[i].name == name {
          return Some(i);
        }
        i := i + 1;
      }
      return None;
    }

    /** Sets the desired tip position, lowered by the impedance offset unless the leg is manually driven (`Leg::applyDeltaZ`). */
    method ApplyDeltaZ(tipPosition: Vec3)
      modifies this
      ensures legState == Manual ==> desiredTipPosition == tipPosition
      ensures legState != Manual ==>
                desiredTipPosition.x == tipPosition.x && desiredTipPosition.y == tipPosition.y &&
                desiredTipPosition.z == tipPosition.z - deltaZ
      ensures legState == old(legState) && deltaZ == old(deltaZ)
      ensures localTipPosition == old(localTipPosition) && desiredTipVelocity == old(desiredTipVelocity)
      ensures tipForce == old(tipForce)
    {
      var target := tipPosition;
      if legState != Manual {
        target := target.(z := target.z - deltaZ);
      }
      desiredTipPosition := target;
    }

    /** Estimates the tip force as the Jacobian times the joint efforts in key order (`Leg::updateTipForce`). */
    method UpdateTipForce(jacobian: seq<seq<real>>)
      requires IsMatrix(jacobian, joints.Length)
      modifies this
      ensures tipForce == MatVec(jacobian, Efforts(joints[..]))
      ensures legState == old(legState) && deltaZ == old(deltaZ)
      ensures localTipPosition == old(localTipPosition) && desiredTipPosition == old(desiredTipPosition)
      ensures desiredTipVelocity == old(desiredTipVelocity)
    {
      var torques: seq<real> := [];
      for index := 0 to joints.Length
        invariant torques == Efforts(joints[..index])
      {
        torques := torques + [joints[index].currentEffort];
      }
      assert joints[..joints.Length] == joints[..];
      tipForce := MatVec(jacobian, torques);
    }

    /**
     * The joint update of `Leg::applyIK`: each joint's desired position becomes
     * its previous desired position plus its delta, clamped into its limits on
     * request, with one warning per clamped joint in joint order.
     */
    method StepJoints(clampToLimits: bool, jointDelta: seq<real>) returns (limitWarnings: seq<LimitWarning>)
      requires Valid() && |jointDelta| == joints.Length
      modifies joints
      ensures Valid()
      ensures joints[..] == IKUpdate(old(joints[..]), jointDelta, clampToLimits)
      ensures limitWarnings == LimitWarnings(old(joints[..]), jointDelta, clampToLimits)
    {
      ghost var before := joints[..];
      limitWarnings := [];
      var index := 0;
      while index < joints.Length
        invariant 0 <= index <= joints.Length
        invariant forall k :: 0 <= k < index ==> joints[k] == IKUpdateJoint(before[k], jointDelta[k], clampToLimits)
        invariant forall k :: index <= k < joints.Length ==> joints[k] == before[k]
        invariant limitWarnings == LimitWarnings(before[..index], jointDelta[..index], clampToLimits)
      {
        var joint := joints[index];
        assert before[..index + 1][..index] == before[..index];
        assert jointDelta[..index + 1][..index] == jointDelta[..index];
        joints[index] := IKUpdateJoint(joint, jointDelta[index], clampToLimits);
        limitWarnings := limitWarnings + WarningFor(joint, jointDelta[index], clampToLimits);
        index := index + 1;
      }
      assert before[..joints.Length] == before;
      assert jointDelta[..joints.Length] == jointDelta;
    }

    /**
     * One inverse kinematics step (`Leg::applyIK`): every joint's desired
     * position becomes its previous desired position plus its delta, clamped
     * into its limits on request with a warning per clamped joint; forward
     * kinematics then gives the resulting tip position, each axis is checked
     * against the 0.001 tolerance, and the step reports success regardless.
     */
    method ApplyIK(clampToLimits: bool, jointDelta: seq<real>, fk: TipPositionFn, timeDelta: real)
      returns (withinWorkspace: bool, limitWarnings: seq<LimitWarning>, toleranceExceeded: seq<bool>)
      requires Valid() && |jointDelta| == joints.Length
      requires localTipPosition.x != UNASSIGNED_VALUE ==> timeDelta != 0.0
      modifies this, joints
      ensures Valid()
      ensures joints[..] == IKUpdate(old(joints[..]), jointDelta, clampToLimits)
      ensures limitWarnings == LimitWarnings(old(joints[..]), jointDelta, clampToLimits)
      ensures localTipPosition == fk(links[..], DesiredPositions(joints[..]))
      ensures desiredTipVelocity == TipVelocity(old(localTipPosition), localTipPosition, old(desiredTipVelocity), timeDelta)
      ensures |toleranceExceeded| == 3
      ensures forall i :: 0 <= i < 3 ==>
                (toleranceExceeded[i] <==> Abs(Axis(localTipPosition, i) - Axis(desiredTipPosition, i)) > IK_TOLERANCE)
      ensures withinWorkspace
      ensures desiredTipPosition == old(desiredTipPosition)
      ensures legState == old(legState) && deltaZ == old(deltaZ) && tipForce == old(tipForce)
    {
      limitWarnings := StepJoints(clampToLimits, jointDelta);
      var result := ApplyFK(true, fk, timeDelta);
      toleranceExceeded := ToleranceCheck(result, desiredTipPosition);
      withinWorkspace := true;
    }

    /**
     * Forward kinematics (`Leg::applyFK`): the tip position at the joints'
     * desired positions; with `setLocal` it becomes the local tip position and,
     * unless the previous one was unassigned, the tip velocity is derived from
     * the change over the time delta.
     */
    method ApplyFK(setLocal: bool, fk: TipPositionFn, timeDelta: real) returns (tipPosition: Vec3)
      requires setLocal && localTipPosition.x != UNASSIGNED_VALUE ==> timeDelta != 0.0
      modifies this
      ensures tipPosition == fk(links[..], DesiredPositions(joints[..]))
      ensures setLocal ==> localTipPosition == tipPosition
      ensures setLocal ==>
                desiredTipVelocity == TipVelocity(old(localTipPosition), tipPosition, old(desiredTipVelocity), timeDelta)
      ensures !setLocal ==> localTipPosition == old(localTipPosition) && desiredTipVelocity == old(desiredTipVelocity)
      ensures desiredTipPosition == old(desiredTipPosition)
      ensures legState == old(legState) && deltaZ == old(deltaZ) && tipForce == old(tipForce)
    {
      tipPosition := fk(links[..], DesiredPositions(joints[..]));
      if setLocal {
        if localTipPosition.x != UNASSIGNED_VALUE {
          desiredTipVelocity := Div(Sub(tipPosition, localTipPosition), timeDelta);
        }
        localTipPosition := tipPosition;
      }
    }
  }

  /** The loop of `Model::Model`: leg k built from identifier k, each with its own joint table. */
  method BuildLegs(params: Parameters, legLength: LegLengthFn) returns (ls: seq<Leg>)
    requires forall i :: 0 <= i < |params.legIds| ==> LegParametersPresent(params, i)
    ensures |ls| == |params.legIds|
    ensures forall k {:trigger Built(ls[k], params, k, legLength)} :: 0 <= k < |ls| ==> Built(ls[k], params, k, legLength)
    ensures forall k :: 0 <= k < |ls| ==> fresh(ls[k]) && fresh(ls[k].joints) && fresh(ls[k].links)
    ensures forall k :: 0 <= k < |ls| ==> ls[k].idNumber == k && ls[k].Valid()
    ensures forall j, k :: 0 <= j < |ls| && 0 <= k < |ls| && j != k ==> ls[j] != ls[k] && ls[j].joints != ls[k].joints
  {
    ls := [];
    for i := 0 to |params.legIds|
      invariant |ls| == i
      invariant forall k {:trigger Built(ls[k], params, k, legLength)} :: 0 <= k < i ==> Built(ls[k], params, k, legLength)
      invariant forall k :: 0 <= k < i ==> fresh(ls[k]) && fresh(ls[k].joints) && fresh(ls[k].links)
      invariant forall j, k :: 0 <= j < k < i ==> ls[j].joints != ls[k].joints
    {
      var leg := new Leg(i, params, legLength);
      ghost var prev := ls;
      ls := ls + [leg];
      assert forall k :: 0 <= k < i ==> ls[k] == prev[k];
    }
    forall k | 0 <= k < |ls| ensures ls[k].idNumber == k && ls[k].Valid() {
      assert Built(ls[k], params, k, legLength);
    }
    forall j, k | 0 <= j < |ls| && 0 <= k < |ls| && j != k ensures ls[j] != ls[k] && ls[j].joints != ls[k].joints {
      if j > k { assert ls[k].joints != ls[j].joints; }
    }
  }

  /** The robot: legs keyed 0..legCount-1 (`Model`). */
  class Model {
    const legCount: nat
    var timeDelta: real
    /** Current body pose; the source starts it at the identity pose. */
    var currentPosePosition: Vec3
    var linearVelocity: (real, real)
    const legs: seq<Leg>

    ghost predicate Valid()
      reads this, legs, set l | l in legs :: l.joints, set l | l in legs :: l.links
    {
      |legs| == legCount &&
      (forall k :: 0 <= k < |legs| ==> legs[k].idNumber == k && legs[k].Valid()) &&
      (forall j, k :: 0 <= j < |legs| && 0 <= k < |legs| && j != k ==> legs[j] != legs[k] && legs[j].joints != legs[k].joints)
    }

    /** One leg per entry of the leg identifier list, leg k built from entry k (`Model::Model`). */
    constructor (params: Parameters, legLength: LegLengthFn)
      requires forall i :: 0 <= i < |params.legIds| ==> LegParametersPresent(params, i)
      ensures Valid()
      ensures legCount == |params.legIds| && timeDelta == params.timeDelta
      ensures forall k :: 0 <= k < |legs| ==> fresh(legs[k]) && fresh(legs[k].joints) && fresh(legs[k].links)
      ensures forall k :: 0 <= k < |legs| ==> Built(legs[k], params, k, legLength)
      ensures currentPosePosition == Vec3(0.0, 0.0, 0.0) && linearVelocity == (0.0, 0.0)
    {
      var ls := BuildLegs(params, legLength);
      legCount := |params.legIds|;
      timeDelta := params.timeDelta;
      currentPosePosition := Vec3(0.0, 0.0, 0.0);
      linearVelocity := (0.0, 0.0);
      legs := ls;
    }

    /** Initialises every leg in key order (`Model::initLegs`). */
    method InitLegs(useDefault: bool, fk: TipPositionFn)
      requires Valid()
      requires forall k :: 0 <= k < |legs| && legs[k].localTipPosition.x != UNASSIGNED_VALUE ==> timeDelta != 0.0
      modifies legs, set l | l in legs :: l.joints
      ensures Valid()
      ensures forall k :: 0 <= k < |legs| ==> Initialised(legs[k], old(Snapshot(legs[k])), useDefault, fk, timeDelta)
    {
      ghost var before := seq(|legs|, k requires 0 <= k < |legs| reads legs, set l | l in legs :: l.joints => Snapshot(legs[k]));
      for i := 0 to |legs|
        invariant forall k :: 0 <= k < i ==> Initialised(legs[k], before[k], useDefault, fk, timeDelta)
        invariant forall k :: i <= k < |legs| ==> Untouched(legs[k], before[k])
      {
        legs[i].Init(useDefault, fk, timeDelta);
      }
    }
  }

  /** The mutable state of a leg: its joints and the fields its methods update. */
  datatype LegSnapshot = LegSnapshot(
    joints: seq<Joint>,
    legState: LegState,
    deltaZ: real,
    localTipPosition: Vec3,
    desiredTipPosition: Vec3,
    desiredTipVelocity: Vec3,
    tipForce: Vec3)

  ghost function Snapshot(leg: Leg): LegSnapshot
    reads leg, leg.joints
  {
    LegSnapshot(leg.joints[..], leg.legState, leg.deltaZ, leg.localTipPosition,
                leg.desiredTipPosition, leg.desiredTipVelocity, leg.tipForce)
  }

  /** Leg `k` as the `Leg` constructor leaves it. */
  ghost predicate Built(leg: Leg, params: Parameters, k: nat, legLength: LegLengthFn)
    requires LegParametersPresent(params, k)
    reads leg, leg.joints, leg.links
  {
    leg.Valid() &&
    leg.idNumber == k && leg.idName == params.legIds[k] &&
    leg.numJoints == NumJoints(params, k) && leg.stanceLegYaw == StanceYaw(params, leg.idName) &&
    (forall j :: 0 <= j < leg.numJoints ==> leg.joints[j] == MakeJoint(params, k, j + 1, j)) &&
    leg.links[0] == MakeLink(params, k, 0, None) &&
    (forall j :: 1 <= j <= leg.numJoints ==> leg.links[j] == MakeLink(params, k, j, Some(j))) &&
    leg.tip == Tip(leg.idName + "_tip", leg.numJoints) &&
    leg.mirrorDir == Pow(-1.0, k % 2 + 1) && leg.group == k % 2 &&
    leg.maxVirtualLegLength == legLength(leg.links[1..], ZeroPose(leg.joints[..])) &&
    leg.minVirtualLegLength == 0.0 &&
    leg.initialisationError == !ChainInitialised(params, k) &&
    leg.legState == Walking &&
    leg.localTipPosition == UNASSIGNED_VECTOR && leg.desiredTipPosition == UNASSIGNED_VECTOR &&
    leg.desiredTipVelocity == Vec3(0.0, 0.0, 0.0)
  }

  /** Leg state after `Leg::init`, given the state it started from. */
  ghost predicate Initialised(leg: Leg, before: LegSnapshot, useDefault: bool, fk: TipPositionFn, timeDelta: real)
    reads leg, leg.joints, leg.links
  {
    leg.Valid() &&
    leg.joints[..] == InitJoints(before.joints, useDefault) &&
    leg.localTipPosition == fk(leg.links[..], DesiredPositions(leg.joints[..])) &&
    leg.desiredTipPosition == leg.localTipPosition &&
    (before.localTipPosition.x != UNASSIGNED_VALUE ==> timeDelta != 0.0) &&
    leg.desiredTipVelocity == TipVelocity(before.localTipPosition, leg.localTipPosition, before.desiredTipVelocity, timeDelta) &&
    leg.legState == before.legState && leg.deltaZ == before.deltaZ && leg.tipForce == before.tipForce
  }

  ghost predicate Untouched(leg: Leg, before: LegSnapshot)
    reads leg, leg.joints, leg.links
  {
    leg.Valid() && Snapshot(leg) == before
  }
}
