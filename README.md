# Syropod high-level controller: leg model and start-up logic in Dafny

This project models two parts of the syropod high-level controller.

**The kinematic leg model of `src/model.cpp`.** A `Model` owns one `Leg` per
leg identifier. A `Leg` owns an ordered chain:
- a fixed base link;
- one joint and one link per degree of freedom;
- a tip.

Construction reads the per-leg joint and link parameter tables. Initialisation
snapshots each joint's current (or default) position as its desired and
previous desired position, then runs forward kinematics. An inverse kinematics
step adds a joint delta vector to the previous desired positions. On request
it clamps each joint into its limits, with one warning per clamped joint. It
then runs forward kinematics and checks the result against the desired tip
position on each axis, with a 0.001 tolerance.

**The start-up and callback logic of `src/main.cpp`:**
- the automatic pitch and roll body-compensation waveforms: six keypoints,
  with plateaus at ±A joined by two linear ramps;
- the joint-state callback. It accepts every joint under a long and a short
  name, writes 18 position slots, and raises a "complete" flag. `main`
  pre-fills the slots with the sentinel 1e10, and a slot above 1e9 counts as
  not yet received;
- the move-to-start loop, which turns the 18 slots into each leg's yaw, lift
  and knee start angles. The main loop's motor-command code computes the
  reverse conversion before sending each joint its target angle;
- the joypad pose callback, which scales a twist into the manual pose
  adjustment.

Modules, one concept each:
- `Wrappers` (Option) and `Geometry` (3-vectors).
- `Chain`: joint, link and tip records, and the pure functions that say what
  construction, initialisation and an IK step do to them.
- `LegModel`: the `Leg` and `Model` classes. They are mutable, with joints and
  links held in arrays.
- `BodyCompensation`: the waveforms.
- `JointStates`: the callback's global state, as a class with the array and
  the flag.
- `MoveToStart` and `Joypad`.

The numerical kinematics enter as parameters:
- forward kinematics is a function of the links and the desired joint
  positions;
- the maximum virtual leg length is a function of the links and an angle
  vector;
- the IK step's joint deltas (the damped-least-squares Jacobian inverse times
  the tip displacement) are an input vector;
- the tip-force Jacobian is an input matrix.

The roll waveform's keypoints increase only when `5 * swingPhase < stancePhase`
(`BodyCompensation.RollKeypointsIncreasing`). With equal stance and swing
phases, the roll ramp between p1 and p2 is empty and roll jumps from -A to +A.
The model states this, but it is not listed as a finding because the source
gives no intended range for these parameters.

## Model

| member | source | states |
|---|---|---|
| Chain.MakeJoint | src/model.cpp:324-335 | Joint key `id` refers to the given link. Its name is the leg name, `_`, the joint's name and `_joint`. Its offset, limits, packed and unpacked positions and maximum speed come from parameter entry id - 1, and its measured and desired positions start at 0. |
| Chain.MakeLink | src/model.cpp:357-366 | Link key `id` is moved by the given joint. Its name is the leg name, `_`, the link's name and `_link`, and its Denavit-Hartenberg r, theta, d and alpha come from parameter entry id. |
| Chain.JointNamesDistinct | src/model.cpp:327 | Two joints of a leg get the same name exactly when their joint names in the parameters are equal. |
| Chain.LinkNamesDistinct | src/model.cpp:361 | Two links of a leg get the same name exactly when their link names in the parameters are equal. |
| Chain.ChainInitialised | src/model.cpp:336-376 | A leg is built without a shutdown request exactly when joint keys 1..n and link keys 0..n each find an initialised parameter entry. |
| Chain.MirrorDirection | src/model.cpp:42 | The mirror direction `pow(-1, id % 2 + 1)` is -1 for even leg numbers and +1 for odd ones. |
| Chain.Clamp | src/model.cpp:251-262 | The clamp returns the value, the lower limit or the upper limit. It lies within the limits whenever they are ordered, and it is the value itself when that is already within them. |
| Chain.ZeroPose | src/model.cpp:71-79 | It gives one angle per joint: zero clamped into that joint's limits. Each angle lies within its joint's ordered limits, and it is exactly 0 when 0 is admissible. |
| Chain.InitJoint | src/model.cpp:98-108 | After initialisation, desired = previous desired = current position. With defaults, the current position is 0 clamped into the limits, and velocity and effort are 0. Without defaults the current values are kept. No other field changes. |
| Chain.IKUpdateJoint | src/model.cpp:248-262 | Only the desired position changes. Without clamping it is previous desired + delta. With clamping it is the minimum when the target is below it, the maximum when above, and the target otherwise. |
| Chain.InitJoints | src/model.cpp:97-109 | Over the whole chain, desired = previous desired = current position. With defaults, every joint with ordered limits is within them, at rest with zero effort. Without defaults each joint keeps its measured position. Keys, names and limits are kept. |
| Chain.IKUpdate | src/model.cpp:245-264 | With clamping, every joint with ordered limits ends within them. Without clamping, every desired position is exactly previous desired + delta. Every other field of every joint is kept. |
| Chain.WarningFor | src/model.cpp:251-262 | One joint logs at most one warning. The warning names that joint and the limit it was clamped to, and it is logged exactly when clamping changed the desired position. |
| Chain.LimitWarnings | src/model.cpp:245-264 | The update loop logs no more warnings than there are joints, and none when clamping is off. |
| Chain.LimitWarningsNameJoints | src/model.cpp:245-264 | Every warning the update loop logs names the key of one of the chain's joints. |
| Chain.LimitWarningsInKeyOrder | src/model.cpp:245-264 | Over joints with increasing keys, the warnings come in strictly increasing key order, so no joint is warned about twice. |
| Chain.LimitWarningsExact | src/model.cpp:245-264 | Over the whole update loop, every warning names a joint key in 1..n and the limit that joint now holds. Joint k+1 is warned about exactly when clamping changed it. |
| Chain.ToleranceCheck | src/model.cpp:272-282 | Axis i is flagged exactly when the FK result and the desired tip position differ on it by more than 0.001. |
| Chain.TipForceLinear | src/model.cpp:189-198 | The tip force estimate is linear in the joint efforts: scaling every effort by c scales the force by c. |
| LegModel.TipVelocity | src/model.cpp:310-316 | When the old local tip is assigned, moving from it at the new velocity for one time delta reaches the new tip, on every axis. When it is unassigned, the old velocity is kept. |
| LegModel.BuildChain | src/model.cpp:47-62 | Fresh tables with n joints and n+1 links. Joint key k is built from parameter entry k and refers to link k-1. Link 0 is the base with no actuating joint, and link k is actuated by joint k. |
| LegModel.Leg.constructor | src/model.cpp:37-90 | The leg is left in the `Built` state for its number. Its fresh joint and link tables hold the entries of that leg's parameters. The leg is wired as a chain. The DOF and stance yaw are looked up by leg name, and the mirror direction and group come from the leg number. The maximum virtual leg length is taken at the zero-clamped pose and the minimum is 0. Tip positions are unassigned, the velocity is zero, the state is WALKING, and an uninitialised parameter entry is flagged. |
| LegModel.Leg.Init | src/model.cpp:95-111 | The leg ends in the `Initialised` state: every joint is initialised as `Chain.InitJoints` says. The local tip becomes FK at the new desired positions, and the desired tip equals it. The velocity follows `TipVelocity` from the old local tip. Wiring, state, delta z and tip force are kept. |
| LegModel.Leg.GetJointByIDName | src/model.cpp:117-129 | It returns the first joint in key order with that name, or None exactly when no joint has it. |
| LegModel.Leg.GetLinkByIDName | src/model.cpp:134-146 | It returns the first link in key order with that name, or None exactly when no link has it. |
| LegModel.Leg.ApplyDeltaZ | src/model.cpp:151-158 | A manually driven leg takes the requested tip position as is. Any other leg takes it lowered by delta z on the z axis only. Nothing else changes. |
| LegModel.Leg.UpdateTipForce | src/model.cpp:163-201 | The tip force becomes the Jacobian times the joint efforts in key order. The tip positions, velocity, state and delta z are kept. |
| LegModel.Leg.StepJoints | src/model.cpp:245-264 | The joints become the IK update of the old joints, and the warnings are exactly those of the update loop. The chain wiring is preserved. |
| LegModel.Leg.ApplyIK | src/model.cpp:205-284 | The joints and warnings are as in `StepJoints`. The local tip becomes FK at the new desired positions, with the velocity from the change. There is one tolerance flag per axis against the unchanged desired tip, and the step always reports success. |
| LegModel.Leg.ApplyFK | src/model.cpp:289-319 | It returns FK at the desired positions. With `setLocal`, the local tip becomes that position, and the velocity is (new - old) / time delta unless the old tip was unassigned. Without `setLocal` nothing changes. |
| LegModel.BuildLegs | src/model.cpp:12-17 | There is one leg per identifier. Leg k is fresh, with fresh tables, and is in the state the `Leg` constructor gives leg k, so it carries number k and is wired. The legs are pairwise distinct, and no two share a joint table. |
| LegModel.Model.constructor | src/model.cpp:7-18 | Leg k is a fresh leg in the state the `Leg` constructor gives leg k (`Built`: its name, tables, wiring, tip, mirror direction, group, leg lengths, WALKING state, unassigned tips and zero velocity). Legs and joint tables are pairwise distinct, so the model is well formed. The leg count is the number of identifiers, the time delta comes from the parameters, and the pose position and velocity are zero. |
| LegModel.Model.InitLegs | src/model.cpp:23-32 | Every leg ends in the state `Leg::init` gives it from its own earlier state: its joints, local and desired tip, and the velocity derived from its own earlier local tip and velocity. Each leg keeps its own state, delta z and tip force. The model stays well formed. |
| BodyCompensation.PitchKeypoints | src/main.cpp:319-328 | The pitch keypoints run from 0 to L. The first ramp starts at L/6 + phaseOffset/2, and both ramps last L/6 with the +A plateau L/3 long between them. The values are -A, -A, +A, +A, -A, -A. |
| BodyCompensation.RollKeypoints | src/main.cpp:359-368 | The roll keypoints run from 0 to L. The ramps start at swingPhase/2 and at L/2 + swingPhase/2, and each lasts L/6 - swingPhase. The values are -A, -A, +A, +A, -A, -A. |
| BodyCompensation.Ramp | src/main.cpp:332-336 | The source's ramp (gradient times phase minus gradient times midpoint) is 0 at the midpoint of its interval. It is -(rise)/2 at the left end and +(rise)/2 at the right end. |
| BodyCompensation.Interpolate | src/main.cpp:330-347 | The value stays unassigned (None) exactly when the phase lies in none of the five half-open intervals. |
| BodyCompensation.PitchCompensation | src/main.cpp:316-350 | For any gait parameters with a non-negative amplitude, an assigned pitch lies within [-A, A]. |
| BodyCompensation.TiltCompensation | src/main.cpp:356-390 | For any gait parameters with a non-negative amplitude, an assigned roll lies within [-A, A]. |
| BodyCompensation.RampLinear | src/main.cpp:332-336 | A ramp starts at -(rise)/2 at its left keypoint and grows linearly with the distance from it. |
| BodyCompensation.DefinedIff | src/main.cpp:330-347 | With ordered keypoints, the if-chain assigns a value exactly on [p0, p5). Elsewhere the result stays unassigned (None). |
| BodyCompensation.Bounded | src/main.cpp:330-347 | For A >= 0 and any keypoint phases, every assigned value of a -A, -A, +A, +A, -A, -A waveform lies within [-A, A]. |
| BodyCompensation.JoinsAtKeypoints | src/main.cpp:330-347 | With increasing keypoints, each ramp starts on the plateau value before it and ends on the one after it, so the waveform has no jump at p1 to p4. |
| BodyCompensation.PitchKeypointsIncreasing | src/main.cpp:321-328 | The pitch keypoints increase strictly if and only if L > 0 and abs(phaseOffset) < L/3. |
| BodyCompensation.PitchPlateaus | src/main.cpp:316-350 | Pitch is -A on [0, L/6 + b), +A on [2L/6 + b, 4L/6 + b) and -A on [5L/6 + b, L), where b = phaseOffset / 2. |
| BodyCompensation.PitchRisingRamp | src/main.cpp:332-336 | On [L/6 + b, 2L/6 + b), pitch is -A + (12A/L) times the distance from L/6 + b, and it is 0 at the midpoint. |
| BodyCompensation.PitchFallingRamp | src/main.cpp:340-345 | On [4L/6 + b, 5L/6 + b), pitch is +A - (12A/L) times the distance from 4L/6 + b, and it is 0 at the midpoint. |
| BodyCompensation.PitchDefinedAndBounded | src/main.cpp:316-350 | For abs(phaseOffset) <= L/3, pitch is assigned exactly on [0, L) and lies within [-A, A]. |
| BodyCompensation.PitchExample | src/main.cpp:316-350 | With L = 1, A = 1 and phase offset 0.2, pitch is -1 at phase 0 and +1 at phase 0.5. |
| BodyCompensation.RollKeypointsIncreasing | src/main.cpp:361-368 | The roll keypoints increase strictly if and only if 0 < swingPhase and 5 * swingPhase < stancePhase. |
| BodyCompensation.RollShape | src/main.cpp:356-390 | With increasing keypoints, roll is -A on [0, b), +A on [L/6 - b, 3L/6 + b) and -A on [4L/6 - b, L), where b = swingPhase / 2. It is assigned exactly on [0, L) and stays within [-A, A]. |
| BodyCompensation.RollRamps | src/main.cpp:372-385 | With increasing keypoints, roll on the first ramp is -A plus 2A/(L/6 - swingPhase) times the distance from its start. On the second ramp it is +A minus that slope times the distance from its start. |
| JointStates.SlotFrom | src/main.cpp:612-666 | The if-chain's result is the first slot from i on that has the name as its long or short alias. None means no slot from i has it. |
| JointStates.CStr | src/main.cpp:612-666 | The string `strcmp` sees through `c_str()` is the prefix of the name before its first NUL: it holds no NUL, and when it is shorter than the name the next character is a NUL. |
| JointStates.CStrOfNulFree | src/main.cpp:612-666 | A name without a NUL is compared whole. |
| JointStates.NulEndsName | src/main.cpp:612-666 | A NUL-free name followed by a NUL and any further characters resolves to the same slot, or to none, as the name alone: characters after the first NUL are never compared. |
| JointStates.SlotOfIff | src/main.cpp:612-666 | A name writes slot k exactly when its part before the first NUL is an alias of k and of no earlier slot. |
| JointStates.AliasWritesOwnSlot | src/main.cpp:612-666 | Each of the 36 names, long or short, writes exactly its own slot: no alias shadows another. |
| JointStates.SlotOf | src/main.cpp:612-666 | Names are compared as C strings, up to their first NUL. A recognised name writes one of the 18 slots: one its C string is an alias of, with no earlier slot having that alias. A name is ignored exactly when its C string is neither alias of any slot. |
| JointStates.Resolve | src/main.cpp:612-666 | Each name of a message resolves to nothing or to one of the 18 slots. |
| JointStates.ApplyTargets | src/main.cpp:610-667 | The write loop leaves 18 slots, and a slot that no name of the message writes keeps its value. Only recognised names need a position at their index. |
| JointStates.LastWriter | src/main.cpp:610-667 | It gives the index of the last name in the message that writes slot k, or None exactly when no name writes it. |
| JointStates.LastWriteWins | src/main.cpp:610-667 | After a message, each slot holds the position of the last name that writes it. A slot no name writes keeps its old value. |
| JointStates.UnrecognisedNameIgnored | src/main.cpp:610-667 | Appending an unrecognised name to a message changes no slot. |
| JointStates.Sentinels | src/main.cpp:101-102 | The pre-fill gives 18 slots, each above the 1e9 received threshold. |
| JointStates.SentinelDetectsMissing | src/main.cpp:669-675 | Starting from the sentinel fill, the completeness test holds after a message if and only if the message writes every slot and each slot's last write is at most 1e9. |
| JointStates.JointStateListener.constructor | src/main.cpp:34-35 | The globals start zeroed, with the flag false. |
| JointStates.JointStateListener.ResetToSentinel | src/main.cpp:101-102 | Every slot holds the sentinel. |
| JointStates.JointStateListener.Callback | src/main.cpp:606-677 | Once complete, a message changes nothing. Otherwise the slots become the message applied in order, and the flag is set exactly when every slot is at most 1e9. A message may carry fewer positions than names, provided every recognised name has one. |
| JointStates.JointStateListener.WriteMessage | src/main.cpp:610-667 | The slots become the old slots with the message's names applied in order. |
| JointStates.JointStateListener.RefreshFlag | src/main.cpp:669-675 | The flag is set exactly when no slot is above 1e9. |
| MoveToStart.Direction | src/main.cpp:133 | The direction is -1 on the left and +1 on the right, and its square is 1. |
| MoveToStart.StartIndex | src/main.cpp:134 | A leg's coxa slot is followed by femur and tibia slots, and all three lie within the 18. |
| MoveToStart.StartIndexInjective | src/main.cpp:129-136 | No two (leg pair, side, joint) triples read the same slot. |
| MoveToStart.StartIndexCovers | src/main.cpp:129-136 | Every one of the 18 slots is read by the loop, for an explicitly given leg pair, side and joint. |
| MoveToStart.StartIndexMatchesNames | src/main.cpp:129-136 | The slots a leg reads are the ones whose short joint names carry that leg pair's letter (A, B, C) and that side's letter (L, R). |
| MoveToStart.StartAngles | src/main.cpp:133-136 | Converting a leg's start angles back into joint positions, as the main loop does, gives the received positions. |
| MoveToStart.JointAngles | src/main.cpp:240-242 | The joint positions encode the angles: the coxa position times the direction, plus the stance yaw, is the yaw. Minus the direction times the femur position is the lift, and the direction times the tibia position is the knee. |
| MoveToStart.JointAnglesRoundTrip | src/main.cpp:234-242 | Conversely, slots that encode a leg's yaw, lift and knee give those angles back as its start angles. |
| MoveToStart.ReadStartAngles | src/main.cpp:126-136 | Every leg pair and side gets the start angles of its own slots, with mirrored direction and stance yaw. |
| Joypad.PoseFromTwist | src/main.cpp:292-301 | The joystick scaling loses nothing: dividing by the gains recovers the twist. |
| Joypad.TwistFromPoseInverse | src/main.cpp:292-301 | Every pose adjustment is the scaling of some twist: multiplying by the gains undoes the division. |
| Joypad.PoseFromTwistLinear | src/main.cpp:292-301 | The scaling is additive in the twist. Unit deflection gives roll 0.075, pitch -0.075, yaw 0.2 and translation 0.05. |

## Left out

- Denavit-Hartenberg matrices, the Jacobian and its damped least-squares inverse, and `Tip::getPositionWorldFrame` are numerical code outside this model. FK and the virtual leg length are function parameters, and the IK joint deltas and tip-force Jacobian are inputs.
- Floating point: every quantity is an unbounded real, so rounding and NaN are not modelled.
- ROS plumbing is not modelled: `ROS_DEBUG`/`ROS_WARN` output, parameter-server access, topic subscriptions, the IMU, the motor interface and `ros::spinOnce`. This includes the 20-cycle wait for joint states in `main`.
- `ros::shutdown()` on an uninitialised joint or link entry only requests shutdown. The model records it in `initialisationError` and construction continues.
- The error percentage logged by the IK tolerance check is not computed. Only the per-axis flags are.
- `Leg::updateTipForce` is declared `bool` but returns nothing. The model returns no value.
- The uninitialised `null_joint` pointer given to the base link is modelled as "no actuating joint".
- The source's `Joint` constructor (model.cpp:324-335) leaves a joint's current position, velocity and effort, and its desired and previous desired positions, uninitialised, and `Leg::Leg` (model.cpp:37-90) leaves the leg's delta z and tip force uninitialised. The model starts them at 0.0 and 0.
- LegModel.Model.currentPosePosition: the source starts `current_pose_` as `Pose::identity()` (src/model.cpp:10); the model keeps only its position, the zero vector, and leaves out the identity orientation, which nothing in this model reads.
- Joint and link transforms stored by the constructors, the `impedance_state_` vector and `Joint::transform` are not modelled, because they only feed the DH numerics.
- LegModel.Leg.ApplyFK: requires a non-zero time delta when the old local tip is assigned. The source would divide by zero.
- LegModel.Leg.ApplyIK: requires a non-zero time delta when the old local tip is assigned, for the same reason.
- LegModel.Leg.Init: requires a non-zero time delta when the old local tip is assigned, for the same reason.
- `UNASSIGNED_VALUE` (1e10) and the default `set_local = true` of `applyFK` come from a header that is not part of this model.
- The `clamped` utility is not part of this model. It is modelled with the same below-then-above comparison as the IK clamp, which agrees with any clamp when the limits are ordered.
- Leg DOF is a natural number; a negative DOF entry is not modelled.
- The joypad velocity callback is not part of this model, including its `clamped` cap of 1.0 on the planar velocity (main.cpp:287), and neither is the `if (false)` speed-clamping block inside the motor-command loop. The target angles are computed (`MoveToStart.JointAngles`) but `setTargetAngle` and `publish` are not modelled.
- `setLegStartAngles` and the older `legs[leg][side]` API it writes through are not part of this model. `MoveToStart.ReadStartAngles` returns the arguments it would receive, read as (yaw, lift, knee).
- The `jointPosFlag` test that gates move-to-start in `main` is not modelled as a branch. `JointStates` states when the flag holds.
- BodyCompensation.JoinsAtKeypoints: continuity is proved at the four keypoints only, not as a bound on the change between arbitrary nearby phases.
- BodyCompensation.RollShape: the values on the roll ramps are stated separately, by `BodyCompensation.RollRamps`.
- Phase quantities are real numbers here: stance and swing phase, the phase offset and the stepper phase. Their declarations for this version of the walk controller are not part of this model. The `walk_controller.h` at hand declares the phase, the phase offset and the step-cycle periods as `int` (include/syropod_highlevel_controller/walk_controller.h:36-38, 560-561), and under integer types the `/2` at main.cpp:322 and 362 would truncate. The model follows real division, because the ramp comments at main.cpp:336 and 344 (intercepts 4 and -10) fit it, with L = 18 and a buffer of 1.5.
