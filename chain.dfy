/**
 * Values of one leg's kinematic chain (src/model.cpp): configuration records,
 * the Joint, Link and Tip records a Leg owns, and the pure functions that say
 * what construction, initialisation and an inverse kinematics step do to them.
 *
 * Joints carry keys 1..n and links keys 0..n, as in the source's ordered maps.
 * A Leg stores joint key k at array index k - 1 and link key k at index k.
 * The source's back-pointers (a joint's reference link, a link's actuating
 * joint, the tip's reference link) are held here as keys.
 */
module Chain {
  import opened Wrappers
  import opened Geometry

  /** Value written into every component of a tip position before forward kinematics first runs. */
  const UNASSIGNED_VALUE: real := 10000000000.0

  /** Per-axis tolerance of the check that follows an inverse kinematics step. */
  const IK_TOLERANCE: real := 0.001

  datatype LegState = Walking | Manual

  /** One entry of the per-leg joint parameter table; `initialised` is false for a missing entry. */
  datatype JointParameters = JointParameters(
    initialised: bool,
    offset: real, min: real, max: real,
    packed: real, unpacked: real, maxVel: real)

  /** One entry of the per-leg link table: Denavit-Hartenberg r, theta, d and alpha. */
  datatype LinkParameters = LinkParameters(
    initialised: bool,
    r: real, theta: real, d: real, alpha: real)

  /** The part of the parameter server's contents the model reads. */
  datatype Parameters = Parameters(
    timeDelta: real,
    legIds: seq<string>,
    legDOF: map<string, nat>,
    legStanceYaws: map<string, real>,
    jointIds: seq<string>,
    linkIds: seq<string>,
    jointParameters: seq<seq<JointParameters>>,
    linkParameters: seq<seq<LinkParameters>>)

  datatype Joint = Joint(
    id: nat,
    name: string,
    referenceLink: nat,
    positionOffset: real,
    minPosition: real,
    maxPosition: real,
    packedPosition: real,
    unpackedPosition: real,
    maxAngularSpeed: real,
    currentPosition: real,
    currentVelocity: real,
    currentEffort: real,
    desiredPosition: real,
    prevDesiredPosition: real)

  /** `actuatingJoint` is None for the fixed base link. */
  datatype Link = Link(
    id: nat,
    name: string,
    actuatingJoint: Option<nat>,
    length: real,
    angle: real,
    offset: real,
    twist: real)

  datatype Tip = Tip(name: string, referenceLink: nat)

  /** A warning logged when an inverse kinematics step clamps a joint; it names the joint by key. */
  datatype LimitWarning =
    | BelowMin(jointId: nat, limit: real)
    | AboveMax(jointId: nat, limit: real)

  // ---------------------------------------------------------------------------
  // Construction
  // ---------------------------------------------------------------------------

  /** A lookup through std::map::operator[], which yields 0 for a missing leg name. */
  function DOF(params: Parameters, legName: string): nat {
    if legName in params.legDOF then params.legDOF[legName] else 0
  }

  function StanceYaw(params: Parameters, legName: string): real {
    if legName in params.legStanceYaws then params.legStanceYaws[legName] else 0.0
  }

  /** The vector entries that building leg `legNumber` indexes exist. */
  predicate LegParametersPresent(params: Parameters, legNumber: nat) {
    legNumber < |params.legIds| &&
    var n := DOF(params, params.legIds[legNumber]);
    n <= |params.jointIds| && n + 1 <= |params.linkIds| &&
    legNumber < |params.jointParameters| && n <= |params.jointParameters[legNumber]| &&
    legNumber < |params.linkParameters| && n + 1 <= |params.linkParameters[legNumber]|
  }

  function NumJoints(params: Parameters, legNumber: nat): nat
    requires LegParametersPresent(params, legNumber)
  {
    DOF(params, params.legIds[legNumber])
  }

  /**
   * Joint with key `id` of leg `legNumber`, whose reference link has key
   * `referenceLink`: its name joins the leg name and the joint's own name, and
   * its offset, limits, packed and unpacked positions and maximum speed come
   * from the entry for key `id` (index id - 1). The measured and desired
   * positions start at 0.
   */
  function MakeJoint(params: Parameters, legNumber: nat, id: nat, referenceLink: nat): (j: Joint)
    requires LegParametersPresent(params, legNumber)
    requires 1 <= id <= NumJoints(params, legNumber)
    ensures j.id == id && j.referenceLink == referenceLink
    ensures j.name == params.legIds[legNumber] + "_" + params.jointIds[id - 1] + "_joint"
    ensures var e := params.jointParameters[legNumber][id - 1];
            j.positionOffset == e.offset && j.minPosition == e.min && j.maxPosition == e.max &&
            j.packedPosition == e.packed && j.unpackedPosition == e.unpacked && j.maxAngularSpeed == e.maxVel
    ensures j.currentPosition == j.currentVelocity == j.currentEffort == 0.0
    ensures j.desiredPosition == j.prevDesiredPosition == 0.0
  {
    var p := params.jointParameters[legNumber][id - 1];
    Joint(id, params.legIds[legNumber] + "_" + params.jointIds[id - 1] + "_joint", referenceLink,
          p.offset, p.min, p.max, p.packed, p.unpacked, p.maxVel,
          0.0, 0.0, 0.0, 0.0, 0.0)
  }

  /**
   * Link with key `id` of leg `legNumber`, moved by the joint with key
   * `actuatingJoint`: its name joins the leg name and the link's own name, and
   * its Denavit-Hartenberg parameters come from the entry for key `id`.
   */
  function MakeLink(params: Parameters, legNumber: nat, id: nat, actuatingJoint: Option<nat>): (l: Link)
    requires LegParametersPresent(params, legNumber)
    requires id <= NumJoints(params, legNumber)
    ensures l.id == id && l.actuatingJoint == actuatingJoint
    ensures l.name == params.legIds[legNumber] + "_" + params.linkIds[id] + "_link"
    ensures var e := params.linkParameters[legNumber][id];
            l.length == e.r && l.angle == e.theta && l.offset == e.d && l.twist == e.alpha
  {
    var p := params.linkParameters[legNumber][id];
    Link(id, params.legIds[legNumber] + "_" + params.linkIds[id] + "_link", actuatingJoint,
         p.r, p.theta, p.d, p.alpha)
  }

  /**
   * Joint names within a leg are as distinct as the joint names in the
   * parameters: two joints share a name exactly when their entries do.
   */
  lemma JointNamesDistinct(params: Parameters, legNumber: nat, a: nat, b: nat, ra: nat, rb: nat)
    requires LegParametersPresent(params, legNumber)
    requires 1 <= a <= NumJoints(params, legNumber) && 1 <= b <= NumJoints(params, legNumber)
    ensures MakeJoint(params, legNumber, a, ra).name == MakeJoint(params, legNumber, b, rb).name <==>
              params.jointIds[a - 1] == params.jointIds[b - 1]
  {
    JoinInjective(params.legIds[legNumber] + "_", params.jointIds[a - 1], params.jointIds[b - 1], "_joint");
  }

  /** Link names within a leg share a name exactly when their entries in the parameters do. */
  lemma LinkNamesDistinct(params: Parameters, legNumber: nat, a: nat, b: nat, ja: Option<nat>, jb: Option<nat>)
    requires LegParametersPresent(params, legNumber)
    requires a <= NumJoints(params, legNumber) && b <= NumJoints(params, legNumber)
    ensures MakeLink(params, legNumber, a, ja).name == MakeLink(params, legNumber, b, jb).name <==>
              params.linkIds[a] == params.linkIds[b]
  {
    JoinInjective(params.legIds[legNumber] + "_", params.linkIds[a], params.linkIds[b], "_link");
  }

  /** A name built as prefix + part + suffix determines its part. */
  lemma JoinInjective(prefix: string, x: string, y: string, suffix: string)
    ensures prefix + x + suffix == prefix + y + suffix <==> x == y
  {
    if prefix + x + suffix == prefix + y + suffix {
      assert |x| == |y|;
      assert x == (prefix + x + suffix)[|prefix|..|prefix| + |x|];
    }
  }

  /**
   * Every joint and link entry the leg uses is marked initialised; otherwise
   * the source requests shutdown. Read per key: joint keys 1..n and link keys
   * 0..n each find an initialised entry.
   */
  predicate ChainInitialised(params: Parameters, legNumber: nat)
    requires LegParametersPresent(params, legNumber)
    ensures var joints, links := params.jointParameters[legNumber], params.linkParameters[legNumber];
            ChainInitialised(params, legNumber) <==>
              forall id | 0 <= id <= NumJoints(params, legNumber) ::
                links[id].initialised && (id >= 1 ==> joints[id - 1].initialised)
  {
    var joints, links, n := params.jointParameters[legNumber], params.linkParameters[legNumber], NumJoints(params, legNumber);
    EntriesByKey(joints, links, n);
    (forall k :: 0 <= k < n ==> joints[k].initialised) && (forall k :: 0 <= k <= n ==> links[k].initialised)
  }

  /** Joint entries are read at index key - 1, link entries at index key. */
  lemma EntriesByKey(joints: seq<JointParameters>, links: seq<LinkParameters>, n: nat)
    requires n <= |joints| && n + 1 <= |links|
    ensures ((forall k :: 0 <= k < n ==> joints[k].initialised) &&
             (forall k :: 0 <= k <= n ==> links[k].initialised)) <==>
            forall id | 0 <= id <= n :: links[id].initialised && (id >= 1 ==> joints[id - 1].initialised)
  {
    if forall id | 0 <= id <= n :: links[id].initialised && (id >= 1 ==> joints[id - 1].initialised) {
      forall k | 0 <= k < n ensures joints[k].initialised {
        assert links[k + 1].initialised && joints[k + 1 - 1].initialised;
      }
    }
  }

  /**
   * The chain invariant: joint key k (index k - 1) refers to link k - 1, link k
   * is moved by joint k, the base link by none, and the tip refers to the last link.
   */
  ghost predicate Wired(joints: seq<Joint>, links: seq<Link>, tip: Tip) {
    |links| == |joints| + 1 &&
    (forall k :: 0 <= k < |joints| ==> joints[k].id == k + 1 && joints[k].referenceLink == k) &&
    (forall k :: 0 <= k < |links| ==> links[k].id == k) &&
    links[0].actuatingJoint == None &&
    (forall k :: 1 <= k < |links| ==> links[k].actuatingJoint == Some(k)) &&
    tip.referenceLink == |joints|
  }

  /** (-1)^e as the source's `pow(-1.0, e)`, for a natural exponent. */
  function Pow(base: real, exponent: nat): real {
    if exponent == 0 then 1.0 else base * Pow(base, exponent - 1)
  }

  /** The mirror direction `pow(-1.0, id % 2 + 1)` is -1 for even leg numbers and +1 for odd ones. */
  lemma MirrorDirection(id: nat)
    ensures Pow(-1.0, id % 2 + 1) == if id % 2 == 0 then -1.0 else 1.0
  {
  }

  // ---------------------------------------------------------------------------
  // Clamping and initialisation
  // ---------------------------------------------------------------------------

  /** The source's clamp: below `lo` gives `lo`, otherwise above `hi` gives `hi`, otherwise the value. */
  function Clamp(value: real, lo: real, hi: real): (r: real)
    ensures r == value || r == lo || r == hi
    ensures lo <= hi ==> lo <= r <= hi
    ensures lo <= value <= hi ==> r == value
  {
    if value < lo then lo else if value > hi then hi else value
  }

  /** The angle each joint takes when the maximum virtual leg length is computed: 0 clamped into its limits. */
  function ZeroPose(joints: seq<Joint>): (angles: seq<real>)
    ensures |angles| == |joints|
    ensures forall k :: 0 <= k < |joints| && joints[k].minPosition <= joints[k].maxPosition ==>
              joints[k].minPosition <= angles[k] <= joints[k].maxPosition
    ensures forall k :: 0 <= k < |joints| && joints[k].minPosition <= 0.0 <= joints[k].maxPosition ==>
              angles[k] == 0.0
  {
    seq(|joints|, k requires 0 <= k < |joints| => Clamp(0.0, joints[k].minPosition, joints[k].maxPosition))
  }

  /** Desired joint positions in key order: the joint vector forward kinematics reads. */
  function DesiredPositions(joints: seq<Joint>): (q: seq<real>)
    ensures |q| == |joints|
  {
    seq(|joints|, k requires 0 <= k < |joints| => joints[k].desiredPosition)
  }

  /** Joint efforts in key order: the torque vector the tip force estimate multiplies. */
  function Efforts(joints: seq<Joint>): (e: seq<real>)
    ensures |e| == |joints|
  {
    seq(|joints|, k requires 0 <= k < |joints| => joints[k].currentEffort)
  }

  /** What `Leg::init` does to one joint. */
  function InitJoint(j: Joint, useDefault: bool): (r: Joint)
    ensures r.desiredPosition == r.prevDesiredPosition == r.currentPosition
    ensures useDefault ==>
              r.currentPosition == Clamp(0.0, j.minPosition, j.maxPosition) &&
              r.currentVelocity == 0.0 && r.currentEffort == 0.0
    ensures !useDefault ==>
              r.currentPosition == j.currentPosition &&
              r.currentVelocity == j.currentVelocity && r.currentEffort == j.currentEffort
    ensures r.(currentPosition := j.currentPosition, currentVelocity := j.currentVelocity,
               currentEffort := j.currentEffort, desiredPosition := j.desiredPosition,
               prevDesiredPosition := j.prevDesiredPosition) == j
  {
    var c := if useDefault
      then j.(currentPosition := Clamp(0.0, j.minPosition, j.maxPosition), currentVelocity := 0.0, currentEffort := 0.0)
      else j;
    c.(desiredPosition := c.currentPosition, prevDesiredPosition := c.currentPosition)
  }

  /**
   * What `Leg::init` does to the whole chain: every joint's desired and
   * previous desired positions start at its current position; with defaults
   * every joint sits at rest within its ordered limits, otherwise every joint
   * keeps its measured state; limits, names and keys are kept.
   */
  function InitJoints(joints: seq<Joint>, useDefault: bool): (r: seq<Joint>)
    ensures |r| == |joints|
    ensures forall k :: 0 <= k < |r| ==>
              r[k].desiredPosition == r[k].prevDesiredPosition == r[k].currentPosition
    ensures useDefault ==> WithinLimits(r)
    ensures useDefault ==> forall k :: 0 <= k < |r| ==> r[k].currentVelocity == 0.0 && r[k].currentEffort == 0.0
    ensures !useDefault ==> forall k :: 0 <= k < |r| ==> r[k].currentPosition == joints[k].currentPosition
    ensures forall k :: 0 <= k < |r| ==>
              r[k].id == joints[k].id && r[k].name == joints[k].name &&
              r[k].minPosition == joints[k].minPosition && r[k].maxPosition == joints[k].maxPosition
  {
    seq(|joints|, k requires 0 <= k < |joints| => InitJoint(joints[k], useDefault))
  }

  // ---------------------------------------------------------------------------
  // The joint update of an inverse kinematics step
  // ---------------------------------------------------------------------------

  /** What one iteration of `Leg::applyIK`'s update loop does to a joint, given its delta. */
  function IKUpdateJoint(j: Joint, delta: real, clampToLimits: bool): (r: Joint)
    ensures r == j.(desiredPosition := r.desiredPosition)
    ensures !clampToLimits ==> r.desiredPosition == j.prevDesiredPosition + delta
    ensures clampToLimits && j.prevDesiredPosition + delta < j.minPosition ==> r.desiredPosition == j.minPosition
    ensures clampToLimits && j.minPosition <= j.prevDesiredPosition + delta && j.maxPosition < j.prevDesiredPosition + delta ==>
              r.desiredPosition == j.maxPosition
    ensures clampToLimits && j.minPosition <= j.prevDesiredPosition + delta <= j.maxPosition ==>
              r.desiredPosition == j.prevDesiredPosition + delta
  {
    var target := j.prevDesiredPosition + delta;
    j.(desiredPosition := if clampToLimits then Clamp(target, j.minPosition, j.maxPosition) else target)
  }

  /**
   * The update of a whole chain. With clamping every joint with ordered limits
   * ends within them; without clamping every desired position is exactly the
   * previous desired position plus its delta; every other field is kept.
   */
  function IKUpdate(joints: seq<Joint>, delta: seq<real>, clampToLimits: bool): (r: seq<Joint>)
    requires |delta| == |joints|
    ensures |r| == |joints|
    ensures clampToLimits ==> WithinLimits(r)
    ensures !clampToLimits ==> forall k :: 0 <= k < |joints| ==>
              r[k].desiredPosition == joints[k].prevDesiredPosition + delta[k]
    ensures forall k :: 0 <= k < |joints| ==> r[k] == joints[k].(desiredPosition := r[k].desiredPosition)
  {
    seq(|joints|, k requires 0 <= k < |joints| => IKUpdateJoint(joints[k], delta[k], clampToLimits))
  }

  /** Joint limits hold for every joint whose limits are ordered. */
  ghost predicate WithinLimits(joints: seq<Joint>) {
    forall k :: 0 <= k < |joints| && joints[k].minPosition <= joints[k].maxPosition ==>
      joints[k].minPosition <= joints[k].desiredPosition <= joints[k].maxPosition
  }

  /**
   * The warning, if any, that updating joint `j` logs: at most one, naming the
   * joint and the limit it was clamped to, logged exactly when clamping
   * changed the desired position.
   */
  function WarningFor(j: Joint, delta: real, clampToLimits: bool): (r: seq<LimitWarning>)
    ensures |r| <= 1
    ensures forall w :: w in r ==> w.jointId == j.id && w.limit == IKUpdateJoint(j, delta, clampToLimits).desiredPosition
    ensures |r| == 1 <==> IKUpdateJoint(j, delta, clampToLimits).desiredPosition != j.prevDesiredPosition + delta
  {
    var target := j.prevDesiredPosition + delta;
    if !clampToLimits then []
    else if target < j.minPosition then [BelowMin(j.id, j.minPosition)]
    else if target > j.maxPosition then [AboveMax(j.id, j.maxPosition)]
    else []
  }

  /** The warnings an update loop over `joints` logs, in the loop's order: at most one per joint, none without clamping. */
  function LimitWarnings(joints: seq<Joint>, delta: seq<real>, clampToLimits: bool): (r: seq<LimitWarning>)
    requires |delta| == |joints|
    ensures |r| <= |joints|
    ensures !clampToLimits ==> r == []
  {
    if |joints| == 0 then []
    else
      var n := |joints| - 1;
      LimitWarnings(joints[..n], delta[..n], clampToLimits) + WarningFor(joints[n], delta[n], clampToLimits)
  }

  /** Each warning names one of the joints. */
  lemma {:induction false} LimitWarningsNameJoints(joints: seq<Joint>, delta: seq<real>, clampToLimits: bool)
    requires |delta| == |joints|
    ensures forall w | w in LimitWarnings(joints, delta, clampToLimits) :: NamesOneOf(w, joints)
  {
    if |joints| > 0 {
      var n := |joints| - 1;
      var pre := joints[..n];
      var before := LimitWarnings(pre, delta[..n], clampToLimits);
      LimitWarningsNameJoints(pre, delta[..n], clampToLimits);
      var last := WarningFor(joints[n], delta[n], clampToLimits);
      assert LimitWarnings(joints, delta, clampToLimits) == before + last;
      forall w | w in before + last ensures NamesOneOf(w, joints) {
        if w in before {
          var k :| 0 <= k < n && w.jointId == pre[k].id;
          assert w.jointId == joints[k].id;
        } else {
          assert w.jointId == joints[n].id;
        }
      }
    }
  }

  /**
   * The warnings come in the loop's order: over joints with increasing keys
   * the named keys increase strictly, so no joint is named twice.
   */
  lemma {:induction false} LimitWarningsInKeyOrder(joints: seq<Joint>, delta: seq<real>, clampToLimits: bool)
    requires |delta| == |joints| && KeysIncreasing(joints)
    ensures InKeyOrder(LimitWarnings(joints, delta, clampToLimits))
  {
    if |joints| > 0 {
      var n := |joints| - 1;
      var pre := joints[..n];
      var before := LimitWarnings(pre, delta[..n], clampToLimits);
      LimitWarningsInKeyOrder(pre, delta[..n], clampToLimits);
      LimitWarningsNameJoints(pre, delta[..n], clampToLimits);
      var last := WarningFor(joints[n], delta[n], clampToLimits);
      var r := before + last;
      assert r == LimitWarnings(joints, delta, clampToLimits);
      forall i, j | 0 <= i < j < |r| ensures r[i].jointId < r[j].jointId {
        if j >= |before| {
          assert r[j] in last && before[i] in before;
          var k :| 0 <= k < n && before[i].jointId == pre[k].id;
          assert r[i].jointId == joints[k].id;
        }
      }
    }
  }

  /** The named keys increase strictly along the warnings. */
  ghost predicate InKeyOrder(ws: seq<LimitWarning>) {
    forall i, j | 0 <= i < j < |ws| :: ws[i].jointId < ws[j].jointId
  }

  /** The warning names the joint of one of `joints`. */
  ghost predicate NamesOneOf(w: LimitWarning, joints: seq<Joint>) {
    exists k | 0 <= k < |joints| :: w.jointId == joints[k].id
  }

  /** The joints' keys increase along the chain, as keys 1..n do. */
  ghost predicate KeysIncreasing(joints: seq<Joint>) {
    forall a, b | 0 <= a < b < |joints| :: joints[a].id < joints[b].id
  }

  /** Some warning in `ws` names the joint with key `id`. */
  ghost predicate Warned(ws: seq<LimitWarning>, id: nat) {
    exists w: LimitWarning :: w in ws && w.jointId == id
  }

  /**
   * Clamping is observable: when the joints carry keys 1..n, every warning
   * names one of them and the limit its desired position was clamped to, and
   * the joint with key k + 1 is named exactly when clamping changed its
   * desired position.
   */
  lemma {:induction false} LimitWarningsExact(joints: seq<Joint>, delta: seq<real>, clampToLimits: bool)
    requires |delta| == |joints|
    requires forall k :: 0 <= k < |joints| ==> joints[k].id == k + 1
    ensures forall w :: w in LimitWarnings(joints, delta, clampToLimits) ==>
              1 <= w.jointId <= |joints| &&
              w.limit == IKUpdateJoint(joints[w.jointId - 1], delta[w.jointId - 1], clampToLimits).desiredPosition
    ensures forall k :: 0 <= k < |joints| ==>
              (Warned(LimitWarnings(joints, delta, clampToLimits), k + 1) <==>
               IKUpdateJoint(joints[k], delta[k], clampToLimits).desiredPosition != joints[k].prevDesiredPosition + delta[k])
  {
    if |joints| > 0 {
      var n := |joints| - 1;
      var pre, dpre := joints[..n], delta[..n];
      LimitWarningsExact(pre, dpre, clampToLimits);
      var w0 := LimitWarnings(pre, dpre, clampToLimits);
      var last := WarningFor(joints[n], delta[n], clampToLimits);
      assert LimitWarnings(joints, delta, clampToLimits) == w0 + last;
      forall k | 0 <= k < |joints|
        ensures Warned(w0 + last, k + 1) <==>
                IKUpdateJoint(joints[k], delta[k], clampToLimits).desiredPosition != joints[k].prevDesiredPosition + delta[k]
      {
        if k < n {
          assert joints[k] == pre[k] && delta[k] == dpre[k];
          if Warned(w0 + last, k + 1) {
            var w: LimitWarning :| w in w0 + last && w.jointId == k + 1;
            assert w in w0;
          } else {
            assert !Warned(w0, k + 1);
          }
        } else if |last| == 1 {
          assert last[0] in w0 + last;
        } else {
          assert !Warned(w0, k + 1);
        }
      }
    }
  }

  // ---------------------------------------------------------------------------
  // The tolerance check that follows an inverse kinematics step
  // ---------------------------------------------------------------------------

  /** Flags each axis on which the resulting tip position differs from the desired one by more than the tolerance. */
  method ToleranceCheck(result: Vec3, desired: Vec3) returns (exceeded: seq<bool>)
    ensures |exceeded| == 3
    ensures forall i :: 0 <= i < 3 ==>
              (exceeded[i] <==> Abs(Axis(result, i) - Axis(desired, i)) > IK_TOLERANCE)
  {
    exceeded := [];
    for i := 0 to 3
      invariant |exceeded| == i
      invariant forall k :: 0 <= k < i ==>
                  (exceeded[k] <==> Abs(Axis(result, k) - Axis(desired, k)) > IK_TOLERANCE)
    {
      exceeded := exceeded + [Abs(Axis(result, i) - Axis(desired, i)) > IK_TOLERANCE];
    }
  }

  // ---------------------------------------------------------------------------
  // Tip force estimate: a Jacobian times the effort vector
  // ---------------------------------------------------------------------------

  function Dot(a: seq<real>, b: seq<real>): real
    requires |a| == |b|
  {
    if |a| == 0 then 0.0 else a[0] * b[0] + Dot(a[1..], b[1..])
  }

  /** A 3 x n matrix given by its rows, as the Jacobian of a leg with n joints. */
  ghost predicate IsMatrix(m: seq<seq<real>>, columns: nat) {
    |m| == 3 && forall i :: 0 <= i < 3 ==> |m[i]| == columns
  }

  function MatVec(m: seq<seq<real>>, v: seq<real>): Vec3
    requires IsMatrix(m, |v|)
  {
    Vec3(Dot(m[0], v), Dot(m[1], v), Dot(m[2], v))
  }

  function ScaleSeq(c: real, v: seq<real>): (r: seq<real>)
    ensures |r| == |v|
  {
    seq(|v|, i requires 0 <= i < |v| => c * v[i])
  }

  lemma {:induction false} DotScale(a: seq<real>, v: seq<real>, c: real)
    requires |a| == |v|
    ensures Dot(a, ScaleSeq(c, v)) == c * Dot(a, v)
  {
    if |a| > 0 {
      assert ScaleSeq(c, v)[1..] == ScaleSeq(c, v[1..]) by {
        forall i | 0 <= i < |v| - 1 ensures ScaleSeq(c, v)[1..][i] == ScaleSeq(c, v[1..])[i] {
        }
      }
      DotScale(a[1..], v[1..], c);
    }
  }

  /** The tip force estimate is linear in the efforts: scaling every effort by c scales the force by c. */
  lemma TipForceLinear(m: seq<seq<real>>, efforts: seq<real>, c: real)
    requires IsMatrix(m, |efforts|)
    ensures MatVec(m, ScaleSeq(c, efforts)) == Vec3(c * MatVec(m, efforts).x, c * MatVec(m, efforts).y, c * MatVec(m, efforts).z)
  {
    DotScale(m[0], efforts, c);
    DotScale(m[1], efforts, c);
    DotScale(m[2], efforts, c);
  }
}
