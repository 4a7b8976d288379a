/**
 * Automatic body compensation waveforms of src/main.cpp: pitch and roll
 * offsets as piecewise-linear functions of the gait phase. Six keypoints
 * p0..p5 give plateaus at -A on [p0, p1), a ramp on [p1, p2), a plateau at +A
 * on [p2, p3), a ramp on [p3, p4) and a plateau at -A on [p4, p5); a ramp is
 * evaluated as `gradient*phase - gradient*offset` with `offset` the midpoint of
 * its interval. A phase outside every interval leaves the source's result
 * unassigned; here it yields None.
 */
module BodyCompensation {
  import opened Wrappers
  import opened Geometry

  datatype Keypoint = Keypoint(phase: real, value: real)

  /** The walk controller parameters the waveforms read. */
  datatype GaitParameters = GaitParameters(
    stancePhase: real,
    swingPhase: real,
    phaseOffset: real,
    pitchAmplitude: real,
    rollAmplitude: real)

  function PhaseLength(g: GaitParameters): real {
    g.stancePhase + g.swingPhase
  }

  /**
   * Keypoints of the pitch waveform, with buffer = phaseOffset / 2: the inner
   * four sit at L/6, 2L/6, 4L/6 and 5L/6 shifted by the buffer, so both ramps
   * last L/6, and the values are -A, -A, +A, +A, -A, -A.
   */
  function PitchKeypoints(g: GaitParameters): (p: seq<Keypoint>)
    ensures |p| == 6 && Shape(p, g.pitchAmplitude)
    ensures p[0].phase == 0.0 && p[5].phase == PhaseLength(g)
    ensures p[1].phase == PhaseLength(g) / 6.0 + g.phaseOffset / 2.0
    ensures p[2].phase - p[1].phase == PhaseLength(g) / 6.0
    ensures p[3].phase - p[2].phase == PhaseLength(g) / 3.0
    ensures p[4].phase - p[3].phase == PhaseLength(g) / 6.0
  {
    var L, b, A := PhaseLength(g), g.phaseOffset / 2.0, g.pitchAmplitude;
    [Keypoint(0.0 * L / 6.0, -A),
     Keypoint(1.0 * L / 6.0 + b, -A),
     Keypoint(2.0 * L / 6.0 + b, A),
     Keypoint(4.0 * L / 6.0 + b, A),
     Keypoint(5.0 * L / 6.0 + b, -A),
     Keypoint(6.0 * L / 6.0, -A)]
  }

  /**
   * Keypoints of the roll waveform, with buffer = swingPhase / 2: the ramps
   * start at the buffer and at 3L/6 + buffer and each last L/6 - swingPhase,
   * and the values are -A, -A, +A, +A, -A, -A.
   */
  function RollKeypoints(g: GaitParameters): (p: seq<Keypoint>)
    ensures |p| == 6 && Shape(p, g.rollAmplitude)
    ensures p[0].phase == 0.0 && p[5].phase == PhaseLength(g)
    ensures p[1].phase == g.swingPhase / 2.0
    ensures p[2].phase - p[1].phase == PhaseLength(g) / 6.0 - g.swingPhase
    ensures p[3].phase == PhaseLength(g) / 2.0 + g.swingPhase / 2.0
    ensures p[4].phase - p[3].phase == PhaseLength(g) / 6.0 - g.swingPhase
  {
    var L, b, A := PhaseLength(g), g.swingPhase / 2.0, g.rollAmplitude;
    [Keypoint(0.0 * L / 6.0, -A),
     Keypoint(0.0 * L / 6.0 + b, -A),
     Keypoint(1.0 * L / 6.0 - b, A),
     Keypoint(3.0 * L / 6.0 + b, A),
     Keypoint(4.0 * L / 6.0 - b, -A),
     Keypoint(6.0 * L / 6.0, -A)]
  }

  /**
   * The source's ramp between two keypoints. It crosses zero at the midpoint
   * of its interval and reaches -(rise)/2 and +(rise)/2 at its two ends;
   * between keypoints of values -A and +A (in either order) it therefore
   * meets both neighbouring plateaus.
   */
  function Ramp(lo: Keypoint, hi: Keypoint, phase: real): (r: real)
    requires lo.phase < hi.phase
    ensures phase == lo.phase ==> r == (lo.value - hi.value) / 2.0
    ensures phase == hi.phase ==> r == (hi.value - lo.value) / 2.0
    ensures phase == (lo.phase + hi.phase) / 2.0 ==> r == 0.0
  {
    var gradient := (hi.value - lo.value) / (hi.phase - lo.phase);
    var offset := (hi.phase - lo.phase) / 2.0 + lo.phase;
    assert gradient * (hi.phase - lo.phase) == hi.value - lo.value;
    assert gradient * phase - gradient * offset == gradient * (phase - lo.phase) - gradient * (hi.phase - lo.phase) / 2.0;
    gradient * phase - gradient * offset
  }

  /**
   * The if-chain of the source: the first half-open interval holding `phase`
   * decides; a phase in none of the five intervals leaves the value unassigned.
   */
  function Interpolate(p: seq<Keypoint>, phase: real): (r: Option<real>)
    requires |p| == 6
    ensures r.None? <==> forall i :: 0 <= i < 5 ==> !(p[i].phase <= phase < p[i + 1].phase)
  {
    FiveIntervals(p, phase);
    if p[0].phase <= phase < p[1].phase then Some(p[0].value)
    else if p[1].phase <= phase < p[2].phase then Some(Ramp(p[1], p[2], phase))
    else if p[2].phase <= phase < p[3].phase then Some(p[2].value)
    else if p[3].phase <= phase < p[4].phase then Some(Ramp(p[3], p[4], phase))
    else if p[4].phase <= phase < p[5].phase then Some(p[4].value)
    else None
  }

  /** Lets the five interval tests be read as one quantifier. */
  lemma FiveIntervals(p: seq<Keypoint>, phase: real)
    requires |p| == 6
    ensures (forall i :: 0 <= i < 5 ==> !(p[i].phase <= phase < p[i + 1].phase)) <==>
              !(p[0].phase <= phase < p[1].phase) && !(p[1].phase <= phase < p[2].phase) &&
              !(p[2].phase <= phase < p[3].phase) && !(p[3].phase <= phase < p[4].phase) &&
              !(p[4].phase <= phase < p[5].phase)
  {
    if !(p[0].phase <= phase < p[1].phase) && !(p[1].phase <= phase < p[2].phase) &&
       !(p[2].phase <= phase < p[3].phase) && !(p[3].phase <= phase < p[4].phase) &&
       !(p[4].phase <= phase < p[5].phase) {
      forall i | 0 <= i < 5 ensures !(p[i].phase <= phase < p[i + 1].phase) {
        if i == 0 {} else if i == 1 {} else if i == 2 {} else if i == 3 {}
      }
    }
  }

  /**
   * `getPitchCompensation`: the pitch offset at the given phase of leg 0's
   * stepper; whatever the gait, an assigned offset lies within the amplitude.
   */
  function PitchCompensation(g: GaitParameters, phase: real): (r: Option<real>)
    ensures g.pitchAmplitude >= 0.0 && r.Some? ==> -g.pitchAmplitude <= r.value <= g.pitchAmplitude
  {
    Bounded(PitchKeypoints(g), g.pitchAmplitude, phase);
    Interpolate(PitchKeypoints(g), phase)
  }

  /**
   * `getTiltCompensation`: the roll offset at the given phase of leg 0's
   * stepper; whatever the gait, an assigned offset lies within the amplitude.
   */
  function TiltCompensation(g: GaitParameters, phase: real): (r: Option<real>)
    ensures g.rollAmplitude >= 0.0 && r.Some? ==> -g.rollAmplitude <= r.value <= g.rollAmplitude
  {
    Bounded(RollKeypoints(g), g.rollAmplitude, phase);
    Interpolate(RollKeypoints(g), phase)
  }

  // ---------------------------------------------------------------------------
  // Shape of a waveform
  // ---------------------------------------------------------------------------

  ghost predicate Ordered(p: seq<Keypoint>) {
    |p| == 6 && forall i :: 0 <= i < 5 ==> p[i].phase <= p[i + 1].phase
  }

  ghost predicate Increasing(p: seq<Keypoint>) {
    |p| == 6 && forall i :: 0 <= i < 5 ==> p[i].phase < p[i + 1].phase
  }

  lemma IncreasingIff(p: seq<Keypoint>)
    requires |p| == 6
    ensures Increasing(p) <==>
              p[0].phase < p[1].phase && p[1].phase < p[2].phase && p[2].phase < p[3].phase &&
              p[3].phase < p[4].phase && p[4].phase < p[5].phase
  {
    if p[0].phase < p[1].phase && p[1].phase < p[2].phase && p[2].phase < p[3].phase &&
       p[3].phase < p[4].phase && p[4].phase < p[5].phase {
      forall i | 0 <= i < 5 ensures p[i].phase < p[i + 1].phase {
        if i == 0 {} else if i == 1 {} else if i == 2 {} else if i == 3 {}
      }
    }
  }

  /** Values -A, -A, +A, +A, -A, -A, as both waveforms have. */
  ghost predicate Shape(p: seq<Keypoint>, A: real) {
    |p| == 6 &&
    p[0].value == -A && p[1].value == -A && p[2].value == A &&
    p[3].value == A && p[4].value == -A && p[5].value == -A
  }

  /** With ordered keypoints a value is assigned exactly on [p0, p5). */
  lemma DefinedIff(p: seq<Keypoint>, phase: real)
    requires Ordered(p)
    ensures Interpolate(p, phase).Some? <==> p[0].phase <= phase < p[5].phase
  {
    assert p[0].phase <= p[1].phase <= p[2].phase <= p[3].phase <= p[4].phase <= p[5].phase;
  }

  /** Whatever the keypoint phases, every value assigned lies within [-A, A]. */
  lemma {:induction false} Bounded(p: seq<Keypoint>, A: real, phase: real)
    requires Shape(p, A)
    ensures A >= 0.0 && Interpolate(p, phase).Some? ==> -A <= Interpolate(p, phase).value <= A
  {
    if A < 0.0 {
    } else if p[1].phase <= phase < p[2].phase && !(p[0].phase <= phase < p[1].phase) {
      RampWithin(p[1], p[2], A, phase);
    } else if p[3].phase <= phase < p[4].phase && !(p[0].phase <= phase < p[1].phase)
              && !(p[1].phase <= phase < p[2].phase) && !(p[2].phase <= phase < p[3].phase) {
      RampWithin(p[3], p[4], A, phase);
    }
  }

  /** On its own interval a ramp between -A and +A stays within [-A, A]. */
  lemma RampWithin(lo: Keypoint, hi: Keypoint, A: real, phase: real)
    requires lo.phase <= phase < hi.phase && A >= 0.0
    requires (lo.value == -A && hi.value == A) || (lo.value == A && hi.value == -A)
    ensures -A <= Ramp(lo, hi, phase) <= A
  {
    var t := (phase - lo.phase) / (hi.phase - lo.phase);
    FractionBounds(phase - lo.phase, hi.phase - lo.phase);
    RampLinear(lo, hi, phase);
    ScaledFraction(2.0 * A, t);
    if lo.value == -A {
      assert Ramp(lo, hi, phase) == -A + (2.0 * A) * t;
    } else {
      assert Ramp(lo, hi, phase) == A - (2.0 * A) * t;
    }
  }

  /** 0 <= a < w gives 0 <= a / w < 1. */
  lemma FractionBounds(a: real, w: real)
    requires 0.0 <= a < w
    ensures 0.0 <= a / w < 1.0
  {
    assert (a / w) * w == a;
  }

  /** 0 <= t <= 1 and c >= 0 give 0 <= c * t <= c. */
  lemma ScaledFraction(c: real, t: real)
    requires c >= 0.0 && 0.0 <= t <= 1.0
    ensures 0.0 <= c * t <= c
  {
    assert c * (1.0 - t) >= 0.0;
  }

  /** A ramp starts at -(rise)/2 on its left keypoint and rises linearly in the phase. */
  lemma RampLinear(lo: Keypoint, hi: Keypoint, phase: real)
    requires lo.phase < hi.phase
    ensures Ramp(lo, hi, phase) ==
              (lo.value - hi.value) / 2.0 + (hi.value - lo.value) * ((phase - lo.phase) / (hi.phase - lo.phase))
  {
    var w := hi.phase - lo.phase;
    var gradient := (hi.value - lo.value) / w;
    var t := (phase - lo.phase) / w;
    assert gradient * w == hi.value - lo.value;
    assert phase - lo.phase == t * w;
    calc {
      Ramp(lo, hi, phase);
      gradient * (phase - lo.phase) - gradient * w / 2.0;
      gradient * (t * w) - (hi.value - lo.value) / 2.0;
      (gradient * w) * t - (hi.value - lo.value) / 2.0;
    }
  }

  // ---------------------------------------------------------------------------
  // Continuity at the ramp ends
  // ---------------------------------------------------------------------------

  /** A ramp whose rise over its width is s starts at -(rise)/2 on `start`, its left keypoint, and climbs with slope s. */
  lemma RampFrom(lo: Keypoint, hi: Keypoint, phase: real, s: real, start: real)
    requires lo.phase < hi.phase && start == lo.phase
    requires s * (hi.phase - lo.phase) == hi.value - lo.value
    ensures Ramp(lo, hi, phase) == (lo.value - hi.value) / 2.0 + s * (phase - start)
  {
    var w := hi.phase - lo.phase;
    RampLinear(lo, hi, phase);
    assert s == (hi.value - lo.value) / w;
    ScaleFraction(hi.value - lo.value, phase - lo.phase, w);
  }

  /** (c * a) / w == (c / w) * a for w != 0. */
  lemma ScaleFraction(c: real, a: real, w: real)
    requires w != 0.0
    ensures c * (a / w) == (c / w) * a
  {
    assert (a / w) * w == a;
    assert (c / w) * w == c;
  }

  /** 2A over a sixth of L is 12A over L. */
  lemma SlopeOfSixth(A: real, w: real, L: real)
    requires L > 0.0 && w == L / 6.0
    ensures 2.0 * A / w == 12.0 * A / L
    ensures (12.0 * A / L) * w == 2.0 * A
  {
    assert (12.0 * A / L) * L == 12.0 * A;
    assert (2.0 * A / w) * w == 2.0 * A;
  }

  /**
   * With strictly increasing keypoints each ramp starts on the value of the
   * plateau before it and ends on the value of the plateau after it, so the
   * waveform has no jump at p1, p2, p3 or p4.
   */
  lemma JoinsAtKeypoints(p: seq<Keypoint>, A: real)
    requires Increasing(p) && Shape(p, A)
    ensures Interpolate(p, p[1].phase) == Some(-A) && Ramp(p[1], p[2], p[1].phase) == -A
    ensures Ramp(p[1], p[2], p[2].phase) == A && Interpolate(p, p[2].phase) == Some(A)
    ensures Interpolate(p, p[3].phase) == Some(A) && Ramp(p[3], p[4], p[3].phase) == A
    ensures Ramp(p[3], p[4], p[4].phase) == -A && Interpolate(p, p[4].phase) == Some(-A)
  {
  }

  // ---------------------------------------------------------------------------
  // The pitch waveform
  // ---------------------------------------------------------------------------

  /** The pitch keypoints increase strictly exactly when L > 0 and |phaseOffset| < L/3. */
  lemma PitchKeypointsIncreasing(g: GaitParameters)
    ensures Increasing(PitchKeypoints(g)) <==>
              PhaseLength(g) > 0.0 && -PhaseLength(g) / 3.0 < g.phaseOffset < PhaseLength(g) / 3.0
  {
    IncreasingIff(PitchKeypoints(g));
  }

  /**
   * Pitch is -A on [0, L/6 + buffer), +A on [2L/6 + buffer, 4L/6 + buffer)
   * and -A on [5L/6 + buffer, L), for any non-negative phase length.
   */
  lemma PitchPlateaus(g: GaitParameters, phase: real)
    requires PhaseLength(g) >= 0.0
    ensures var L, b := PhaseLength(g), g.phaseOffset / 2.0;
            (0.0 <= phase < L / 6.0 + b ==> PitchCompensation(g, phase) == Some(-g.pitchAmplitude)) &&
            (2.0 * L / 6.0 + b <= phase < 4.0 * L / 6.0 + b ==> PitchCompensation(g, phase) == Some(g.pitchAmplitude)) &&
            (5.0 * L / 6.0 + b <= phase < L ==> PitchCompensation(g, phase) == Some(-g.pitchAmplitude))
  {
  }

  /** Slope of both pitch ramps: 2A over a ramp width of L/6. */
  function PitchSlope(g: GaitParameters): real
    requires PhaseLength(g) > 0.0
  {
    12.0 * g.pitchAmplitude / PhaseLength(g)
  }

  /**
   * Pitch ramps: on [p1, p2) = [L/6 + b, 2L/6 + b) the value is -A plus
   * 12A/L times the distance from p1, and it is 0 at the midpoint.
   */
  lemma PitchRisingRamp(g: GaitParameters, phase: real)
    requires PhaseLength(g) > 0.0
    ensures var p, L, b := PitchKeypoints(g), PhaseLength(g), g.phaseOffset / 2.0;
            p[1].phase == L / 6.0 + b && p[2].phase == 2.0 * L / 6.0 + b &&
            (p[1].phase <= phase < p[2].phase ==>
               PitchCompensation(g, phase) == Some(-g.pitchAmplitude + PitchSlope(g) * (phase - p[1].phase))) &&
            PitchCompensation(g, 1.5 * L / 6.0 + b) == Some(0.0)
  {
    SlopeOfSixth(g.pitchAmplitude, PitchKeypoints(g)[2].phase - PitchKeypoints(g)[1].phase, PhaseLength(g));
    RampFrom(PitchKeypoints(g)[1], PitchKeypoints(g)[2], phase, PitchSlope(g), PitchKeypoints(g)[1].phase);
    assert Ramp(PitchKeypoints(g)[1], PitchKeypoints(g)[2], phase) == -g.pitchAmplitude + PitchSlope(g) * (phase - PitchKeypoints(g)[1].phase);
    if PitchKeypoints(g)[1].phase <= phase < PitchKeypoints(g)[2].phase {
      assert PitchCompensation(g, phase) == Some(Ramp(PitchKeypoints(g)[1], PitchKeypoints(g)[2], phase));
    }
  }

  /** On [p3, p4) = [4L/6 + b, 5L/6 + b) pitch is +A minus 12A/L times the distance from p3, and 0 at the midpoint. */
  lemma PitchFallingRamp(g: GaitParameters, phase: real)
    requires PhaseLength(g) > 0.0
    ensures var p, L, b := PitchKeypoints(g), PhaseLength(g), g.phaseOffset / 2.0;
            p[3].phase == 4.0 * L / 6.0 + b && p[4].phase == 5.0 * L / 6.0 + b &&
            (p[3].phase <= phase < p[4].phase ==>
               PitchCompensation(g, phase) == Some(g.pitchAmplitude - PitchSlope(g) * (phase - p[3].phase))) &&
            PitchCompensation(g, 4.5 * L / 6.0 + b) == Some(0.0)
  {
    SlopeOfSixth(g.pitchAmplitude, PitchKeypoints(g)[4].phase - PitchKeypoints(g)[3].phase, PhaseLength(g));
    RampFrom(PitchKeypoints(g)[3], PitchKeypoints(g)[4], phase, -PitchSlope(g), PitchKeypoints(g)[3].phase);
    assert Ramp(PitchKeypoints(g)[3], PitchKeypoints(g)[4], phase) == g.pitchAmplitude - PitchSlope(g) * (phase - PitchKeypoints(g)[3].phase);
    if PitchKeypoints(g)[3].phase <= phase < PitchKeypoints(g)[4].phase {
      assert PitchCompensation(g, phase) == Some(Ramp(PitchKeypoints(g)[3], PitchKeypoints(g)[4], phase));
    }
  }

  /** With L >= 0 and |phaseOffset| <= L/3, pitch is defined exactly on [0, L) and lies within [-A, A] for A >= 0. */
  lemma PitchDefinedAndBounded(g: GaitParameters, x: real)
    requires PhaseLength(g) >= 0.0 && -PhaseLength(g) / 3.0 <= g.phaseOffset <= PhaseLength(g) / 3.0
    requires g.pitchAmplitude >= 0.0
    ensures PitchCompensation(g, x).Some? <==> 0.0 <= x < PhaseLength(g)
    ensures PitchCompensation(g, x).Some? ==>
              -g.pitchAmplitude <= PitchCompensation(g, x).value <= g.pitchAmplitude
  {
    var p := PitchKeypoints(g);
    assert Ordered(p) by {
      forall i | 0 <= i < 5 ensures p[i].phase <= p[i + 1].phase {
        if i == 0 {} else if i == 1 {} else if i == 2 {} else if i == 3 {}
      }
    }
    DefinedIff(p, x);
  }

  /** An example: L = 1, amplitude 1, phase offset 0.2 gives -1 at phase 0 and +1 at phase 0.5. */
  lemma PitchExample()
    ensures var g := GaitParameters(0.5, 0.5, 0.2, 1.0, 0.0);
            PitchCompensation(g, 0.0) == Some(-1.0) && PitchCompensation(g, 0.5) == Some(1.0)
  {
  }

  // ---------------------------------------------------------------------------
  // The roll waveform
  // ---------------------------------------------------------------------------

  /**
   * The roll keypoints increase strictly exactly when 0 < swingPhase and
   * 5 * swingPhase < stancePhase; otherwise a ramp interval is empty and the
   * roll waveform jumps between -A and +A.
   */
  lemma RollKeypointsIncreasing(g: GaitParameters)
    ensures Increasing(RollKeypoints(g)) <==> 0.0 < g.swingPhase && 5.0 * g.swingPhase < g.stancePhase
  {
    IncreasingIff(RollKeypoints(g));
  }

  /**
   * With increasing keypoints roll is -A on [0, buffer), +A on
   * [L/6 - buffer, 3L/6 + buffer) and -A on [4L/6 - buffer, L), is defined
   * exactly on [0, L) and stays within [-A, A] for A >= 0.
   */
  lemma RollShape(g: GaitParameters, x: real)
    requires 0.0 < g.swingPhase && 5.0 * g.swingPhase < g.stancePhase && g.rollAmplitude >= 0.0
    ensures var L, b, A := PhaseLength(g), g.swingPhase / 2.0, g.rollAmplitude;
            (0.0 <= x < b ==> TiltCompensation(g, x) == Some(-A)) &&
            (L / 6.0 - b <= x < 3.0 * L / 6.0 + b ==> TiltCompensation(g, x) == Some(A)) &&
            (4.0 * L / 6.0 - b <= x < L ==> TiltCompensation(g, x) == Some(-A)) &&
            (TiltCompensation(g, x).Some? <==> 0.0 <= x < L) &&
            (TiltCompensation(g, x).Some? ==> -A <= TiltCompensation(g, x).value <= A)
  {
    var p := RollKeypoints(g);
    RollKeypointsIncreasing(g);
    assert Ordered(p);
    DefinedIff(p, x);
  }

  /** Slope of both roll ramps: 2A over a ramp width of L/6 - swingPhase. */
  function RollSlope(g: GaitParameters): real
    requires PhaseLength(g) / 6.0 - g.swingPhase > 0.0
  {
    2.0 * g.rollAmplitude / (PhaseLength(g) / 6.0 - g.swingPhase)
  }

  /**
   * With increasing keypoints the roll ramps are linear: on
   * [p1, p2) = [b, L/6 - b) roll is -A plus the slope times the distance from
   * p1, and on [p3, p4) = [3L/6 + b, 4L/6 - b) it is +A minus the slope times
   * the distance from p3, where b = swingPhase / 2 and the slope is
   * 2A / (L/6 - swingPhase).
   */
  lemma RollRamps(g: GaitParameters, x: real)
    requires 0.0 < g.swingPhase && 5.0 * g.swingPhase < g.stancePhase
    ensures PhaseLength(g) / 6.0 - g.swingPhase > 0.0
    ensures var p := RollKeypoints(g);
            p[1].phase <= x < p[2].phase ==>
              TiltCompensation(g, x) == Some(-g.rollAmplitude + RollSlope(g) * (x - p[1].phase))
    ensures var p := RollKeypoints(g);
            p[3].phase <= x < p[4].phase ==>
              TiltCompensation(g, x) == Some(g.rollAmplitude - RollSlope(g) * (x - p[3].phase))
  {
    var p := RollKeypoints(g);
    RollRampValues(g, x);
    if p[1].phase <= x < p[2].phase {
      assert TiltCompensation(g, x) == Some(Ramp(p[1], p[2], x));
    }
    if p[3].phase <= x < p[4].phase {
      RollKeypointsIncreasing(g);
      assert p[0].phase < p[1].phase < p[2].phase < p[3].phase;
      assert TiltCompensation(g, x) == Some(Ramp(p[3], p[4], x));
    }
  }

  /** The two roll ramps in closed form, on the whole line. */
  lemma RollRampValues(g: GaitParameters, x: real)
    requires 0.0 < g.swingPhase && 5.0 * g.swingPhase < g.stancePhase
    ensures var p := RollKeypoints(g);
            p[1].phase < p[2].phase && p[3].phase < p[4].phase &&
            Ramp(p[1], p[2], x) == -g.rollAmplitude + RollSlope(g) * (x - p[1].phase) &&
            Ramp(p[3], p[4], x) == g.rollAmplitude - RollSlope(g) * (x - p[3].phase)
  {
    var p := RollKeypoints(g);
    assert RollSlope(g) * (p[2].phase - p[1].phase) == 2.0 * g.rollAmplitude by {
      SlopeTimesWidth(g.rollAmplitude, p[2].phase - p[1].phase);
    }
    assert -RollSlope(g) * (p[4].phase - p[3].phase) == -2.0 * g.rollAmplitude by {
      SlopeTimesWidth(g.rollAmplitude, p[4].phase - p[3].phase);
    }
    RampFrom(p[1], p[2], x, RollSlope(g), p[1].phase);
    RampFrom(p[3], p[4], x, -RollSlope(g), p[3].phase);
  }

  /** A slope of 2A over a width w rises by 2A over that width, and its negation falls by 2A. */
  lemma SlopeTimesWidth(A: real, w: real)
    requires w > 0.0
    ensures (2.0 * A / w) * w == 2.0 * A
    ensures -(2.0 * A / w) * w == -2.0 * A
  {
  }
}
