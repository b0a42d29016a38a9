/**
 * The squat analysis engine: a per-frame state machine over five fields that
 * checks its guards, reads four left-side joints, computes the knee and trunk
 * angles, runs a debounced two-phase repetition detector and grades form on a
 * first-match threshold ladder; plus the two control commands.
 *
 * The pure functions below (`FrameStep`, `ToggleStep`, `ResetStep` and their
 * parts) specify each step on an `AnalysisState` value; the class
 * `SquatAnalyzer` at the end holds the five fields and updates them in place,
 * each method proved to agree with its step function.
 */
module SquatAnalyzer {
  import opened Optional
  import opened AngleUtils

  /** The messages the analyzer shows; one per feedback string the component sets. */
  datatype Feedback =
    | Waiting        // waiting for detection
    | Stopped        // analysis stopped
    | Starting       // starting analysis
    | Incomplete     // body landmarks incomplete
    | KneeOverBent   // knee bent too far
    | NotLowEnough   // squat not low enough
    | ForwardLean    // back leaning too far forward
    | Correct        // form correct
  {
    /** The four outcomes of grading a measured frame. */
    predicate IsFormOutcome() {
      KneeOverBent? || NotLowEnough? || ForwardLean? || Correct?
    }

    /** The text the component displays. */
    function Text(): string {
      match this
      case Waiting => "等待检测中..."
      case Stopped => "分析已停止"
      case Starting => "开始分析..."
      case Incomplete => "身体关键点检测不完整"
      case KneeOverBent => "膝盖弯曲过度"
      case NotLowEnough => "蹲得不够低"
      case ForwardLean => "背部前倾过多"
      case Correct => "动作标准"
    }
  }

  /** One detection cycle: the landmarks by body index, any of them possibly missing. */
  type Frame = seq<Option<Landmark>>

  /** The five pieces of component state. */
  datatype AnalysisState = AnalysisState(
    feedback: Feedback,
    repCount: nat,
    isAnalyzing: bool,
    prevKneeAngle: Option<real>,
    lastRepTime: int)

  /** The state the component mounts with. */
  function InitialState(): AnalysisState {
    AnalysisState(Waiting, 0, true, None, 0)
  }

  // Thresholds of the repetition detector (degrees and milliseconds).
  const DEBOUNCE_MS := 1000
  const STANDING_ABOVE := 160.0
  const SQUATTING_BELOW := 100.0

  // Thresholds of the form ladder (degrees).
  const KNEE_OVER_BENT_BELOW := 70.0
  const NOT_LOW_ENOUGH_ABOVE := 140.0
  const FORWARD_LEAN_ABOVE := 30.0

  // ---------------------------------------------------------------------------
  // Reading the frame

  /** The landmark at index `i`, None when the frame is too short or the entry is absent. */
  function Joint(frame: Frame, i: nat): Option<Landmark> {
    if i < |frame| then frame[i] else None
  }

  /** The entry at index `i` exists and holds a landmark. */
  predicate Present(frame: Frame, i: nat) {
    i < |frame| && frame[i].Some?
  }

  /** The four joints the analysis reads. */
  datatype Joints = Joints(hip: Landmark, knee: Landmark, ankle: Landmark, shoulder: Landmark)

  /** The left hip, knee, ankle and shoulder, or None when any of them is missing. */
  function LeftSideJoints(frame: Frame): (r: Option<Joints>)
    ensures r.Some? <==>
      Present(frame, LEFT_HIP) && Present(frame, LEFT_KNEE) && Present(frame, LEFT_ANKLE) && Present(frame, LEFT_SHOULDER)
    ensures r.Some? ==> r.value == Joints(frame[LEFT_HIP].value, frame[LEFT_KNEE].value,
                                          frame[LEFT_ANKLE].value, frame[LEFT_SHOULDER].value)
  {
    match (Joint(frame, LEFT_HIP), Joint(frame, LEFT_KNEE), Joint(frame, LEFT_ANKLE), Joint(frame, LEFT_SHOULDER))
    case (Some(hip), Some(knee), Some(ankle), Some(shoulder)) => Some(Joints(hip, knee, ankle, shoulder))
    case _ => None
  }

  /**
   * A synthetic point one unit from the shoulder towards smaller `y`, at depth
   * 0. Pose coordinates grow downward, so this point is above the shoulder.
   */
  function VerticalReference(shoulder: Landmark): (r: Landmark)
    ensures Between(shoulder, r) == Vector(0.0, -1.0)
    ensures !SamePlanarPoint(r, shoulder)
  {
    Landmark(shoulder.x, shoulder.y - 1.0, 0.0)
  }

  /** The hip-knee-ankle angle. */
  function KneeAngle(math: MathLib, j: Joints): real {
    CalculateAngle(math, j.hip, j.knee, j.ankle)
  }

  /** The angle between the vertical and the shoulder-to-hip line, at the shoulder. */
  function TrunkAngle(math: MathLib, j: Joints): real {
    CalculateAngle(math, VerticalReference(j.shoulder), j.shoulder, j.hip)
  }

  // ---------------------------------------------------------------------------
  // Repetition detector

  /** A previous angle exists and more than a second has passed since the last transition. */
  predicate DebounceOpen(prevKneeAngle: Option<real>, lastRepTime: int, now: int) {
    prevKneeAngle.Some? && now - lastRepTime > DEBOUNCE_MS
  }

  /** Standing to squatting between two consecutive measured frames. */
  predicate SquatDown(prev: real, knee: real) {
    prev > STANDING_ABOVE && knee < SQUATTING_BELOW
  }

  /** Squatting to standing between two consecutive measured frames. */
  predicate StandUp(prev: real, knee: real) {
    prev < SQUATTING_BELOW && knee > STANDING_ABOVE
  }

  /** The detector's part of the state: the count and the time of the last transition. */
  datatype RepCounter = RepCounter(repCount: nat, lastRepTime: int)

  /**
   * The debounced two-phase detector: with the gate open, a down move stamps
   * the time, an up move counts a repetition and stamps the time; otherwise
   * nothing changes.
   */
  function CountReps(prevKneeAngle: Option<real>, knee: real, c: RepCounter, now: int): (r: RepCounter)
    ensures c.repCount <= r.repCount <= c.repCount + 1
    ensures r.repCount == c.repCount + 1 <==>
      DebounceOpen(prevKneeAngle, c.lastRepTime, now) && StandUp(prevKneeAngle.value, knee)
    ensures DebounceOpen(prevKneeAngle, c.lastRepTime, now) && SquatDown(prevKneeAngle.value, knee) ==>
      r == RepCounter(c.repCount, now)
    ensures DebounceOpen(prevKneeAngle, c.lastRepTime, now) && StandUp(prevKneeAngle.value, knee) ==>
      r.lastRepTime == now
    ensures !(DebounceOpen(prevKneeAngle, c.lastRepTime, now)
              && (SquatDown(prevKneeAngle.value, knee) || StandUp(prevKneeAngle.value, knee))) ==>
      r == c
  {
    if prevKneeAngle.Some? && now - c.lastRepTime > DEBOUNCE_MS then
      var prev := prevKneeAngle.value;
      if prev > STANDING_ABOVE && knee < SQUATTING_BELOW then
        RepCounter(c.repCount, now)
      else if prev < SQUATTING_BELOW && knee > STANDING_ABOVE then
        RepCounter(c.repCount + 1, now)
      else
        c
    else
      c
  }

  // ---------------------------------------------------------------------------
  // Form grading

  /** The first-match threshold ladder on the knee and trunk angles. */
  function Classify(knee: real, trunk: real): (f: Feedback)
    ensures f.IsFormOutcome()
    ensures f == KneeOverBent <==> knee < 70.0
    ensures f == NotLowEnough <==> knee > 140.0
    ensures f == ForwardLean <==> 70.0 <= knee <= 140.0 && trunk > 30.0
    ensures f == Correct <==> 70.0 <= knee <= 140.0 && trunk <= 30.0
  {
    if knee < KNEE_OVER_BENT_BELOW then KneeOverBent
    else if knee > NOT_LOW_ENOUGH_ABOVE then NotLowEnough
    else if trunk > FORWARD_LEAN_ABOVE then ForwardLean
    else Correct
  }

  // ---------------------------------------------------------------------------
  // One frame, one command

  /** The angle-dependent part of a frame: count, remember the knee angle, grade. */
  function Transition(s: AnalysisState, knee: real, trunk: real, now: int): (r: AnalysisState)
    ensures r.isAnalyzing == s.isAnalyzing
    ensures s.repCount <= r.repCount <= s.repCount + 1
    ensures r.prevKneeAngle == Some(knee)
    ensures r.feedback.IsFormOutcome()
  {
    var c := CountReps(s.prevKneeAngle, knee, RepCounter(s.repCount, s.lastRepTime), now);
    AnalysisState(Classify(knee, trunk), c.repCount, s.isAnalyzing, Some(knee), c.lastRepTime)
  }

  /** One run of the frame analysis on the latest landmarks, at wall-clock time `now`. */
  function FrameStep(s: AnalysisState, math: MathLib, landmarks: Option<Frame>, now: int): (r: AnalysisState)
    ensures r.isAnalyzing == s.isAnalyzing
    ensures s.repCount <= r.repCount <= s.repCount + 1
  {
    if !s.isAnalyzing then
      s.(feedback := Stopped)
    else if landmarks.None? then
      s.(feedback := Waiting)
    else
      match LeftSideJoints(landmarks.value)
      case None => s.(feedback := Incomplete)
      case Some(j) => Transition(s, KneeAngle(math, j), TrunkAngle(math, j), now)
  }

  /** The start/stop button. */
  function ToggleStep(s: AnalysisState): AnalysisState {
    s.(isAnalyzing := !s.isAnalyzing, feedback := if !s.isAnalyzing then Starting else Stopped)
  }

  /** The reset button. */
  function ResetStep(s: AnalysisState): AnalysisState {
    s.(repCount := 0, feedback := Waiting, prevKneeAngle := None, lastRepTime := 0)
  }

  // ---------------------------------------------------------------------------
  // Properties of one frame

  /** Paused: only the feedback changes, to Stopped, whatever the frame. */
  lemma PausedFrame(s: AnalysisState, math: MathLib, landmarks: Option<Frame>, now: int)
    requires !s.isAnalyzing
    ensures FrameStep(s, math, landmarks, now) == s.(feedback := Stopped)
  {
  }

  /** No landmarks: only the feedback changes, to Waiting. */
  lemma AbsentFrame(s: AnalysisState, math: MathLib, now: int)
    requires s.isAnalyzing
    ensures FrameStep(s, math, None, now) == s.(feedback := Waiting)
  {
  }

  /**
   * A frame reports Incomplete exactly when one of the four joints is missing,
   * and then only the feedback changes; an empty array is such a frame.
   */
  lemma IncompleteFrame(s: AnalysisState, math: MathLib, frame: Frame, now: int)
    requires s.isAnalyzing
    ensures var r := FrameStep(s, math, Some(frame), now);
      r.feedback == Incomplete <==>
        !(Present(frame, LEFT_HIP) && Present(frame, LEFT_KNEE) && Present(frame, LEFT_ANKLE) && Present(frame, LEFT_SHOULDER))
    ensures FrameStep(s, math, Some(frame), now).feedback == Incomplete ==>
      FrameStep(s, math, Some(frame), now) == s.(feedback := Incomplete)
    ensures |frame| <= LEFT_ANKLE ==> FrameStep(s, math, Some(frame), now) == s.(feedback := Incomplete)
  {
  }

  /**
   * A frame that reaches the angle computation: the count rises by one exactly
   * on a gated up move, the time is stamped exactly on a gated down or up
   * move, the knee angle is always stored and the form is graded.
   */
  lemma MeasuredFrame(s: AnalysisState, math: MathLib, frame: Frame, now: int)
    requires s.isAnalyzing && LeftSideJoints(frame).Some?
    ensures var j := LeftSideJoints(frame).value;
      var knee := KneeAngle(math, j);
      var r := FrameStep(s, math, Some(frame), now);
      var gate := DebounceOpen(s.prevKneeAngle, s.lastRepTime, now);
      && r.prevKneeAngle == Some(knee)
      && r.feedback == Classify(knee, TrunkAngle(math, j))
      && (r.repCount == s.repCount + 1 <==> gate && StandUp(s.prevKneeAngle.value, knee))
      && (r.repCount == s.repCount || r.repCount == s.repCount + 1)
      && (gate && (SquatDown(s.prevKneeAngle.value, knee) || StandUp(s.prevKneeAngle.value, knee)) ==> r.lastRepTime == now)
      && (!(gate && (SquatDown(s.prevKneeAngle.value, knee) || StandUp(s.prevKneeAngle.value, knee))) ==> r.lastRepTime == s.lastRepTime)
      && (gate && SquatDown(s.prevKneeAngle.value, knee) ==> r.repCount == s.repCount)
  {
  }

  /**
   * Running the analysis again on the same landmarks right after it stored the
   * knee angle (as happens when the stored angle changes) changes nothing, at
   * any later time.
   */
  lemma RerunIsIdempotent(s: AnalysisState, math: MathLib, landmarks: Option<Frame>, now: int, later: int)
    ensures var r := FrameStep(s, math, landmarks, now);
      FrameStep(r, math, landmarks, later) == r
  {
  }

  /**
   * The detector compares consecutive measured frames only: when the knee
   * angle moves by at most 60 degrees between them, neither transition fires.
   */
  lemma SmoothMotionNeverCounts(prevKneeAngle: Option<real>, knee: real, c: RepCounter, now: int)
    requires prevKneeAngle.Some? && -60.0 <= knee - prevKneeAngle.value <= 60.0
    ensures CountReps(prevKneeAngle, knee, c, now) == c
  {
  }

  /** The debounce comparison is strict: exactly one second later the gate is still closed. */
  lemma DebounceIsStrict(prevKneeAngle: Option<real>, knee: real, c: RepCounter)
    ensures CountReps(prevKneeAngle, knee, c, c.lastRepTime + DEBOUNCE_MS) == c
  {
  }

  /** The feedback strings are pairwise distinct, so the display tells the outcomes apart. */
  lemma TextIsInjective(f: Feedback, g: Feedback)
    ensures f.Text() == g.Text() <==> f == g
  {
  }

  // ---------------------------------------------------------------------------
  // Properties of the commands

  /** Reset restores every default except `isAnalyzing`, which it leaves alone. */
  lemma ResetRestoresDefaults(s: AnalysisState)
    ensures ResetStep(s) == InitialState().(isAnalyzing := s.isAnalyzing)
    ensures ResetStep(ResetStep(s)) == ResetStep(s)
  {
  }

  /**
   * Toggle flips `isAnalyzing`, says Starting when it enables and Stopped when
   * it disables, and leaves the counters alone; toggling twice restores the flag.
   */
  lemma ToggleFlips(s: AnalysisState)
    ensures ToggleStep(s).isAnalyzing == !s.isAnalyzing
    ensures ToggleStep(s).feedback == (if ToggleStep(s).isAnalyzing then Starting else Stopped)
    ensures ToggleStep(s).(feedback := s.feedback, isAnalyzing := s.isAnalyzing) == s
    ensures ToggleStep(ToggleStep(s)).isAnalyzing == s.isAnalyzing
  {
  }

  // ---------------------------------------------------------------------------
  // Sequences of events

  /** What reaches the engine: a frame analysis at a time, or a button press. */
  datatype Event = FrameEvent(landmarks: Option<Frame>, now: int) | ToggleEvent | ResetEvent

  function Apply(s: AnalysisState, math: MathLib, e: Event): AnalysisState {
    match e
    case FrameEvent(landmarks, now) => FrameStep(s, math, landmarks, now)
    case ToggleEvent => ToggleStep(s)
    case ResetEvent => ResetStep(s)
  }

  /** The state after handling `events` in order. */
  function Run(s: AnalysisState, math: MathLib, events: seq<Event>): AnalysisState
    decreases |events|
  {
    if events == [] then s else Run(Apply(s, math, events[0]), math, events[1..])
  }

  /** Without a reset, the count never decreases and rises by at most one per event. */
  lemma {:induction false} CountNeverDecreases(s: AnalysisState, math: MathLib, events: seq<Event>)
    requires forall i :: 0 <= i < |events| ==> !events[i].ResetEvent?
    ensures s.repCount <= Run(s, math, events).repCount <= s.repCount + |events|
    decreases |events|
  {
    if events != [] {
      var t := Apply(s, math, events[0]);
      assert s.repCount <= t.repCount <= s.repCount + 1;
      CountNeverDecreases(t, math, events[1..]);
    }
  }

  /** While paused, frames leave the count, the stored angle and the timestamp untouched. */
  lemma {:induction false} PausedFramesChangeNothing(s: AnalysisState, math: MathLib, events: seq<Event>)
    requires !s.isAnalyzing
    requires forall i :: 0 <= i < |events| ==> events[i].FrameEvent?
    ensures var r := Run(s, math, events);
      r.(feedback := s.feedback) == s && (events != [] ==> r.feedback == Stopped)
    decreases |events|
  {
    if events != [] {
      var t := Apply(s, math, events[0]);
      assert t == s.(feedback := Stopped);
      PausedFramesChangeNothing(t, math, events[1..]);
    }
  }

  /** A stored knee angle is a measured one, so it lies in [0, 180]. */
  ghost predicate AnglesInRange(s: AnalysisState) {
    s.prevKneeAngle.Some? ==> 0.0 <= s.prevKneeAngle.value <= 180.0
  }

  /** Every event keeps the stored knee angle in [0, 180]. */
  lemma {:induction false} RunKeepsAnglesInRange(s: AnalysisState, math: MathLib, events: seq<Event>)
    requires Lawful(math) && AnglesInRange(s)
    ensures AnglesInRange(Run(s, math, events))
    decreases |events|
  {
    if events != [] {
      var t := Apply(s, math, events[0]);
      if events[0].FrameEvent? {
        var landmarks := events[0].landmarks;
        if s.isAnalyzing && landmarks.Some? && LeftSideJoints(landmarks.value).Some? {
          var j := LeftSideJoints(landmarks.value).value;
          AngleInRange(math, j.hip, j.knee, j.ankle);
        }
      }
      RunKeepsAnglesInRange(t, math, events[1..]);
    }
  }

  // ---------------------------------------------------------------------------
  // The trunk reference point

  /**
   * With the hip straight below the shoulder (larger `y`), the two arms of the
   * trunk angle point in opposite directions: the cosine is -1, a straight
   * angle, for an upright body.
   */
  lemma UprightTrunkReadsStraight(math: MathLib, shoulder: Landmark, hip: Landmark)
    requires Lawful(math)
    requires hip.x == shoulder.x && hip.y > shoulder.y
    ensures CosineAt(math, VerticalReference(shoulder), shoulder, hip) == Some(-1.0)
  {
    var h := hip.y - shoulder.y;
    var v1, v2 := Between(shoulder, VerticalReference(shoulder)), Between(shoulder, hip);
    assert v2 == Vector(0.0, h);
    UnitMagnitude(math, v1);
    VerticalMagnitude(math, v2);
    assert CosineAt(math, VerticalReference(shoulder), shoulder, hip) == CosineOf(-h, 1.0, h);
    CollinearCosine(h);
  }

  /**
   * Whenever the hip is below the shoulder, the arms make at least a right
   * angle, so the trunk angle is at least 90 degrees.
   */
  lemma HipBelowShoulderIsObtuse(math: MathLib, j: Joints)
    requires Lawful(math) && AcosObtuse(math)
    requires j.hip.y > j.shoulder.y
    ensures TrunkAngle(math, j) >= 90.0
  {
    var ref := VerticalReference(j.shoulder);
    var v1, v2 := Between(j.shoulder, ref), Between(j.shoulder, j.hip);
    var h := j.hip.y - j.shoulder.y;
    assert Dot(v1, v2) == -h;
    assert !SamePlanarPoint(j.hip, j.shoulder);
    ClampIsExactOverReals(math, ref, j.shoulder, j.hip);
    UnitMagnitude(math, v1);
    MagnitudeZeroIff(math, v2);
    var cosAngle := CosineAt(math, ref, j.shoulder, j.hip).value;
    assert cosAngle * Magnitude(math, v2) == -h;
    NegativeRatio(cosAngle, Magnitude(math, v2), h);
    assert AcosObtuseAt(math, cosAngle);
    var k := 180.0 / math.pi;
    assert k > 0.0 && math.pi * k == 180.0;
    assert math.acos(cosAngle) * k >= (math.pi / 2.0) * k;
  }

  /** A number that times a positive one gives a negative one is negative. */
  lemma NegativeRatio(c: real, m: real, h: real)
    requires m > 0.0 && h > 0.0 && c * m == -h
    ensures c < 0.0
  {
  }

  /** Arms of lengths 1 and `h` along one line: the cosine is -1 or 1. */
  lemma CollinearCosine(h: real)
    requires h > 0.0
    ensures CosineOf(-h, 1.0, h) == Some(-1.0)
    ensures CosineOf(h, 1.0, h) == Some(1.0)
  {
    assert -h / (1.0 * h) == -1.0;
    assert h / (1.0 * h) == 1.0;
  }

  /**
   * As written, a measured frame whose hip lies below the shoulder is never
   * graded Correct: a knee angle in [70, 140] always reads as ForwardLean.
   */
  lemma HipBelowShoulderNeverCorrect(s: AnalysisState, math: MathLib, frame: Frame, now: int)
    requires Lawful(math) && AcosObtuse(math)
    requires s.isAnalyzing && LeftSideJoints(frame).Some?
    requires frame[LEFT_HIP].value.y > frame[LEFT_SHOULDER].value.y
    ensures FrameStep(s, math, Some(frame), now).feedback != Correct
  {
    HipBelowShoulderIsObtuse(math, LeftSideJoints(frame).value);
  }

  /** A synthetic point one unit below the shoulder, on the side of an upright hip. */
  function DownwardReference(shoulder: Landmark): (r: Landmark)
    ensures Between(shoulder, r) == Vector(0.0, 1.0)
    ensures !SamePlanarPoint(r, shoulder)
  {
    Landmark(shoulder.x, shoulder.y + 1.0, 0.0)
  }

  /** The lean of the shoulder-to-hip line from the downward vertical. */
  function UprightTrunkAngle(math: MathLib, j: Joints): real {
    CalculateAngle(math, DownwardReference(j.shoulder), j.shoulder, j.hip)
  }

  /** Measured from the downward vertical, an upright trunk has cosine 1. */
  lemma UprightTrunkReadsZero(math: MathLib, shoulder: Landmark, hip: Landmark)
    requires Lawful(math)
    requires hip.x == shoulder.x && hip.y > shoulder.y
    ensures CosineAt(math, DownwardReference(shoulder), shoulder, hip) == Some(1.0)
    ensures AcosOfOneIsZero(math) ==> CalculateAngle(math, DownwardReference(shoulder), shoulder, hip) == 0.0
  {
    var h := hip.y - shoulder.y;
    var v1, v2 := Between(shoulder, DownwardReference(shoulder)), Between(shoulder, hip);
    assert v2 == Vector(0.0, h);
    UnitMagnitude(math, v1);
    VerticalMagnitude(math, v2);
    assert CosineAt(math, DownwardReference(shoulder), shoulder, hip) == CosineOf(h, 1.0, h);
    CollinearCosine(h);
  }

  /** With the downward reference an upright trunk leans 0 degrees. */
  lemma UprightTrunkLeansZero(math: MathLib, j: Joints)
    requires Lawful(math) && AcosOfOneIsZero(math)
    requires j.hip.x == j.shoulder.x && j.hip.y > j.shoulder.y
    ensures UprightTrunkAngle(math, j) == 0.0
  {
    UprightTrunkReadsZero(math, j.shoulder, j.hip);
  }

  /** So, measured that way, an upright squat with a knee angle in [70, 140] is graded Correct. */
  lemma UprightSquatIsCorrect(math: MathLib, j: Joints, knee: real)
    requires Lawful(math) && AcosOfOneIsZero(math)
    requires j.hip.x == j.shoulder.x && j.hip.y > j.shoulder.y
    requires 70.0 <= knee <= 140.0
    ensures Classify(knee, UprightTrunkAngle(math, j)) == Correct
  {
    UprightTrunkLeansZero(math, j);
  }

  // ---------------------------------------------------------------------------
  // Worked sequences on the detector (knee angles given directly)

  /**
   * Knee angles 170, 170, 60, 60, 170, with the final stand more than a second
   * after the down move, count exactly one repetition.
   */
  lemma SquatCycleCountsOneRep(trunk: real)
    ensures var s1 := Transition(InitialState(), 170.0, trunk, 2000);
      var s2 := Transition(s1, 170.0, trunk, 2100);
      var s3 := Transition(s2, 60.0, trunk, 2200);
      var s4 := Transition(s3, 60.0, trunk, 2300);
      var s5 := Transition(s4, 170.0, trunk, 3300);
      s3.repCount == 0 && s3.lastRepTime == 2200 && s5.repCount == 1 && s5.lastRepTime == 3300
  {
  }

  /**
   * Standing up within a second of the down move is ignored, and because the
   * stored angle is overwritten anyway, the repetition is lost.
   */
  lemma QuickStandIsDebounced(trunk: real)
    ensures var s1 := Transition(InitialState(), 170.0, trunk, 2000);
      var s2 := Transition(s1, 60.0, trunk, 3100);
      var s3 := Transition(s2, 170.0, trunk, 3600);
      var s4 := Transition(s3, 170.0, trunk, 5000);
      s2.lastRepTime == 3100 && s3.repCount == 0 && s3.lastRepTime == 3100 && s4.repCount == 0
  {
  }

  // ---------------------------------------------------------------------------
  // The consecutive-frame detector against a phase-based one

  /** A knee angle measured at a time. */
  datatype KneeSample = KneeSample(knee: real, now: int)

  /** The detector alone over measured frames, each compared with the one before. */
  function DetectorRun(prevKneeAngle: Option<real>, c: RepCounter, samples: seq<KneeSample>): RepCounter
    decreases |samples|
  {
    if samples == [] then c
    else DetectorRun(Some(samples[0].knee), CountReps(prevKneeAngle, samples[0].knee, c, samples[0].now), samples[1..])
  }

  /** A frame event that reaches the angle computation while analysing. */
  predicate MeasuredEvent(e: Event) {
    e.FrameEvent? && e.landmarks.Some? && LeftSideJoints(e.landmarks.value).Some?
  }

  /** The knee angle and time of each measured frame event. */
  function Samples(math: MathLib, events: seq<Event>): seq<KneeSample>
    requires forall i :: 0 <= i < |events| ==> MeasuredEvent(events[i])
    decreases |events|
  {
    if events == [] then []
    else
      assert MeasuredEvent(events[0]);
      var j := LeftSideJoints(events[0].landmarks.value).value;
      assert forall i :: 0 <= i < |events[1..]| ==> MeasuredEvent(events[1..][i]);
      [KneeSample(KneeAngle(math, j), events[0].now)] + Samples(math, events[1..])
  }

  /**
   * While analysing, over measured frames the engine's count and timestamp
   * are exactly those of the detector run on the frames' knee angles.
   */
  lemma {:induction false} DetectorAgreesWithRun(s: AnalysisState, math: MathLib, events: seq<Event>)
    requires s.isAnalyzing
    requires forall i :: 0 <= i < |events| ==> MeasuredEvent(events[i])
    ensures var r := Run(s, math, events);
      RepCounter(r.repCount, r.lastRepTime)
        == DetectorRun(s.prevKneeAngle, RepCounter(s.repCount, s.lastRepTime), Samples(math, events))
    decreases |events|
  {
    if events != [] {
      var e := events[0];
      assert MeasuredEvent(e);
      var j := LeftSideJoints(e.landmarks.value).value;
      var knee := KneeAngle(math, j);
      var t := Apply(s, math, e);
      assert t == Transition(s, knee, TrunkAngle(math, j), e.now);
      assert forall i :: 0 <= i < |events[1..]| ==> MeasuredEvent(events[1..][i]);
      DetectorAgreesWithRun(t, math, events[1..]);
    }
  }

  /** Starting from `prev`, consecutive knee angles differ by at most 60 degrees. */
  predicate Smooth(prev: real, samples: seq<KneeSample>)
    decreases |samples|
  {
    samples == [] || (-60.0 <= samples[0].knee - prev <= 60.0 && Smooth(samples[0].knee, samples[1..]))
  }

  /** A smooth motion, however deep and however slow, never counts and never stamps the time. */
  lemma {:induction false} SmoothRunNeverCounts(prev: real, c: RepCounter, samples: seq<KneeSample>)
    requires Smooth(prev, samples)
    ensures DetectorRun(Some(prev), c, samples) == c
    decreases |samples|
  {
    if samples != [] {
      SmoothMotionNeverCounts(Some(prev), samples[0].knee, c, samples[0].now);
      SmoothRunNeverCounts(samples[0].knee, c, samples[1..]);
    }
  }

  /**
   * A full squat from 170 down to 70 and back in 20-degree steps, two seconds
   * apart, from mount: the consecutive-frame detector counts nothing.
   */
  lemma SmoothCycleIsMissed()
    ensures DetectorRun(None, RepCounter(0, 0),
      [KneeSample(170.0, 2000), KneeSample(150.0, 4000), KneeSample(130.0, 6000), KneeSample(110.0, 8000),
       KneeSample(90.0, 10000), KneeSample(70.0, 12000), KneeSample(90.0, 14000), KneeSample(110.0, 16000),
       KneeSample(130.0, 18000), KneeSample(150.0, 20000), KneeSample(170.0, 22000)]).repCount == 0
  {
  }

  /** Where the body is in the squat: standing (armed for a descent) or down (armed for a rise). */
  datatype Phase = Standing | Squatting

  /** A detector that remembers the phase instead of the previous frame's angle. */
  datatype PhaseCounter = PhaseCounter(phase: Phase, repCount: nat, lastRepTime: int)

  /**
   * With the gate open, a standing body whose knee angle drops below 100 is
   * squatting (time stamped), and a squatting body whose knee angle rises above
   * 160 completes a repetition (counted, time stamped); otherwise nothing
   * changes.
   */
  function PhaseCount(knee: real, c: PhaseCounter, now: int): (r: PhaseCounter)
    ensures c.repCount <= r.repCount <= c.repCount + 1
    ensures r.repCount == c.repCount + 1 <==>
      c.phase == Squatting && knee > STANDING_ABOVE && now - c.lastRepTime > DEBOUNCE_MS
    ensures r.repCount == c.repCount + 1 ==> r == PhaseCounter(Standing, c.repCount + 1, now)
    ensures r.phase != c.phase <==> r.lastRepTime != c.lastRepTime || r.repCount != c.repCount
    ensures c.phase == Squatting && r.repCount == c.repCount ==> r == c
    ensures c.phase == Standing && knee < SQUATTING_BELOW && now - c.lastRepTime > DEBOUNCE_MS ==>
      r == PhaseCounter(Squatting, c.repCount, now)
  {
    if now - c.lastRepTime <= DEBOUNCE_MS then c
    else if c.phase == Standing && knee < SQUATTING_BELOW then PhaseCounter(Squatting, c.repCount, now)
    else if c.phase == Squatting && knee > STANDING_ABOVE then PhaseCounter(Standing, c.repCount + 1, now)
    else c
  }

  /** The phase-based detector over measured frames. */
  function PhaseRun(c: PhaseCounter, samples: seq<KneeSample>): PhaseCounter
    decreases |samples|
  {
    if samples == [] then c else PhaseRun(PhaseCount(samples[0].knee, c, samples[0].now), samples[1..])
  }

  /** The phase-based count never decreases. */
  lemma {:induction false} PhaseRunNeverDecreases(c: PhaseCounter, samples: seq<KneeSample>)
    ensures c.repCount <= PhaseRun(c, samples).repCount
    decreases |samples|
  {
    if samples != [] {
      PhaseRunNeverDecreases(PhaseCount(samples[0].knee, c, samples[0].now), samples[1..]);
    }
  }

  /**
   * Once squatting, any later sample above 160 degrees more than a second
   * after the descent completes the repetition, whatever came in between.
   */
  lemma {:induction false} SquatEventuallyCounts(c: PhaseCounter, samples: seq<KneeSample>, i: nat)
    requires c.phase == Squatting && i < |samples|
    requires samples[i].knee > STANDING_ABOVE && samples[i].now - c.lastRepTime > DEBOUNCE_MS
    ensures PhaseRun(c, samples).repCount >= c.repCount + 1
    decreases i
  {
    var r := PhaseCount(samples[0].knee, c, samples[0].now);
    if r.repCount == c.repCount + 1 {
      PhaseRunNeverDecreases(r, samples[1..]);
    } else {
      assert r == c;
      SquatEventuallyCounts(c, samples[1..], i - 1);
    }
  }

  /** Sample times never go backwards. */
  predicate InTimeOrder(samples: seq<KneeSample>) {
    forall a, b :: 0 <= a < b < |samples| ==> samples[a].now <= samples[b].now
  }

  /**
   * Standing, a descent below 100 degrees with the gate open, followed more
   * than a second later by a rise above 160 degrees, counts a repetition,
   * however gradually the angle moved in between.
   */
  lemma {:induction false} SquatCycleCounts(c: PhaseCounter, samples: seq<KneeSample>, j: nat, i: nat)
    requires c.phase == Standing && InTimeOrder(samples) && j < i < |samples|
    requires samples[j].knee < SQUATTING_BELOW && samples[j].now - c.lastRepTime > DEBOUNCE_MS
    requires samples[i].knee > STANDING_ABOVE && samples[i].now - samples[j].now > DEBOUNCE_MS
    ensures PhaseRun(c, samples).repCount >= c.repCount + 1
    decreases j
  {
    var r := PhaseCount(samples[0].knee, c, samples[0].now);
    if r.phase == Squatting {
      assert samples[0].now <= samples[j].now;
      SquatEventuallyCounts(r, samples[1..], i - 1);
    } else {
      assert r == c;
      SquatCycleCounts(c, samples[1..], j - 1, i - 1);
    }
  }

  /** The same smooth squat, from mount, counts exactly one repetition with the phase-based detector. */
  lemma SmoothCycleCountsOnce()
    ensures PhaseRun(PhaseCounter(Standing, 0, 0),
      [KneeSample(170.0, 2000), KneeSample(150.0, 4000), KneeSample(130.0, 6000), KneeSample(110.0, 8000),
       KneeSample(90.0, 10000), KneeSample(70.0, 12000), KneeSample(90.0, 14000), KneeSample(110.0, 16000),
       KneeSample(130.0, 18000), KneeSample(150.0, 20000), KneeSample(170.0, 22000)]).repCount == 1
  {
  }

  // ---------------------------------------------------------------------------
  // The component

  /** The component's state, updated in place by a frame or a button press. */
  class SquatAnalyzer {
    const math: MathLib
    var feedback: Feedback
    var repCount: nat
    var isAnalyzing: bool
    var prevKneeAngle: Option<real>
    var lastRepTime: int

    function State(): AnalysisState
      reads this
    {
      AnalysisState(feedback, repCount, isAnalyzing, prevKneeAngle, lastRepTime)
    }

    constructor (math: MathLib)
      ensures this.math == math
      ensures State() == InitialState()
    {
      this.math := math;
      feedback := Waiting;
      repCount := 0;
      isAnalyzing := true;
      prevKneeAngle := None;
      lastRepTime := 0;
    }

    /** One run of the frame analysis on `landmarks`, at wall-clock time `now`. */
    method AnalyzeFrame(landmarks: Option<Frame>, now: int)
      modifies this
      ensures State() == FrameStep(old(State()), math, landmarks, now)
      ensures old(repCount) <= repCount <= old(repCount) + 1
      ensures isAnalyzing == old(isAnalyzing)
    {
      if landmarks.None? || !isAnalyzing {
        if !isAnalyzing {
          feedback := Stopped;
        } else {
          feedback := Waiting;
        }
        return;
      }
      var frame := landmarks.value;
      var leftHip := Joint(frame, LEFT_HIP);
      var leftKnee := Joint(frame, LEFT_KNEE);
      var leftAnkle := Joint(frame, LEFT_ANKLE);
      var leftShoulder := Joint(frame, LEFT_SHOULDER);
      if leftHip.None? || leftKnee.None? || leftAnkle.None? || leftShoulder.None? {
        feedback := Incomplete;
        return;
      }
      var kneeAngle := CalculateAngle(math, leftHip.value, leftKnee.value, leftAnkle.value);
      var trunkAngle := CalculateAngle(math, VerticalReference(leftShoulder.value), leftShoulder.value, leftHip.value);
      if prevKneeAngle.Some? && now - lastRepTime > DEBOUNCE_MS {
        if prevKneeAngle.value > STANDING_ABOVE && kneeAngle < SQUATTING_BELOW {
          lastRepTime := now;
        } else if prevKneeAngle.value < SQUATTING_BELOW && kneeAngle > STANDING_ABOVE {
          repCount := repCount + 1;
          lastRepTime := now;
        }
      }
      prevKneeAngle := Some(kneeAngle);
      if kneeAngle < KNEE_OVER_BENT_BELOW {
        feedback := KneeOverBent;
      } else if kneeAngle > NOT_LOW_ENOUGH_ABOVE {
        feedback := NotLowEnough;
      } else if trunkAngle > FORWARD_LEAN_ABOVE {
        feedback := ForwardLean;
      } else {
        feedback := Correct;
      }
    }

    /** The start/stop button: flips the flag and announces the new mode. */
    method ToggleAnalysis()
      modifies this
      ensures State() == ToggleStep(old(State()))
      ensures isAnalyzing == !old(isAnalyzing)
      ensures feedback == (if isAnalyzing then Starting else Stopped)
      ensures repCount == old(repCount) && prevKneeAngle == old(prevKneeAngle) && lastRepTime == old(lastRepTime)
    {
      var wasAnalyzing := isAnalyzing;
      isAnalyzing := !wasAnalyzing;
      if !wasAnalyzing {
        feedback := Starting;
      } else {
        feedback := Stopped;
      }
    }

    /** The reset button: restores the defaults, keeping the start/stop flag. */
    method ResetAnalysis()
      modifies this
      ensures State() == ResetStep(old(State()))
      ensures State() == InitialState().(isAnalyzing := old(isAnalyzing))
    {
      repCount := 0;
      feedback := Waiting;
      prevKneeAngle := None;
      lastRepTime := 0;
    }
  }
}
