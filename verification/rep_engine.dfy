/**
 * The rep-counting session engine of the camera trainer, as a pure state
 * transition system. `EngineState` holds everything the per-frame pipeline
 * and the session controller touch: the pose state, the motion tracker, the
 * module-level rep counter, rep timestamp and detection flag, the saved sets
 * and the level counters. Each function below is one operation of the
 * application, returning the state after it.
 *
 * The detector's output, the wall clock (`now`, in milliseconds), the joint
 * angles measured from the landmarks and the random draws are parameters.
 */
module RepEngine {
  import opened Basics
  import opened PoseFrames
  import opened Gamification

  // ---------------------------------------------------------------------------
  // Configuration
  // ---------------------------------------------------------------------------

  const StableFramesRequired: nat := 3
  const LostFramesThreshold: nat := 3
  const AutoSaveRepCount: nat := 12
  const MinRepIntervalMs: int := 500

  const SquatDownHipAngle: real := 100.0
  const SquatDownKneeAngle: real := 110.0
  const SquatUpHipAngle: real := 150.0
  const SquatUpKneeAngle: real := 150.0
  const FullRangeHipAngle: real := 90.0

  const PushupDownElbowAngle: real := 90.0
  const PushupUpElbowAngle: real := 160.0
  const PushupDebounceMs: int := 800

  const GenericMinMovement: real := 0.05

  const ReplayCapacity: nat := 120
  const SetFramesCapacity: nat := 200

  /** The tempo label of every saved set: the tracker's lastTempo, which is never changed. */
  const LastTempo: string := "kontrolliert"

  // ---------------------------------------------------------------------------
  // State
  // ---------------------------------------------------------------------------

  datatype TrainingState = Waiting | Ready | Active | Paused | Stopped
  datatype Phase = Up | Down
  datatype Exercise = Squat | Pushup | Generic

  /**
   * A range-of-motion label: "voll", "teilweise", "unvollständig" and the
   * empty label. The tracker only ever assigns the first two.
   */
  datatype Rom = Full | Partial | Incomplete | Unset

  /** The three coaching tips of a saved set, from the least to the best average quality. */
  datatype CoachTip = FocusOnControl | KeepTempo | PerfectForm

  /** Joint angles in degrees, as measured by the host from the landmarks of this frame. */
  datatype JointAngles = JointAngles(hip: real, knee: real, elbow: real)

  /** The Math.random draws one step may consume: one for a rep's quality, one for a set's quality. */
  datatype Draws = Draws(rep: real, save: real) {
    predicate Valid() { 0.0 <= rep < 1.0 && 0.0 <= save < 1.0 }
  }

  /** A saved set as appended to the training history. */
  datatype SetRecord = SetRecord(
    exercise: string,
    reps: nat,
    tempo: string,
    rom: Rom,
    quality: int,
    timestamp: int,
    auto: bool,
    coachTip: CoachTip,
    frames: seq<Frame>)

  /** The presence tracker and the session state machine. */
  datatype PoseState = PoseState(
    personDetected: bool,
    keypointsStable: bool,
    ready: bool,
    replayFrames: seq<Frame>,
    trainingState: TrainingState,
    currentSetFrames: seq<Frame>,
    stableFrameCount: nat,
    lostFrameCount: nat)

  /** The per-exercise movement state (the tempo label never changes and is the constant LastTempo). */
  datatype MotionTracker = MotionTracker(
    progress: real,
    lastQuality: int,
    lastROM: Rom,
    squatPhase: Phase,
    lastHipAngle: real,
    pushupPhase: Phase,
    lastPushupUpTime: int,
    lastPushupDownTime: int,
    lastVerticalPos: Option<real>)

  datatype EngineState = EngineState(
    pose: PoseState,
    motion: MotionTracker,
    repCount: nat,
    lastRepTimestamp: int,
    poseDetectionActive: bool,
    sets: seq<SetRecord>,
    gamification: Progress)

  /** The state when the page has loaded, with the history and level counters read from storage. */
  function Initial(sets: seq<SetRecord>, gamification: Progress): (s: EngineState)
    ensures s.pose.trainingState == Stopped && !s.poseDetectionActive
    ensures s.repCount == 0 && s.motion.squatPhase == Up && s.motion.pushupPhase == Up
  {
    EngineState(
      PoseState(false, false, false, [], Stopped, [], 0, 0),
      MotionTracker(0.0, 0, Partial, Up, 180.0, Up, 0, 0, None),
      0, 0, false, sets, gamification)
  }

  function SumReps(sets: seq<SetRecord>): nat
  {
    if sets == [] then 0 else SumReps(sets[..|sets| - 1]) + sets[|sets| - 1].reps
  }

  /** Every rep counted so far: the pending ones plus those already saved in sets. */
  function TotalReps(s: EngineState): nat
  {
    s.repCount + SumReps(s.sets)
  }

  /** The presence tracker and the session controller are as they were (the per-set frames aside). */
  predicate SameSession(s: EngineState, r: EngineState)
  {
    && r.pose.personDetected == s.pose.personDetected
    && r.pose.keypointsStable == s.pose.keypointsStable
    && r.pose.ready == s.pose.ready
    && r.pose.replayFrames == s.pose.replayFrames
    && r.pose.trainingState == s.pose.trainingState
    && r.pose.stableFrameCount == s.pose.stableFrameCount
    && r.pose.lostFrameCount == s.pose.lostFrameCount
    && r.poseDetectionActive == s.poseDetectionActive
  }

  /** The motion tracker and the rep timestamp are as they were. */
  predicate SameMotion(s: EngineState, r: EngineState)
  {
    r.motion == s.motion && r.lastRepTimestamp == s.lastRepTimestamp
  }

  // ---------------------------------------------------------------------------
  // Saving a set
  // ---------------------------------------------------------------------------

  /** The range-of-motion label of a saved set. */
  function RomLabel(lastROM: Rom, repCount: nat): (r: Rom)
    ensures r != Incomplete && r != Unset
    ensures lastROM == Full || lastROM == Partial ==> r == lastROM
  {
    if lastROM == Incomplete then Partial
    else if lastROM != Unset then lastROM
    else if repCount > 10 then Full
    else Partial
  }

  /** The quality of a saved set: the last rep's quality clamped to [60, 98], or a random 70..95. */
  function SetQuality(lastQuality: int, draw: real): (q: int)
    requires 0.0 <= draw < 1.0
    ensures 60 <= q <= 98
    ensures lastQuality > 0 ==> q == MinInt(98, MaxInt(60, lastQuality))
    ensures lastQuality <= 0 ==> 70 <= q <= 95
  {
    if lastQuality > 0 then MinInt(98, MaxInt(60, lastQuality))
    else MinInt(98, 70 + Round(draw * 25.0))
  }

  function SumPosture(frames: seq<Frame>): real
  {
    if frames == [] then 0.0 else SumPosture(frames[..|frames| - 1]) + frames[|frames| - 1].postureScore
  }

  /** The average posture score of the set's frames in percent, or the set quality without frames. */
  function AverageQuality(frames: seq<Frame>, quality: int): int
  {
    if |frames| > 0 then Round((SumPosture(frames) / |frames| as real) * 100.0) else quality
  }

  function Tip(averageQuality: int): (tip: CoachTip)
    ensures tip == FocusOnControl <==> averageQuality < 50
    ensures tip == PerfectForm <==> averageQuality >= 80
  {
    if averageQuality < 50 then FocusOnControl
    else if averageQuality < 80 then KeepTempo
    else PerfectForm
  }

  /** The set record saveSet appends. */
  function NewSet(s: EngineState, auto: bool, exercise: string, now: int, draw: real): SetRecord
    requires 0.0 <= draw < 1.0
  {
    var quality := SetQuality(s.motion.lastQuality, draw);
    SetRecord(exercise, s.repCount, LastTempo, RomLabel(s.motion.lastROM, s.repCount), quality, now, auto,
              Tip(AverageQuality(s.pose.currentSetFrames, quality)), s.pose.currentSetFrames)
  }

  /** The level counters after processGamification has credited a set (weight 0). */
  function Credit(g: Progress, reps: nat, quality: int): Progress
  {
    LevelUp(Progress(g.userLevel, g.currentXP + CalculateXP(reps, quality, 0.0), g.xpForNextLevel))
  }

  /** The flush happened: one set holding the pending reps and frames was appended, and the counters were cleared. */
  predicate Flushed(s: EngineState, r: EngineState, auto: bool, exercise: string, now: int)
  {
    && |r.sets| == |s.sets| + 1
    && r.sets[..|s.sets|] == s.sets
    && r.sets[|s.sets|].reps == s.repCount
    && r.sets[|s.sets|].frames == s.pose.currentSetFrames
    && r.sets[|s.sets|].exercise == exercise
    && r.sets[|s.sets|].auto == auto
    && r.sets[|s.sets|].timestamp == now
    && 60 <= r.sets[|s.sets|].quality <= 98
    && r.gamification == Credit(s.gamification, s.repCount, r.sets[|s.sets|].quality)
    && r.repCount == 0
    && r.pose.currentSetFrames == []
  }

  // ---------------------------------------------------------------------------
  // Session transitions
  // ---------------------------------------------------------------------------

  /** resetPoseTracking: forget presence, the pending reps and the per-set frames. */
  function ResetPoseTracking(s: EngineState): (r: EngineState)
    ensures !r.pose.personDetected && !r.pose.keypointsStable && !r.pose.ready
    ensures r.repCount == 0 && r.pose.currentSetFrames == [] && r.motion.progress == 0.0
    ensures r.pose.stableFrameCount == 0 && r.pose.lostFrameCount == 0
    ensures r.pose.trainingState == s.pose.trainingState && r.sets == s.sets && r.pose.replayFrames == s.pose.replayFrames
    ensures r.motion == s.motion.(progress := 0.0) && r.lastRepTimestamp == s.lastRepTimestamp
  {
    s.(pose := s.pose.(personDetected := false, keypointsStable := false, ready := false, currentSetFrames := [],
                       stableFrameCount := 0, lostFrameCount := 0),
       motion := s.motion.(progress := 0.0),
       repCount := 0)
  }

  /** startPoseBootstrap: reset and wait for a person, with the detector loop running. */
  function StartPoseBootstrap(s: EngineState): (r: EngineState)
    ensures r.pose.trainingState == Waiting && r.poseDetectionActive
    ensures !r.pose.personDetected && !r.pose.keypointsStable && !r.pose.ready
    ensures r.repCount == 0 && r.pose.currentSetFrames == [] && r.pose.stableFrameCount == 0 && r.pose.lostFrameCount == 0
    ensures r.sets == s.sets && r.gamification == s.gamification && r.pose.replayFrames == s.pose.replayFrames
    ensures r.motion == s.motion.(progress := 0.0) && r.lastRepTimestamp == s.lastRepTimestamp
  {
    var reset := ResetPoseTracking(s);
    reset.(pose := reset.pose.(trainingState := Waiting), poseDetectionActive := true)
  }

  /** startRepDetection: with stable keypoints, go ACTIVE and start the movement cycle afresh. */
  function StartRepDetection(s: EngineState): (r: EngineState)
    ensures !s.pose.keypointsStable ==> r == s
    ensures s.pose.keypointsStable ==>
      && r.pose == s.pose.(trainingState := Active)
      && r.motion == s.motion.(squatPhase := Up, pushupPhase := Up, progress := 0.0,
                               lastPushupUpTime := 0, lastPushupDownTime := 0)
      && r.repCount == s.repCount && r.sets == s.sets && r.lastRepTimestamp == s.lastRepTimestamp
  {
    if !s.pose.keypointsStable then s
    else s.(pose := s.pose.(trainingState := Active),
            motion := s.motion.(squatPhase := Up, pushupPhase := Up, progress := 0.0,
                                lastPushupUpTime := 0, lastPushupDownTime := 0))
  }

  /** pauseTraining: only an ACTIVE or READY session pauses. */
  function PauseTraining(s: EngineState): (r: EngineState)
    ensures s.pose.trainingState == Active || s.pose.trainingState == Ready ==>
      r == s.(pose := s.pose.(trainingState := Paused))
    ensures s.pose.trainingState != Active && s.pose.trainingState != Ready ==> r == s
  {
    if s.pose.trainingState != Active && s.pose.trainingState != Ready then s
    else s.(pose := s.pose.(trainingState := Paused))
  }

  /** resumeTraining: only a PAUSED session resumes. */
  function ResumeTraining(s: EngineState): (r: EngineState)
    ensures s.pose.trainingState != Paused ==> r == s
  {
    if s.pose.trainingState != Paused then s
    else if s.pose.keypointsStable && s.pose.personDetected then
      StartRepDetection(s.(pose := s.pose.(trainingState := Active)))
    else StartPoseBootstrap(s.(pose := s.pose.(trainingState := Waiting)))
  }

  /**
   * A paused session goes back to ACTIVE, keeping its pending reps, when the
   * person is still tracked; otherwise it bootstraps again, which discards them.
   */
  lemma ResumeTrainingSpec(s: EngineState)
    requires s.pose.trainingState == Paused
    ensures var r := ResumeTraining(s);
      && (s.pose.keypointsStable && s.pose.personDetected ==>
            && r.pose == s.pose.(trainingState := Active) && r.repCount == s.repCount && r.sets == s.sets
            && r.motion.squatPhase == Up && r.motion.pushupPhase == Up && r.motion.progress == 0.0
            && r.motion.lastPushupUpTime == 0 && r.motion.lastPushupDownTime == 0)
      && (!(s.pose.keypointsStable && s.pose.personDetected) ==>
            && r.pose.trainingState == Waiting && r.repCount == 0 && r.sets == s.sets && r.poseDetectionActive
            && r.pose.stableFrameCount == 0 && r.pose.lostFrameCount == 0
            && !r.pose.keypointsStable && !r.pose.personDetected)
      && r.pose.replayFrames == s.pose.replayFrames && r.lastRepTimestamp == s.lastRepTimestamp
      && r.motion.lastQuality == s.motion.lastQuality && r.gamification == s.gamification
  {
  }

  /** saveSet: with no pending reps nothing is saved; a PAUSED session resumes after the flush. */
  function SaveSet(s: EngineState, auto: bool, exercise: string, now: int, draw: real): (r: EngineState)
    requires 0.0 <= draw < 1.0
    ensures s.repCount == 0 ==> r == s
  {
    if s.repCount == 0 then s
    else
      var record := NewSet(s, auto, exercise, now, draw);
      var saved := s.(sets := s.sets + [record],
                      gamification := Credit(s.gamification, s.repCount, record.quality),
                      repCount := 0,
                      pose := s.pose.(currentSetFrames := []));
      if saved.pose.trainingState == Paused then ResumeTraining(saved) else saved
  }

  /**
   * Saving pending reps appends exactly one set built from them, credits its
   * XP, clears the counters and loses no rep; outside a pause nothing else of
   * the session changes.
   */
  lemma SaveSetSpec(s: EngineState, auto: bool, exercise: string, now: int, draw: real)
    requires 0.0 <= draw < 1.0
    ensures var r := SaveSet(s, auto, exercise, now, draw);
      && (s.repCount > 0 ==> Flushed(s, r, auto, exercise, now))
      && (s.repCount > 0 ==> r.sets[|s.sets|] == NewSet(s, auto, exercise, now, draw))
      && (s.pose.trainingState != Paused ==> SameSession(s, r) && SameMotion(s, r))
      && r.repCount == 0 && TotalReps(r) == TotalReps(s)
      && r.lastRepTimestamp == s.lastRepTimestamp && r.motion.lastQuality == s.motion.lastQuality
      && (r.motion.progress == s.motion.progress || r.motion.progress == 0.0)
      && r.pose.replayFrames == s.pose.replayFrames
  {
    if s.repCount > 0 {
      var record := NewSet(s, auto, exercise, now, draw);
      var saved := s.(sets := s.sets + [record],
                      gamification := Credit(s.gamification, s.repCount, record.quality),
                      repCount := 0,
                      pose := s.pose.(currentSetFrames := []));
      assert saved.sets[..|s.sets|] == s.sets;
      assert TotalReps(saved) == TotalReps(s);
      if s.pose.trainingState == Paused {
        ResumeTrainingSpec(saved);
      }
    }
  }

  /** stopCamera: the detector loop ends and presence is forgotten; the training state is left alone. */
  function StopCamera(s: EngineState): (r: EngineState)
    ensures !r.poseDetectionActive && !r.pose.personDetected && !r.pose.keypointsStable && !r.pose.ready
    ensures r.pose.trainingState == s.pose.trainingState && r.repCount == s.repCount && r.sets == s.sets
    ensures r.pose.currentSetFrames == s.pose.currentSetFrames && SameMotion(s, r)
  {
    s.(poseDetectionActive := false,
       pose := s.pose.(ready := false, personDetected := false, keypointsStable := false))
  }

  /**
   * What bringing the camera up reported: an already running stream was reused,
   * a new stream was started (after stopping the old one), the start failed
   * after the old stream was stopped, or no camera API exists (nothing ran).
   */
  datatype CameraOutcome = Reused | Restarted | Failed | Unavailable

  /** handleStartTraining: a PAUSED session resumes; otherwise the camera comes up and tracking bootstraps. */
  function HandleStartTraining(s: EngineState, camera: CameraOutcome): (r: EngineState)
    ensures s.pose.trainingState == Paused ==> r == ResumeTraining(s)
    ensures s.pose.trainingState != Paused && (camera == Reused || camera == Restarted) ==>
      r.pose.trainingState == Waiting && r.poseDetectionActive && r.repCount == 0 && r.sets == s.sets
    ensures s.pose.trainingState != Paused && camera == Failed ==> r == StopCamera(s)
    ensures s.pose.trainingState != Paused && camera == Unavailable ==> r == s
  {
    if s.pose.trainingState == Paused then ResumeTraining(s)
    else match camera
      case Reused => StartPoseBootstrap(s)
      case Restarted => StartPoseBootstrap(StopCamera(s))
      case Failed => StopCamera(s)
      case Unavailable => s
  }

  /**
   * The camera-facing selector: with a running stream, restart the camera on
   * the new side and bootstrap again. `Reused` stands for "no stream running",
   * where the handler does nothing.
   */
  function SwitchCamera(s: EngineState, camera: CameraOutcome): (r: EngineState)
    ensures camera == Reused || camera == Unavailable ==> r == s
    ensures camera == Restarted ==> r.pose.trainingState == Waiting && r.poseDetectionActive && r.repCount == 0
    ensures camera == Failed ==> r == StopCamera(s)
  {
    match camera
    case Reused => s
    case Restarted => StartPoseBootstrap(StopCamera(s))
    case Failed => StopCamera(s)
    case Unavailable => s
  }

  /** stopTraining: STOPPED, camera off, presence forgotten, and pending reps flushed as a manual set. */
  function StopTraining(s: EngineState, exercise: string, now: int, draw: real): (r: EngineState)
    requires 0.0 <= draw < 1.0
  {
    var stopped := StopCamera(s.(pose := s.pose.(trainingState := Stopped)));
    if stopped.repCount > 0 then SaveSet(stopped, false, exercise, now, draw) else stopped
  }

  /** Stopping always ends in STOPPED with the camera off, and no pending rep is lost: they become a manual set. */
  lemma StopTrainingSpec(s: EngineState, exercise: string, now: int, draw: real)
    requires 0.0 <= draw < 1.0
    ensures var r := StopTraining(s, exercise, now, draw);
      && r.pose.trainingState == Stopped && !r.poseDetectionActive
      && !r.pose.personDetected && !r.pose.keypointsStable && !r.pose.ready
      && (s.repCount > 0 ==> Flushed(s, r, false, exercise, now))
      && (s.repCount == 0 ==> r.sets == s.sets && r.pose.currentSetFrames == s.pose.currentSetFrames)
      && r.repCount == 0 && TotalReps(r) == TotalReps(s)
  {
    var stopped := StopCamera(s.(pose := s.pose.(trainingState := Stopped)));
    SaveSetSpec(stopped, false, exercise, now, draw);
  }

  // ---------------------------------------------------------------------------
  // Rep counting
  // ---------------------------------------------------------------------------

  /** processRepCounting's dispatch on the selected exercise name. */
  function ExerciseOf(name: string): Exercise
  {
    if name == "Kniebeugen" || Contains(name, "Squat") then Squat
    else if name == "Liegestütze" || Contains(name, "Push") then Pushup
    else Generic
  }

  predicate Has(rep: seq<Option<Landmark>>, i: nat)
  {
    i < |rep| && rep[i].Some?
  }

  /** Left shoulder, hip, knee and ankle are present. */
  predicate SquatLandmarks(rep: seq<Option<Landmark>>)
  {
    Has(rep, 23) && Has(rep, 25) && Has(rep, 27) && Has(rep, 11)
  }

  /** Left shoulder, elbow, wrist and hip are present. */
  predicate PushupLandmarks(rep: seq<Option<Landmark>>)
  {
    Has(rep, 11) && Has(rep, 13) && Has(rep, 15) && Has(rep, 23)
  }

  /** The quality of a squat rep: 90..99 after a full-range bottom, 70..84 otherwise. */
  function SquatRepQuality(lastROM: Rom, draw: real): (q: int)
    requires 0.0 <= draw < 1.0
    ensures lastROM == Full ==> 90 <= q <= 99
    ensures lastROM != Full ==> 70 <= q <= 84
  {
    if lastROM == Full then 90 + Floor(draw * 10.0) else 70 + Floor(draw * 15.0)
  }

  /** The quality of a push-up rep: 85..99. */
  function PushupRepQuality(draw: real): (q: int)
    requires 0.0 <= draw < 1.0
    ensures 85 <= q <= 99
  {
    85 + Floor(draw * 15.0)
  }

  /** After one more rep: saved automatically once the count reaches the threshold. */
  function AfterRep(s: EngineState, exercise: string, now: int, draws: Draws): (r: EngineState)
    requires draws.Valid()
    ensures s.repCount < AutoSaveRepCount ==> r == s
  {
    if s.repCount >= AutoSaveRepCount then SaveSet(s, true, exercise, now, draws.save) else s
  }

  /** The auto-save keeps every rep and leaves fewer than twelve pending. */
  lemma AfterRepSpec(s: EngineState, exercise: string, now: int, draws: Draws)
    requires draws.Valid()
    ensures var r := AfterRep(s, exercise, now, draws);
      && TotalReps(r) == TotalReps(s)
      && (s.repCount >= AutoSaveRepCount ==> Flushed(s, r, true, exercise, now))
      && r.repCount < AutoSaveRepCount
      && (s.pose.trainingState != Paused ==> SameSession(s, r) && SameMotion(s, r))
      && r.lastRepTimestamp == s.lastRepTimestamp && r.motion.lastQuality == s.motion.lastQuality
      && (r.motion.progress == s.motion.progress || r.motion.progress == 0.0)
  {
    SaveSetSpec(s, true, exercise, now, draws.save);
  }

  /** Exactly one rep was counted (whether it is still pending or already saved). */
  predicate CountedOne(s: EngineState, r: EngineState)
  {
    TotalReps(r) == TotalReps(s) + 1
  }

  /** No rep was counted and the pending reps, per-set frames and saved sets are as they were. */
  predicate CountedNone(s: EngineState, r: EngineState)
  {
    r.repCount == s.repCount && r.sets == s.sets && r.pose.currentSetFrames == s.pose.currentSetFrames
  }

  /** countSquatReps: hip and knee angles with hysteresis, a rep on the way up, 500 ms apart. */
  function CountSquatReps(s: EngineState, rep: seq<Option<Landmark>>, angles: JointAngles, now: int,
                          exercise: string, draws: Draws): (r: EngineState)
    requires draws.Valid()
    ensures !SquatLandmarks(rep) ==> r == s
  {
    if !SquatLandmarks(rep) then s
    else
      var hip, knee := angles.hip, angles.knee;
      var m := s.motion;
      var moved :=
        if m.squatPhase == Up && hip < SquatDownHipAngle && knee < SquatDownKneeAngle then
          s.(motion := m.(squatPhase := Down, lastROM := if hip < FullRangeHipAngle then Full else Partial))
        else if m.squatPhase == Down && hip > SquatUpHipAngle && knee > SquatUpKneeAngle
                && now - s.lastRepTimestamp >= MinRepIntervalMs then
          AfterRep(s.(motion := m.(squatPhase := Up, lastQuality := SquatRepQuality(m.lastROM, draws.rep)),
                      repCount := s.repCount + 1, lastRepTimestamp := now),
                   exercise, now, draws)
        else s;
      moved.(motion := moved.motion.(lastHipAngle := hip))
  }

  /**
   * Going down: a squat that is up goes down exactly when both angles are under
   * their down thresholds, recording a full range below 90 degrees at the hip;
   * no rep is counted on the way down.
   */
  lemma SquatGoesDown(s: EngineState, rep: seq<Option<Landmark>>, angles: JointAngles, now: int,
                      exercise: string, draws: Draws)
    requires draws.Valid() && SquatLandmarks(rep) && s.motion.squatPhase == Up
    ensures var r := CountSquatReps(s, rep, angles, now, exercise, draws);
      && r.motion.lastHipAngle == angles.hip
      && CountedNone(s, r) && r.lastRepTimestamp == s.lastRepTimestamp
      && (r.motion.squatPhase == Down <==> angles.hip < SquatDownHipAngle && angles.knee < SquatDownKneeAngle)
      && (r.motion.squatPhase == Down ==> (r.motion.lastROM == Full <==> angles.hip < FullRangeHipAngle))
      && (r.motion.squatPhase == Up ==> r.motion.lastROM == s.motion.lastROM)
  {
  }

  /**
   * Coming up: a squat that is down counts a rep exactly when both angles pass
   * their up thresholds at least 500 ms after the previous rep; the rep's
   * quality reflects the recorded range, and the twelfth rep saves the set.
   */
  lemma SquatComesUp(s: EngineState, rep: seq<Option<Landmark>>, angles: JointAngles, now: int,
                     exercise: string, draws: Draws)
    requires draws.Valid() && SquatLandmarks(rep) && s.motion.squatPhase == Down
    ensures var r := CountSquatReps(s, rep, angles, now, exercise, draws);
      && (CountedOne(s, r) <==>
            angles.hip > SquatUpHipAngle && angles.knee > SquatUpKneeAngle
            && now - s.lastRepTimestamp >= MinRepIntervalMs)
      && (!CountedOne(s, r) ==> r == s.(motion := s.motion.(lastHipAngle := angles.hip)))
      && (CountedOne(s, r) ==>
            && r.lastRepTimestamp == now
            && (s.motion.lastROM == Full ==> 90 <= r.motion.lastQuality <= 99)
            && (s.motion.lastROM != Full ==> 70 <= r.motion.lastQuality <= 84)
            && (s.repCount + 1 < AutoSaveRepCount ==>
                  r.repCount == s.repCount + 1 && r.sets == s.sets && r.motion.squatPhase == Up)
            && (s.repCount + 1 >= AutoSaveRepCount ==>
                  Flushed(s.(repCount := s.repCount + 1), r, true, exercise, now)))
  {
    var m := s.motion;
    if angles.hip > SquatUpHipAngle && angles.knee > SquatUpKneeAngle && now - s.lastRepTimestamp >= MinRepIntervalMs {
      AfterRepSpec(s.(motion := m.(squatPhase := Up, lastQuality := SquatRepQuality(m.lastROM, draws.rep)),
                      repCount := s.repCount + 1, lastRepTimestamp := now),
                   exercise, now, draws);
    }
  }

  /** Whatever the angles, a squat callback counts at most one rep and keeps the session's invariants. */
  lemma CountSquatRepsFrame(s: EngineState, rep: seq<Option<Landmark>>, angles: JointAngles, now: int,
                            exercise: string, draws: Draws)
    requires draws.Valid()
    ensures var r := CountSquatReps(s, rep, angles, now, exercise, draws);
      && (TotalReps(r) == TotalReps(s) || CountedOne(s, r))
      && (r.pose.currentSetFrames == s.pose.currentSetFrames || r.pose.currentSetFrames == [])
      && (!CountedOne(s, r) ==> CountedNone(s, r) && r.lastRepTimestamp == s.lastRepTimestamp)
      && (CountedOne(s, r) ==> r.lastRepTimestamp == now && now - s.lastRepTimestamp >= MinRepIntervalMs)
      && (s.pose.trainingState != Paused ==> SameSession(s, r))
      && (s.repCount < AutoSaveRepCount ==> r.repCount < AutoSaveRepCount)
      && (s.pose.trainingState != Paused ==>
            r.motion.progress == s.motion.progress && r.motion.pushupPhase == s.motion.pushupPhase)
  {
    var m := s.motion;
    if SquatLandmarks(rep) && m.squatPhase == Down && angles.hip > SquatUpHipAngle && angles.knee > SquatUpKneeAngle
       && now - s.lastRepTimestamp >= MinRepIntervalMs {
      AfterRepSpec(s.(motion := m.(squatPhase := Up, lastQuality := SquatRepQuality(m.lastROM, draws.rep)),
                      repCount := s.repCount + 1, lastRepTimestamp := now),
                   exercise, now, draws);
    }
  }

  /** countPushupReps: one elbow angle with a dwell-time gate in each phase and the 500 ms rep interval. */
  function CountPushupReps(s: EngineState, rep: seq<Option<Landmark>>, angles: JointAngles, now: int,
                           exercise: string, draws: Draws): (r: EngineState)
    requires draws.Valid()
    ensures !PushupLandmarks(rep) ==> r == s
  {
    if !PushupLandmarks(rep) then s
    else
      var elbow := angles.elbow;
      var m := s.motion;
      if m.pushupPhase == Up && elbow < PushupDownElbowAngle then
        if now - m.lastPushupUpTime >= PushupDebounceMs || m.lastPushupUpTime == 0 then
          s.(motion := m.(pushupPhase := Down, lastPushupDownTime := now))
        else s
      else if m.pushupPhase == Down && elbow > PushupUpElbowAngle then
        if now - m.lastPushupDownTime >= PushupDebounceMs && now - s.lastRepTimestamp >= MinRepIntervalMs then
          AfterRep(s.(motion := m.(pushupPhase := Up, lastPushupUpTime := now,
                                   lastQuality := PushupRepQuality(draws.rep)),
                      repCount := s.repCount + 1, lastRepTimestamp := now),
                   exercise, now, draws)
        else s
      else s
  }

  /**
   * Going down: a push-up that is up goes down exactly when the elbow is under
   * 90 degrees and, after an earlier rep, it stayed up for 800 ms; otherwise
   * nothing changes. No rep is counted on the way down.
   */
  lemma PushupGoesDown(s: EngineState, rep: seq<Option<Landmark>>, angles: JointAngles, now: int,
                       exercise: string, draws: Draws)
    requires draws.Valid() && PushupLandmarks(rep) && s.motion.pushupPhase == Up
    ensures var r := CountPushupReps(s, rep, angles, now, exercise, draws);
      && CountedNone(s, r) && r.lastRepTimestamp == s.lastRepTimestamp
      && (r.motion.pushupPhase == Down <==>
            angles.elbow < PushupDownElbowAngle
            && (s.motion.lastPushupUpTime == 0 || now - s.motion.lastPushupUpTime >= PushupDebounceMs))
      && (r.motion.pushupPhase == Down ==> r.motion.lastPushupDownTime == now)
      && (r.motion.pushupPhase == Up ==> r == s)
  {
  }

  /**
   * Coming up: a push-up that is down counts a rep exactly when the elbow
   * straightens past 160 degrees after 800 ms down and 500 ms after the
   * previous rep; otherwise nothing changes.
   */
  lemma PushupComesUp(s: EngineState, rep: seq<Option<Landmark>>, angles: JointAngles, now: int,
                      exercise: string, draws: Draws)
    requires draws.Valid() && PushupLandmarks(rep) && s.motion.pushupPhase == Down
    ensures var r := CountPushupReps(s, rep, angles, now, exercise, draws);
      && (CountedOne(s, r) <==>
            && angles.elbow > PushupUpElbowAngle
            && now - s.motion.lastPushupDownTime >= PushupDebounceMs
            && now - s.lastRepTimestamp >= MinRepIntervalMs)
      && (!CountedOne(s, r) ==> r == s)
      && (CountedOne(s, r) ==>
            && r.lastRepTimestamp == now && 85 <= r.motion.lastQuality <= 99
            && (s.pose.trainingState != Paused ==> r.motion.pushupPhase == Up && r.motion.lastPushupUpTime == now)
            && (s.repCount + 1 < AutoSaveRepCount ==> r.repCount == s.repCount + 1 && r.sets == s.sets)
            && (s.repCount + 1 >= AutoSaveRepCount ==>
                  Flushed(s.(repCount := s.repCount + 1), r, true, exercise, now)))
  {
    var m := s.motion;
    if angles.elbow > PushupUpElbowAngle && now - m.lastPushupDownTime >= PushupDebounceMs
       && now - s.lastRepTimestamp >= MinRepIntervalMs {
      AfterRepSpec(s.(motion := m.(pushupPhase := Up, lastPushupUpTime := now,
                                   lastQuality := PushupRepQuality(draws.rep)),
                      repCount := s.repCount + 1, lastRepTimestamp := now),
                   exercise, now, draws);
    }
  }

  /** Whatever the angle, a push-up callback counts at most one rep and keeps the session's invariants. */
  lemma CountPushupRepsFrame(s: EngineState, rep: seq<Option<Landmark>>, angles: JointAngles, now: int,
                             exercise: string, draws: Draws)
    requires draws.Valid()
    ensures var r := CountPushupReps(s, rep, angles, now, exercise, draws);
      && (TotalReps(r) == TotalReps(s) || CountedOne(s, r))
      && (r.pose.currentSetFrames == s.pose.currentSetFrames || r.pose.currentSetFrames == [])
      && (!CountedOne(s, r) ==> CountedNone(s, r) && r.lastRepTimestamp == s.lastRepTimestamp)
      && (CountedOne(s, r) ==> r.lastRepTimestamp == now && now - s.lastRepTimestamp >= MinRepIntervalMs)
      && (s.pose.trainingState != Paused ==> SameSession(s, r))
      && (s.repCount < AutoSaveRepCount ==> r.repCount < AutoSaveRepCount)
      && (s.pose.trainingState != Paused ==>
            r.motion.progress == s.motion.progress && r.motion.squatPhase == s.motion.squatPhase)
  {
    var m := s.motion;
    if PushupLandmarks(rep) && m.pushupPhase == Down && angles.elbow > PushupUpElbowAngle
       && now - m.lastPushupDownTime >= PushupDebounceMs && now - s.lastRepTimestamp >= MinRepIntervalMs {
      AfterRepSpec(s.(motion := m.(pushupPhase := Up, lastPushupUpTime := now,
                                   lastQuality := PushupRepQuality(draws.rep)),
                      repCount := s.repCount + 1, lastRepTimestamp := now),
                   exercise, now, draws);
    }
  }

  /** The y coordinates of the shoulders and hips (11, 12, 23, 24) that are present, in that order. */
  function TorsoYs(rep: seq<Option<Landmark>>): (ys: seq<real>)
    ensures |ys| <= 4
  {
    (if Has(rep, 11) then [rep[11].value.y] else [])
    + (if Has(rep, 12) then [rep[12].value.y] else [])
    + (if Has(rep, 23) then [rep[23].value.y] else [])
    + (if Has(rep, 24) then [rep[24].value.y] else [])
  }

  function SumReal(xs: seq<real>): real
  {
    if xs == [] then 0.0 else SumReal(xs[..|xs| - 1]) + xs[|xs| - 1]
  }

  /** `motionTracker.lastVerticalPos || avgY`: an unset or zero previous position means no movement. */
  function PreviousVertical(last: Option<real>, avgY: real): real
  {
    if last.Some? && last.value != 0.0 then last.value else avgY
  }

  /** The mean torso height of a callback with at least one torso landmark. */
  function AverageY(rep: seq<Option<Landmark>>): real
    requires TorsoYs(rep) != []
  {
    SumReal(TorsoYs(rep)) / |TorsoYs(rep)| as real
  }

  /**
   * countGenericReps: integrate the vertical movement of the torso; every
   * jump of more than 0.05 adds twice its size to `progress` (capped at 1),
   * and reaching 1 counts a rep and starts again from 0.
   */
  function CountGenericReps(s: EngineState, rep: seq<Option<Landmark>>, now: int,
                            exercise: string, draws: Draws): (r: EngineState)
    requires draws.Valid()
    ensures TorsoYs(rep) == [] ==> r == s
  {
    if TorsoYs(rep) == [] then s else MoveVertically(s, AverageY(rep), now, exercise, draws)
  }

  /** The generic counter once the frame's mean torso height `avgY` is known. */
  function MoveVertically(s: EngineState, avgY: real, now: int, exercise: string, draws: Draws): EngineState
    requires draws.Valid()
  {
    var movement := avgY - PreviousVertical(s.motion.lastVerticalPos, avgY);
    var m := s.motion.(lastVerticalPos := Some(avgY));
    if AbsReal(movement) > GenericMinMovement then
      var progress := MinReal(1.0, m.progress + AbsReal(movement) * 2.0);
      if progress >= 1.0 then
        AfterRep(s.(motion := m.(progress := 0.0), repCount := s.repCount + 1), exercise, now, draws)
      else s.(motion := m.(progress := progress))
    else s.(motion := m)
  }

  /**
   * The generic counter counts a rep exactly when a jump of more than 0.05
   * brings the accumulated progress to 1, and otherwise remembers the new
   * torso height.
   */
  lemma GenericCountsOnFullProgress(s: EngineState, avgY: real, now: int, exercise: string, draws: Draws)
    requires draws.Valid()
    ensures var r := MoveVertically(s, avgY, now, exercise, draws);
      var movement := AbsReal(avgY - PreviousVertical(s.motion.lastVerticalPos, avgY));
      && (CountedOne(s, r) <==> movement > GenericMinMovement && s.motion.progress + movement * 2.0 >= 1.0)
      && (!CountedOne(s, r) ==> CountedNone(s, r) && r.motion.lastVerticalPos == Some(avgY))
      && (CountedOne(s, r) ==> r.motion.progress == 0.0)
  {
    var movement := avgY - PreviousVertical(s.motion.lastVerticalPos, avgY);
    var m := s.motion.(lastVerticalPos := Some(avgY));
    if AbsReal(movement) > GenericMinMovement && m.progress + AbsReal(movement) * 2.0 >= 1.0 {
      AfterRepSpec(s.(motion := m.(progress := 0.0), repCount := s.repCount + 1), exercise, now, draws);
    }
  }

  /** Whatever the movement, the generic counter counts at most one rep and never leaves twelve pending. */
  lemma MoveVerticallyCounts(s: EngineState, avgY: real, now: int, exercise: string, draws: Draws)
    requires draws.Valid()
    ensures var r := MoveVertically(s, avgY, now, exercise, draws);
      && (TotalReps(r) == TotalReps(s) || CountedOne(s, r))
      && (r.pose.currentSetFrames == s.pose.currentSetFrames || r.pose.currentSetFrames == [])
      && (!CountedOne(s, r) ==> CountedNone(s, r))
      && r.lastRepTimestamp == s.lastRepTimestamp
      && (s.repCount < AutoSaveRepCount ==> r.repCount < AutoSaveRepCount)
  {
    var movement := avgY - PreviousVertical(s.motion.lastVerticalPos, avgY);
    var m := s.motion.(lastVerticalPos := Some(avgY));
    var r := MoveVertically(s, avgY, now, exercise, draws);
    if AbsReal(movement) > GenericMinMovement {
      var progress := MinReal(1.0, m.progress + AbsReal(movement) * 2.0);
      if progress >= 1.0 {
        var counted := s.(motion := m.(progress := 0.0), repCount := s.repCount + 1);
        AfterRepSpec(counted, exercise, now, draws);
        assert TotalReps(counted) == TotalReps(s) + 1;
      } else {
        assert r == s.(motion := m.(progress := progress));
      }
    } else {
      assert r == s.(motion := m);
    }
  }

  /** The generic counter keeps progress within [0, 1] and, outside a pause, the session as it was. */
  lemma MoveVerticallyFrame(s: EngineState, avgY: real, now: int, exercise: string, draws: Draws)
    requires draws.Valid()
    ensures var r := MoveVertically(s, avgY, now, exercise, draws);
      && (0.0 <= s.motion.progress <= 1.0 ==> 0.0 <= r.motion.progress <= 1.0)
      && (s.pose.trainingState != Paused ==> SameSession(s, r))
  {
    var movement := avgY - PreviousVertical(s.motion.lastVerticalPos, avgY);
    var m := s.motion.(lastVerticalPos := Some(avgY));
    var r := MoveVertically(s, avgY, now, exercise, draws);
    if AbsReal(movement) > GenericMinMovement {
      var progress := MinReal(1.0, m.progress + AbsReal(movement) * 2.0);
      if progress >= 1.0 {
        var counted := s.(motion := m.(progress := 0.0), repCount := s.repCount + 1);
        AfterRepSpec(counted, exercise, now, draws);
      } else {
        assert r == s.(motion := m.(progress := progress));
      }
    } else {
      assert r == s.(motion := m);
    }
  }

  /** processRepCounting. */
  function ProcessRepCounting(s: EngineState, rep: seq<Option<Landmark>>, angles: JointAngles, now: int,
                              exercise: string, draws: Draws): (r: EngineState)
    requires draws.Valid()
  {
    match ExerciseOf(exercise)
    case Squat => CountSquatReps(s, rep, angles, now, exercise, draws)
    case Pushup => CountPushupReps(s, rep, angles, now, exercise, draws)
    case Generic => CountGenericReps(s, rep, now, exercise, draws)
  }

  /** Whatever the exercise, one callback counts at most one rep; squats and push-ups respect the 500 ms interval. */
  lemma ProcessRepCountingSpec(s: EngineState, rep: seq<Option<Landmark>>, angles: JointAngles, now: int,
                               exercise: string, draws: Draws)
    requires draws.Valid()
    ensures var r := ProcessRepCounting(s, rep, angles, now, exercise, draws);
      && (TotalReps(r) == TotalReps(s) || CountedOne(s, r))
      && (r.pose.currentSetFrames == s.pose.currentSetFrames || r.pose.currentSetFrames == [])
      && (!CountedOne(s, r) ==> CountedNone(s, r) && r.lastRepTimestamp == s.lastRepTimestamp)
      && (ExerciseOf(exercise) != Generic && CountedOne(s, r) ==>
            r.lastRepTimestamp == now && now - s.lastRepTimestamp >= MinRepIntervalMs)
      && (s.pose.trainingState != Paused ==> SameSession(s, r))
      && (s.repCount < AutoSaveRepCount ==> r.repCount < AutoSaveRepCount)
      && (s.pose.trainingState != Paused && 0.0 <= s.motion.progress <= 1.0 ==> 0.0 <= r.motion.progress <= 1.0)
  {
    match ExerciseOf(exercise)
    case Squat => CountSquatRepsFrame(s, rep, angles, now, exercise, draws);
    case Pushup => CountPushupRepsFrame(s, rep, angles, now, exercise, draws);
    case Generic =>
      if TorsoYs(rep) != [] {
        MoveVerticallyCounts(s, AverageY(rep), now, exercise, draws);
        MoveVerticallyFrame(s, AverageY(rep), now, exercise, draws);
      }
  }

  // ---------------------------------------------------------------------------
  // Presence tracking and the per-frame pipeline
  // ---------------------------------------------------------------------------

  /** Push `f` and, past `capacity`, shift out the oldest frame (one push, at most one shift). */
  function Bounded(frames: seq<Frame>, f: Frame, capacity: nat): (r: seq<Frame>)
    requires capacity > 0
    ensures |frames| <= capacity ==> |r| <= capacity
    ensures |r| > 0 && r[|r| - 1] == f
    ensures |frames| < capacity ==> r == frames + [f]
    ensures |frames| >= capacity ==> r == frames[1..] + [f]
  {
    var pushed := frames + [f];
    if |pushed| > capacity then pushed[1..] else pushed
  }

  /** The presence debounce and the stability latch for one frame with landmarks. */
  function Presence(s: EngineState, f: Frame): (r: EngineState)
    ensures f.confidence <= MinPersonConfidence ==> r == s
  {
    var p := s.pose;
    if f.confidence > MinPersonConfidence then
      if f.stable then
        var count := p.stableFrameCount + 1;
        if count >= StableFramesRequired && !p.keypointsStable then
          if p.trainingState == Waiting then
            StartRepDetection(s.(pose := p.(personDetected := true, stableFrameCount := count, keypointsStable := true,
                                            ready := true, trainingState := Ready)))
          else s.(pose := p.(personDetected := true, stableFrameCount := count, keypointsStable := true))
        else s.(pose := p.(personDetected := true, stableFrameCount := count))
      else
        s.(pose := p.(personDetected := true,
                      stableFrameCount := if p.stableFrameCount == 0 then 0 else p.stableFrameCount - 1))
    else s
  }

  /**
   * A confident frame marks the person present and moves the stable count up
   * (stable frame) or down (unstable frame); the keypoints become stable once
   * the count reaches three, and a session WAITING for them goes ACTIVE with a
   * fresh movement cycle.
   */
  lemma PresenceSpec(s: EngineState, f: Frame)
    ensures var r := Presence(s, f);
      && (f.confidence > MinPersonConfidence ==>
            && r.pose.personDetected
            && r.pose.stableFrameCount ==
                 (if f.stable then s.pose.stableFrameCount + 1 else MaxInt(0, s.pose.stableFrameCount - 1)))
      && (r.pose.keypointsStable <==>
            || s.pose.keypointsStable
            || (f.confidence > MinPersonConfidence && f.stable && s.pose.stableFrameCount + 1 >= StableFramesRequired))
      && (s.pose.trainingState == Waiting && !s.pose.keypointsStable && r.pose.keypointsStable ==>
            && r.pose.trainingState == Active && r.pose.ready
            && r.motion.squatPhase == Up && r.motion.pushupPhase == Up && r.motion.progress == 0.0
            && r.motion.lastPushupUpTime == 0 && r.motion.lastPushupDownTime == 0)
      && (!(s.pose.trainingState == Waiting && !s.pose.keypointsStable && r.pose.keypointsStable) ==>
            r.pose.trainingState == s.pose.trainingState && r.pose.ready == s.pose.ready && SameMotion(s, r))
  {
  }

  /** The debounce touches nothing but presence, the latch and (on the latch) the movement cycle. */
  lemma PresenceKeepsCounters(s: EngineState, f: Frame)
    ensures var r := Presence(s, f);
      && r.repCount == s.repCount && r.sets == s.sets && r.pose.currentSetFrames == s.pose.currentSetFrames
      && r.lastRepTimestamp == s.lastRepTimestamp && r.pose.replayFrames == s.pose.replayFrames
      && r.pose.lostFrameCount == s.pose.lostFrameCount && r.poseDetectionActive == s.poseDetectionActive
      && (0.0 <= s.motion.progress <= 1.0 ==> 0.0 <= r.motion.progress <= 1.0)
  {
  }

  /** `worldLandmarks || landmarks`: the landmarks the rep counters read. */
  function RepSource(lms: seq<Landmark>, world: Option<seq<Option<Landmark>>>): seq<Option<Landmark>>
  {
    if world.Some? then world.value else seq(|lms|, i requires 0 <= i < |lms| => Some(lms[i]))
  }

  /** Both buffers take the frame (the per-set one only while ACTIVE or READY) and the loss streak ends. */
  function BufferFrame(s: EngineState, f: Frame): (r: EngineState)
    ensures r.pose.replayFrames == Bounded(s.pose.replayFrames, f, ReplayCapacity)
    ensures r.pose.currentSetFrames ==
      (if s.pose.trainingState == Active || s.pose.trainingState == Ready
       then Bounded(s.pose.currentSetFrames, f, SetFramesCapacity) else s.pose.currentSetFrames)
    ensures r.pose.lostFrameCount == 0
    ensures r == s.(pose := s.pose.(replayFrames := r.pose.replayFrames, currentSetFrames := r.pose.currentSetFrames,
                                    lostFrameCount := 0))
  {
    var p := s.pose;
    s.(pose := p.(replayFrames := Bounded(p.replayFrames, f, ReplayCapacity),
                  currentSetFrames :=
                    if p.trainingState == Active || p.trainingState == Ready
                    then Bounded(p.currentSetFrames, f, SetFramesCapacity)
                    else p.currentSetFrames,
                  lostFrameCount := 0))
  }

  /** Rep counting runs only in an ACTIVE session with stable keypoints. */
  function GatedRepCounting(s: EngineState, rep: seq<Option<Landmark>>, angles: JointAngles, now: int,
                            exercise: string, draws: Draws): (r: EngineState)
    requires draws.Valid()
    ensures !(s.pose.trainingState == Active && s.pose.keypointsStable) ==> r == s
  {
    if s.pose.trainingState == Active && s.pose.keypointsStable then
      ProcessRepCounting(s, rep, angles, now, exercise, draws)
    else s
  }

  /** The gate keeps the session's state and counts at most one rep, only in an ACTIVE session. */
  lemma GatedRepCountingSpec(s: EngineState, rep: seq<Option<Landmark>>, angles: JointAngles, now: int,
                             exercise: string, draws: Draws)
    requires draws.Valid()
    ensures var r := GatedRepCounting(s, rep, angles, now, exercise, draws);
      && (TotalReps(r) == TotalReps(s) || CountedOne(s, r))
      && (r.pose.currentSetFrames == s.pose.currentSetFrames || r.pose.currentSetFrames == [])
      && (!CountedOne(s, r) ==> CountedNone(s, r) && r.lastRepTimestamp == s.lastRepTimestamp)
      && (ExerciseOf(exercise) != Generic && CountedOne(s, r) ==>
            r.lastRepTimestamp == now && now - s.lastRepTimestamp >= MinRepIntervalMs)
      && SameSession(s, r)
      && (s.repCount < AutoSaveRepCount ==> r.repCount < AutoSaveRepCount)
      && (0.0 <= s.motion.progress <= 1.0 ==> 0.0 <= r.motion.progress <= 1.0)
      && (CountedOne(s, r) ==> r.pose.trainingState == Active)
  {
    ProcessRepCountingSpec(s, rep, angles, now, exercise, draws);
  }

  /** processPoseLandmarks: classify, then track the classified frame. */
  function ProcessPoseLandmarks(s: EngineState, lms: seq<Landmark>, world: Option<seq<Option<Landmark>>>,
                                angles: JointAngles, now: int, exercise: string, draws: Draws): (r: EngineState)
    requires |lms| > 0 && draws.Valid()
  {
    TrackFrame(s, ClassifyFrame(lms, now), RepSource(lms, world), angles, now, exercise, draws)
  }

  /** What processPoseLandmarks does with a classified frame: buffer it, debounce presence, count reps while ACTIVE. */
  function TrackFrame(s: EngineState, f: Frame, rep: seq<Option<Landmark>>, angles: JointAngles, now: int,
                      exercise: string, draws: Draws): EngineState
    requires draws.Valid()
  {
    GatedRepCounting(Presence(BufferFrame(s, f), f), rep, angles, now, exercise, draws)
  }

  /**
   * A frame with landmarks enters the replay buffer (and, while ACTIVE or
   * READY, the set buffer) within their caps, ends the loss streak and
   * updates presence as the debounce says.
   */
  lemma TrackFrameBuffers(s: EngineState, f: Frame, rep: seq<Option<Landmark>>, angles: JointAngles, now: int,
                          exercise: string, draws: Draws)
    requires draws.Valid()
    ensures var r := TrackFrame(s, f, rep, angles, now, exercise, draws);
      var p := Presence(BufferFrame(s, f), f);
      && r.pose.replayFrames == Bounded(s.pose.replayFrames, f, ReplayCapacity)
      && r.pose.lostFrameCount == 0
      && (|s.pose.currentSetFrames| <= SetFramesCapacity ==> |r.pose.currentSetFrames| <= SetFramesCapacity)
      && (s.pose.trainingState != Active && s.pose.trainingState != Ready && !CountedOne(s, r) ==>
            r.pose.currentSetFrames == s.pose.currentSetFrames)
      && ((s.pose.trainingState == Active || s.pose.trainingState == Ready) && !CountedOne(s, r) ==>
            r.pose.currentSetFrames == Bounded(s.pose.currentSetFrames, f, SetFramesCapacity))
      && r.pose.personDetected == p.pose.personDetected && r.pose.keypointsStable == p.pose.keypointsStable
      && r.pose.stableFrameCount == p.pose.stableFrameCount && r.pose.trainingState == p.pose.trainingState
      && r.poseDetectionActive == s.poseDetectionActive
  {
    var buffered := BufferFrame(s, f);
    var present := Presence(buffered, f);
    PresenceKeepsCounters(buffered, f);
    if present.pose.trainingState == Active && present.pose.keypointsStable {
      assert TotalReps(present) == TotalReps(s);
      ProcessRepCountingSpec(present, rep, angles, now, exercise, draws);
    }
  }

  /** A frame with landmarks counts at most one rep, only in an ACTIVE session; a squat or push-up rep only 500 ms after the previous one. */
  lemma TrackFrameCounts(s: EngineState, f: Frame, rep: seq<Option<Landmark>>, angles: JointAngles, now: int,
                         exercise: string, draws: Draws)
    requires draws.Valid()
    ensures var r := TrackFrame(s, f, rep, angles, now, exercise, draws);
      && (TotalReps(r) == TotalReps(s) || CountedOne(s, r))
      && (CountedOne(s, r) ==> r.pose.trainingState == Active)
      && (!CountedOne(s, r) ==> r.repCount == s.repCount && r.sets == s.sets && r.lastRepTimestamp == s.lastRepTimestamp)
      && (ExerciseOf(exercise) != Generic && CountedOne(s, r) ==>
            r.lastRepTimestamp == now && now - s.lastRepTimestamp >= MinRepIntervalMs)
      && (s.repCount < AutoSaveRepCount ==> r.repCount < AutoSaveRepCount)
      && (0.0 <= s.motion.progress <= 1.0 ==> 0.0 <= r.motion.progress <= 1.0)
  {
    var buffered := BufferFrame(s, f);
    var present := Presence(buffered, f);
    PresenceKeepsCounters(buffered, f);
    assert TotalReps(present) == TotalReps(s);
    GatedRepCountingSpec(present, rep, angles, now, exercise, draws);
  }

  /** handleNoPerson: the third consecutive empty callback forgets the person and drops ACTIVE/READY to WAITING. */
  function HandleNoPerson(s: EngineState): (r: EngineState)
    ensures r.pose.lostFrameCount == s.pose.lostFrameCount + 1
    ensures r.pose.lostFrameCount < LostFramesThreshold ==>
      r == s.(pose := s.pose.(lostFrameCount := s.pose.lostFrameCount + 1))
    ensures r.pose.lostFrameCount >= LostFramesThreshold ==>
      && !r.pose.personDetected && !r.pose.keypointsStable && !r.pose.ready && r.pose.stableFrameCount == 0
      && (s.pose.trainingState == Active || s.pose.trainingState == Ready ==> r.pose.trainingState == Waiting)
      && (s.pose.trainingState != Active && s.pose.trainingState != Ready ==> r.pose.trainingState == s.pose.trainingState)
    ensures r.repCount == s.repCount && r.sets == s.sets && r.pose.currentSetFrames == s.pose.currentSetFrames
    ensures SameMotion(s, r) && r.pose.replayFrames == s.pose.replayFrames && r.poseDetectionActive == s.poseDetectionActive
  {
    var p := s.pose;
    var lost := p.lostFrameCount + 1;
    if lost >= LostFramesThreshold then
      s.(pose := p.(lostFrameCount := lost, personDetected := false, keypointsStable := false, ready := false,
                    stableFrameCount := 0,
                    trainingState := if p.trainingState == Active || p.trainingState == Ready then Waiting else p.trainingState))
    else s.(pose := p.(lostFrameCount := lost))
  }

  /** What the detector reports for one video frame. */
  datatype DetectorOutput =
    | NoPose
    | Pose(landmarks: seq<Landmark>, world: Option<seq<Option<Landmark>>>, angles: JointAngles)

  /** onPoseResults: ignored once detection is off; landmarks go to the classifier, anything else counts as no person. */
  function OnPoseResults(s: EngineState, out: DetectorOutput, now: int, exercise: string, draws: Draws): (r: EngineState)
    requires draws.Valid()
    ensures !s.poseDetectionActive ==> r == s
    ensures s.poseDetectionActive && (out.NoPose? || |out.landmarks| == 0) ==> r == HandleNoPerson(s)
  {
    if !s.poseDetectionActive then s
    else match out
      case Pose(lms, world, angles) =>
        if |lms| > 0 then ProcessPoseLandmarks(s, lms, world, angles, now, exercise, draws) else HandleNoPerson(s)
      case NoPose => HandleNoPerson(s)
  }

  /** One turn of the frame loop: no frame is sent to the detector while PAUSED or after detection stopped. */
  function FrameTick(s: EngineState, out: DetectorOutput, now: int, exercise: string, draws: Draws): (r: EngineState)
    requires draws.Valid()
    ensures s.pose.trainingState == Paused || !s.poseDetectionActive ==> r == s
  {
    if !s.poseDetectionActive || s.pose.trainingState == Paused then s
    else OnPoseResults(s, out, now, exercise, draws)
  }
}
