/**
 * Properties of whole training sessions: the events a user and the detector
 * can produce, the invariant every event keeps, and what holds over runs of
 * many frames (hysteresis, the rep interval, the stability latch, the loss
 * streak) together with the worked scenarios of the squat and push-up cycles.
 */
module SessionProperties {
  import opened Basics
  import opened PoseFrames
  import opened Gamification
  import opened RepEngine

  /**
   * Everything that changes the engine. `DetectorFrame` is one turn of the
   * frame loop (nothing is sent while PAUSED); `InFlightResult` is a detector
   * callback for a frame sent before the session was paused, which
   * onPoseResults handles without looking at the training state.
   */
  datatype Event =
    | StartButton(camera: CameraOutcome)
    | CameraSelector(camera: CameraOutcome)
    | DetectorFrame(out: DetectorOutput, now: int, exercise: string, draws: Draws)
    | InFlightResult(out: DetectorOutput, now: int, exercise: string, draws: Draws)
    | PauseButton
    | SaveButton(exercise: string, now: int, draw: real)
    | StopButton(exercise: string, now: int, draw: real)

  predicate WellFormed(e: Event)
  {
    match e
    case DetectorFrame(_, _, _, draws) => draws.Valid()
    case InFlightResult(_, _, _, draws) => draws.Valid()
    case SaveButton(_, _, draw) => 0.0 <= draw < 1.0
    case StopButton(_, _, draw) => 0.0 <= draw < 1.0
    case _ => true
  }

  function Step(s: EngineState, e: Event): EngineState
    requires WellFormed(e)
  {
    match e
    case StartButton(camera) => HandleStartTraining(s, camera)
    case CameraSelector(camera) => SwitchCamera(s, camera)
    case DetectorFrame(out, now, exercise, draws) => FrameTick(s, out, now, exercise, draws)
    case InFlightResult(out, now, exercise, draws) => OnPoseResults(s, out, now, exercise, draws)
    case PauseButton => PauseTraining(s)
    case SaveButton(exercise, now, draw) => SaveSet(s, false, exercise, now, draw)
    case StopButton(exercise, now, draw) => StopTraining(s, exercise, now, draw)
  }

  predicate AllWellFormed(es: seq<Event>)
  {
    forall i :: 0 <= i < |es| ==> WellFormed(es[i])
  }

  function Run(s: EngineState, es: seq<Event>): EngineState
    requires AllWellFormed(es)
    decreases |es|
  {
    if es == [] then s else Run(Step(s, es[0]), es[1..])
  }

  // ---------------------------------------------------------------------------
  // The session invariant
  // ---------------------------------------------------------------------------

  /**
   * What holds between any two events: the buffers stay within their caps, a
   * set is flushed before its twelfth rep is left pending, the generic progress
   * stays in [0, 1], stable keypoints belong to a detected person with
   * detection running, READY never outlives the frame that entered it,
   * WAITING means the latch is open, and while detection runs an ACTIVE
   * session has stable keypoints.
   */
  predicate Inv(s: EngineState)
  {
    && |s.pose.replayFrames| <= ReplayCapacity
    && |s.pose.currentSetFrames| <= SetFramesCapacity
    && s.repCount < AutoSaveRepCount
    && 0.0 <= s.motion.progress <= 1.0
    && (s.pose.keypointsStable ==> s.pose.personDetected && s.poseDetectionActive)
    && s.pose.trainingState != Ready
    && (s.pose.trainingState == Waiting ==> !s.pose.keypointsStable)
    && (s.poseDetectionActive ==> s.pose.trainingState != Stopped)
    && (s.poseDetectionActive && s.pose.trainingState == Active ==> s.pose.keypointsStable)
  }

  /** Without in-flight callbacks, a paused session with detection running also keeps its stable keypoints. */
  predicate SyncInv(s: EngineState)
  {
    Inv(s) && (s.poseDetectionActive && s.pose.trainingState == Paused ==> s.pose.keypointsStable)
  }

  lemma InitialInv(sets: seq<SetRecord>, g: Progress)
    ensures SyncInv(Initial(sets, g))
  {
  }

  lemma {:induction false} ResumeKeepsInv(s: EngineState)
    requires Inv(s)
    ensures Inv(ResumeTraining(s))
  {
  }

  lemma {:induction false} SaveSetKeepsInv(s: EngineState, auto: bool, exercise: string, now: int, draw: real)
    requires Inv(s) && 0.0 <= draw < 1.0
    ensures Inv(SaveSet(s, auto, exercise, now, draw))
  {
    if s.repCount > 0 && s.pose.trainingState == Paused {
      var record := NewSet(s, auto, exercise, now, draw);
      var saved := s.(sets := s.sets + [record],
                      gamification := Credit(s.gamification, s.repCount, record.quality),
                      repCount := 0, pose := s.pose.(currentSetFrames := []));
      ResumeKeepsInv(saved);
    }
  }

  lemma BufferKeepsInv(s: EngineState, f: Frame)
    requires Inv(s)
    ensures Inv(BufferFrame(s, f))
  {
  }

  lemma PresenceKeepsInv(s: EngineState, f: Frame)
    requires Inv(s) && s.poseDetectionActive
    ensures Inv(Presence(s, f))
  {
    PresenceSpec(s, f);
    PresenceKeepsCounters(s, f);
  }

  lemma GateKeepsInv(s: EngineState, rep: seq<Option<Landmark>>, angles: JointAngles, now: int, exercise: string,
                     draws: Draws)
    requires Inv(s) && draws.Valid()
    ensures Inv(GatedRepCounting(s, rep, angles, now, exercise, draws))
  {
    GatedRepCountingSpec(s, rep, angles, now, exercise, draws);
  }

  lemma {:induction false} PipelineKeepsInv(s: EngineState, lms: seq<Landmark>, world: Option<seq<Option<Landmark>>>,
                                            angles: JointAngles, now: int, exercise: string, draws: Draws)
    requires Inv(s) && s.poseDetectionActive && |lms| > 0 && draws.Valid()
    ensures Inv(ProcessPoseLandmarks(s, lms, world, angles, now, exercise, draws))
  {
    var f := ClassifyFrame(lms, now);
    var buffered := BufferFrame(s, f);
    BufferKeepsInv(s, f);
    PresenceKeepsInv(buffered, f);
    GateKeepsInv(Presence(buffered, f), RepSource(lms, world), angles, now, exercise, draws);
  }

  lemma {:induction false} CallbackKeepsInv(s: EngineState, out: DetectorOutput, now: int, exercise: string, draws: Draws)
    requires Inv(s) && draws.Valid()
    ensures Inv(OnPoseResults(s, out, now, exercise, draws))
  {
    if s.poseDetectionActive && out.Pose? && |out.landmarks| > 0 {
      PipelineKeepsInv(s, out.landmarks, out.world, out.angles, now, exercise, draws);
    }
  }

  /** Every event keeps the invariant. */
  lemma {:induction false} StepKeepsInv(s: EngineState, e: Event)
    requires Inv(s) && WellFormed(e)
    ensures Inv(Step(s, e))
  {
    match e
    case StartButton(_) => ResumeKeepsInv(s);
    case CameraSelector(_) =>
    case DetectorFrame(out, now, exercise, draws) => CallbackKeepsInv(s, out, now, exercise, draws);
    case InFlightResult(out, now, exercise, draws) => CallbackKeepsInv(s, out, now, exercise, draws);
    case PauseButton =>
    case SaveButton(exercise, now, draw) => SaveSetKeepsInv(s, false, exercise, now, draw);
    case StopButton(exercise, now, draw) =>
      var stopped := StopCamera(s.(pose := s.pose.(trainingState := Stopped)));
      if stopped.repCount > 0 {
        SaveSetKeepsInv(stopped, false, exercise, now, draw);
      }
  }

  lemma {:induction false} RunKeepsInv(s: EngineState, es: seq<Event>)
    requires Inv(s) && AllWellFormed(es)
    ensures Inv(Run(s, es))
    decreases |es|
  {
    if es != [] {
      StepKeepsInv(s, es[0]);
      RunKeepsInv(Step(s, es[0]), es[1..]);
    }
  }

  /** Every event except an in-flight callback keeps the stronger invariant. */
  lemma {:induction false} StepKeepsSyncInv(s: EngineState, e: Event)
    requires SyncInv(s) && WellFormed(e) && !e.InFlightResult?
    ensures SyncInv(Step(s, e))
  {
    StepKeepsInv(s, e);
    match e
    case StartButton(_) =>
    case CameraSelector(_) =>
    case DetectorFrame(out, now, exercise, draws) =>
      if s.pose.trainingState != Paused && s.poseDetectionActive && out.Pose? && |out.landmarks| > 0 {
        var f := ClassifyFrame(out.landmarks, now);
        PresenceSpec(BufferFrame(s, f), f);
        TrackFrameBuffers(s, f, RepSource(out.landmarks, out.world), out.angles, now, exercise, draws);
      }
    case InFlightResult(_, _, _, _) =>
    case PauseButton =>
    case SaveButton(exercise, now, draw) => SaveSetSpec(s, false, exercise, now, draw);
    case StopButton(_, _, _) =>
  }

  /** With detection running, resuming a paused session keeps its pending reps and goes straight back to ACTIVE. */
  lemma ResumeKeepsPendingReps(s: EngineState)
    requires SyncInv(s) && s.pose.trainingState == Paused && s.poseDetectionActive
    ensures ResumeTraining(s).pose.trainingState == Active
    ensures ResumeTraining(s).repCount == s.repCount
  {
  }

  /**
   * A callback in flight when the session was paused can still complete a
   * loss streak; resuming then bootstraps afresh and the pending reps are
   * discarded without being saved.
   */
  lemma InFlightLossDropsPendingReps(s: EngineState, now: int, exercise: string, draws: Draws)
    requires SyncInv(s) && s.pose.trainingState == Paused && s.poseDetectionActive
    requires s.pose.lostFrameCount == LostFramesThreshold - 1 && s.repCount > 0 && draws.Valid()
    ensures
      var late := Step(s, InFlightResult(NoPose, now, exercise, draws));
      && late.pose.trainingState == Paused && !late.pose.keypointsStable
      && ResumeTraining(late).repCount == 0
      && ResumeTraining(late).sets == s.sets
      && TotalReps(ResumeTraining(late)) < TotalReps(s)
  {
  }

  // ---------------------------------------------------------------------------
  // Counting over many frames
  // ---------------------------------------------------------------------------

  /** Both kinds of detector callback. */
  predicate IsCallback(e: Event)
  {
    e.DetectorFrame? || e.InFlightResult?
  }

  function CallbackOf(s: EngineState, e: Event): EngineState
    requires IsCallback(e) && WellFormed(e)
  {
    if e.DetectorFrame? then FrameTick(s, e.out, e.now, e.exercise, e.draws)
    else OnPoseResults(s, e.out, e.now, e.exercise, e.draws)
  }

  /** A callback either counts exactly one rep or leaves the pending reps and saved sets alone. */
  lemma {:induction false} CallbackCountsAtMostOne(s: EngineState, e: Event)
    requires IsCallback(e) && WellFormed(e)
    ensures
      var r := Step(s, e);
      || (r.repCount == s.repCount && r.sets == s.sets && r.lastRepTimestamp == s.lastRepTimestamp)
      || (CountedOne(s, r) && r.pose.trainingState == Active
          && (ExerciseOf(e.exercise) != Generic ==>
                r.lastRepTimestamp == e.now && e.now - s.lastRepTimestamp >= MinRepIntervalMs))
  {
    var out := e.out;
    if s.poseDetectionActive && (e.InFlightResult? || s.pose.trainingState != Paused) && out.Pose? && |out.landmarks| > 0 {
      TrackFrameCounts(s, ClassifyFrame(out.landmarks, e.now), RepSource(out.landmarks, out.world), out.angles,
                       e.now, e.exercise, e.draws);
    }
  }

  /** Angles strictly inside the squat's hysteresis band: neither the down nor the up thresholds are crossed. */
  predicate InSquatBand(a: JointAngles)
  {
    !(a.hip < SquatDownHipAngle && a.knee < SquatDownKneeAngle)
    && !(a.hip > SquatUpHipAngle && a.knee > SquatUpKneeAngle)
  }

  /** A squat callback whose landmarks (if any) carry angles inside the band. */
  predicate SquatBandCallback(e: Event)
  {
    IsCallback(e) && WellFormed(e) && ExerciseOf(e.exercise) == Squat
    && (e.out.Pose? ==> InSquatBand(e.out.angles))
  }

  lemma {:induction false} SquatBandStep(s: EngineState, e: Event)
    requires SquatBandCallback(e)
    ensures Step(s, e).repCount == s.repCount && Step(s, e).sets == s.sets
  {
    var out := e.out;
    if s.poseDetectionActive && (e.InFlightResult? || s.pose.trainingState != Paused) && out.Pose? && |out.landmarks| > 0 {
      var f := ClassifyFrame(out.landmarks, e.now);
      var present := Presence(BufferFrame(s, f), f);
      assert Step(s, e) == GatedRepCounting(present, RepSource(out.landmarks, out.world), out.angles, e.now, e.exercise, e.draws);
      GatedSquatInBand(present, RepSource(out.landmarks, out.world), out.angles, e.now, e.exercise, e.draws);
    }
  }

  lemma GatedSquatInBand(s: EngineState, rep: seq<Option<Landmark>>, angles: JointAngles, now: int,
                         exercise: string, draws: Draws)
    requires draws.Valid() && InSquatBand(angles) && ExerciseOf(exercise) == Squat
    ensures var r := GatedRepCounting(s, rep, angles, now, exercise, draws);
            r.repCount == s.repCount && r.sets == s.sets
  {
  }

  /**
   * Hysteresis: however long the angles stay between the down and the up
   * thresholds, no squat rep is counted and no set is saved.
   */
  lemma {:induction false} SquatBandNeverCounts(s: EngineState, es: seq<Event>)
    requires forall i :: 0 <= i < |es| ==> SquatBandCallback(es[i])
    ensures AllWellFormed(es)
    ensures Run(s, es).repCount == s.repCount && Run(s, es).sets == s.sets
    ensures TotalReps(Run(s, es)) == TotalReps(s)
    decreases |es|
  {
    if es != [] {
      SquatBandStep(s, es[0]);
      SquatBandNeverCounts(Step(s, es[0]), es[1..]);
    }
  }

  /** A squat or push-up callback stamped inside the window [start, start + 500). */
  predicate WindowCallback(e: Event, start: int)
  {
    IsCallback(e) && WellFormed(e) && ExerciseOf(e.exercise) != Generic
    && start <= e.now < start + MinRepIntervalMs
  }

  /** Once a rep inside the window has been counted, the rest of the window counts none. */
  lemma {:induction false} WindowAfterRepCountsNone(s: EngineState, es: seq<Event>, start: int)
    requires forall i :: 0 <= i < |es| ==> WindowCallback(es[i], start)
    requires s.lastRepTimestamp >= start
    ensures AllWellFormed(es)
    ensures TotalReps(Run(s, es)) == TotalReps(s)
    decreases |es|
  {
    if es != [] {
      CallbackCountsAtMostOne(s, es[0]);
      WindowAfterRepCountsNone(Step(s, es[0]), es[1..], start);
    }
  }

  /**
   * The minimum rep interval: for squats and push-ups, all callbacks stamped
   * within one 500 ms window count at most one rep between them.
   */
  lemma {:induction false} OneRepPerInterval(s: EngineState, es: seq<Event>, start: int)
    requires forall i :: 0 <= i < |es| ==> WindowCallback(es[i], start)
    ensures AllWellFormed(es)
    ensures TotalReps(s) <= TotalReps(Run(s, es)) <= TotalReps(s) + 1
    decreases |es|
  {
    if es != [] {
      var next := Step(s, es[0]);
      CallbackCountsAtMostOne(s, es[0]);
      if CountedOne(s, next) {
        WindowAfterRepCountsNone(next, es[1..], start);
      } else {
        OneRepPerInterval(next, es[1..], start);
      }
    }
  }

  /** The callback delivers landmarks that classify as a stable frame. */
  predicate StableCallback(e: Event)
  {
    IsCallback(e) && e.out.Pose? && |e.out.landmarks| > 0 && ClassifyFrame(e.out.landmarks, e.now).stable
  }

  function StableCallbacks(es: seq<Event>): nat
  {
    if es == [] then 0 else (if StableCallback(es[0]) then 1 else 0) + StableCallbacks(es[1..])
  }

  lemma {:induction false} LatchStep(s: EngineState, e: Event)
    requires IsCallback(e) && WellFormed(e)
    ensures var r := Step(s, e);
      && r.pose.stableFrameCount <= s.pose.stableFrameCount + (if StableCallback(e) then 1 else 0)
      && (r.pose.keypointsStable && !s.pose.keypointsStable ==> r.pose.stableFrameCount >= StableFramesRequired)
  {
    var out := e.out;
    if s.poseDetectionActive && (e.InFlightResult? || s.pose.trainingState != Paused) && out.Pose? && |out.landmarks| > 0 {
      var f := ClassifyFrame(out.landmarks, e.now);
      PresenceSpec(BufferFrame(s, f), f);
      TrackFrameBuffers(s, f, RepSource(out.landmarks, out.world), out.angles, e.now, e.exercise, e.draws);
    }
  }

  /**
   * The stability latch: starting with the latch open, keypoints cannot become
   * stable unless at least three stable frames (counting the ones already
   * credited) arrive; frames lost or unstable only push the count down.
   */
  lemma {:induction false} LatchNeedsThreeStableFrames(s: EngineState, es: seq<Event>)
    requires forall i :: 0 <= i < |es| ==> IsCallback(es[i]) && WellFormed(es[i])
    requires !s.pose.keypointsStable
    requires s.pose.stableFrameCount + StableCallbacks(es) < StableFramesRequired
    ensures AllWellFormed(es)
    ensures !Run(s, es).pose.keypointsStable
    ensures Run(s, es).pose.stableFrameCount <= s.pose.stableFrameCount + StableCallbacks(es)
    decreases |es|
  {
    if es != [] {
      LatchStep(s, es[0]);
      LatchNeedsThreeStableFrames(Step(s, es[0]), es[1..]);
    }
  }

  /**
   * The loss streak: from an ACTIVE session with detection running, two empty
   * callbacks leave it ACTIVE, the third drops it to WAITING with presence
   * forgotten, and the pending reps survive all three.
   */
  lemma ThreeEmptyFramesDropToWaiting(s: EngineState, now: int, exercise: string, draws: Draws)
    requires s.pose.trainingState == Active && s.poseDetectionActive && s.pose.lostFrameCount == 0 && draws.Valid()
    ensures
      var e := DetectorFrame(NoPose, now, exercise, draws);
      var one := Step(s, e);
      var two := Step(one, e);
      var three := Step(two, e);
      && one.pose.trainingState == Active && two.pose.trainingState == Active
      && three.pose.trainingState == Waiting && !three.pose.personDetected && !three.pose.keypointsStable
      && three.pose.stableFrameCount == 0
      && three.repCount == s.repCount && three.sets == s.sets
  {
  }

  // ---------------------------------------------------------------------------
  // Worked scenarios
  // ---------------------------------------------------------------------------

  /** All four squat landmarks are present. */
  function SquatBody(): seq<Option<Landmark>>
  {
    seq(33, i requires 0 <= i < 33 => Some(Landmark(0.5, 0.5, Some(1.0))))
  }

  /**
   * A full squat: standing, then hip 85 / knee 95 (down, full range), then
   * hip 160 / knee 155 600 ms later counts one rep, with quality 90..99.
   */
  lemma FullSquatCountsOneRep(s: EngineState, t: int, draws: Draws)
    requires s.motion.squatPhase == Up && s.repCount + 1 < AutoSaveRepCount && t - s.lastRepTimestamp >= MinRepIntervalMs
    requires draws.Valid()
    ensures
      var standing := CountSquatReps(s, SquatBody(), JointAngles(170.0, 170.0, 0.0), t, "Kniebeugen", draws);
      var down := CountSquatReps(standing, SquatBody(), JointAngles(85.0, 95.0, 0.0), t + 100, "Kniebeugen", draws);
      var up := CountSquatReps(down, SquatBody(), JointAngles(160.0, 155.0, 0.0), t + 700, "Kniebeugen", draws);
      && standing.motion.squatPhase == Up && down.motion.squatPhase == Down && down.motion.lastROM == Full
      && up.motion.squatPhase == Up && up.repCount == s.repCount + 1 && up.lastRepTimestamp == t + 700
      && 90 <= up.motion.lastQuality <= 99
  {
    assert SquatLandmarks(SquatBody());
  }

  /**
   * The rep interval on a squat: a rep counted at time t, a new bottom at
   * t + 50 and a stand-up at t + 200 is not counted (the phase stays down); the
   * same stand-up at t + 500 is.
   */
  lemma FastSquatWaitsForInterval(s: EngineState, t: int, draws: Draws)
    requires s.motion.squatPhase == Up && s.lastRepTimestamp == t && s.repCount + 1 < AutoSaveRepCount
    requires draws.Valid()
    ensures
      var down := CountSquatReps(s, SquatBody(), JointAngles(95.0, 100.0, 0.0), t + 50, "Kniebeugen", draws);
      var early := CountSquatReps(down, SquatBody(), JointAngles(160.0, 160.0, 0.0), t + 200, "Kniebeugen", draws);
      var late := CountSquatReps(early, SquatBody(), JointAngles(160.0, 160.0, 0.0), t + 500, "Kniebeugen", draws);
      && down.motion.squatPhase == Down && down.motion.lastROM == Partial
      && early.motion.squatPhase == Down && early.repCount == s.repCount
      && late.motion.squatPhase == Up && late.repCount == s.repCount + 1 && 70 <= late.motion.lastQuality <= 84
  {
    assert SquatLandmarks(SquatBody());
  }

  /**
   * A push-up from a fresh cycle: elbow 80 goes down at once (no previous
   * up-time), elbow 170 only 300 ms later is ignored, and at 900 ms counts one
   * rep with quality 85..99.
   */
  lemma PushupDwellTime(s: EngineState, t: int, draws: Draws)
    requires s.motion.pushupPhase == Up && s.motion.lastPushupUpTime == 0 && s.pose.trainingState == Active
    requires s.repCount + 1 < AutoSaveRepCount && t - s.lastRepTimestamp >= MinRepIntervalMs
    requires draws.Valid()
    ensures
      var down := CountPushupReps(s, SquatBody(), JointAngles(0.0, 0.0, 80.0), t, "Liegestütze", draws);
      var early := CountPushupReps(down, SquatBody(), JointAngles(0.0, 0.0, 170.0), t + 300, "Liegestütze", draws);
      var late := CountPushupReps(early, SquatBody(), JointAngles(0.0, 0.0, 170.0), t + 900, "Liegestütze", draws);
      && down.motion.pushupPhase == Down && down.motion.lastPushupDownTime == t
      && early.motion.pushupPhase == Down && early.repCount == s.repCount
      && late.motion.pushupPhase == Up && late.repCount == s.repCount + 1 && late.motion.lastPushupUpTime == t + 900
      && 85 <= late.motion.lastQuality <= 99
  {
    assert PushupLandmarks(SquatBody());
  }

  /** The twelfth rep saves the set on its own: one automatic set of twelve reps, nothing pending. */
  lemma TwelfthRepAutoSaves(s: EngineState, rep: seq<Option<Landmark>>, now: int, draws: Draws)
    requires s.motion.squatPhase == Down && s.repCount == AutoSaveRepCount - 1 && s.pose.trainingState == Active
    requires SquatLandmarks(rep) && now - s.lastRepTimestamp >= MinRepIntervalMs && draws.Valid()
    ensures
      var r := CountSquatReps(s, rep, JointAngles(170.0, 170.0, 0.0), now, "Kniebeugen", draws);
      && r.repCount == 0 && |r.sets| == |s.sets| + 1
      && r.sets[|s.sets|].reps == AutoSaveRepCount && r.sets[|s.sets|].auto
      && r.pose.currentSetFrames == [] && r.pose.trainingState == Active
  {
  }
}
