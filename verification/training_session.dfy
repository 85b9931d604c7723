/**
 * The training engine as the application runs it: one object whose fields are
 * the pose state, the motion tracker, the rep counter and the level counters,
 * updated in place by the frame callbacks and the buttons. Every method is
 * proved to move `State()` exactly as the matching function of RepEngine
 * does, so the properties proved about those functions and about event runs
 * in SessionProperties hold for the object.
 */
module Training {
  import opened Basics
  import opened PoseFrames
  import opened Gamification
  import opened RepEngine
  import SessionProperties

  class TrainingSession {
    /** The presence tracker and the session state machine (poseState). */
    var pose: PoseState
    /** The per-exercise movement state (motionTracker). */
    var motion: MotionTracker
    var repCount: nat
    var lastRepTimestamp: int
    var poseDetectionActive: bool
    /** The training history. */
    var sets: seq<SetRecord>
    /** The level counters of the gamification state. */
    var gamification: Progress

    /** A snapshot of every field. */
    function State(): EngineState
      reads this
    {
      EngineState(pose, motion, repCount, lastRepTimestamp, poseDetectionActive, sets, gamification)
    }

    /** The engine at page load, with the history and level counters read from storage. */
    constructor (history: seq<SetRecord>, g: Progress)
      ensures State() == Initial(history, g)
      ensures SessionProperties.SyncInv(State())
    {
      pose := PoseState(false, false, false, [], Stopped, [], 0, 0);
      motion := MotionTracker(0.0, 0, Partial, Up, 180.0, Up, 0, 0, None);
      repCount, lastRepTimestamp, poseDetectionActive := 0, 0, false;
      sets := history;
      gamification := g;
    }

    // -------------------------------------------------------------------------
    // Session control
    // -------------------------------------------------------------------------

    method ResetPoseTracking()
      modifies this
      ensures State() == RepEngine.ResetPoseTracking(old(State()))
    {
      pose := pose.(personDetected := false, keypointsStable := false, ready := false, currentSetFrames := [],
                    stableFrameCount := 0, lostFrameCount := 0);
      motion := motion.(progress := 0.0);
      repCount := 0;
    }

    method StartPoseBootstrap()
      modifies this
      ensures State() == RepEngine.StartPoseBootstrap(old(State()))
    {
      ResetPoseTracking();
      pose := pose.(trainingState := Waiting);
      poseDetectionActive := true;
    }

    method StartRepDetection()
      modifies this
      ensures State() == RepEngine.StartRepDetection(old(State()))
    {
      if !pose.keypointsStable {
        return;
      }
      pose := pose.(trainingState := Active);
      motion := motion.(squatPhase := Up, pushupPhase := Up, progress := 0.0,
                        lastPushupUpTime := 0, lastPushupDownTime := 0);
    }

    method StopCamera()
      modifies this
      ensures State() == RepEngine.StopCamera(old(State()))
    {
      poseDetectionActive := false;
      pose := pose.(ready := false, personDetected := false, keypointsStable := false);
    }

    method PauseTraining()
      modifies this
      ensures State() == RepEngine.PauseTraining(old(State()))
      ensures SessionProperties.Inv(old(State())) ==> SessionProperties.Inv(State())
    {
      if pose.trainingState != Active && pose.trainingState != Ready {
        return;
      }
      pose := pose.(trainingState := Paused);
    }

    method ResumeTraining()
      modifies this
      ensures State() == RepEngine.ResumeTraining(old(State()))
    {
      if pose.trainingState != Paused {
        return;
      }
      if pose.keypointsStable && pose.personDetected {
        pose := pose.(trainingState := Active);
        StartRepDetection();
      } else {
        pose := pose.(trainingState := Waiting);
        StartPoseBootstrap();
      }
    }

    method HandleStartTraining(camera: CameraOutcome)
      modifies this
      ensures State() == RepEngine.HandleStartTraining(old(State()), camera)
      ensures SessionProperties.Inv(old(State())) ==> SessionProperties.Inv(State())
    {
      ghost var before := State();
      if pose.trainingState == Paused {
        ResumeTraining();
      } else {
        match camera {
          case Reused => StartPoseBootstrap();
          case Restarted =>
            StopCamera();
            StartPoseBootstrap();
          case Failed => StopCamera();
          case Unavailable =>
        }
      }
      if SessionProperties.Inv(before) {
        SessionProperties.StepKeepsInv(before, SessionProperties.StartButton(camera));
      }
    }

    // -------------------------------------------------------------------------
    // Saving a set
    // -------------------------------------------------------------------------

    /** The XP credit and the level-up loop of processGamification (the muscle mastery part is not modelled). */
    method ProcessGamification(reps: nat, quality: int)
      modifies this
      ensures State() == old(State()).(gamification := Credit(old(gamification), reps, quality))
      ensures gamification.currentXP < gamification.xpForNextLevel
    {
      gamification := gamification.(currentXP := gamification.currentXP + CalculateXP(reps, quality, 0.0));
      while gamification.currentXP >= gamification.xpForNextLevel
        invariant LevelUp(gamification) == Credit(old(gamification), reps, quality)
        invariant State() == old(State()).(gamification := gamification)
        decreases gamification.currentXP
      {
        gamification := Progress(gamification.userLevel + 1,
                                 gamification.currentXP - gamification.xpForNextLevel,
                                 NextXpStep(gamification.xpForNextLevel));
      }
    }

    method SaveSet(auto: bool, exercise: string, now: int, draw: real)
      requires 0.0 <= draw < 1.0
      modifies this
      ensures State() == RepEngine.SaveSet(old(State()), auto, exercise, now, draw)
      ensures SessionProperties.Inv(old(State())) ==> SessionProperties.Inv(State())
    {
      ghost var before := State();
      if repCount == 0 {
        return;
      }
      var quality := SetQuality(motion.lastQuality, draw);
      var record := SetRecord(exercise, repCount, LastTempo, RomLabel(motion.lastROM, repCount), quality, now, auto,
                              Tip(AverageQuality(pose.currentSetFrames, quality)), pose.currentSetFrames);
      sets := sets + [record];
      ProcessGamification(repCount, quality);
      repCount := 0;
      pose := pose.(currentSetFrames := []);
      if pose.trainingState == Paused {
        ResumeTraining();
      }
      if SessionProperties.Inv(before) {
        SessionProperties.SaveSetKeepsInv(before, auto, exercise, now, draw);
      }
    }

    method StopTraining(exercise: string, now: int, draw: real)
      requires 0.0 <= draw < 1.0
      modifies this
      ensures State() == RepEngine.StopTraining(old(State()), exercise, now, draw)
      ensures SessionProperties.Inv(old(State())) ==> SessionProperties.Inv(State())
    {
      ghost var before := State();
      pose := pose.(trainingState := Stopped);
      StopCamera();
      if repCount > 0 {
        SaveSet(false, exercise, now, draw);
      }
      if SessionProperties.Inv(before) {
        SessionProperties.StepKeepsInv(before, SessionProperties.StopButton(exercise, now, draw));
      }
    }

    // -------------------------------------------------------------------------
    // Rep counting
    // -------------------------------------------------------------------------

    method AutoSave(exercise: string, now: int, draws: Draws)
      requires draws.Valid()
      modifies this
      ensures State() == AfterRep(old(State()), exercise, now, draws)
    {
      if repCount >= AutoSaveRepCount {
        SaveSet(true, exercise, now, draws.save);
      }
    }

    method CountSquatReps(rep: seq<Option<Landmark>>, angles: JointAngles, now: int, exercise: string, draws: Draws)
      requires draws.Valid()
      modifies this
      ensures State() == RepEngine.CountSquatReps(old(State()), rep, angles, now, exercise, draws)
    {
      if !SquatLandmarks(rep) {
        return;
      }
      ghost var s := State();
      var hip, knee := angles.hip, angles.knee;
      if motion.squatPhase == Up && hip < SquatDownHipAngle && knee < SquatDownKneeAngle {
        motion := motion.(squatPhase := Down, lastROM := if hip < FullRangeHipAngle then Full else Partial);
      } else if motion.squatPhase == Down && hip > SquatUpHipAngle && knee > SquatUpKneeAngle
                && now - lastRepTimestamp >= MinRepIntervalMs {
        motion := motion.(squatPhase := Up, lastQuality := SquatRepQuality(motion.lastROM, draws.rep));
        repCount := repCount + 1;
        lastRepTimestamp := now;
        assert State() == s.(motion := s.motion.(squatPhase := Up, lastQuality := SquatRepQuality(s.motion.lastROM, draws.rep)),
                             repCount := s.repCount + 1, lastRepTimestamp := now);
        AutoSave(exercise, now, draws);
      }
      ghost var moved := State();
      motion := motion.(lastHipAngle := hip);
      assert State() == moved.(motion := moved.motion.(lastHipAngle := hip));
    }

    method CountPushupReps(rep: seq<Option<Landmark>>, angles: JointAngles, now: int, exercise: string, draws: Draws)
      requires draws.Valid()
      modifies this
      ensures State() == RepEngine.CountPushupReps(old(State()), rep, angles, now, exercise, draws)
    {
      if !PushupLandmarks(rep) {
        return;
      }
      var elbow := angles.elbow;
      if motion.pushupPhase == Up && elbow < PushupDownElbowAngle {
        if now - motion.lastPushupUpTime >= PushupDebounceMs || motion.lastPushupUpTime == 0 {
          motion := motion.(pushupPhase := Down, lastPushupDownTime := now);
        }
      } else if motion.pushupPhase == Down && elbow > PushupUpElbowAngle {
        if now - motion.lastPushupDownTime >= PushupDebounceMs && now - lastRepTimestamp >= MinRepIntervalMs {
          motion := motion.(pushupPhase := Up, lastPushupUpTime := now, lastQuality := PushupRepQuality(draws.rep));
          repCount := repCount + 1;
          lastRepTimestamp := now;
          AutoSave(exercise, now, draws);
        }
      }
    }

    method CountGenericReps(rep: seq<Option<Landmark>>, now: int, exercise: string, draws: Draws)
      requires draws.Valid()
      modifies this
      ensures State() == RepEngine.CountGenericReps(old(State()), rep, now, exercise, draws)
    {
      if TorsoYs(rep) == [] {
        return;
      }
      var avgY := AverageY(rep);
      var movement := avgY - PreviousVertical(motion.lastVerticalPos, avgY);
      motion := motion.(lastVerticalPos := Some(avgY));
      if AbsReal(movement) > GenericMinMovement {
        motion := motion.(progress := MinReal(1.0, motion.progress + AbsReal(movement) * 2.0));
        if motion.progress >= 1.0 {
          repCount := repCount + 1;
          motion := motion.(progress := 0.0);
          AutoSave(exercise, now, draws);
        }
      }
    }

    method ProcessRepCounting(rep: seq<Option<Landmark>>, angles: JointAngles, now: int, exercise: string, draws: Draws)
      requires draws.Valid()
      modifies this
      ensures State() == RepEngine.ProcessRepCounting(old(State()), rep, angles, now, exercise, draws)
    {
      match ExerciseOf(exercise) {
        case Squat => CountSquatReps(rep, angles, now, exercise, draws);
        case Pushup => CountPushupReps(rep, angles, now, exercise, draws);
        case Generic => CountGenericReps(rep, now, exercise, draws);
      }
    }

    // -------------------------------------------------------------------------
    // The frame pipeline
    // -------------------------------------------------------------------------

    /** Push the frame into the replay buffer and, while ACTIVE or READY, the set buffer; end the loss streak. */
    method BufferFrame(f: Frame)
      modifies this
      ensures State() == RepEngine.BufferFrame(old(State()), f)
    {
      var replay := pose.replayFrames + [f];
      if |replay| > ReplayCapacity {
        replay := replay[1..];
      }
      var setFrames := pose.currentSetFrames;
      if pose.trainingState == Active || pose.trainingState == Ready {
        setFrames := setFrames + [f];
        if |setFrames| > SetFramesCapacity {
          setFrames := setFrames[1..];
        }
      }
      pose := pose.(replayFrames := replay, currentSetFrames := setFrames, lostFrameCount := 0);
    }

    /** The presence debounce and the stability latch. */
    method UpdatePresence(f: Frame)
      modifies this
      ensures State() == Presence(old(State()), f)
    {
      if f.confidence > MinPersonConfidence {
        pose := pose.(personDetected := true);
        if f.stable {
          pose := pose.(stableFrameCount := pose.stableFrameCount + 1);
          if pose.stableFrameCount >= StableFramesRequired && !pose.keypointsStable {
            pose := pose.(keypointsStable := true);
            if pose.trainingState == Waiting {
              pose := pose.(ready := true, trainingState := Ready);
              StartRepDetection();
            }
          }
        } else {
          pose := pose.(stableFrameCount := if pose.stableFrameCount == 0 then 0 else pose.stableFrameCount - 1);
        }
      }
    }

    method ProcessPoseLandmarks(lms: seq<Landmark>, world: Option<seq<Option<Landmark>>>, angles: JointAngles,
                                now: int, exercise: string, draws: Draws)
      requires |lms| > 0 && draws.Valid()
      modifies this
      ensures State() == RepEngine.ProcessPoseLandmarks(old(State()), lms, world, angles, now, exercise, draws)
    {
      var f := ClassifyFrame(lms, now);
      BufferFrame(f);
      UpdatePresence(f);
      if pose.trainingState == Active && pose.keypointsStable {
        ProcessRepCounting(RepSource(lms, world), angles, now, exercise, draws);
      }
    }

    method HandleNoPerson()
      modifies this
      ensures State() == RepEngine.HandleNoPerson(old(State()))
    {
      pose := pose.(lostFrameCount := pose.lostFrameCount + 1);
      if pose.lostFrameCount >= LostFramesThreshold {
        pose := pose.(personDetected := false, keypointsStable := false, ready := false, stableFrameCount := 0);
        if pose.trainingState == Active || pose.trainingState == Ready {
          pose := pose.(trainingState := Waiting);
        }
      }
    }

    method OnPoseResults(out: DetectorOutput, now: int, exercise: string, draws: Draws)
      requires draws.Valid()
      modifies this
      ensures State() == RepEngine.OnPoseResults(old(State()), out, now, exercise, draws)
      ensures SessionProperties.Inv(old(State())) ==> SessionProperties.Inv(State())
    {
      ghost var before := State();
      if !poseDetectionActive {
        return;
      }
      match out {
        case Pose(lms, world, angles) =>
          if |lms| > 0 {
            ProcessPoseLandmarks(lms, world, angles, now, exercise, draws);
          } else {
            HandleNoPerson();
          }
        case NoPose => HandleNoPerson();
      }
      if SessionProperties.Inv(before) {
        SessionProperties.CallbackKeepsInv(before, out, now, exercise, draws);
      }
    }

    /** One turn of the frame loop: nothing is sent to the detector while PAUSED or once detection stopped. */
    method ProcessFrame(out: DetectorOutput, now: int, exercise: string, draws: Draws)
      requires draws.Valid()
      modifies this
      ensures State() == FrameTick(old(State()), out, now, exercise, draws)
      ensures SessionProperties.Inv(old(State())) ==> SessionProperties.Inv(State())
    {
      if !poseDetectionActive || pose.trainingState == Paused {
        return;
      }
      OnPoseResults(out, now, exercise, draws);
    }
  }
}
