/**
 * The frame classifier of the pose tracker: what the application derives from
 * one detector callback before any presence or rep logic runs.
 *
 * The detector's native output is the 33-point MediaPipe skeleton; each
 * landmark has a normalised position and an optional visibility. A frame is
 * the classified snapshot: mean visibility, the stability flag, the number of
 * usable keypoints, a posture score (confidence times a symmetry penalty) and
 * the 17-point COCO keypoints kept for replay.
 */
module PoseFrames {
  import opened Basics

  /** One MediaPipe landmark; `visibility == None` is an undefined visibility. */
  datatype Landmark = Landmark(x: real, y: real, visibility: Option<real>)

  /** One COCO keypoint as stored in a frame. */
  datatype Keypoint = Keypoint(id: nat, name: string, x: real, y: real, confidence: real)

  /** One classified frame, as pushed into the replay and per-set buffers. */
  datatype Frame = Frame(
    timestamp: int,
    keypointsTracked: nat,
    confidence: real,
    stable: bool,
    postureScore: real,
    keypoints: seq<Option<Keypoint>>)

  const MinPersonConfidence: real := 0.6
  const MinStableConfidence: real := 0.7
  const MinKeypointVisibility: real := 0.3
  const MinSymmetryVisibility: real := 0.5

  /** `lm.visibility || fallback`: an undefined or zero visibility reads as `fallback`. */
  function VisibilityOr(lm: Landmark, fallback: real): (v: real)
    ensures v != 0.0 || fallback == 0.0
  {
    if lm.visibility.Some? && lm.visibility.value != 0.0 then lm.visibility.value else fallback
  }

  /** Visibility as the confidence average reads it (`lm.visibility || 0`). */
  function Visibility(lm: Landmark): real
  {
    VisibilityOr(lm, 0.0)
  }

  // ---------------------------------------------------------------------------
  // Joint angle
  // ---------------------------------------------------------------------------

  /**
   * The fold at the end of calculateAngle. The argument is the difference of
   * the two atan2 bearings, in degrees; each bearing lies in (-180, 180], so the
   * difference lies strictly between -360 and 360. The trigonometry itself is
   * not modelled: the rep counters receive their angles as parameters.
   */
  function FoldAngle(bearingDifference: real): (angle: real)
    requires -360.0 < bearingDifference < 360.0
    ensures 0.0 <= angle <= 180.0
    ensures AbsReal(bearingDifference) <= 180.0 ==> angle == AbsReal(bearingDifference)
    ensures AbsReal(bearingDifference) > 180.0 ==> angle == 360.0 - AbsReal(bearingDifference)
  {
    var a := AbsReal(bearingDifference);
    if a > 180.0 then 360.0 - a else a
  }

  // ---------------------------------------------------------------------------
  // Symmetry penalty
  // ---------------------------------------------------------------------------

  /**
   * The penalty multiplier for a given maximal tilt (in percent of the torso
   * height), clamped to [0, 1] as the source does.
   */
  function TiltQuality(maxTiltPercent: real): (q: real)
    ensures 0.3 <= q <= 1.0
    ensures maxTiltPercent <= 5.0 ==> q == 1.0
    ensures 5.0 < maxTiltPercent <= 10.0 ==> 0.5 <= q < 0.8
    ensures 10.0 < maxTiltPercent ==> 0.3 <= q < 0.5
  {
    var raw :=
      if maxTiltPercent > 10.0 then MaxReal(0.3, 0.5 - (maxTiltPercent - 10.0) * 0.02)
      else if maxTiltPercent > 5.0 then 0.8 - (maxTiltPercent - 5.0) * 0.06
      else 1.0;
    MaxReal(0.0, MinReal(1.0, raw))
  }

  /** More tilt never earns a better score. */
  lemma TiltQualityAntitone(a: real, b: real)
    requires a <= b
    ensures TiltQuality(b) <= TiltQuality(a)
  {
  }

  /** A landmark whose defined visibility is under the symmetry floor. */
  predicate LowVisibility(lm: Landmark)
  {
    lm.visibility.Some? && lm.visibility.value < MinSymmetryVisibility
  }

  /**
   * calculateSymmetryPenalty: compares the vertical tilt of the shoulder line
   * (landmarks 11, 12) and of the hip line (23, 24) with the torso height.
   */
  function SymmetryPenalty(lms: seq<Landmark>): (q: real)
    ensures 0.3 <= q <= 1.0
    ensures |lms| <= 24 ==> q == 1.0
    ensures |lms| > 24 ==>
              (LowVisibility(lms[11]) || LowVisibility(lms[12]) || LowVisibility(lms[23]) || LowVisibility(lms[24]))
              ==> q == 1.0
  {
    if |lms| <= 24 then 1.0
    else
      var ls, rs, lh, rh := lms[11], lms[12], lms[23], lms[24];
      if LowVisibility(ls) || LowVisibility(rs) || LowVisibility(lh) || LowVisibility(rh) then 1.0
      else
        var avgShoulderY := (ls.y + rs.y) / 2.0;
        var avgHipY := (lh.y + rh.y) / 2.0;
        var bodyHeight := AbsReal(avgHipY - avgShoulderY);
        if bodyHeight < 0.01 then 1.0
        else
          var shoulderTiltPercent := (AbsReal(ls.y - rs.y) / bodyHeight) * 100.0;
          var hipTiltPercent := (AbsReal(lh.y - rh.y) / bodyHeight) * 100.0;
          TiltQuality(MaxReal(shoulderTiltPercent, hipTiltPercent))
  }

  // ---------------------------------------------------------------------------
  // MediaPipe (33 points) to COCO (17 points)
  // ---------------------------------------------------------------------------

  const CocoNames: seq<string> := [
    "nose", "left_eye", "right_eye", "left_ear", "right_ear",
    "left_shoulder", "right_shoulder", "left_elbow", "right_elbow",
    "left_wrist", "right_wrist", "left_hip", "right_hip",
    "left_knee", "right_knee", "left_ankle", "right_ankle"]

  /** For COCO slot c, the MediaPipe landmark it is copied from. */
  const MediaPipeSource: seq<nat> := [0, 2, 5, 7, 8, 11, 12, 13, 14, 15, 16, 23, 24, 25, 26, 27, 28]

  /** convertMediaPipeToCocoKeypoints: a fresh 17-slot array, holes where the source landmark is missing. */
  function ToCocoKeypoints(lms: seq<Landmark>): (kps: seq<Option<Keypoint>>)
    ensures |kps| == 17
    ensures forall c :: 0 <= c < 17 ==> (kps[c].Some? <==> MediaPipeSource[c] < |lms|)
    ensures forall c :: 0 <= c < 17 && kps[c].Some? ==>
      && kps[c].value.id == c
      && kps[c].value.name == CocoNames[c]
      && kps[c].value.x == lms[MediaPipeSource[c]].x
      && kps[c].value.y == lms[MediaPipeSource[c]].y
      && kps[c].value.confidence != 0.0
  {
    seq(17, c requires 0 <= c < 17 =>
      var m := MediaPipeSource[c];
      if m < |lms| then Some(Keypoint(c, CocoNames[c], lms[m].x, lms[m].y, VisibilityOr(lms[m], 0.5)))
      else None)
  }

  // ---------------------------------------------------------------------------
  // Frame classification
  // ---------------------------------------------------------------------------

  function SumVisibility(lms: seq<Landmark>): real
  {
    if lms == [] then 0.0 else SumVisibility(lms[..|lms| - 1]) + Visibility(lms[|lms| - 1])
  }

  function CountVisible(lms: seq<Landmark>): (n: nat)
    ensures n <= |lms|
  {
    if lms == [] then 0
    else CountVisible(lms[..|lms| - 1]) + (if Visibility(lms[|lms| - 1]) > MinKeypointVisibility then 1 else 0)
  }

  /** Every landmark's visibility lies in [0, 1], as the detector promises. */
  predicate VisibilitiesInRange(lms: seq<Landmark>)
  {
    forall i :: 0 <= i < |lms| ==> 0.0 <= Visibility(lms[i]) <= 1.0
  }

  lemma {:induction false} SumVisibilityBounds(lms: seq<Landmark>)
    ensures VisibilitiesInRange(lms) ==> 0.0 <= SumVisibility(lms) <= |lms| as real
  {
    if lms != [] && VisibilitiesInRange(lms) {
      var init := lms[..|lms| - 1];
      assert VisibilitiesInRange(init) by {
        forall i | 0 <= i < |init| ensures 0.0 <= Visibility(init[i]) <= 1.0 {
          assert init[i] == lms[i];
        }
      }
      SumVisibilityBounds(init);
    }
  }

  /** Mean visibility over all landmarks; a missing visibility counts as 0. */
  function AverageConfidence(lms: seq<Landmark>): (c: real)
    requires |lms| > 0
    ensures VisibilitiesInRange(lms) ==> 0.0 <= c <= 1.0
  {
    SumVisibilityBounds(lms);
    SumVisibility(lms) / |lms| as real
  }

  /** The frame record processPoseLandmarks builds. */
  function ClassifyFrame(lms: seq<Landmark>, now: int): (f: Frame)
    requires |lms| > 0
    ensures f.timestamp == now
    ensures f.confidence == AverageConfidence(lms)
    ensures f.stable <==> f.confidence > MinStableConfidence
    ensures f.keypointsTracked == CountVisible(lms) <= |lms|
    ensures VisibilitiesInRange(lms) ==> 0.0 <= f.postureScore <= f.confidence <= 1.0
    ensures |f.keypoints| == 17
  {
    var confidence := AverageConfidence(lms);
    var symmetry := SymmetryPenalty(lms);
    var posture := confidence * symmetry;
    assert VisibilitiesInRange(lms) ==> posture <= confidence by {
      if VisibilitiesInRange(lms) {
        assert confidence * symmetry <= confidence * 1.0;
      }
    }
    Frame(now, CountVisible(lms), confidence, confidence > MinStableConfidence, posture, ToCocoKeypoints(lms))
  }
}
