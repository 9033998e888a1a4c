/** What the pose estimator hands the core for one frame, and the start gate's
    visibility tests on it. The estimator itself is not part of this model: a frame
    is either no pose or the 33 landmarks in the estimator's fixed anatomical order. */
module Pose {
  import opened Wrappers

  /** One landmark: normalised image coordinates and a visibility confidence. */
  datatype Landmark = Landmark(x: real, y: real, visibility: real)

  /** A 2D point, as `(p.x, p.y)` tuples are built from landmarks. */
  datatype Point = Point(x: real, y: real)

  const LandmarkCount: nat := 33

  // Indices of the pose estimator's landmark enumeration used by the core.
  const Nose: nat := 0
  const LeftShoulder: nat := 11
  const RightShoulder: nat := 12
  const LeftElbow: nat := 13
  const RightElbow: nat := 14
  const LeftWrist: nat := 15
  const RightWrist: nat := 16
  const LeftHip: nat := 23
  const RightHip: nat := 24
  const LeftKnee: nat := 25
  const RightKnee: nat := 26
  const LeftAnkle: nat := 27
  const RightAnkle: nat := 28

  /** A frame's pose: the landmarks, or None when no pose was detected. */
  type Frame = Option<seq<Landmark>>

  predicate WellFormed(f: Frame)
  {
    f.Some? ==> |f.value| == LandmarkCount
  }

  function PointOf(l: Landmark): Point
  {
    Point(l.x, l.y)
  }

  // ---- Start gate ----

  /** `START_VIS_THRESH`, the visibility each gate landmark must reach. */
  const StartVisThresh: real := 0.55

  /** `READY_FRAMES_REQUIRED`, the consecutive ready frames that open the gate. */
  const ReadyFramesRequired: nat := 6

  /** The gate of the streaming session: all 33 landmarks are visible enough. */
  predicate AllVisible(lm: seq<Landmark>)
    requires |lm| == LandmarkCount
  {
    forall i | 0 <= i < LandmarkCount :: lm[i].visibility >= StartVisThresh
  }

  /** `_all_33_visible`: scans the landmarks in order and stops at the first one
      below the threshold. */
  method All33Visible(lm: seq<Landmark>) returns (b: bool)
    requires |lm| == LandmarkCount
    ensures b <==> AllVisible(lm)
  {
    for i := 0 to LandmarkCount
      invariant forall j | 0 <= j < i :: lm[j].visibility >= StartVisThresh
    {
      if lm[i].visibility < StartVisThresh {
        return false;
      }
    }
    return true;
  }

  /** `KEY_LMS` of the desktop app: nose, both shoulders, hips, knees and ankles. */
  const KeyLandmarks: seq<nat> :=
    [Nose, LeftShoulder, RightShoulder, LeftHip, RightHip, LeftKnee, RightKnee, LeftAnkle, RightAnkle]

  /** The gate of the desktop app: the nine key landmarks are visible enough. */
  predicate KeyVisible(lm: seq<Landmark>)
    requires |lm| == LandmarkCount
  {
    forall k | 0 <= k < |KeyLandmarks| :: lm[KeyLandmarks[k]].visibility >= StartVisThresh
  }

  /** The streaming session's gate is the stricter one: a frame it accepts is accepted
      by the desktop app's gate, while a frame with only the nine key landmarks
      visible (here, all others at visibility 0) passes the app's gate and fails the
      session's. */
  lemma AllVisibleIsStricter(lm: seq<Landmark>)
    requires |lm| == LandmarkCount
    ensures AllVisible(lm) ==> KeyVisible(lm)
    ensures var keyOnly := seq(LandmarkCount, i requires 0 <= i < LandmarkCount =>
                                Landmark(0.5, 0.5, if i in KeyLandmarks then 1.0 else 0.0));
            KeyVisible(keyOnly) && !AllVisible(keyOnly)
  {
    var keyOnly := seq(LandmarkCount, i requires 0 <= i < LandmarkCount =>
                        Landmark(0.5, 0.5, if i in KeyLandmarks then 1.0 else 0.0));
    assert keyOnly[1].visibility == 0.0;
    if AllVisible(lm) {
      forall k | 0 <= k < |KeyLandmarks| ensures lm[KeyLandmarks[k]].visibility >= StartVisThresh {
        assert KeyLandmarks[k] < LandmarkCount;
      }
    }
  }
}
