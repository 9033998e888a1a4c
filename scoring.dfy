/** The per-frame scoring shared, line for line, by the streaming session
    (`apifinal.py`) and the desktop app (`main.py`): the alignment score, the
    form-confidence score, which joint feeds the rep counter, and the running means.
    The two files each define `clamp01`, `score_from_error` and `alignment_score`
    with identical bodies; they are defined once here. */
module Scoring {
  import opened Wrappers
  import opened Pose
  import opened Counters

  datatype Exercise = Curl | Squat | Press

  /** The normalised exercise name the session stores and scores by. */
  function Name(e: Exercise): (s: string)
    ensures s in {"curl", "squat", "press"}
  {
    match e
    case Curl => "curl"
    case Squat => "squat"
    case Press => "press"
  }

  function Abs(x: real): real
  {
    if x < 0.0 then -x else x
  }

  /** `clamp01`: the result lies in [0, 1] and is `x` itself when `x` already does. */
  function Clamp01(x: real): (r: real)
    ensures 0.0 <= r <= 1.0
    ensures 0.0 <= x <= 1.0 ==> r == x
    ensures x < 0.0 ==> r == 0.0
    ensures x > 1.0 ==> r == 1.0
  {
    if 1.0 < x then 1.0 else if x < 0.0 then 0.0 else x
  }

  /** `score_from_error`: a unit score that is 1 for no error, falls linearly with the
      error, and is 0 once the error reaches the tolerance. */
  function ScoreFromError(err: real, tol: real): (r: real)
    requires tol > 0.0
    ensures 0.0 <= r <= 1.0
    ensures err <= 0.0 ==> r == 1.0
    ensures err >= tol ==> r == 0.0
  {
    Clamp01(1.0 - err / tol)
  }

  /** A larger error never scores higher. */
  lemma ScoreFromErrorMonotone(err1: real, err2: real, tol: real)
    requires tol > 0.0 && err1 <= err2
    ensures ScoreFromError(err2, tol) <= ScoreFromError(err1, tol)
  {
    assert err1 / tol <= err2 / tol;
  }

  /** The three points whose angle, at the hip midpoint, measures the torso's lean:
      the shoulder midpoint, the hip midpoint, and a point 0.3 below the hip midpoint.
      The angle itself is an input of `AlignmentScore`. */
  function TorsoPoints(lm: seq<Landmark>): (r: (Point, Point, Point))
    requires |lm| == LandmarkCount
    ensures 2.0 * r.0.x == lm[LeftShoulder].x + lm[RightShoulder].x
            && 2.0 * r.0.y == lm[LeftShoulder].y + lm[RightShoulder].y
    ensures 2.0 * r.1.x == lm[LeftHip].x + lm[RightHip].x && 2.0 * r.1.y == lm[LeftHip].y + lm[RightHip].y
    ensures r.2 == Point(r.1.x, r.1.y + 0.3)
  {
    var ls, rs, lh, rh := lm[LeftShoulder], lm[RightShoulder], lm[LeftHip], lm[RightHip];
    var midHip := Point((lh.x + rh.x) / 2.0, (lh.y + rh.y) / 2.0);
    (Point((ls.x + rs.x) / 2.0, (ls.y + rs.y) / 2.0), midHip, Point(midHip.x, midHip.y + 0.3))
  }

  /** The curl's weighted sum: torso 0.45, elbow near the hip 0.35, wrist over the elbow 0.20. */
  function CurlAlignment(lm: seq<Landmark>, torso: real): real
    requires |lm| == LandmarkCount
  {
    var elbowClose := ScoreFromError(Abs(lm[LeftElbow].x - lm[LeftHip].x), 0.12);
    var wristStack := ScoreFromError(Abs(lm[LeftWrist].x - lm[LeftElbow].x), 0.10);
    100.0 * (0.45 * torso + 0.35 * elbowClose + 0.20 * wristStack)
  }

  /** The squat's weighted sum: knees over ankles 0.45, torso 0.35, hips centred over the ankles 0.20. */
  function SquatAlignment(lm: seq<Landmark>, torso: real): real
    requires |lm| == LandmarkCount
  {
    var leftTrack := ScoreFromError(Abs(lm[LeftKnee].x - lm[LeftAnkle].x), 0.10);
    var rightTrack := ScoreFromError(Abs(lm[RightKnee].x - lm[RightAnkle].x), 0.10);
    var kneeTrack := (leftTrack + rightTrack) / 2.0;
    var midHipX := (lm[LeftHip].x + lm[RightHip].x) / 2.0;
    var midAnkleX := (lm[LeftAnkle].x + lm[RightAnkle].x) / 2.0;
    var hipCenter := ScoreFromError(Abs(midHipX - midAnkleX), 0.12);
    100.0 * (0.45 * kneeTrack + 0.35 * torso + 0.20 * hipCenter)
  }

  /** The press's weighted sum: wrists over elbows 0.45, torso 0.35, level shoulders 0.20. */
  function PressAlignment(lm: seq<Landmark>, torso: real): real
    requires |lm| == LandmarkCount
  {
    var leftStack := ScoreFromError(Abs(lm[LeftWrist].x - lm[LeftElbow].x), 0.10);
    var rightStack := ScoreFromError(Abs(lm[RightWrist].x - lm[RightElbow].x), 0.10);
    var stack := (leftStack + rightStack) / 2.0;
    var symmetry := ScoreFromError(Abs(lm[LeftShoulder].y - lm[RightShoulder].y), 0.06);
    100.0 * (0.45 * stack + 0.35 * torso + 0.20 * symmetry)
  }

  /** `alignment_score(exercise, lm)`, with `torsoAngle` the angle at `TorsoPoints(lm)`.
      It lies in [0, 100] for every input, and is 0 for a name other than curl, squat
      or press. */
  function AlignmentScore(exercise: string, lm: seq<Landmark>, torsoAngle: real): (r: real)
    requires |lm| == LandmarkCount
    ensures 0.0 <= r <= 100.0
    ensures exercise !in {"curl", "squat", "press"} ==> r == 0.0
  {
    var torso := ScoreFromError(Abs(180.0 - torsoAngle), 25.0);
    if exercise == "curl" then CurlAlignment(lm, torso)
    else if exercise == "squat" then SquatAlignment(lm, torso)
    else if exercise == "press" then PressAlignment(lm, torso)
    else 0.0
  }

  /** The posture every sub-score rewards fully: an upright torso and the exercise's
      joints exactly stacked or level. */
  predicate PerfectPosture(e: Exercise, lm: seq<Landmark>, torsoAngle: real)
    requires |lm| == LandmarkCount
  {
    torsoAngle == 180.0 &&
    match e
    case Curl => lm[LeftElbow].x == lm[LeftHip].x && lm[LeftWrist].x == lm[LeftElbow].x
    case Squat => lm[LeftKnee].x == lm[LeftAnkle].x && lm[RightKnee].x == lm[RightAnkle].x
                  && lm[LeftHip].x + lm[RightHip].x == lm[LeftAnkle].x + lm[RightAnkle].x
    case Press => lm[LeftWrist].x == lm[LeftElbow].x && lm[RightWrist].x == lm[RightElbow].x
                  && lm[LeftShoulder].y == lm[RightShoulder].y
  }

  /** Each exercise's weights sum to one: a perfect posture scores exactly 100. */
  lemma PerfectPostureScoresHundred(e: Exercise, lm: seq<Landmark>, torsoAngle: real)
    requires |lm| == LandmarkCount
    requires PerfectPosture(e, lm, torsoAngle)
    ensures AlignmentScore(Name(e), lm, torsoAngle) == 100.0
  {
  }

  /** The three points fed to the rep counter and the visibility that decides
      whether the sample is reliable. */
  datatype Joint = Joint(a: Point, b: Point, c: Point, visibility: real)

  /** `_get_points`: curl and press use the left shoulder, elbow and wrist with the
      elbow's visibility; the squat uses the left hip, knee and ankle with the knee's. */
  function GetPoints(e: Exercise, lm: seq<Landmark>): (j: Joint)
    requires |lm| == LandmarkCount
    ensures e != Squat ==> j == Joint(PointOf(lm[LeftShoulder]), PointOf(lm[LeftElbow]),
                                      PointOf(lm[LeftWrist]), lm[LeftElbow].visibility)
    ensures e == Squat ==> j == Joint(PointOf(lm[LeftHip]), PointOf(lm[LeftKnee]),
                                      PointOf(lm[LeftAnkle]), lm[LeftKnee].visibility)
  {
    match e
    case Curl | Press =>
      Joint(PointOf(lm[LeftShoulder]), PointOf(lm[LeftElbow]), PointOf(lm[LeftWrist]), lm[LeftElbow].visibility)
    case Squat =>
      Joint(PointOf(lm[LeftHip]), PointOf(lm[LeftKnee]), PointOf(lm[LeftAnkle]), lm[LeftKnee].visibility)
  }

  /** The exercise's good range of the tracked angle. */
  predicate GoodRange(e: Exercise, angle: real)
  {
    match e
    case Curl => 20.0 <= angle <= 160.0
    case Squat => 80.0 <= angle <= 180.0
    case Press => 70.0 <= angle <= 180.0
  }

  /** The smoothness test against the previous scored angle. */
  predicate Smooth(angle: real, last: real)
  {
    Abs(angle - last) < 15.0
  }

  /** The per-frame form-confidence score: 70 for an angle in the good range, then 20
      for a smooth change or 5 for a jerky one (nothing on the first scored frame),
      then 10 for a reliable sample, capped at 100. The cap never bites, and the score
      determines each of its three parts: at least 70 exactly when in range; its
      remainder modulo 70 is 0 or 10 on a first frame, 20 or 30 after a smooth change
      and 5 or 15 after a jerky one; and 10, 15 or 30 exactly when reliable. So only
      twelve values occur; 25 and 95 never do. */
  function FormScore(e: Exercise, angle: real, lastAngle: Option<real>, reliable: bool): (r: int)
    ensures 0 <= r <= 100
    ensures r in {0, 5, 10, 15, 20, 30, 70, 75, 80, 85, 90, 100}
    ensures r >= 70 <==> GoodRange(e, angle)
    ensures lastAngle.None? ==> r % 70 in {0, 10}
    ensures lastAngle.Some? && Smooth(angle, lastAngle.value) ==> r % 70 in {20, 30}
    ensures lastAngle.Some? && !Smooth(angle, lastAngle.value) ==> r % 70 in {5, 15}
    ensures reliable <==> r % 70 in {10, 15, 30}
  {
    var base := if GoodRange(e, angle) then 70 else 0;
    var motion := if lastAngle.None? then 0 else if Smooth(angle, lastAngle.value) then 20 else 5;
    var score := base + motion + if reliable then 10 else 0;
    if score < 100 then score else 100
  }

  /** The scoring half of the session state: the counter's state, the previous scored
      angle, and the two append-only score lists. */
  datatype Tracking = Tracking(reps: RepValue, lastAngle: Option<real>,
                               formScores: seq<int>, alignScores: seq<real>)

  /** Every score recorded so far lies in [0, 100]. */
  predicate ScoresInRange(t: Tracking)
  {
    (forall i | 0 <= i < |t.formScores| :: 0 <= t.formScores[i] <= 100)
    && (forall i | 0 <= i < |t.alignScores| :: 0.0 <= t.alignScores[i] <= 100.0)
  }

  /** Scoring one accepted frame: one alignment score and one form score are appended
      (scores in range stay in range), the previous angle becomes this frame's angle,
      and the counter takes the sample with the tracked joint's visibility. */
  function ScoreFrame(e: Exercise, p: Params, t: Tracking, lm: seq<Landmark>,
                      jointAngle: real, torsoAngle: real): (r: Tracking)
    requires |lm| == LandmarkCount
    ensures |r.formScores| == |t.formScores| + 1 && r.formScores[..|t.formScores|] == t.formScores
    ensures |r.alignScores| == |t.alignScores| + 1 && r.alignScores[..|t.alignScores|] == t.alignScores
    ensures r.lastAngle == Some(jointAngle)
    ensures t.reps.counter <= r.reps.counter <= t.reps.counter + 1
    ensures ScoresInRange(t) ==> ScoresInRange(r)
  {
    var vis := GetPoints(e, lm).visibility;
    Tracking(Next(p, t.reps, jointAngle, vis), Some(jointAngle),
             t.formScores + [FormScore(e, jointAngle, t.lastAngle, vis >= p.visibilityThreshold)],
             t.alignScores + [AlignmentScore(Name(e), lm, torsoAngle)])
  }

  // ---- Running means ----

  function Sum(xs: seq<real>): real
  {
    if xs == [] then 0.0 else Sum(xs[..|xs| - 1]) + xs[|xs| - 1]
  }

  function AsReals(xs: seq<int>): (r: seq<real>)
    ensures |r| == |xs| && forall i | 0 <= i < |xs| :: r[i] == xs[i] as real
  {
    seq(|xs|, i requires 0 <= i < |xs| => xs[i] as real)
  }

  /** `sum(xs) / max(1, len(xs))`: 0 for an empty list, otherwise the arithmetic mean
      (the mean times the length is the sum). */
  function Mean(xs: seq<real>): (m: real)
    ensures xs == [] ==> m == 0.0
    ensures xs != [] ==> m * (|xs| as real) == Sum(xs)
  {
    Sum(xs) / (if |xs| < 1 then 1 else |xs|) as real
  }

  lemma {:induction false} SumWithin(xs: seq<real>)
    requires forall i | 0 <= i < |xs| :: 0.0 <= xs[i] <= 100.0
    ensures 0.0 <= Sum(xs) <= 100.0 * (|xs| as real)
  {
    if xs != [] {
      SumWithin(xs[..|xs| - 1]);
    }
  }

  /** The mean of scores in [0, 100] is itself in [0, 100]. */
  lemma MeanWithin(xs: seq<real>)
    ensures (forall i | 0 <= i < |xs| :: 0.0 <= xs[i] <= 100.0) ==> 0.0 <= Mean(xs) <= 100.0
  {
    if forall i | 0 <= i < |xs| :: 0.0 <= xs[i] <= 100.0 {
      SumWithin(xs);
    }
  }

  // ---- The session state both drivers keep ----

  /** One frame as the core sees it: the pose (or none), the angle the pose's tracked
      joint makes (`calculate_angle` on `GetPoints`), and the torso angle
      (`calculate_angle` on `TorsoPoints`). Both angles are inputs of the model. */
  datatype FrameInput = FrameInput(pose: Frame, jointAngle: real, torsoAngle: real)

  predicate AllWellFormed(xs: seq<FrameInput>)
  {
    forall i | 0 <= i < |xs| :: WellFormed(xs[i].pose)
  }

  /** The state a session or the app keeps across frames: the start gate
      (`started`, `ready_frames`) and the scoring state. */
  datatype SessionValue = SessionValue(started: bool, readyFrames: nat, track: Tracking)

  /** A session just set up: gate closed, no ready frame, fresh counter, no scores. */
  function Initial(): SessionValue
  {
    SessionValue(false, 0, Tracking(Fresh, None, [], []))
  }
}
