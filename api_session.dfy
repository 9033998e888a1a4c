/** `PoseTrainerSession` of `apifinal.py`, the session behind the streaming endpoint:
    name validation, the strict start gate (all 33 landmarks), per-frame scoring,
    the finish check and the final report. Frame decoding, the pose estimator and
    the message transport are not part of this model. */
module ApiSession {
  import opened Wrappers
  import opened Text
  import opened Pose
  import opened Counters
  import opened Scoring

  /** The `ValueError("Unsupported exercise")` of the constructor. */
  datatype SetupError = UnsupportedExercise

  /** The constructor's name handling: strip, lower-case, then accept curl (also
      spelled bicep_curl), squat and press, and refuse everything else. */
  function Normalize(name: string): (r: Result<Exercise, SetupError>)
    ensures r.Success? <==> Lower(Strip(name)) in {"curl", "bicep_curl", "squat", "press"}
    ensures r == Success(Curl) <==> Lower(Strip(name)) in {"curl", "bicep_curl"}
    ensures r.Success? && r.value != Curl ==> Name(r.value) == Lower(Strip(name))
  {
    var n := Lower(Strip(name));
    if n == "curl" || n == "bicep_curl" then Success(Curl)
    else if n == "squat" then Success(Squat)
    else if n == "press" then Success(Press)
    else Failure(UnsupportedExercise)
  }

  /** The stored name of an exercise normalises back to that exercise. */
  lemma NormalizeName(e: Exercise)
    ensures Normalize(Name(e)) == Success(e)
  {
    var n := Name(e);
    StripUnchanged(n);
    LowerUnchanged(n);
  }

  /** Upper case does not matter, and bicep_curl is the curl. */
  lemma NormalizeUpperCase()
    ensures Normalize("BICEP_CURL") == Success(Curl)
  {
    StripUnchanged("BICEP_CURL");
    assert Lower("BICEP_CURL") == "bicep_curl";
  }

  /** Surrounding white space does not matter. */
  lemma NormalizeSurroundingSpace()
    ensures Normalize(" Squat\n") == Success(Squat)
  {
    var s := " Squat\n";
    assert SkipSpace(s, 0) == 1 by {
      assert IsSpace(s[0]) && !IsSpace(s[1]);
    }
    assert SkipSpaceBack(s, 1, 7) == 6 by {
      assert IsSpace(s[6]) && !IsSpace(s[5]);
    }
    assert Strip(s) == s[1..6] == "Squat";
    assert Lower("Squat") == "squat";
  }

  /** An exercise the session does not know is refused. */
  lemma NormalizeUnknown()
    ensures Normalize("lunge") == Failure(UnsupportedExercise)
  {
    StripUnchanged("lunge");
    assert Lower("lunge") == "lunge" by { LowerUnchanged("lunge"); }
  }

  /** The counter the constructor builds: the counter classes' own defaults, always
      with a hysteresis gap. */
  function CounterParams(e: Exercise): (p: Params)
    ensures HasGap(p)
    ensures p.polarity == if e == Curl then CountsOnUp else CountsOnDown
  {
    match e
    case Curl => Params(CountsOnUp, CurlUpAngle, CurlDownAngle, CurlVisibility)
    case Squat => Params(CountsOnDown, SquatUpAngle, SquatDownAngle, SquatVisibility)
    case Press => Params(CountsOnDown, PressUpAngle, PressDownAngle, PressVisibility)
  }

  /** `update(frame)` after the pose estimator. No pose resets `ready_frames` and
      scores nothing, whether or not the gate is open. Before the gate opens, a pose
      with all 33 landmarks visible extends the run of ready frames and any other pose
      ends it, and the gate opens exactly when the run reaches six; once open it never
      closes and the gate is no longer consulted. A frame is scored exactly when it has
      a pose and the gate is open after it, so the frame that opens the gate is scored. */
  function Advance(e: Exercise, p: Params, v: SessionValue, x: FrameInput): (r: SessionValue)
    requires WellFormed(x.pose)
    ensures v.started ==> r.started
    ensures x.pose.None? ==> r == v.(readyFrames := 0)
    ensures x.pose.Some? && !v.started ==>
              r.readyFrames == (if AllVisible(x.pose.value) then v.readyFrames + 1 else 0)
              && (r.started <==> r.readyFrames >= ReadyFramesRequired)
    ensures x.pose.Some? && v.started ==> r.readyFrames == v.readyFrames
    ensures r.track == if x.pose.Some? && r.started
                       then ScoreFrame(e, p, v.track, x.pose.value, x.jointAngle, x.torsoAngle)
                       else v.track
  {
    match x.pose
    case None => v.(readyFrames := 0)
    case Some(lm) =>
      var gate :=
        if v.started then v
        else
          var ready := if AllVisible(lm) then v.readyFrames + 1 else 0;
          v.(readyFrames := ready, started := ready >= ReadyFramesRequired);
      if gate.started then gate.(track := ScoreFrame(e, p, v.track, lm, x.jointAngle, x.torsoAngle))
      else gate
  }

  /** The session after the frames `xs`, in order. The gate never closes, the two
      score lists grow together, scores stay in [0, 100] and the counter never falls. */
  function Feed(e: Exercise, p: Params, v: SessionValue, xs: seq<FrameInput>): (r: SessionValue)
    requires AllWellFormed(xs)
    ensures v.started ==> r.started
    ensures |r.track.formScores| - |v.track.formScores| == |r.track.alignScores| - |v.track.alignScores| >= 0
    ensures ScoresInRange(v.track) ==> ScoresInRange(r.track)
    ensures v.track.reps.counter <= r.track.reps.counter
  {
    if xs == [] then v
    else Advance(e, p, Feed(e, p, v, xs[..|xs| - 1]), xs[|xs| - 1])
  }

  /** From a fresh session, nothing is scored while the gate is closed, and the gate
      cannot open before the sixth frame: at most |xs| - 5 frames have been scored. */
  lemma {:induction false} NoScoreBeforeSixthFrame(e: Exercise, p: Params, xs: seq<FrameInput>)
    requires AllWellFormed(xs)
    ensures var r := Feed(e, p, Initial(), xs);
            (!r.started ==> r.track == Initial().track && r.readyFrames <= |xs|)
            && (r.started ==> |r.track.formScores| + ReadyFramesRequired <= |xs| + 1)
  {
    if xs != [] {
      NoScoreBeforeSixthFrame(e, p, xs[..|xs| - 1]);
    }
  }

  /** Six frames in a row with all 33 landmarks visible open the gate, from any state. */
  lemma {:induction false} SixVisibleFramesOpenGate(e: Exercise, p: Params, v: SessionValue, xs: seq<FrameInput>)
    requires AllWellFormed(xs)
    requires forall i | 0 <= i < |xs| :: xs[i].pose.Some? && AllVisible(xs[i].pose.value)
    ensures Feed(e, p, v, xs).started || Feed(e, p, v, xs).readyFrames == v.readyFrames + |xs|
    ensures |xs| >= ReadyFramesRequired ==> Feed(e, p, v, xs).started
  {
    if xs != [] {
      SixVisibleFramesOpenGate(e, p, v, xs[..|xs| - 1]);
    }
  }

  /** The final report, before rounding. */
  datatype Report = Report(exercise: string, targetReps: int, completedReps: int,
                           formConfidence: real, alignment: real, suggestions: seq<string>)

  predicate Distinct(xs: seq<string>)
  {
    forall i, j | 0 <= i < j < |xs| :: xs[i] != xs[j]
  }

  /** The exercise's three tips. */
  function Tips(e: Exercise): (t: seq<string>)
    ensures |t| == 3 && Distinct(t)
  {
    match e
    case Curl => ["Keep elbow close", "Avoid swinging torso", "Lower slowly"]
    case Squat => ["Keep chest up", "Knees out", "Heels down"]
    case Press => ["Keep core tight", "Wrists stacked", "Press straight up"]
  }

  /** `random.sample(tips, 2)` with the random choice made explicit: `pick` selects
      one of the six ordered pairs. The result is two different tips of the list. */
  function Sample2(tips: seq<string>, pick: nat): (r: seq<string>)
    requires |tips| == 3 && Distinct(tips)
    ensures |r| == 2 && r[0] != r[1] && r[0] in tips && r[1] in tips
  {
    var k := pick % 6;
    var i := k / 2;
    [tips[i], tips[(i + 1 + k % 2) % 3]]
  }

  /** Every ordered pair of different tips is some choice of `Sample2`. */
  lemma Sample2Covers(tips: seq<string>, i: nat, j: nat)
    requires |tips| == 3 && Distinct(tips)
    requires i < 3 && j < 3 && i != j
    ensures exists pick: nat :: Sample2(tips, pick) == [tips[i], tips[j]]
  {
    var b := if j == (i + 1) % 3 then 0 else 1;
    var pick := 2 * i + b;
    assert pick < 6 && pick % 6 == pick && pick / 2 == i && pick % 2 == b;
    assert Sample2(tips, pick) == [tips[i], tips[j]];
  }

  class PoseTrainerSession {
    const exercise: Exercise
    const targetReps: int
    const counter: RepCounter
    var formScores: seq<int>
    var alignScores: seq<real>
    var lastAngle: Option<real>
    var started: bool
    var readyFrames: nat

    function Value(): SessionValue
      reads this, counter.state
    {
      SessionValue(started, readyFrames, Tracking(counter.state.Value(), lastAngle, formScores, alignScores))
    }

    /** `__init__` once the name has been normalised. */
    constructor (exercise: Exercise, targetReps: int)
      ensures this.exercise == exercise && this.targetReps == targetReps
      ensures counter.params == CounterParams(exercise) && fresh(counter.state)
      ensures Value() == Initial()
    {
      this.exercise := exercise;
      this.targetReps := targetReps;
      if exercise == Curl {
        counter := new RepCounter.BicepCurl();
      } else if exercise == Squat {
        counter := new RepCounter.Squat();
      } else {
        counter := new RepCounter.ShoulderPress();
      }
      formScores := [];
      alignScores := [];
      lastAngle := None;
      started := false;
      readyFrames := 0;
    }

    /** `PoseTrainerSession(exercise, target_reps)`: fails, and builds no session, for
        a name `Normalize` refuses; otherwise a fresh session for that exercise. */
    static method Open(name: string, targetReps: int) returns (r: Result<PoseTrainerSession, SetupError>)
      ensures r.Failure? <==> Normalize(name).Failure?
      ensures r.Success? ==> fresh(r.value) && fresh(r.value.counter.state)
                             && r.value.exercise == Normalize(name).value
                             && r.value.targetReps == targetReps
                             && r.value.counter.params == CounterParams(r.value.exercise)
                             && r.value.Value() == Initial()
    {
      match Normalize(name) {
        case Failure(err) => r := Failure(err);
        case Success(e) =>
          var s := new PoseTrainerSession(e, targetReps);
          r := Success(s);
      }
    }

    /** `update(frame)`, the pose estimator's result given as `x`. */
    method Update(x: FrameInput)
      requires WellFormed(x.pose)
      modifies this, counter.state
      ensures Value() == Advance(exercise, counter.params, old(Value()), x)
    {
      if x.pose.None? {
        readyFrames := 0;
        return;
      }
      var lm := x.pose.value;

      if !started {
        var all := All33Visible(lm);
        if all {
          readyFrames := readyFrames + 1;
        } else {
          readyFrames := 0;
        }
        if readyFrames < ReadyFramesRequired {
          return;
        }
        started := true;
      }

      ScoreFrame(lm, x.jointAngle, x.torsoAngle);
    }

    /** The scoring block of `update`: one alignment score and one form score are
        appended, the counter takes the sample, and the angle is remembered. */
    method ScoreFrame(lm: seq<Landmark>, jointAngle: real, torsoAngle: real)
      requires |lm| == LandmarkCount
      modifies this, counter.state
      ensures Value() == old(Value()).(track := Scoring.ScoreFrame(exercise, counter.params, old(Value()).track, lm, jointAngle, torsoAngle))
    {
      var alignPct := AlignmentScore(Name(exercise), lm, torsoAngle);
      alignScores := alignScores + [alignPct];

      var info := counter.Update(jointAngle, GetPoints(exercise, lm).visibility);
      var angle := info.angle;

      var goodRange := match exercise
        case Curl => 20.0 <= angle <= 160.0
        case Squat => 80.0 <= angle <= 180.0
        case Press => 70.0 <= angle <= 180.0;
      var score := if goodRange then 70 else 0;
      if lastAngle.Some? {
        var angleChange := Abs(angle - lastAngle.value);
        score := score + if angleChange < 15.0 then 20 else 5;
      }
      lastAngle := Some(angle);
      if info.reliable {
        score := score + 10;
      }
      formScores := formScores + [if score < 100 then score else 100];
    }

    /** `generate_report()`, with `pick` standing for the random tip choice and the
        two means unrounded. Completed repetitions are the counter clamped to the
        target: the raw counter while it has not passed the target, the target once it
        has. Each mean is `Mean` of its scores, so 0 for no scores and in [0, 100]
        while the scores are; the tips are two different ones of the exercise's three. */
    function GenerateReport(pick: nat): (r: Report)
      reads this, counter.state
      ensures r.exercise == Name(exercise) && r.targetReps == targetReps
      ensures r.completedReps <= targetReps && r.completedReps <= counter.state.counter
      ensures counter.state.counter <= targetReps ==> r.completedReps == counter.state.counter
      ensures targetReps <= counter.state.counter ==> r.completedReps == targetReps
      ensures r.formConfidence == Mean(AsReals(formScores)) && r.alignment == Mean(alignScores)
      ensures formScores == [] ==> r.formConfidence == 0.0
      ensures alignScores == [] ==> r.alignment == 0.0
      ensures ScoresInRange(Value().track) ==>
                0.0 <= r.formConfidence <= 100.0 && 0.0 <= r.alignment <= 100.0
      ensures |r.suggestions| == 2 && r.suggestions[0] != r.suggestions[1]
      ensures forall s | s in r.suggestions :: s in Tips(exercise)
    {
      var completed := if counter.state.counter < targetReps then counter.state.counter else targetReps;
      var form := AsReals(formScores);
      MeanWithin(alignScores);
      MeanWithin(form);
      Report(Name(exercise), targetReps, completed, Mean(form), Mean(alignScores),
             Sample2(Tips(exercise), pick))
    }

    /** One decoded frame of the streaming loop: the session is updated, and the final
        report is produced exactly when the counter has reached the target. When the
        counter reaches the target from below, the clamp leaves it unchanged. */
    method HandleFrame(x: FrameInput, pick: nat) returns (report: Option<Report>)
      requires WellFormed(x.pose)
      modifies this, counter.state
      ensures Value() == Advance(exercise, counter.params, old(Value()), x)
      ensures report.Some? <==> counter.state.counter >= targetReps
      ensures report.Some? ==> report.value == GenerateReport(pick)
      ensures report.Some? && old(counter.state.counter) < targetReps ==>
                report.value.completedReps == counter.state.counter == targetReps
    {
      Update(x);
      if counter.state.counter >= targetReps {
        report := Some(GenerateReport(pick));
      } else {
        report := None;
      }
    }
  }
}
