/** `PoseTrainerApp` of `main.py`, the desktop driver. It repeats the session logic of
    `apifinal.py` with three differences, each stated by a lemma below: its start gate
    checks only nine key landmarks; losing the pose after the start leaves
    `ready_frames` alone; and its report prints the raw counter, without a clamp.
    The camera, the window, the keyboard and the printed text are not part of this
    model; the typed exercise and target are parameters. */
module MainApp {
  import opened Wrappers
  import opened Text
  import opened Config
  import opened Pose
  import opened Counters
  import opened Scoring
  import ApiSession

  /** The `ValueError("Invalid input. ...")` of `get_user_input_and_setup`. */
  datatype SetupError = InvalidChoice

  /** The typed choice, stripped and lower-cased, must be exactly curl, squat or press. */
  function ParseChoice(raw: string): (r: Result<Exercise, SetupError>)
    ensures r.Success? <==> Lower(Strip(raw)) in {"curl", "squat", "press"}
    ensures r.Success? ==> Name(r.value) == Lower(Strip(raw))
  {
    var c := Lower(Strip(raw));
    if c == "curl" then Success(Curl)
    else if c == "squat" then Success(Squat)
    else if c == "press" then Success(Press)
    else Failure(InvalidChoice)
  }

  /** Every choice the app accepts, the streaming session accepts as the same
      exercise; "bicep_curl" is accepted by the session only. */
  lemma ChoiceNarrowerThanSession(raw: string)
    ensures ParseChoice(raw).Success? ==> ApiSession.Normalize(raw) == Success(ParseChoice(raw).value)
    ensures ParseChoice("bicep_curl").Failure? && ApiSession.Normalize("bicep_curl") == Success(Curl)
  {
    StripUnchanged("bicep_curl");
    LowerUnchanged("bicep_curl");
  }

  /** The counter thresholds the app passes explicitly, taken from the config defaults. */
  function CounterParams(e: Exercise): (p: Params)
    ensures HasGap(p)
    ensures p.polarity == if e == Curl then CountsOnUp else CountsOnDown
    ensures p.visibilityThreshold == DefaultVisibility
  {
    match e
    case Curl => Params(CountsOnUp, CurlConfig().upAngle, CurlConfig().downAngle, CurlConfig().visibilityThreshold)
    case Squat => Params(CountsOnDown, SquatConfig().upAngle, SquatConfig().downAngle, SquatConfig().visibilityThreshold)
    case Press =>
      Params(CountsOnDown, ShoulderPressConfig().upAngle, ShoulderPressConfig().downAngle,
             ShoulderPressConfig().visibilityThreshold)
  }

  /** The config defaults are the counter classes' own constructor defaults, so both
      drivers count with the same thresholds. */
  lemma ConfigMatchesCounterDefaults(e: Exercise)
    ensures CounterParams(e) == ApiSession.CounterParams(e)
    ensures HasGap(CounterParams(e))
  {
  }

  function ExerciseName(e: Exercise): string
  {
    match e
    case Curl => "Bicep Curl (Left Arm)"
    case Squat => "Squat"
    case Press => "Shoulder Press"
  }

  /** `handle_start_gate` on the state: no pose resets the run of ready frames; a pose
      extends it when the nine key landmarks are visible and ends it otherwise; the
      gate opens once the run reaches six. */
  function StartGate(v: SessionValue, pose: Frame): (r: SessionValue)
    requires WellFormed(pose)
    ensures r.track == v.track
    ensures pose.None? ==> r == v.(readyFrames := 0)
    ensures pose.Some? ==> r.readyFrames == (if KeyVisible(pose.value) then v.readyFrames + 1 else 0)
    ensures pose.Some? ==> (r.started <==> v.started || r.readyFrames >= ReadyFramesRequired)
  {
    match pose
    case None => v.(readyFrames := 0)
    case Some(lm) =>
      var ready := if KeyVisible(lm) then v.readyFrames + 1 else 0;
      v.(readyFrames := ready, started := v.started || ready >= ReadyFramesRequired)
  }

  /** One iteration of `run` on the state. Before the start, the gate runs as
      described, and the frame that opens it falls through to scoring in the same
      iteration. After the start, a frame without a pose changes nothing at all, and
      every frame with a pose is scored. So, as in the session, a frame is scored
      exactly when it has a pose and the gate is open after it. */
  function Advance(e: Exercise, p: Params, v: SessionValue, x: FrameInput): (r: SessionValue)
    requires WellFormed(x.pose)
    ensures v.started ==> r.started && r.readyFrames == v.readyFrames
    ensures v.started && x.pose.None? ==> r == v
    ensures !v.started && x.pose.None? ==> r == v.(readyFrames := 0)
    ensures !v.started && x.pose.Some? ==>
              r.readyFrames == (if KeyVisible(x.pose.value) then v.readyFrames + 1 else 0)
              && (r.started <==> r.readyFrames >= ReadyFramesRequired)
    ensures r.track == if x.pose.Some? && r.started
                       then ScoreFrame(e, p, v.track, x.pose.value, x.jointAngle, x.torsoAngle)
                       else v.track
  {
    var g := if v.started then v else StartGate(v, x.pose);
    if g.started && x.pose.Some? then
      g.(track := ScoreFrame(e, p, v.track, x.pose.value, x.jointAngle, x.torsoAngle))
    else g
  }

  /** The loop ends after a scored frame whose counter has reached the target. */
  predicate Done(target: int, x: FrameInput, r: SessionValue)
  {
    x.pose.Some? && r.started && r.track.reps.counter >= target
  }

  /** `run` over the frames the camera delivers, stopping at the first `Done` frame.
      The gate never closes, the two score lists grow together, scores stay in
      [0, 100] and the counter never falls. */
  function Loop(e: Exercise, p: Params, target: int, v: SessionValue, xs: seq<FrameInput>): (r: SessionValue)
    requires AllWellFormed(xs)
    ensures v.started ==> r.started
    ensures |r.track.formScores| - |v.track.formScores| == |r.track.alignScores| - |v.track.alignScores| >= 0
    ensures ScoresInRange(v.track) ==> ScoresInRange(r.track)
    ensures v.track.reps.counter <= r.track.reps.counter
    decreases |xs|
  {
    if xs == [] then v
    else
      var w := Advance(e, p, v, xs[0]);
      if Done(target, xs[0], w) then w else Loop(e, p, target, w, xs[1..])
  }

  /** Below the target when the loop starts, the counter is never past the target
      when it ends: it rises by at most one per frame and the loop stops as soon as it
      reaches the target. So clamping the count the app prints to the target, as the
      session's report does, would leave it unchanged. */
  lemma {:induction false} LoopStopsAtTarget(e: Exercise, p: Params, target: int, v: SessionValue,
                                             xs: seq<FrameInput>)
    requires AllWellFormed(xs)
    requires v.track.reps.counter < target
    ensures Loop(e, p, target, v, xs).track.reps.counter <= target
    decreases |xs|
  {
    if xs != [] {
      var w := Advance(e, p, v, xs[0]);
      if !Done(target, xs[0], w) {
        LoopStopsAtTarget(e, p, target, w, xs[1..]);
      }
    }
  }

  /** The app after the frames `xs`, ignoring the stop at the target (used to compare
      the two gates frame by frame). */
  function Feed(e: Exercise, p: Params, v: SessionValue, xs: seq<FrameInput>): (r: SessionValue)
    requires AllWellFormed(xs)
  {
    if xs == [] then v
    else Advance(e, p, Feed(e, p, v, xs[..|xs| - 1]), xs[|xs| - 1])
  }

  /** With a negative target, the count the app prints is above the target, while
      the session's report would clamp the same counter down to the target. */
  lemma NegativeTargetUnclamped(e: Exercise, p: Params, target: int, v: SessionValue,
                                xs: seq<FrameInput>)
    requires AllWellFormed(xs)
    requires target < 0
    ensures var c := Loop(e, p, target, v, xs).track.reps.counter;
            c > target && (if c < target then c else target) == target
  {
  }

  /** Taking the first frame off the front: feeding `ys` equals advancing by its first
      frame and then feeding the rest. */
  lemma {:induction false} FeedCons(e: Exercise, p: Params, v: SessionValue, ys: seq<FrameInput>)
    requires AllWellFormed(ys) && ys != []
    ensures Feed(e, p, v, ys) == Feed(e, p, Advance(e, p, v, ys[0]), ys[1..])
    decreases |ys|
  {
    if |ys| > 1 {
      var n := |ys|;
      FeedCons(e, p, v, ys[..n - 1]);
      assert ys[..n - 1][1..] == ys[1..][..n - 2];
      assert ys[..n - 1][0] == ys[0];
    }
  }

  /** `Done` first holds after the frame `k` (counting from one) of `xs`, or, when
      `k == |xs|`, possibly never. */
  predicate FirstDone(e: Exercise, p: Params, target: int, v: SessionValue, xs: seq<FrameInput>, k: nat)
    requires AllWellFormed(xs) && k <= |xs|
  {
    (forall j | 0 < j < k :: !Done(target, xs[j - 1], Feed(e, p, v, xs[..j])))
    && (k < |xs| ==> 0 < k && Done(target, xs[k - 1], Feed(e, p, v, xs[..k])))
  }

  /** A first frame that does not finish shifts the first finishing frame by one. */
  lemma FirstDoneShift(e: Exercise, p: Params, target: int, v: SessionValue, xs: seq<FrameInput>, k: nat)
    requires AllWellFormed(xs) && xs != [] && k < |xs|
    requires !Done(target, xs[0], Advance(e, p, v, xs[0]))
    requires FirstDone(e, p, target, Advance(e, p, v, xs[0]), xs[1..], k)
    ensures FirstDone(e, p, target, v, xs, k + 1)
    ensures Feed(e, p, v, xs[..k + 1]) == Feed(e, p, Advance(e, p, v, xs[0]), xs[1..][..k])
  {
    var w, ys := Advance(e, p, v, xs[0]), xs[1..];
    forall j | 0 < j <= |xs|
      ensures Feed(e, p, v, xs[..j]) == Feed(e, p, w, ys[..j - 1])
    {
      FeedCons(e, p, v, xs[..j]);
      assert xs[..j][1..] == ys[..j - 1];
    }
    assert Feed(e, p, v, xs[..1]) == w by {
      assert xs[..1][..0] == [];
    }
    forall j | 0 < j < k + 1 ensures !Done(target, xs[j - 1], Feed(e, p, v, xs[..j])) {
      if j > 1 {
        assert xs[j - 1] == ys[j - 2];
      }
    }
    if k + 1 < |xs| {
      assert xs[k] == ys[k - 1];
    }
  }

  /** The loop is the frame-by-frame `Feed` up to the first frame after which `Done`
      holds, or over all frames when there is none. */
  lemma {:induction false} LoopIsFeedUntilDone(e: Exercise, p: Params, target: int, v: SessionValue,
                                               xs: seq<FrameInput>)
    requires AllWellFormed(xs)
    ensures exists k | 0 <= k <= |xs| ::
              Loop(e, p, target, v, xs) == Feed(e, p, v, xs[..k]) && FirstDone(e, p, target, v, xs, k)
    decreases |xs|
  {
    if xs == [] {
      assert Loop(e, p, target, v, xs) == Feed(e, p, v, xs[..0]);
      assert FirstDone(e, p, target, v, xs, 0);
    } else {
      var w := Advance(e, p, v, xs[0]);
      assert Feed(e, p, v, xs[..1]) == w by {
        assert xs[..1][..0] == [];
      }
      if Done(target, xs[0], w) {
        assert FirstDone(e, p, target, v, xs, 1);
      } else {
        var ys := xs[1..];
        LoopIsFeedUntilDone(e, p, target, w, ys);
        var k' :| 0 <= k' <= |ys| && Loop(e, p, target, w, ys) == Feed(e, p, w, ys[..k'])
                  && FirstDone(e, p, target, w, ys, k');
        FirstDoneShift(e, p, target, v, xs, k');
      }
    }
  }

  /** Fed the same frames from the start, the app's gate opens no later than the
      session's: while the app's gate is still closed, the session's is closed too and
      its run of ready frames is no longer than the app's. */
  lemma {:induction false} AppGateOpensNoLater(e: Exercise, p: Params, q: Params, xs: seq<FrameInput>)
    requires AllWellFormed(xs)
    ensures var a, m := ApiSession.Feed(e, p, Initial(), xs), Feed(e, q, Initial(), xs);
            (a.started ==> m.started) && (!m.started ==> a.readyFrames <= m.readyFrames)
  {
    if xs != [] {
      var ys, x := xs[..|xs| - 1], xs[|xs| - 1];
      AppGateOpensNoLater(e, p, q, ys);
      if x.pose.Some? {
        AllVisibleIsStricter(x.pose.value);
      }
    }
  }

  /** After the start, a lost pose resets the session's run of ready frames but
      leaves the app's state entirely alone; neither gate closes. */
  lemma PoseLossAfterStart(e: Exercise, p: Params, v: SessionValue, x: FrameInput)
    requires v.started && x.pose.None?
    ensures Advance(e, p, v, x) == v
    ensures ApiSession.Advance(e, p, v, x) == v.(readyFrames := 0)
  {
  }

  /** The values `print_final_report` prints, the means unformatted. */
  datatype Report = Report(exerciseName: string, targetReps: int, completedReps: int,
                           formConfidence: real, alignment: real)

  datatype GateStatus = GateContinue | GateStarted
  datatype PoseStatus = PoseOk | PoseLost
  datatype FrameStatus = FrameContinue | FrameDone

  /** `handle_pose_lost_after_start`: the frame is skipped exactly when it has no pose. */
  function PoseLostStatus(pose: Frame): (s: PoseStatus)
    ensures s == PoseOk <==> pose.Some?
  {
    if pose.None? then PoseLost else PoseOk
  }

  class PoseTrainerApp {
    const choice: Exercise
    const targetReps: int
    const counter: RepCounter
    var started: bool
    var readyFrames: nat
    var formScores: seq<int>
    var alignScores: seq<real>
    var lastAngle: Option<real>

    function Value(): SessionValue
      reads this, counter.state
    {
      SessionValue(started, readyFrames, Tracking(counter.state.Value(), lastAngle, formScores, alignScores))
    }

    /** `__init__` followed by the counter selection of `get_user_input_and_setup`. */
    constructor (choice: Exercise, targetReps: int)
      ensures this.choice == choice && this.targetReps == targetReps
      ensures counter.params == CounterParams(choice) && fresh(counter.state)
      ensures Value() == Initial()
    {
      this.choice := choice;
      this.targetReps := targetReps;
      if choice == Curl {
        var cfg := CurlConfig();
        counter := new RepCounter.BicepCurl(upAngle := cfg.upAngle, downAngle := cfg.downAngle,
                                            visibilityThreshold := cfg.visibilityThreshold);
      } else if choice == Squat {
        var cfg := SquatConfig();
        counter := new RepCounter.Squat(upAngle := cfg.upAngle, downAngle := cfg.downAngle,
                                        visibilityThreshold := cfg.visibilityThreshold);
      } else {
        var cfg := ShoulderPressConfig();
        counter := new RepCounter.ShoulderPress(upAngle := cfg.upAngle, downAngle := cfg.downAngle,
                                                visibilityThreshold := cfg.visibilityThreshold);
      }
      started := false;
      readyFrames := 0;
      formScores := [];
      alignScores := [];
      lastAngle := None;
    }

    /** `get_user_input_and_setup` with the typed answers as parameters: an invalid
        choice fails and builds nothing. */
    static method Setup(rawChoice: string, targetReps: int) returns (r: Result<PoseTrainerApp, SetupError>)
      ensures r.Failure? <==> ParseChoice(rawChoice).Failure?
      ensures r.Success? ==> fresh(r.value) && fresh(r.value.counter.state)
                             && r.value.choice == ParseChoice(rawChoice).value
                             && r.value.targetReps == targetReps
                             && r.value.counter.params == CounterParams(r.value.choice)
                             && r.value.Value() == Initial()
    {
      match ParseChoice(rawChoice) {
        case Failure(err) => r := Failure(err);
        case Success(e) =>
          var app := new PoseTrainerApp(e, targetReps);
          r := Success(app);
      }
    }

    /** `handle_start_gate`: reports "started" exactly when a pose arrived and the run
        of ready frames has reached six. */
    method HandleStartGate(pose: Frame) returns (status: GateStatus)
      requires WellFormed(pose)
      modifies this
      ensures Value() == StartGate(old(Value()), pose)
      ensures status == GateStarted <==> pose.Some? && readyFrames >= ReadyFramesRequired
    {
      if pose.None? {
        readyFrames := 0;
        return GateContinue;
      }
      var lm := pose.value;
      var keyVisible := KeyVisible(lm);
      readyFrames := if keyVisible then readyFrames + 1 else 0;
      if readyFrames >= ReadyFramesRequired {
        started := true;
        return GateStarted;
      }
      return GateContinue;
    }

    /** `process_frame_after_start`: scores the frame and reports "done" exactly when
        the counter has reached the target. */
    method ProcessFrameAfterStart(lm: seq<Landmark>, jointAngle: real, torsoAngle: real)
      returns (status: FrameStatus)
      requires |lm| == LandmarkCount
      modifies this, counter.state
      ensures Value() == old(Value()).(track := ScoreFrame(choice, counter.params, old(Value()).track,
                                                           lm, jointAngle, torsoAngle))
      ensures status == FrameDone <==> counter.state.counter >= targetReps
    {
      var alignPct := AlignmentScore(Name(choice), lm, torsoAngle);
      alignScores := alignScores + [alignPct];

      var info := counter.Update(jointAngle, GetPoints(choice, lm).visibility);

      var angle := info.angle;
      var goodRange := match choice
        case Curl => 20.0 <= angle <= 160.0
        case Squat => 80.0 <= angle <= 180.0
        case Press => 70.0 <= angle <= 180.0;
      var score := if goodRange then 70 else 0;
      if lastAngle.Some? {
        var angleChange := Abs(angle - lastAngle.value);
        score := score + if angleChange < 15.0 then 20 else 5;
      }
      lastAngle := Some(angle);
      if info.reliable {
        score := score + 10;
      }
      formScores := formScores + [if score < 100 then score else 100];

      status := if info.counter >= targetReps then FrameDone else FrameContinue;
    }

    /** `print_final_report`: the raw counter, not clamped to the target, and the two
        means `Mean` of the scores (0 for no scores, in [0, 100] while the scores are). */
    function FinalReport(): (r: Report)
      reads this, counter.state
      ensures r.exerciseName == ExerciseName(choice) && r.targetReps == targetReps
      ensures r.completedReps == counter.state.counter
      ensures r.formConfidence == Mean(AsReals(formScores)) && r.alignment == Mean(alignScores)
      ensures formScores == [] ==> r.formConfidence == 0.0
      ensures alignScores == [] ==> r.alignment == 0.0
      ensures ScoresInRange(Value().track) ==>
                0.0 <= r.formConfidence <= 100.0 && 0.0 <= r.alignment <= 100.0
    {
      var form := AsReals(formScores);
      MeanWithin(alignScores);
      MeanWithin(form);
      Report(ExerciseName(choice), targetReps, counter.state.counter, Mean(form), Mean(alignScores))
    }

    /** `run` over the frames the camera delivers, then the final report. Started below
        the target, the printed count never passes the target. */
    method Run(frames: seq<FrameInput>) returns (report: Report)
      requires AllWellFormed(frames)
      modifies this, counter.state
      ensures Value() == Loop(choice, counter.params, targetReps, old(Value()), frames)
      ensures report == FinalReport()
      ensures old(counter.state.counter) < targetReps ==> report.completedReps <= targetReps
    {
      ghost var v0 := Value();
      var i := 0;
      while i < |frames|
        invariant 0 <= i <= |frames|
        invariant Loop(choice, counter.params, targetReps, Value(), frames[i..])
                  == Loop(choice, counter.params, targetReps, v0, frames)
      {
        var x := frames[i];
        ghost var v := Value();
        assert frames[i..][0] == x && frames[i..][1..] == frames[i + 1..];
        if !started {
          var status := HandleStartGate(x.pose);
          if status == GateContinue {
            i := i + 1;
            continue;
          }
        }
        var poseOk := PoseLostStatus(x.pose);
        if poseOk == PoseLost {
          i := i + 1;
          continue;
        }
        var status := ProcessFrameAfterStart(x.pose.value, x.jointAngle, x.torsoAngle);
        if status == FrameDone {
          break;
        }
        i := i + 1;
      }
      if v0.track.reps.counter < targetReps {
        LoopStopsAtTarget(choice, counter.params, targetReps, v0, frames);
      }
      report := FinalReport();
    }
  }
}
