/** The repetition counters of `src/counters.py`: one hysteresis state machine over
    `RepState {counter, stage}` per exercise, fed one joint-angle sample at a time.

    `BicepCurlCounter`, `SquatCounter` and `ShoulderPressCounter` share one algorithm
    and differ only in polarity: the curl arms on "down" (a large elbow angle) and
    counts on "up" (a small one); the squat and the press arm on "up" (a large angle)
    and count on "down" (a small one). The angle itself (`calculate_angle`) is an
    input here. */
module Counters {
  import opened Wrappers

  datatype Stage = Up | Down

  /** CountsOnUp is the curl; CountsOnDown is the squat and the shoulder press. */
  datatype Polarity = CountsOnUp | CountsOnDown

  /** The constructor arguments of a counter class, and that class's polarity. */
  datatype Params = Params(polarity: Polarity, upAngle: real, downAngle: real, visibilityThreshold: real)

  /** The value of a `RepState`: the repetition count and the stage (None before any). */
  datatype RepValue = RepValue(counter: nat, stage: Option<Stage>)

  /** A freshly constructed `RepState()`. */
  const Fresh: RepValue := RepValue(0, None)

  /** The dictionary `update` returns. */
  datatype UpdateInfo = UpdateInfo(angle: real, counter: nat, stage: Option<Stage>, reliable: bool)

  /** One sample fed to `update`: the joint angle and the vertex landmark's visibility. */
  datatype Sample = Sample(angle: real, visibility: real)

  // Constructor defaults of the three counter classes.
  const CurlUpAngle: real := 30.0
  const CurlDownAngle: real := 160.0
  const CurlVisibility: real := 0.6
  const SquatUpAngle: real := 165.0
  const SquatDownAngle: real := 95.0
  const SquatVisibility: real := 0.6
  const PressUpAngle: real := 170.0
  const PressDownAngle: real := 80.0
  const PressVisibility: real := 0.6

  /** The stage that arms a repetition. */
  function ArmedStage(p: Polarity): Stage
  {
    if p == CountsOnUp then Down else Up
  }

  /** The stage a completed repetition leaves behind. */
  function CountedStage(p: Polarity): Stage
  {
    if p == CountsOnUp then Up else Down
  }

  /** An angle above this threshold arms the counter. */
  function ArmAngle(p: Params): real
  {
    if p.polarity == CountsOnUp then p.downAngle else p.upAngle
  }

  /** An angle below this threshold completes an armed repetition. */
  function CountAngle(p: Params): real
  {
    if p.polarity == CountsOnUp then p.upAngle else p.downAngle
  }

  /** The thresholds leave a hysteresis band between them: up < down for the curl,
      up > down for the squat and the press. */
  predicate HasGap(p: Params)
  {
    CountAngle(p) < ArmAngle(p)
  }

  /** The stage logic of `update` on a reliable sample. The counter rises by at most
      one; it rises exactly when the angle is below the counting threshold while the
      counter is armed (armed before, or armed by this very sample); a counted sample
      leaves the counted stage, any other one sets the armed stage when the angle is
      above the arming threshold and keeps the stage otherwise. */
  function Step(p: Params, s: RepValue, angle: real): (r: RepValue)
    ensures r.counter == s.counter || r.counter == s.counter + 1
    ensures r.counter == s.counter + 1
            <==> angle < CountAngle(p) && (angle > ArmAngle(p) || s.stage == Some(ArmedStage(p.polarity)))
    ensures r.counter == s.counter + 1 ==> r.stage == Some(CountedStage(p.polarity))
    ensures r.counter == s.counter ==>
            r.stage == if angle > ArmAngle(p) then Some(ArmedStage(p.polarity)) else s.stage
  {
    match p.polarity
    case CountsOnUp =>
      var stage := if angle > p.downAngle then Some(Down) else s.stage;
      if angle < p.upAngle && stage == Some(Down) then RepValue(s.counter + 1, Some(Up))
      else RepValue(s.counter, stage)
    case CountsOnDown =>
      var stage := if angle > p.upAngle then Some(Up) else s.stage;
      if angle < p.downAngle && stage == Some(Up) then RepValue(s.counter + 1, Some(Down))
      else RepValue(s.counter, stage)
  }

  /** `update` on one sample: a sample whose visibility is below the threshold leaves
      the state untouched; otherwise `Step` applies. */
  function Next(p: Params, s: RepValue, angle: real, visibility: real): (r: RepValue)
    ensures visibility < p.visibilityThreshold ==> r == s
    ensures s.counter <= r.counter <= s.counter + 1
  {
    if visibility < p.visibilityThreshold then s else Step(p, s, angle)
  }

  /** The state after feeding the samples `xs`, in order, to `update`. The counter
      never decreases and rises by at most one per sample. */
  function Run(p: Params, s: RepValue, xs: seq<Sample>): (r: RepValue)
    ensures s.counter <= r.counter <= s.counter + |xs|
  {
    if xs == [] then s
    else
      var last := xs[|xs| - 1];
      Next(p, Run(p, s, xs[..|xs| - 1]), last.angle, last.visibility)
  }

  // ---- An independent account of what the counter counts ----

  /** Where a reliable sample lies relative to the hysteresis band. */
  datatype Zone = High | Low

  /** High above the arming threshold, Low below the counting threshold, nothing for a
      sample inside the band or an unreliable one. */
  function ZoneOf(p: Params, x: Sample): Option<Zone>
  {
    if x.visibility < p.visibilityThreshold then None
    else if x.angle > ArmAngle(p) then Some(High)
    else if x.angle < CountAngle(p) then Some(Low)
    else None
  }

  /** The zones of the reliable out-of-band samples of `xs`, in order. */
  function Zones(p: Params, xs: seq<Sample>): seq<Zone>
  {
    if xs == [] then []
    else
      Zones(p, xs[..|xs| - 1])
      + match ZoneOf(p, xs[|xs| - 1]) case Some(z) => [z] case None => []
  }

  /** The number of passes through the band, from above it to below it: adjacent
      (High, Low) pairs. */
  function Passes(zs: seq<Zone>): nat
  {
    if |zs| < 2 then 0
    else Passes(zs[..|zs| - 1]) + if zs[|zs| - 2] == High && zs[|zs| - 1] == Low then 1 else 0
  }

  /** A state that is already armed counts as having last been above the band. */
  function Prefix(p: Params, s: RepValue): seq<Zone>
  {
    if s.stage == Some(ArmedStage(p.polarity)) then [High] else []
  }

  predicate EndsHigh(zs: seq<Zone>)
  {
    zs != [] && zs[|zs| - 1] == High
  }

  lemma PassesSnoc(zs: seq<Zone>, z: Zone)
    ensures Passes(zs + [z]) == Passes(zs) + if EndsHigh(zs) && z == Low then 1 else 0
  {
    assert (zs + [z])[..|zs|] == zs;
  }

  /** With a hysteresis gap, the counter after any sequence of samples has risen by
      exactly the number of completed passes from above the band to below it, counting
      reliable samples only; and the counter is armed exactly when the last reliable
      out-of-band sample was above the band. */
  lemma {:induction false} RunCountsPasses(p: Params, s: RepValue, xs: seq<Sample>)
    requires HasGap(p)
    ensures Run(p, s, xs).counter == s.counter + Passes(Prefix(p, s) + Zones(p, xs))
    ensures Run(p, s, xs).stage == Some(ArmedStage(p.polarity)) <==> EndsHigh(Prefix(p, s) + Zones(p, xs))
  {
    if xs == [] {
      assert Prefix(p, s) + Zones(p, xs) == Prefix(p, s);
    } else {
      var ys, x := xs[..|xs| - 1], xs[|xs| - 1];
      RunCountsPasses(p, s, ys);
      var m := Prefix(p, s) + Zones(p, ys);
      var t := Run(p, s, ys);
      match ZoneOf(p, x)
      case None =>
        assert Prefix(p, s) + Zones(p, xs) == m;
      case Some(z) =>
        assert Prefix(p, s) + Zones(p, xs) == m + [z];
        PassesSnoc(m, z);
        assert ArmedStage(p.polarity) != CountedStage(p.polarity);
    }
  }

  /** Feeding only angles above the arming threshold (for the curl: above `down_angle`)
      never raises the counter, however often it is repeated. */
  lemma {:induction false} ArmingNeverCounts(p: Params, s: RepValue, xs: seq<Sample>)
    requires HasGap(p)
    requires forall i | 0 <= i < |xs| :: xs[i].angle > ArmAngle(p)
    ensures Run(p, s, xs).counter == s.counter
    ensures Run(p, s, xs).stage == s.stage || Run(p, s, xs).stage == Some(ArmedStage(p.polarity))
  {
    if xs != [] {
      ArmingNeverCounts(p, s, xs[..|xs| - 1]);
    }
  }

  /** The squat scenario: with up 165 and down 95 and every sample visible, the angles
      170, 170, 90, 170, 90 complete two repetitions. */
  lemma SquatScenario()
    ensures Run(Params(CountsOnDown, 165.0, 95.0, 0.6), Fresh,
                [Sample(170.0, 0.9), Sample(170.0, 0.9), Sample(90.0, 0.9),
                 Sample(170.0, 0.9), Sample(90.0, 0.9)]) == RepValue(2, Some(Down))
  {
    var p := Params(CountsOnDown, 165.0, 95.0, 0.6);
    var xs := [Sample(170.0, 0.9), Sample(170.0, 0.9), Sample(90.0, 0.9),
               Sample(170.0, 0.9), Sample(90.0, 0.9)];
    assert xs[..1][..0] == [];
    assert Run(p, Fresh, xs[..1]) == RepValue(0, Some(Up));
    assert xs[..2][..1] == xs[..1];
    assert Run(p, Fresh, xs[..2]) == RepValue(0, Some(Up));
    assert xs[..3][..2] == xs[..2];
    assert Run(p, Fresh, xs[..3]) == RepValue(1, Some(Down));
    assert xs[..4][..3] == xs[..3];
    assert Run(p, Fresh, xs[..4]) == RepValue(1, Some(Up));
    assert xs[..4] == xs[..|xs| - 1];
  }

  /** The `RepState` dataclass, mutated in place by its counter. */
  class RepState {
    var counter: nat
    var stage: Option<Stage>

    constructor ()
      ensures Value() == Fresh
    {
      counter := 0;
      stage := None;
    }

    function Value(): RepValue
      reads this
    {
      RepValue(counter, stage)
    }
  }

  /** A counter object; the three named constructors are the three counter classes. */
  class RepCounter {
    const params: Params
    const state: RepState

    /** `BicepCurlCounter(up_angle=30.0, down_angle=160.0, visibility_threshold=0.6)` */
    constructor BicepCurl(upAngle: real := CurlUpAngle, downAngle: real := CurlDownAngle,
                          visibilityThreshold: real := CurlVisibility)
      ensures params == Params(CountsOnUp, upAngle, downAngle, visibilityThreshold)
      ensures fresh(state) && state.Value() == Fresh
    {
      params := Params(CountsOnUp, upAngle, downAngle, visibilityThreshold);
      state := new RepState();
    }

    /** `SquatCounter(up_angle=165.0, down_angle=95.0, visibility_threshold=0.6)` */
    constructor Squat(upAngle: real := SquatUpAngle, downAngle: real := SquatDownAngle,
                      visibilityThreshold: real := SquatVisibility)
      ensures params == Params(CountsOnDown, upAngle, downAngle, visibilityThreshold)
      ensures fresh(state) && state.Value() == Fresh
    {
      params := Params(CountsOnDown, upAngle, downAngle, visibilityThreshold);
      state := new RepState();
    }

    /** `ShoulderPressCounter(up_angle=170.0, down_angle=80.0, visibility_threshold=0.6)` */
    constructor ShoulderPress(upAngle: real := PressUpAngle, downAngle: real := PressDownAngle,
                              visibilityThreshold: real := PressVisibility)
      ensures params == Params(CountsOnDown, upAngle, downAngle, visibilityThreshold)
      ensures fresh(state) && state.Value() == Fresh
    {
      params := Params(CountsOnDown, upAngle, downAngle, visibilityThreshold);
      state := new RepState();
    }

    /** `update`: the state moves as `Next` says (untouched on an unreliable sample),
        and the result reports the angle, the new counter and stage, and whether the
        sample was reliable. */
    method Update(angle: real, visibility: real) returns (info: UpdateInfo)
      modifies state
      ensures state.Value() == Next(params, old(state.Value()), angle, visibility)
      ensures info == UpdateInfo(angle, state.counter, state.stage, visibility >= params.visibilityThreshold)
    {
      if visibility < params.visibilityThreshold {
        return UpdateInfo(angle, state.counter, state.stage, false);
      }
      match params.polarity {
        case CountsOnUp =>
          if angle > params.downAngle {
            state.stage := Some(Down);
          }
          if angle < params.upAngle && state.stage == Some(Down) {
            state.stage := Some(Up);
            state.counter := state.counter + 1;
          }
        case CountsOnDown =>
          if angle > params.upAngle {
            state.stage := Some(Up);
          }
          if angle < params.downAngle && state.stage == Some(Up) {
            state.stage := Some(Down);
            state.counter := state.counter + 1;
          }
      }
      info := UpdateInfo(angle, state.counter, state.stage, true);
    }
  }
}
