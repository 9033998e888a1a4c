# Pose trainer core in Dafny

This project models the per-frame logic of a webcam exercise trainer that counts
curls, squats and shoulder presses. A pose estimator produces 33 landmarks per
frame; here it is an opaque source of landmarks. The model has three parts.

- The rep counters (`src/counters.py`). Each is a hysteresis state machine over a
  `RepState` holding a counter and a stage. The curl arms on "down" and counts on
  "up". The squat and the press arm on "up" and count on "down". A sample below the
  visibility threshold changes nothing.
- The streaming session `PoseTrainerSession` (`apifinal.py`). It validates and
  normalises the exercise name. Its start gate needs six frames in a row with all
  33 landmarks visible. After the gate opens, it scores every frame: an alignment
  score and a form-confidence score. It finishes once the counter reaches the
  target and reports clamped results.
- The desktop app `PoseTrainerApp` (`main.py`). It repeats the same logic with
  three differences:
  - its gate checks nine key landmarks;
  - losing the pose after the start does not reset `ready_frames`;
  - its printed count is not clamped.

Modules:

- `Counters` holds the counter classes.
- `RepCounter` stands for all three counter classes. A `Polarity` says which stage
  arms and which counts. Its `Update` method is proved against the step function
  `Next`.
- The pure `Run`, `Zones` and `Passes` relate a whole run of samples to the number
  of passes through the hysteresis band.
- `Config` holds `src/config.py`, and `Pose` holds the landmarks and the gates.
- `Scoring` holds the helpers both drivers share. Each source file defines them
  separately with identical bodies (`apifinal.py:31-101`, `main.py:58-128`); the
  model defines them once.
- `ApiSession` models `apifinal.py` and `MainApp` models `main.py`.
- Each driver class keeps its state in fields and exposes it as a `SessionValue`.
  Its methods are proved to move that value by the pure step (`ApiSession.Advance`,
  `MainApp.Advance`), and the properties are proved about the steps.

Where the code and its comments or documentation disagree, the model follows the code:

- `target_reps` is never checked to be positive. With a target of 0 or less, the
  streaming session finishes after its very first decoded frame, because its finish
  check runs after every frame, even one with no pose or with the gate still closed
  (`apifinal.py:307`). The app finishes on its first scored frame (`main.py:294`),
  and its printed count is then above a negative target (`MainApp.NegativeTargetUnclamped`).
- In `main.py`, the frame that opens the gate is scored in the same loop
  iteration. The comment at `main.py:356` says the next iteration.
- The form score takes only twelve values (see `Scoring.FormScore`); 25 and 95
  never occur, although the score is built from multiples of 5.

## Model

| member | source | states |
|---|---|---|
| Counters.Step | src/counters.py:31-36 | A reliable sample raises the counter by at most one. It counts exactly when the angle is below the counting threshold and the stage is armed, either already or by this very sample. A counted rep sets the counting stage; otherwise the stage becomes armed above the arming threshold and is unchanged elsewhere, for both polarities. |
| Counters.Next | src/counters.py:27-29 | A sample below the visibility threshold leaves counter and stage exactly unchanged; the counter never falls and rises by at most one. |
| Counters.Run | src/counters.py:19-94 | Over any run of samples the counter never decreases and grows by at most the number of samples. |
| Counters.RunCountsPasses | src/counters.py:32-36 | With a hysteresis gap, the counter after a run of samples is the start counter plus the number of completed passes: high zone followed by low zone, ignoring in-band and unreliable samples. The stage is armed exactly when the last zone visited is the arming one. |
| Counters.ArmingNeverCounts | src/counters.py:32-36 | Feeding only angles beyond the arming threshold never increments the counter. The stage stays what it was or becomes armed. |
| Counters.SquatScenario | src/counters.py:56-63 | Concrete squat run 170, 170, 90, 170, 90 ends at two reps in stage "down". |
| Counters.RepState.constructor | src/counters.py:5-7 | A fresh state has counter 0 and no stage. |
| Counters.RepCounter.BicepCurl | src/counters.py:13-17 | Curl counter with the given thresholds (defaults 30, 160, 0.6) and a fresh state. |
| Counters.RepCounter.Squat | src/counters.py:44-48 | Squat counter with the given thresholds (defaults 165, 95, 0.6) and a fresh state. |
| Counters.RepCounter.ShoulderPress | src/counters.py:71-75 | Press counter with the given thresholds (defaults 170, 80, 0.6) and a fresh state. |
| Counters.RepCounter.Update | src/counters.py:19-94 | The new state is `Next` of the old. The returned counter and stage are the post-update state, and `reliable` says whether visibility met the threshold. |
| Config.CurlConfig | src/config.py:10-13 | up 30 < down 160, inside [0, 180], visibility 0.6. |
| Config.SquatConfig | src/config.py:16-19 | up 165 > down 95, inside [0, 180], visibility 0.6. |
| Config.ShoulderPressConfig | src/config.py:22-25 | up 170 > down 80, inside [0, 180], visibility 0.6. |
| Pose.All33Visible | apifinal.py:168-172 | The loop with early exit returns true exactly when all 33 landmarks have visibility at least 0.55. |
| Pose.AllVisible | apifinal.py:168-172 | All 33 landmarks have visibility at least 0.55. |
| Pose.KeyVisible | main.py:181-192 | The nine key landmarks (nose, both shoulders, hips, knees and ankles) have visibility at least 0.55. |
| Pose.AllVisibleIsStricter | main.py:181-192 | All 33 visible implies the 9 key landmarks visible. The converse fails: there is a pose with the key landmarks visible and another one not. |
| Text.Strip | apifinal.py:143 | `str.strip()`: the result is a slice of the input with only white space cut off either side. Its ends are not white space, and it is the input itself when the input's ends are not white space. |
| Text.SkipSpace | apifinal.py:143 | The first position from a start that is not white space; everything skipped is white space. |
| Text.SkipSpaceBack | apifinal.py:143 | The end of a range once its trailing white space is cut; everything cut is white space and the character before the end is not. |
| Text.Lower | apifinal.py:143 | `str.lower()` on ASCII letters: same length, no upper-case letter left, every character lowered. |
| Scoring.Clamp01 | apifinal.py:31-32 | The result is in [0, 1]. It is the identity on [0, 1], 0 below and 1 above. |
| Scoring.ScoreFromError | apifinal.py:34-35 | The result is in [0, 1]: 1 for no error, 0 once the error reaches the tolerance. |
| Scoring.ScoreFromErrorMonotone | apifinal.py:34-35 | A larger error never scores higher. |
| Scoring.AlignmentScore | apifinal.py:37-101 | In [0, 100] for curl, squat and press, and exactly 0 for any other exercise name. |
| Scoring.PerfectPostureScoresHundred | apifinal.py:52-98 | An upright torso with zero offsets scores exactly 100 for each exercise, so each exercise's weights 0.45, 0.35 and 0.20 add up to the full score. |
| Scoring.GetPoints | apifinal.py:174-186 | Curl and press feed the left shoulder, elbow and wrist (landmarks 11, 13, 15) with the elbow's visibility. The squat feeds the left hip, knee and ankle (23, 25, 27) with the knee's visibility. |
| Scoring.TorsoPoints | apifinal.py:47-50 | The shoulder midpoint, the hip midpoint, and the point 0.3 below the hip midpoint. |
| Scoring.GoodRange | apifinal.py:216-221 | The good range is [20, 160] for the curl, [80, 180] for the squat and [70, 180] for the press. |
| Scoring.FormScore | apifinal.py:216-234 | In [0, 100] and one of twelve values. At least 70 exactly when the angle is in the exercise's good range. The remainder modulo 70 tells whether there was a previous angle and whether the change was smooth. It also tells exactly whether the sample was reliable. |
| Scoring.ScoreFrame | apifinal.py:210-234 | Exactly one entry is appended to each score list, and the old entries are kept. The previous angle becomes this angle. The counter rises by at most one. Scores in range stay in range. |
| Scoring.Mean | apifinal.py:238-239 | `sum / max(1, len)`: 0 for no scores, otherwise mean times length equals the sum. |
| Scoring.MeanWithin | apifinal.py:238-239 | The mean of scores in [0, 100] lies in [0, 100]. |
| ApiSession.Normalize | apifinal.py:143-154 | Success exactly for the stripped, lower-cased names curl, bicep_curl, squat and press. Curl exactly for curl and bicep_curl. Every other name fails. |
| ApiSession.NormalizeName | apifinal.py:143-147 | Every stored exercise name normalises back to that exercise. |
| ApiSession.NormalizeUpperCase | apifinal.py:143-148 | "BICEP_CURL" is accepted as the curl. |
| ApiSession.NormalizeSurroundingSpace | apifinal.py:143-150 | " Squat\n" is accepted as the squat. |
| ApiSession.NormalizeUnknown | apifinal.py:153-154 | "lunge" is refused. |
| ApiSession.CounterParams | apifinal.py:146-152 | The built counter always has a hysteresis gap. It counts on "up" for the curl and on "down" otherwise. |
| ApiSession.Advance | apifinal.py:188-234 | No pose resets `ready_frames` and scores nothing. Before the start, all-33-visible extends the run and anything else resets it; the gate opens exactly at six. `started` never resets. After the start, `ready_frames` is untouched. A frame is scored exactly when it has a pose and the gate is open after it, so the opening frame is scored. |
| ApiSession.Feed | apifinal.py:188-234 | Over any frames, `started` never resets and both score lists grow by the same amount. Scores stay in [0, 100] and the counter never falls. |
| ApiSession.NoScoreBeforeSixthFrame | apifinal.py:198-207 | From a fresh session, nothing is scored while the gate is closed. At most |frames| - 5 frames are scored. |
| ApiSession.SixVisibleFramesOpenGate | apifinal.py:198-207 | Consecutive all-visible frames extend the run one by one, and six of them open the gate. |
| ApiSession.Tips | apifinal.py:241-257 | Each exercise has three distinct tips. |
| ApiSession.Sample2 | apifinal.py:265 | Two different tips, both taken from the list. |
| ApiSession.Sample2Covers | apifinal.py:265 | Every ordered pair of different tips is some choice of `Sample2`. |
| ApiSession.PoseTrainerSession.constructor | apifinal.py:142-166 | The counter of the exercise with the counter classes' defaults, fresh state, no scores, gate closed. |
| ApiSession.PoseTrainerSession.Open | apifinal.py:142-154 | Fails, building nothing, exactly when `Normalize` refuses the name. Otherwise returns a fresh session for that exercise and target. |
| ApiSession.PoseTrainerSession.Update | apifinal.py:188-207 | The new session state is `Advance` of the old. |
| ApiSession.PoseTrainerSession.ScoreFrame | apifinal.py:209-234 | The new scoring state is `Scoring.ScoreFrame` of the old. |
| ApiSession.PoseTrainerSession.GenerateReport | apifinal.py:236-266 | Completed reps are at most the target and at most the counter. They equal the counter when it has not passed the target, and the target when it has. Each mean is `Mean` of its scores, that is sum / max(1, len): 0 for no scores and in [0, 100] while the scores are. The report carries two different tips of the exercise. |
| ApiSession.PoseTrainerSession.HandleFrame | apifinal.py:291-313 | The session is updated. A report is produced exactly when the counter has reached the target. When the target is reached from below, completed reps equal the counter and the target. |
| MainApp.ParseChoice | main.py:132-157 | Success exactly for the stripped, lower-cased choices curl, squat and press, each mapped to its exercise. |
| MainApp.ChoiceNarrowerThanSession | main.py:135-157 | Every choice the app accepts, the session accepts as the same exercise. "bicep_curl" is accepted only by the session. |
| MainApp.ConfigMatchesCounterDefaults | main.py:137-155 | The config thresholds the app passes equal the counter classes' defaults used by the session, and always have a hysteresis gap. |
| MainApp.Advance | main.py:167-297 | Before the start, no pose resets `ready_frames`. A pose extends the run when the 9 key landmarks are visible and resets it otherwise; the gate opens exactly at six. After the start, a frame with no pose changes nothing at all. A frame is scored exactly when it has a pose and the gate is open after it, including the opening frame. |
| MainApp.LoopStopsAtTarget | main.py:294-295 | Started below the target, the loop ends with the counter at most the target. So clamping the printed count to the target, as the session's report does, would leave it unchanged. |
| MainApp.NegativeTargetUnclamped | main.py:294-301 | With a negative target, the count the app prints is above the target, while a clamp to the target gives the target. |
| MainApp.LoopIsFeedUntilDone | main.py:339-371 | The loop equals the frame-by-frame step over a prefix of the frames: it ends right after the first frame at which the counter has reached the target on a scored frame, or after all frames when there is none. |
| MainApp.FeedCons | main.py:339-371 | Feeding frames one at a time equals advancing by the first and feeding the rest. |
| MainApp.StartGate | main.py:167-202 | No pose resets `ready_frames`. A pose extends the run when the 9 key landmarks are visible and resets it otherwise. `started` becomes true once the run reaches six and is never reset. The scoring state is untouched. |
| MainApp.Loop | main.py:339-371 | Over the frames, `started` never resets and both score lists grow by the same amount. Scores stay in [0, 100] and the counter never falls. |
| MainApp.Done | main.py:294-295 | The loop stops after a scored frame whose counter has reached the target. |
| MainApp.CounterParams | main.py:135-155 | The counter built from the config always has a hysteresis gap and visibility threshold 0.6. It counts on "up" for the curl and on "down" otherwise. |
| MainApp.ExerciseName | main.py:136-150 | "Bicep Curl (Left Arm)", "Squat" and "Shoulder Press". |
| MainApp.AppGateOpensNoLater | main.py:181-202 | On the same frames from a fresh start, the app's gate opens no later than the session's. While the app's gate is closed, the session's is too, and its run of ready frames is no longer than the app's. |
| MainApp.PoseLossAfterStart | main.py:217-226 | After the start, a lost pose leaves the app's state unchanged but resets the session's `ready_frames`. |
| MainApp.PoseLostStatus | main.py:217-226 | The frame proceeds exactly when it has a pose. |
| MainApp.PoseTrainerApp.constructor | main.py:24-55 | Gate closed, no scores, and a fresh counter built with the config thresholds of the choice. |
| MainApp.PoseTrainerApp.Setup | main.py:131-157 | Fails, building nothing, exactly when `ParseChoice` refuses. Otherwise returns a fresh app for that exercise and target. |
| MainApp.PoseTrainerApp.HandleStartGate | main.py:167-214 | The new state is the key-landmark gate step. It reports "started" exactly when a pose arrived and six ready frames were reached. |
| MainApp.PoseTrainerApp.ProcessFrameAfterStart | main.py:229-297 | The new scoring state is `Scoring.ScoreFrame` of the old. It reports "done" exactly when the counter has reached the target. |
| MainApp.PoseTrainerApp.FinalReport | main.py:300-310 | The raw, unclamped counter is reported. Each mean is `Mean` of its scores, that is sum / max(1, len): 0 for no scores and in [0, 100] while the scores are. |
| MainApp.PoseTrainerApp.Run | main.py:332-377 | The final state is `Loop` over the frames: the per-frame `Advance`, stopping at the first frame that reaches the target. When started below the target, the printed count never passes it. |

## Left out

- The pose estimator (`src/pose_tracker.py`) and mediapipe: a frame is given as an optional list of landmarks.
- `calculate_angle` and `to_pixel` (`src/utils.py`) use floating-point trigonometry and truncation. The joint angle and the torso angle are inputs of each frame. The points they are taken from are modelled (`Scoring.GetPoints`, `Scoring.TorsoPoints`).
- Floating point in general: all quantities are exact reals, with no IEEE rounding.
- `round(..., 1)` in the report and the live message: the means are reported unrounded.
- The exact output of `random.sample`: the random choice is a parameter `pick`, and every pair of distinct tips is reachable.
- The camera, windows, drawing, `waitKey` and the 'q' key that ends the app's loop early: the app's frames are a finite sequence, and running out of frames ends the loop.
- The `input()` prompts and `int()` conversion of the target: the typed choice and the target are parameters, and a target that is not a number is not modelled.
- The printed report text and the app's four printed suggestions per exercise. The values the report prints are modelled.
- The FastAPI app, the websocket loop, JSON framing and `cv2.imdecode`: only the per-frame update and the finish condition are modelled.
- `load_reference_targets`, `DEFAULT_REF` and `PoseConfig`: file input and settings that the scoring never reads.
- `_last_lm`: it is stored but never read.
- Text.Lower: lower-cases only ASCII letters. Python's `str.lower` also maps other Unicode letters, which matters only for names that are refused either way.
