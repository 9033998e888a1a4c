/** The per-exercise default thresholds of `src/config.py`. `PoseConfig` (detector
    confidences and the camera index) configures the pose estimator and the camera,
    which are not part of this model. */
module Config {

  /** The fields shared by `CurlConfig`, `SquatConfig` and `ShoulderPressConfig`. */
  datatype CounterConfig = CounterConfig(upAngle: real, downAngle: real, visibilityThreshold: real)

  /** The visibility every exercise requires of its tracked joint. */
  const DefaultVisibility: real := 0.6

  /** `CurlConfig()`: the elbow is "up" at a small angle and "down" at a large one,
      so the up threshold lies below the down threshold, leaving a hysteresis gap. */
  function CurlConfig(): (c: CounterConfig)
    ensures c.upAngle < c.downAngle
    ensures 0.0 <= c.upAngle && c.downAngle <= 180.0
    ensures c.visibilityThreshold == DefaultVisibility
  {
    CounterConfig(30.0, 160.0, 0.6)
  }

  /** `SquatConfig()`: standing (up) is the large knee angle, so up lies above down. */
  function SquatConfig(): (c: CounterConfig)
    ensures c.downAngle < c.upAngle
    ensures 0.0 <= c.downAngle && c.upAngle <= 180.0
    ensures c.visibilityThreshold == DefaultVisibility
  {
    CounterConfig(165.0, 95.0, 0.6)
  }

  /** `ShoulderPressConfig()`: arms overhead (up) is the large angle, so up lies above down. */
  function ShoulderPressConfig(): (c: CounterConfig)
    ensures c.downAngle < c.upAngle
    ensures 0.0 <= c.downAngle && c.upAngle <= 180.0
    ensures c.visibilityThreshold == DefaultVisibility
  {
    CounterConfig(170.0, 80.0, 0.6)
  }
}
