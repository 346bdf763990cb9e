/**
 * The web service's configuration record (internal/config/config.go), kept
 * as an object because the HTTP handlers and the gesture service share one
 * instance and the preference handler edits it in place. The floating-point
 * smoothing factor is not part of this model.
 */
module Settings {
  /** 50 ms, as a duration in nanoseconds. */
  const DefaultResetThreshold: int := 50 * 1_000_000

  class Config {
    var minX: int
    var maxX: int
    var minY: int
    var maxY: int
    var twoFingerKey: int
    var fourFingerKey: int
    var warmUpCount: int
    var mouseDeltaFactor: int
    var resetThreshold: int
    var preferredKeyboard: string
    var preferredMouse: string

    /** DefaultConfig. */
    constructor Default()
      ensures minX == 0 && maxX == 32767 && minY == 0 && maxY == 32767
      ensures twoFingerKey == 184 && fourFingerKey == 183
      ensures warmUpCount == 10 && mouseDeltaFactor == 15 && resetThreshold == DefaultResetThreshold
      ensures preferredKeyboard == "" && preferredMouse == ""
    {
      minX, maxX, minY, maxY := 0, 32767, 0, 32767;
      twoFingerKey, fourFingerKey := 184, 183;
      warmUpCount, mouseDeltaFactor, resetThreshold := 10, 15, DefaultResetThreshold;
      preferredKeyboard, preferredMouse := "", "";
    }
  }
}
