/** The constants of config.py that the modelled code reads. */
module Config {

  const DEFAULT_SAMPLERATE: int := 44100
  const DEFAULT_CHANNELS: int := 1
  const DEFAULT_THRESHOLD: real := 0.01
  const DEFAULT_SILENCE_TIMEOUT: real := 1.0
  const DEFAULT_OUTPUT_DIR: string := "recordings"

  const LEVEL_MIN: real := 0.0
  const LEVEL_MAX: real := 1.0
  const THRESHOLD_MIN: real := 0.001
  const THRESHOLD_MAX: real := 0.5

  /** Number of points kept in the level history of the meter. */
  const LEVEL_HISTORY: nat := 100
}
