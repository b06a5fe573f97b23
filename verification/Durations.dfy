/** Durations are integers in nanoseconds, as time.Duration counts them. */
module Durations {
  const SECOND: int := 1_000_000_000
}
