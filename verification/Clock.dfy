/** Durations in the service's own unit, nanoseconds.  An instant is an unbounded integer
    number of nanoseconds. */
module Clock {
  type Time = int

  const SECOND: int := 1_000_000_000
  const MINUTE: int := 60 * SECOND
  const HOUR: int := 60 * MINUTE
  const DAY: int := 24 * HOUR
}
