/**
 * Time as the coordinator sees it (internal/providerquery/clock.go).
 * An instant is an integer count of nanoseconds; durations are differences of instants.
 */
module Clock {

  type Time = int
  type Duration = int

  /** Go's zero `time.Time{}`, which a cache miss reports as its expiry. */
  const ZeroTime: Time := 0

  const Second: Duration := 1_000_000_000

  /**
   * The clocks the coordinator is built with: the wall clock of production
   * (`standardClock`) and the preset clock of the tests (`fixedClock`).
   */
  datatype Clock = StandardClock | FixedClock(now: Time)

  /** What `Now()` answers when the wall clock reads `wall`. */
  function Now(c: Clock, wall: Time): (t: Time)
    ensures c.FixedClock? ==> t == c.now
    ensures c.StandardClock? ==> t == wall
  {
    match c
    case StandardClock => wall
    case FixedClock(t) => t
  }

  /** `a.After(b)`: `a` is strictly later than `b`. */
  predicate After(a: Time, b: Time)
  {
    a > b
  }
}
