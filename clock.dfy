/** The system clock collaborator (`ISystemClock`): only the `Now` property the code reads. */
module SystemClock {

  /** An instant in time; the internals of `DateTime` are not modelled. */
  type Instant = int

  /**
   * A clock whose `Now` property is the field `now`. Callers move it on with `Set`,
   * as the tests stub `Now` to return a chosen date.
   */
  class Clock {
    var now: Instant

    constructor (start: Instant)
      ensures now == start
    {
      now := start;
    }

    method Set(t: Instant)
      modifies this
      ensures now == t
    {
      now := t;
    }
  }
}
