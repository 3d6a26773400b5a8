/** The wall clock the scraper reads with `time.time()` and waits on with
    `time.sleep`, as an abstract object whose reading only moves forward. */
module Clocks {

  class Clock {
    /** The current reading of `time.time()`, in seconds. */
    var now: real

    constructor (start: real)
      ensures now == start
    {
      now := start;
    }

    /** Lets `d` seconds pass: a `time.sleep(d)`, or the time a blocking call takes. */
    method Advance(d: real)
      requires d >= 0.0
      modifies this
      ensures now == old(now) + d
    {
      now := now + d;
    }
  }
}
