/**
 * The two setters of the clock in interlinq/components/clock.py that a
 * computing host calls: stop_clock, which raises the stop flag, and respond,
 * which counts one response for the current tick. The tick loop itself runs
 * one thread per host per tick and is not part of this model.
 */
module Clocks {

  class Clock {
    var stop: bool
    var response: nat

    constructor ()
      ensures !stop && response == 0
    {
      stop := false;
      response := 0;
    }

    /** Stops the ticking; the response count is left alone. */
    method StopClock()
      modifies this
      ensures stop && response == old(response)
    {
      stop := true;
    }

    /** Counts one more response for the current tick. */
    method Respond()
      modifies this
      ensures response == old(response) + 1 && stop == old(stop)
    {
      response := response + 1;
    }
  }
}
