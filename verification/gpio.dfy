/** The digital I/O platform the controller drives: the output latches of the
    board's GPIO pins (the RPi.GPIO library) and the blocking sleep (time.sleep).
    A sleep has no effect on the pins; it records what the pins held while it
    lasted, so that properties of a maneuver's hold can be stated. */
module Gpio {

  /** Output level of every pin configured as an output, by BCM pin number;
      true is high (1), false is low (0). */
  type Levels = map<int, bool>

  /** What one sleep records: the requested duration in seconds and the pin
      levels driven for all of it. */
  datatype Snapshot = Snapshot(length: real, levels: Levels)

  class Board {
    var levels: Levels
    var holds: seq<Snapshot>

    /** A board whose configured output pins hold the given levels. */
    constructor (configured: Levels)
      ensures levels == configured
      ensures holds == []
    {
      levels := configured;
      holds := [];
    }

    /** GPIO.output: drive one configured output pin to a level. */
    method Output(pin: int, level: bool)
      requires pin in levels
      modifies this
      ensures levels == old(levels)[pin := level]
      ensures holds == old(holds)
    {
      levels := levels[pin := level];
    }

    /** time.sleep: block for `length` seconds; the pins keep their levels. */
    method Sleep(length: real)
      modifies this
      ensures levels == old(levels)
      ensures holds == old(holds) + [Snapshot(length, levels)]
    {
      holds := holds + [Snapshot(length, levels)];
    }
  }
}
