# picar drive: a Dafny model of the two-wheel motor driver

This project models `drive.py` of a small Raspberry Pi car. A `Wheel` drives one
motor through three GPIO output pins: direction A, direction B and enable.
`forward` raises enable and A. `reverse` raises enable and B. `stop` lowers all three.
A `Car` owns a front-left and a front-right wheel. It turns four maneuvers
(forward, reverse, turn right, turn left) into a fixed sequence:

1. set both wheels;
2. sleep for the requested length;
3. stop both wheels.

`main` wires the wheels to BCM pins (14, 15, 18) and (17, 27, 22). It then drives
forward for 3 seconds and in reverse for 3 seconds.

Modules, one per component:

- `Gpio` (gpio.dfy) stands for the platform. `Board` holds the level of every configured
  output pin as a `map<int, bool>`. Its `Output` method is `GPIO.output`. Its `Sleep`
  method is `time.sleep`: it changes no pin and appends a `Snapshot` of the pin
  levels to the board's `holds` log. Properties of "what is driven during the
  hold" are stated on those snapshots.
- `Wheels` (wheel.dfy) gives the effect of each wheel command on the pin table
  (`Apply`), the effect of a series of commands (`Run`) and lemmas about them.
  It also holds the class `Wheel`, whose methods write the board's pins in the
  source's order and are proved to produce `Apply` of the old table.
- `Cars` (car.dfy) gives the pin table at a maneuver's hold (`HoldLevels`) and after it
  (`Finish`), and the effect of a series of maneuvers (`Perform`). It also holds the class
  `Car`, whose four maneuver methods are proved against these functions.
- `Demo` (demo.dfy) is `main`.

The direction-overlap defect is kept as written. `forward` and `reverse` never
clear the opposite direction pin. So `reverse` followed by `forward` with no `stop`
in between leaves A and B both high (`Wheels.ReverseThenForwardOverlaps`, and its
general form `Wheels.RunSignals`). Every maneuver ends by stopping both wheels.
So when a car's two wheels are on six different pins (`Cars.Separate`), every hold
after its first drives exactly the maneuver's directions (`Cars.LaterHoldsExact`).
Such a car can still carry an overlap into its first hold when a wheel was left
running beforehand (`Cars.StaleReverseOverlaps`). When the wheels share pins, the
overlap can occur in any hold. For example, a car given the same wheel twice
reverses and then drives forward that wheel in every turn
(`Cars.SameWheelTurnOverlaps`).

A wheel's three pins need not be distinct, and two wheels need not use
different pins: the source demands neither. The lemmas that need these facts
require them (`WheelPins.Distinct`, `Cars.Separate`). The reference wiring has both
(`Demo.WiringSeparate`).

## Model

| member | source | states |
|---|---|---|
| `Wheels.Apply` | drive.py:20-31 | forward writes exactly enable and A, both high; reverse writes exactly enable and B, both high; stop writes exactly enable, A and B, all low; every other pin keeps its level |
| `Wheels.StopIdempotent` | drive.py:28-31 | stop leaves enable, A and B low whatever the prior state, so a second stop changes nothing |
| `Wheels.DirectionKeepsOpposite` | drive.py:20-26 | on three distinct pins, forward leaves B at its prior level and reverse leaves A at its prior level |
| `Wheels.DriveFromIdle` | drive.py:20-31 | on three distinct pins, from the stopped state, forward yields (enable, A, B) = (1, 1, 0), reverse (1, 0, 1), stop (0, 0, 0) |
| `Wheels.ReverseThenForwardOverlaps` | drive.py:20-26 | on three distinct pins, from the stopped state, reverse then forward with no stop leaves enable, A and B all high |
| `Wheels.Run` | drive.py:20-31 | any series of commands to one wheel keeps the set of configured pins and leaves every pin outside the wheel's three unchanged |
| `Wheels.RunSignals` | drive.py:20-31 | on three distinct pins, from the stopped state, after any series of commands, enable is high iff a command was issued since the last stop, A iff a forward was, and B iff a reverse was; so A and B are both high exactly when both directions were issued with no stop between |
| `Wheels.Wheel.constructor` | drive.py:7-13 | the wheel keeps its A, B and enable pin numbers and the board they are configured on |
| `Wheels.Wheel.Forward` | drive.py:20-22 | the board's pin table becomes `Apply(old table, pins, Forward)`; nothing is logged as a hold |
| `Wheels.Wheel.Reverse` | drive.py:24-26 | the board's pin table becomes `Apply(old table, pins, Reverse)`; nothing is logged as a hold |
| `Wheels.Wheel.Stop` | drive.py:28-31 | the board's pin table becomes `Apply(old table, pins, Stop)`; nothing is logged as a hold |
| `Cars.HoldLevels` | drive.py:41-71 | the hold writes only the six wheel pins and keeps the set of configured pins |
| `Cars.Finish` | drive.py:41-71 | after any maneuver both wheels have enable, A and B low, whatever they were doing before, and every other pin is as it was before the maneuver |
| `Cars.ManeuverHold` | drive.py:41-71 | with both wheels stopped on six different pins, the hold drives forward/forward, reverse/reverse, forward/reverse (turn right) or reverse/forward (turn left) for front-left/front-right, each exactly |
| `Cars.StaleReverseOverlaps` | drive.py:41-47 | with the wheels on six different pins, a front-right wheel left in reverse before a forward maneuver is driven with enable, A and B all high during the hold |
| `Cars.SameWheelTurnOverlaps` | drive.py:57-71 | a car given the same wheel as front-left and front-right drives that wheel with enable, A and B all high during every turn_right and turn_left hold, whatever the table before |
| `Cars.Perform` | drive.py:41-71 | any series of maneuvers keeps the configured pins and touches no pin outside the six wheel pins |
| `Cars.LaterHoldsExact` | drive.py:41-71 | in any series of maneuvers on six different pins, every hold after the first drives exactly that maneuver's directions, whatever the wheels did before the series |
| `Cars.Car.constructor` | drive.py:36-39 | the car keeps the two wheels, which share one board |
| `Cars.Car.Forward` | drive.py:41-47 | the pin table becomes `Finish` of the old table, and one snapshot of length `length` holding `HoldLevels` of the old table is logged |
| `Cars.Car.Reverse` | drive.py:49-55 | as for Forward, with the reverse maneuver |
| `Cars.Car.TurnRight` | drive.py:57-63 | as for Forward, with the turn-right maneuver, front-right wheel commanded first |
| `Cars.Car.TurnLeft` | drive.py:65-71 | as for Forward, with the turn-left maneuver |
| `Demo.WiringSeparate` | drive.py:78-79 | the reference wiring puts the two wheels on six different pins |
| `Demo.DemoTables` | drive.py:78-84 | with the reference wiring, the reverse hold that follows the forward maneuver drives both wheels exactly in reverse from any starting table; the forward hold drives both exactly forward when the wheels start stopped |
| `Demo.RunDemo` | drive.py:74-84 | the demo ends with all six wheel pins low and every other pin unchanged; it keeps the log's earlier entries and appends exactly two 3-second holds, the forward hold of the starting table and then the reverse hold of the table the forward maneuver left; the second drives both wheels exactly in reverse; the first drives both exactly forward when the wheels start stopped |

## Left out

- `GPIO.setup` (drive.py:16-18), `GPIO.setmode` and `GPIO.setwarnings` (drive.py:75-76): these are hardware configuration calls into the GPIO library. The model assumes instead that a wheel's pins are already configured outputs of the board (`Wheels.Wheel.constructor` requires it). `GPIO.output` on an unconfigured pin is excluded by `Gpio.Board.Output`'s precondition.
- The level a pin has right after configuration is not modelled. The board starts from any given table.
- `time.sleep` (drive.py:45, 53, 61, 69): the model keeps no real time. The length is an unvalidated `real` that is only recorded in the hold snapshot.
- `Cars.Car.Forward`, `Cars.Car.Reverse`, `Cars.Car.TurnRight`, `Cars.Car.TurnLeft`: do not model that `time.sleep` raises an exception for a negative length, which would leave both wheels driven. The length is treated as an opaque value and every maneuver is modelled as reaching its stops.
- The `if __name__ == "__main__"` entry (drive.py:87-88): process plumbing.
- An infrared obstacle sensor and a reactive avoidance loop with random turn lengths: `drive.py` has neither, so the model has neither.
