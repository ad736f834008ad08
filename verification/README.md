# Simulated drone: state machine and tracker tick

A Dafny model of the simulation core of the Autonomous Drone Control and Object
Tracking System, a Swing toy. The core is small:

- a `Drone` that holds a battery level, a flying flag, an integer position and a list of sensors;
- its guarded and total mutations `startFlight`, `landDrone`, `moveTo`, `reduceBattery` and `addSensor`;
- the tracker thread's loop body: while the drone flies, move it by a random offset in [-10, 9] on each axis and drain 0.5 battery;
- `Sensor` objects that start active and can be deactivated.

Layout:

- `drone_spec.dfy`, module `DroneSpec`, is the value-level view.
  - `DroneState` is what the accessors `getBatteryLevel`, `isFlying`, `getX` and `getY` expose.
  - Each transition is a function on `DroneState`: `StartFlight` returns a `Result` whose `Err(BatteryTooLow)` is the thrown exception.
  - `Tick` is one tracker iteration; `Ticks` is the loop run for a sequence of offsets.
  - `Wrap32` is Java `int` addition with its two's-complement wrap-around.
- `drone_lemmas.dfy`, module `DroneLemmas`, holds the properties that relate several calls:
  - landing is idempotent;
  - runs of ticks compose;
  - after N ticks the battery is max(0, b - 0.5 N) and the position is the summed offsets;
  - ticks never land the drone;
  - a run of non-negative drains is one drain of their sum.
- `drones.dfy`, module `Drones`, holds the classes `Sensor` and `Drone`.
  - Their fields are updated in place.
  - `Drone.Valid()` is the object invariant (battery never negative): the constructor establishes it and every method keeps it.
  - Every `Drone` method is proved to leave `State()` equal to the matching `DroneSpec` function of the old state, and to leave the sensor list alone unless it appends to it.
- `tracker.dfy`, module `Tracking`, holds the class `DroneTrackerThread`.
  - `Tick` is the loop body. The two random draws arrive as an `Offset` parameter, and the call returns the update it publishes to the display, if any.
  - `Run` is the `while (running)` loop for a given sequence of offsets.

Battery levels are Dafny `real`s. The values the program produces (100, minus multiples of 0.5) are exact in a Java `double`.

Positions are Java `int`s. They are the subset type `Int32`, and the tracker's `getX() + rand.nextInt(20) - 10` is `Wrap32(x + dx)`: wrapping after each of the two Java additions gives the same result as wrapping once (`DroneLemmas.Wrap32Add`).

## Model

| member | source | states |
|---|---|---|
| `DroneSpec.Wrap32` | AutonomousDroneControlSystem.java:131-132 | the result is a 32-bit int congruent to the sum modulo 2^32, and equals it when the sum is in range |
| `DroneSpec.StartFlight` | AutonomousDroneControlSystem.java:88-94 | fails with BatteryTooLow if and only if battery < 20; on success the drone flies and battery and position are unchanged |
| `DroneSpec.Land` | AutonomousDroneControlSystem.java:96-99 | the drone is not flying; battery and position are unchanged |
| `DroneSpec.MoveTo` | AutonomousDroneControlSystem.java:101-105 | the position is exactly the target; battery and flag are unchanged |
| `DroneSpec.Drain` | AutonomousDroneControlSystem.java:107-110 | the level left is the larger of 0 and level - amount, so it is never negative, and a non-negative drain never raises it |
| `DroneSpec.ReduceBattery` | AutonomousDroneControlSystem.java:107-110 | the battery becomes the clamped difference; flag and position are unchanged |
| `DroneSpec.Tick` | AutonomousDroneControlSystem.java:129-135 | not flying: nothing changes; flying: position displaced by (dx, dy) in Java int arithmetic, battery drained by 0.5 with the clamp; the flag is never changed; battery stays in [0, 100] |
| `DroneSpec.Ticks` | AutonomousDroneControlSystem.java:127-136 | any number of ticks keep the flying flag, change nothing on a landed drone and keep the battery in [0, 100] |
| `DroneLemmas.LandIdempotent` | AutonomousDroneControlSystem.java:96-99 | landing twice is landing once; landing a landed drone changes nothing |
| `DroneLemmas.MoveToLastWins` | AutonomousDroneControlSystem.java:101-105 | two moves end where the second one targets |
| `DroneLemmas.StartFlightThenLand` | AutonomousDroneControlSystem.java:88-99 | from the ground, a refused start means battery < 20, and a granted start followed by a landing restores the state |
| `DroneLemmas.Wrap32Add` | AutonomousDroneControlSystem.java:131-132 | wrapping an intermediate int sum does not change the final wrapped value |
| `DroneLemmas.TicksAppend` | AutonomousDroneControlSystem.java:127-136 | running one run of ticks and then another equals running their concatenation |
| `DroneLemmas.TicksPosition` | AutonomousDroneControlSystem.java:129-133 | while flying, the position after N ticks is the start position plus the summed offsets, as Java ints |
| `DroneLemmas.BatteryAfterTicks` | AutonomousDroneControlSystem.java:129-134 | while flying, N ticks leave battery max(0, b - 0.5 N) |
| `DroneLemmas.FreshFlight` | AutonomousDroneControlSystem.java:127-136 | a fresh drone can start; after N ticks it still flies with battery max(0, 100 - 0.5 N) at the summed offsets |
| `DroneLemmas.NoAutoLand` | AutonomousDroneControlSystem.java:127-136 | after 200 or more ticks of a fresh flight the battery is 0 and the drone is still flying |
| `DroneLemmas.DrainSequence` | AutonomousDroneControlSystem.java:107-110 | from a non-negative level, reduceBattery applied to non-negative amounts in turn leaves max(0, level - sum) |
| `DroneLemmas.FirstTick` | AutonomousDroneControlSystem.java:129-135 | the first tick of a fresh flight leaves battery 99.5 and both coordinates in [-10, 9] |
| `Drones.Sensor.constructor` | AutonomousDroneControlSystem.java:26-29 | a new sensor carries its name and is active |
| `Drones.Sensor.Deactivate` | AutonomousDroneControlSystem.java:40-42 | the sensor is inactive afterwards |
| `Drones.Sensor.IsActive` | AutonomousDroneControlSystem.java:36-38 | returns the active flag |
| `Drones.Drone.State` | AutonomousDroneControlSystem.java:63-77 | the battery, flag and position the four accessors return |
| `Drones.Drone.constructor` | AutonomousDroneControlSystem.java:53-60 | battery 100, not flying, at (0, 0), no sensors, the given id; the invariant `Valid()` (battery never negative) holds |
| `Drones.Drone.AddSensor` | AutonomousDroneControlSystem.java:79-81 | the sensor is appended to the list; the drone's state is unchanged; `Valid()` is kept |
| `Drones.Drone.StartFlight` | AutonomousDroneControlSystem.java:88-94 | fails if and only if battery < 20, leaving the state unchanged; otherwise sets the state to `DroneSpec.StartFlight` of the old one; sensors unchanged; `Valid()` is kept |
| `Drones.Drone.LandDrone` | AutonomousDroneControlSystem.java:96-99 | the state becomes `DroneSpec.Land` of the old one; sensors unchanged; `Valid()` is kept |
| `Drones.Drone.MoveTo` | AutonomousDroneControlSystem.java:101-105 | the state becomes `DroneSpec.MoveTo` of the old one; sensors unchanged; `Valid()` is kept |
| `Drones.Drone.ReduceBattery` | AutonomousDroneControlSystem.java:107-110 | the state becomes `DroneSpec.ReduceBattery` of the old one; the battery is non-negative, so `Valid()` holds whatever the amount; a non-negative amount keeps it in [0, 100] |
| `Tracking.DroneTrackerThread.constructor` | AutonomousDroneControlSystem.java:118-122 | the tracker watches the given drone and is running |
| `Tracking.DroneTrackerThread.StopTracking` | AutonomousDroneControlSystem.java:145-147 | the tracker is no longer running |
| `Tracking.DroneTrackerThread.Tick` | AutonomousDroneControlSystem.java:129-135 | the drone's state becomes `DroneSpec.Tick` of the old one; an update carrying the new position and battery is published exactly when the drone was flying; the drone's `Valid()` is kept |
| `Tracking.DroneTrackerThread.Run` | AutonomousDroneControlSystem.java:125-143 | a stopped tracker changes nothing; a running one leaves the drone in `DroneSpec.Ticks` of the old state, and while flying it publishes one update per tick, the k-th being the state after k + 1 ticks, and the battery ends at max(0, b - 0.5 N); the drone's `Valid()` is kept |

## Left out

- The `GUI` class (AutonomousDroneControlSystem.java:151-233) is not modelled. It covers the Swing layout, painting, labels, the error dialog and the button handlers that call `startFlight`/`landDrone` and create or stop a tracker. It is presentation code.
- Thread mechanics are not modelled: `Thread.start`, `Thread.sleep(1000)`, `InterruptedException` and the unsynchronised `running` flag read by another thread. The loop is modelled as a sequential run of a given number of iterations. In it `running` cannot change mid-run, so the race between a land command and the next tick is not captured.
- `java.util.Random` is replaced by the `Offset` parameters, each coordinate in [-10, 9]. Uniformity of the draws is not modelled.
- The console output is not modelled: `System.out.println` in `statusCheck`, `startFlight`, `landDrone`, `moveTo` and the thread, plus `showSensors`, which only prints. `System.exit` and `main` are startup and I/O wiring.
- `DroneComponent` (AutonomousDroneControlSystem.java:10-21) is folded into `Sensor` as its `componentName` field. The abstract `statusCheck` only prints. `getComponentName` is the field itself.
- `Drones.Drone.ReduceBattery` subtracts exactly, as a `real`. It does not model IEEE-754 rounding of the difference: in Java `100.0 - 2^-60` is `100.0`, although `2^-60` is an exact double.
- `Drones.Drone.ReduceBattery` does not model NaN or infinite amounts. A NaN amount passes the clamp (`NaN < 0` is false) and then the flight guard (`NaN < 20` is false), so a Java drone can take off with a NaN battery; an amount of minus infinity gives plus infinity.
- `DroneLemmas.DrainSequence` is therefore a fact about exact arithmetic: in doubles, 2^14 drains of 2^-60 leave 100.0. The tracker only ever drains 0.5 from multiples of 0.5, which is exact, so the tick lemmas hold for the doubles too.
- `DroneLemmas.DrainSequence` is stated only for non-negative amounts. With a negative amount the code raises the battery after an earlier clamp, so "max(0, initial - sum)" does not hold for arbitrary sequences.
