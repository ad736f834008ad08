/** Value-level view of the simulated drone: its observable state (battery,
    flight flag, position) and one function per state transition. The classes
    in module Drones and Tracking are proved to change their fields exactly as
    these functions say. */
module DroneSpec {

  /** Battery level a new drone is built with. */
  const FullBattery: real := 100.0
  /** startFlight refuses to take off when the battery is below this level. */
  const MinFlightBattery: real := 20.0
  /** Battery drained by one tracker tick while flying. */
  const TickDrain: real := 0.5
  /** A tick offset is `rand.nextInt(OffsetSpan) + OffsetLow`, an integer in [-10, 9]. */
  const OffsetLow: int := -10
  const OffsetSpan: int := 20

  const TwoTo31: int := 0x8000_0000
  const TwoTo32: int := 0x1_0000_0000

  /** A Java `int`. */
  type Int32 = v: int | -0x8000_0000 <= v < 0x8000_0000

  /** Java `int` arithmetic: the mathematical value reduced into the 32-bit
      range (two's-complement wrap-around). */
  function Wrap32(v: int): (r: Int32)
    ensures (r - v) % TwoTo32 == 0
    ensures -TwoTo31 <= v < TwoTo31 ==> r == v
  {
    (v + TwoTo31) % TwoTo32 - TwoTo31
  }

  /** What the drone exposes through getBatteryLevel, isFlying, getX and getY. */
  datatype DroneState = DroneState(battery: real, flying: bool, x: Int32, y: Int32)

  /** The one exception the drone raises: "Battery too low to start flight!". */
  datatype FlightError = BatteryTooLow

  datatype Result<T> = Ok(value: T) | Err(error: FlightError)

  /** The random displacement of one tracker tick. */
  datatype Offset = Offset(dx: int, dy: int)

  predicate IsOffset(d: int) {
    OffsetLow <= d < OffsetLow + OffsetSpan
  }

  predicate ValidOffset(o: Offset) {
    IsOffset(o.dx) && IsOffset(o.dy)
  }

  predicate ValidOffsets(offsets: seq<Offset>) {
    forall i :: 0 <= i < |offsets| ==> ValidOffset(offsets[i])
  }

  /** The state of a freshly constructed drone. */
  function Initial(): DroneState {
    DroneState(FullBattery, false, 0, 0)
  }

  predicate BatteryInRange(s: DroneState) {
    0.0 <= s.battery <= FullBattery
  }

  predicate SameBatteryAndPosition(a: DroneState, b: DroneState) {
    a.battery == b.battery && a.x == b.x && a.y == b.y
  }

  /** startFlight: refused below MinFlightBattery, otherwise only the flag is set. */
  function StartFlight(s: DroneState): (r: Result<DroneState>)
    ensures r.Err? <==> s.battery < MinFlightBattery
    ensures r.Err? ==> r.error == BatteryTooLow
    ensures r.Ok? ==> r.value.flying && SameBatteryAndPosition(r.value, s)
  {
    if s.battery < MinFlightBattery then Err(BatteryTooLow) else Ok(s.(flying := true))
  }

  /** landDrone: clears the flag, whatever it was. */
  function Land(s: DroneState): (r: DroneState)
    ensures !r.flying && SameBatteryAndPosition(r, s)
  {
    s.(flying := false)
  }

  /** moveTo: absolute, unconditional position set. */
  function MoveTo(s: DroneState, newX: Int32, newY: Int32): (r: DroneState)
    ensures r.x == newX && r.y == newY
    ensures r.battery == s.battery && r.flying == s.flying
  {
    s.(x := newX, y := newY)
  }

  /** The battery level left after subtracting `amount` with the clamp at 0:
      the larger of 0 and `level - amount`. */
  function Drain(level: real, amount: real): (r: real)
    ensures 0.0 <= r && level - amount <= r
    ensures r == 0.0 || r == level - amount
    ensures 0.0 <= level && 0.0 <= amount ==> r <= level
  {
    var left := level - amount;
    if left < 0.0 then 0.0 else left
  }

  /** reduceBattery: only the battery changes. */
  function ReduceBattery(s: DroneState, amount: real): (r: DroneState)
    ensures r.battery == Drain(s.battery, amount)
    ensures r.flying == s.flying && r.x == s.x && r.y == s.y
  {
    s.(battery := Drain(s.battery, amount))
  }

  /** One iteration of the tracker loop: when flying, moveTo the displaced
      position (Java int arithmetic) and reduceBattery(TickDrain); otherwise
      nothing happens. */
  function Tick(s: DroneState, o: Offset): (r: DroneState)
    requires ValidOffset(o)
    ensures r.flying == s.flying
    ensures !s.flying ==> r == s
    ensures s.flying ==> r.x == Wrap32(s.x + o.dx) && r.y == Wrap32(s.y + o.dy)
    ensures s.flying ==> r.battery == Drain(s.battery, TickDrain)
    ensures BatteryInRange(s) ==> BatteryInRange(r)
  {
    if s.flying then ReduceBattery(MoveTo(s, Wrap32(s.x + o.dx), Wrap32(s.y + o.dy)), TickDrain)
    else s
  }

  /** The tracker loop run for |offsets| iterations, one offset per iteration. */
  function Ticks(s: DroneState, offsets: seq<Offset>): (r: DroneState)
    requires ValidOffsets(offsets)
    ensures r.flying == s.flying
    ensures !s.flying ==> r == s
    ensures BatteryInRange(s) ==> BatteryInRange(r)
    decreases |offsets|
  {
    if offsets == [] then s
    else Tick(Ticks(s, offsets[..|offsets| - 1]), offsets[|offsets| - 1])
  }

  /** reduceBattery called once per amount, in order. */
  function DrainAll(level: real, amounts: seq<real>): real
    decreases |amounts|
  {
    if amounts == [] then level
    else Drain(DrainAll(level, amounts[..|amounts| - 1]), amounts[|amounts| - 1])
  }

  function Sum(amounts: seq<real>): real
    decreases |amounts|
  {
    if amounts == [] then 0.0 else Sum(amounts[..|amounts| - 1]) + amounts[|amounts| - 1]
  }

  /** Total horizontal and vertical displacement of a run of offsets. */
  function SumDx(offsets: seq<Offset>): int
    decreases |offsets|
  {
    if offsets == [] then 0 else SumDx(offsets[..|offsets| - 1]) + offsets[|offsets| - 1].dx
  }

  function SumDy(offsets: seq<Offset>): int
    decreases |offsets|
  {
    if offsets == [] then 0 else SumDy(offsets[..|offsets| - 1]) + offsets[|offsets| - 1].dy
  }
}
