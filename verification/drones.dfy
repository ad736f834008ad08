/** The drone and its sensors as the objects the program mutates in place. */
module Drones {
  import opened DroneSpec

  /** A named on-board sensor; it starts active and can be switched off. */
  class Sensor {
    const componentName: string
    var active: bool

    constructor (name: string)
      ensures componentName == name && active
    {
      componentName := name;
      active := true;
    }

    function IsActive(): (r: bool)
      reads this
      ensures r <==> active
    {
      active
    }

    method Deactivate()
      modifies this
      ensures !active
    {
      active := false;
    }
  }

  class Drone {
    const droneId: string
    var batteryLevel: real
    var isFlying: bool
    var sensors: seq<Sensor>
    var x: Int32
    var y: Int32

    /** The accessors getBatteryLevel, isFlying, getX and getY together. */
    function State(): (r: DroneState)
      reads this
      ensures r.battery == batteryLevel && r.flying == isFlying
      ensures r.x == x && r.y == y
    {
      DroneState(batteryLevel, isFlying, x, y)
    }

    /** The object invariant: the battery is never negative. The constructor
        establishes it and every method keeps it. */
    ghost predicate Valid()
      reads this
    {
      0.0 <= batteryLevel
    }

    constructor (id: string)
      ensures droneId == id && sensors == []
      ensures State() == Initial() && Valid() && BatteryInRange(State())
    {
      droneId := id;
      batteryLevel := FullBattery;
      isFlying := false;
      sensors := [];
      x, y := 0, 0;
    }

    method AddSensor(s: Sensor)
      requires Valid()
      modifies this
      ensures Valid()
      ensures sensors == old(sensors) + [s]
      ensures State() == old(State())
    {
      sensors := sensors + [s];
    }

    /** startFlight; `Err` stands for the exception it throws. */
    method StartFlight() returns (outcome: Result<()>)
      requires Valid()
      modifies this
      ensures Valid()
      ensures outcome.Err? <==> old(batteryLevel) < MinFlightBattery
      ensures match DroneSpec.StartFlight(old(State()))
        case Ok(t) => outcome == Ok(()) && State() == t
        case Err(e) => outcome == Err(e) && State() == old(State())
      ensures sensors == old(sensors)
    {
      if batteryLevel < MinFlightBattery {
        return Err(BatteryTooLow);
      }
      isFlying := true;
      outcome := Ok(());
    }

    method LandDrone()
      requires Valid()
      modifies this
      ensures Valid()
      ensures State() == Land(old(State()))
      ensures sensors == old(sensors)
    {
      isFlying := false;
    }

    method MoveTo(newX: Int32, newY: Int32)
      requires Valid()
      modifies this
      ensures Valid()
      ensures State() == DroneSpec.MoveTo(old(State()), newX, newY)
      ensures sensors == old(sensors)
    {
      x := newX;
      y := newY;
    }

    method ReduceBattery(amount: real)
      modifies this
      ensures State() == DroneSpec.ReduceBattery(old(State()), amount)
      ensures sensors == old(sensors)
      ensures Valid()
      ensures 0.0 <= amount && old(BatteryInRange(State())) ==> BatteryInRange(State())
    {
      batteryLevel := batteryLevel - amount;
      if batteryLevel < 0.0 {
        batteryLevel := 0.0;
      }
    }
  }
}
