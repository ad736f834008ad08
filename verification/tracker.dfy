/** The tracker thread's loop as a sequential process: each iteration is one
    tick, and the random displacements are supplied by the caller. */
module Tracking {
  import opened DroneSpec
  import opened Drones
  import DroneLemmas

  datatype Option<T> = None | Some(value: T)

  /** What one tick publishes to the display: updateDronePosition(x, y, battery). */
  datatype Update = Update(x: Int32, y: Int32, battery: real)

  function Snapshot(s: DroneState): Update {
    Update(s.x, s.y, s.battery)
  }

  class DroneTrackerThread {
    const drone: Drone
    var running: bool

    constructor (d: Drone)
      ensures drone == d && running
    {
      drone := d;
      running := true;
    }

    method StopTracking()
      modifies this
      ensures !running
    {
      running := false;
    }

    /** The body of the tracker loop with the two random draws as `o`. */
    method Tick(o: Offset) returns (update: Option<Update>)
      requires ValidOffset(o) && drone.Valid()
      modifies drone
      ensures drone.Valid()
      ensures drone.State() == DroneSpec.Tick(old(drone.State()), o)
      ensures drone.sensors == old(drone.sensors)
      ensures update == if old(drone.isFlying) then Some(Snapshot(drone.State())) else None
    {
      update := None;
      if drone.isFlying {
        var newX := Wrap32(drone.x + o.dx);
        var newY := Wrap32(drone.y + o.dy);
        drone.MoveTo(newX, newY);
        drone.ReduceBattery(TickDrain);
        update := Some(Update(newX, newY, drone.batteryLevel));
      }
    }

    /** The loop `while (running)` for |offsets| iterations: a stopped tracker
        does nothing; a running one applies every tick and publishes one update
        per tick while the drone flies. */
    method Run(offsets: seq<Offset>) returns (updates: seq<Update>)
      requires ValidOffsets(offsets) && drone.Valid()
      modifies drone
      ensures drone.Valid()
      ensures drone.State() == if running then Ticks(old(drone.State()), offsets) else old(drone.State())
      ensures drone.sensors == old(drone.sensors)
      ensures |updates| == if running && old(drone.isFlying) then |offsets| else 0
      ensures forall k :: 0 <= k < |updates| ==>
                updates[k] == Snapshot(Ticks(old(drone.State()), offsets[..k + 1]))
      ensures running && old(drone.isFlying) ==>
                drone.batteryLevel == Drain(old(drone.batteryLevel), TickDrain * |offsets| as real)
    {
      ghost var start := drone.State();
      updates := [];
      var i := 0;
      while running && i < |offsets|
        invariant 0 <= i <= |offsets|
        invariant running ==> ValidOffsets(offsets[..i]) && drone.State() == Ticks(start, offsets[..i])
        invariant !running ==> i == 0 && drone.State() == start
        invariant drone.sensors == old(drone.sensors) && drone.Valid()
        invariant |updates| == if start.flying then i else 0
        invariant forall k :: 0 <= k < |updates| ==>
                    updates[k] == Snapshot(Ticks(start, offsets[..k + 1]))
      {
        assert offsets[..i + 1][..i] == offsets[..i];
        assert ValidOffsets(offsets[..i + 1]);
        ghost var next := Ticks(start, offsets[..i + 1]);
        assert next == DroneSpec.Tick(Ticks(start, offsets[..i]), offsets[i]);
        var update := Tick(offsets[i]);
        if update.Some? {
          assert update.value == Snapshot(next);
          updates := updates + [update.value];
        }
        i := i + 1;
      }
      assert running ==> offsets[..i] == offsets;
      if running && start.flying {
        DroneLemmas.BatteryAfterTicks(start, offsets);
      }
    }
  }
}
