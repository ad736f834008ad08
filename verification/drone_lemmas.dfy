/** Properties of the drone's transitions that relate several calls: landing
    twice, a run of tracker ticks, a run of battery drains. */
module DroneLemmas {
  import opened DroneSpec

  /** Landing an already landed drone changes nothing. */
  lemma LandIdempotent(s: DroneState)
    ensures Land(Land(s)) == Land(s)
    ensures !s.flying ==> Land(s) == s
  {
  }

  /** moveTo is absolute: only the last target of two moves matters. */
  lemma MoveToLastWins(s: DroneState, x1: Int32, y1: Int32, x2: Int32, y2: Int32)
    ensures MoveTo(MoveTo(s, x1, y1), x2, y2) == MoveTo(s, x2, y2)
  {
  }

  /** A refused start leaves the state exactly as it was; a granted one can be
      undone by landing when the drone was on the ground. */
  lemma StartFlightThenLand(s: DroneState)
    requires !s.flying
    ensures match StartFlight(s)
      case Err(_) => s.battery < MinFlightBattery
      case Ok(t) => Land(t) == s
  {
  }

  /** Wrapping an intermediate result does not change the final Java int. */
  lemma Wrap32Add(v: int, d: int)
    ensures Wrap32(Wrap32(v) + d) == Wrap32(v + d)
  {
  }

  /** Running `a` then `b` is running `a + b`. */
  lemma {:induction false} TicksAppend(s: DroneState, a: seq<Offset>, b: seq<Offset>)
    requires ValidOffsets(a) && ValidOffsets(b)
    ensures ValidOffsets(a + b)
    ensures Ticks(Ticks(s, a), b) == Ticks(s, a + b)
    decreases |b|
  {
    assert ValidOffsets(a + b);
    if b == [] {
      assert a + b == a;
    } else {
      var n := |b| - 1;
      TicksAppend(s, a, b[..n]);
      assert (a + b)[..|a + b| - 1] == a + b[..n];
      assert (a + b)[|a + b| - 1] == b[n];
    }
  }

  /** While flying, the position after a run of ticks is the start position
      displaced by the summed offsets, as Java int arithmetic. */
  lemma {:induction false} TicksPosition(s: DroneState, offsets: seq<Offset>)
    requires ValidOffsets(offsets) && s.flying
    ensures Ticks(s, offsets).x == Wrap32(s.x + SumDx(offsets))
    ensures Ticks(s, offsets).y == Wrap32(s.y + SumDy(offsets))
    decreases |offsets|
  {
    if offsets != [] {
      var n := |offsets| - 1;
      var o := offsets[n];
      TicksPosition(s, offsets[..n]);
      Wrap32Add(s.x + SumDx(offsets[..n]), o.dx);
      Wrap32Add(s.y + SumDy(offsets[..n]), o.dy);
    }
  }

  /** While flying, N ticks drain the battery like one drain of N * TickDrain:
      the battery ends at max(0, b - 0.5 * N). */
  lemma {:induction false} BatteryAfterTicks(s: DroneState, offsets: seq<Offset>)
    requires ValidOffsets(offsets) && s.flying && 0.0 <= s.battery
    ensures Ticks(s, offsets).battery == Drain(s.battery, TickDrain * |offsets| as real)
    decreases |offsets|
  {
    if offsets != [] {
      var n := |offsets| - 1;
      BatteryAfterTicks(s, offsets[..n]);
      assert |offsets[..n]| == n;
    }
  }

  /** From a fresh drone that has started its flight, N ticks leave it
      flying with battery max(0, 100 - 0.5 * N) at the summed offsets. */
  lemma FreshFlight(offsets: seq<Offset>)
    requires ValidOffsets(offsets)
    ensures StartFlight(Initial()).Ok?
    ensures var t := Ticks(StartFlight(Initial()).value, offsets);
      && t.flying
      && t.battery == Drain(FullBattery, TickDrain * |offsets| as real)
      && t.x == Wrap32(SumDx(offsets)) && t.y == Wrap32(SumDy(offsets))
  {
    var s := StartFlight(Initial()).value;
    BatteryAfterTicks(s, offsets);
    TicksPosition(s, offsets);
  }

  /** Ticks never land the drone: after 200 ticks the battery is empty and
      the drone is still flying. */
  lemma NoAutoLand(offsets: seq<Offset>)
    requires ValidOffsets(offsets) && |offsets| >= 200
    ensures var t := Ticks(StartFlight(Initial()).value, offsets);
      t.flying && t.battery == 0.0
  {
    FreshFlight(offsets);
  }

  /** From a non-negative level, a run of non-negative drains is one drain
      of their sum: max(0, level - sum). */
  lemma {:induction false} DrainSequence(level: real, amounts: seq<real>)
    requires 0.0 <= level
    requires forall i :: 0 <= i < |amounts| ==> 0.0 <= amounts[i]
    ensures DrainAll(level, amounts) == Drain(level, Sum(amounts))
    decreases |amounts|
  {
    if amounts != [] {
      DrainSequence(level, amounts[..|amounts| - 1]);
    }
  }

  /** The first tick of a fresh flight: 99.5 battery and a position with
      both coordinates in [-10, 9]. */
  lemma FirstTick(o: Offset)
    requires ValidOffset(o)
    ensures var t := Tick(StartFlight(Initial()).value, o);
      && t.battery == 99.5 && t.flying
      && -10 <= t.x <= 9 && -10 <= t.y <= 9
  {
  }
}
