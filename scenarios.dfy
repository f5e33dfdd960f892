/** Client runs of the hardware controller that replay the behaviour its unit tests exercise,
    derived from the controller's contracts alone. */
module Scenarios {
  import opened Config
  import opened Hardware

  /** Three vodka-cranberries (50 ml from reservoir 1, 100 ml from reservoir 4) on a fresh
      simulated controller: the levels drop by exactly what was poured, and the clock by the
      calibrated pour times. */
  method DrinkSequence(sensor: Sensor) returns (vodka: real, cranberry: real, clock: real)
    ensures vodka == 250.0 && cranberry == 100.0
    ensures clock == 56.25
  {
    var hw := new BartenderHardware(true, true, false, sensor);
    var i := 0;
    while i < 3
      invariant 0 <= i <= 3
      invariant hw.Valid()
      invariant hw.levels[1] == 400.0 - 50.0 * i as real
      invariant hw.levels[4] == 400.0 - 100.0 * i as real
      invariant hw.now == 18.75 * i as real
    {
      var poured := hw.Pour(1, 50.0);
      poured := hw.Pour(4, 100.0);
      i := i + 1;
    }
    vodka, cranberry, clock := hw.levels[1], hw.levels[4], hw.now;
  }

  /** A pour longer than the ceiling is cut to 30 seconds, and a pour of more than is left
      empties the reservoir without going below zero. */
  method ClampedPours(sensor: Sensor) returns (level: real, clock: real)
    ensures level == 0.0
    ensures clock == MaxPourTime + 12.5
  {
    var hw := new BartenderHardware(true, true, false, sensor);
    var poured := hw.Pour(1, 370.0);
    assert hw.levels[1] == 30.0;
    poured := hw.Pour(1, 100.0);
    level, clock := hw.levels[1], hw.now;
  }

  /** A pour from a valve number outside 1..4 is refused, but a pour of a non-positive volume
      returns before the valve number is looked at; none of them changes anything. */
  method InvalidPours(sensor: Sensor)
    returns (badPour: Outcome, emptyPour: Outcome, negativePour: Outcome, level: real, clock: real)
    ensures badPour == Failed(InvalidNumber(Valve, 5))
    ensures emptyPour == Done && negativePour == Done
    ensures level == ReservoirCapacityMl && clock == 0.0
  {
    var hw := new BartenderHardware(true, true, false, sensor);
    badPour := hw.Pour(5, 50.0);
    emptyPour := hw.Pour(5, 0.0);
    negativePour := hw.Pour(1, -50.0);
    level, clock := hw.levels[1], hw.now;
  }

  /** Float-switch and pump requests for a number outside 1..4 are refused. */
  method InvalidDeviceNumbers(sensor: Sensor) returns (badRead: Result<bool>, badPump: Outcome)
    ensures badRead == Err(InvalidNumber(FloatSwitch, 5))
    ensures badPump == Failed(InvalidNumber(Pump, 0))
  {
    var hw := new BartenderHardware(true, true, false, sensor);
    badRead := hw.ReadFloatSwitch(5);
    badPump := hw.ActivatePump(0);
  }

  /** A refill of reservoir 0 is refused at once, before any lock is taken or time passes. */
  method InvalidRefill(sensor: Sensor) returns (badRefill: RefillResult, clock: real)
    ensures badRefill == Rejected(InvalidNumber(Reservoir, 0))
    ensures clock == 0.0
  {
    var hw := new BartenderHardware(true, true, false, sensor);
    badRefill := hw.RefillReservoir(0);
    clock := hw.now;
  }

  /** In simulation, draining reservoir 1 to the threshold makes the next monitor tick launch a
      refill of reservoir 1 and of no other. */
  method LowLevelLaunchesRefill(sensor: Sensor) returns (launched: seq<int>)
    ensures launched == [1]
  {
    var hw := new BartenderHardware(true, true, false, sensor);
    var poured := hw.Pour(1, 300.0);
    assert hw.levels[1] == RefillThresholdMl;
    assert hw.LowAndIdle(1);
    assert !hw.LowAndIdle(2) && !hw.LowAndIdle(3) && !hw.LowAndIdle(4);
    assert hw.Launches(1) == [1];
    assert hw.Launches(2) == [1];
    assert hw.Launches(3) == [1];
    launched := hw.MonitorTick();
  }

  /** In simulation a refill of a reservoir drained to the threshold runs into its 120-second
      timeout, since the simulated switch never reports full while the level stays low, and
      still records the reservoir as full and clears its refilling mark. */
  method SimulatedRefillTimesOut(sensor: Sensor)
    returns (res: RefillResult, level: real, refilling: bool, clock: real)
    ensures res == TimedOut && level == ReservoirCapacityMl && !refilling
    ensures clock == MaxPourTime + RefillTimeout + PollInterval
  {
    var hw := new BartenderHardware(true, true, false, sensor);
    var poured := hw.Pour(1, 300.0);
    SimulatedLowRefillDuration(hw.GaugeOf(1), hw.now);
    res := hw.RefillReservoir(1);
    level, refilling, clock := hw.levels[1], hw.refilling[1], hw.now;
  }

  /** On a fresh simulated controller every reservoir is full, so a monitor tick launches
      nothing. */
  method FullReservoirsLaunchNothing(sensor: Sensor) returns (launched: seq<int>)
    ensures launched == []
  {
    var hw := new BartenderHardware(true, true, false, sensor);
    assert !hw.LowAndIdle(1) && !hw.LowAndIdle(2) && !hw.LowAndIdle(3) && !hw.LowAndIdle(4);
    assert hw.Launches(1) == [];
    assert hw.Launches(2) == [];
    assert hw.Launches(3) == [];
    launched := hw.MonitorTick();
  }

  /** Once cleanup has stopped the monitor, a tick launches nothing, even for a drained
      reservoir. */
  method StoppedMonitorLaunchesNothing(sensor: Sensor) returns (launched: seq<int>)
    ensures launched == []
  {
    var hw := new BartenderHardware(true, true, false, sensor);
    var poured := hw.Pour(1, 300.0);
    hw.Cleanup();
    launched := hw.MonitorTick();
  }

  /** While another refill of reservoir 1 holds its lock, a second request returns at once
      and changes nothing. */
  method BusyRefill(sensor: Sensor) returns (res: RefillResult, clock: real, refilling: bool)
    ensures res == AlreadyRefilling && clock == 0.0 && refilling
  {
    var hw := new BartenderHardware(true, true, false, sensor);
    var first := hw.TryAcquire(1);
    res := hw.RefillReservoir(1);
    clock, refilling := hw.now, hw.refilling[1];
  }

  /** Outside simulation, an 80 ml pour drives valve 1's line (GPIO 24) LOW and, ten seconds
      later, HIGH again. */
  method LivePour(sensor: Sensor) returns (log: seq<PinWrite>, open: bool)
    ensures log == [PinWrite(24, OnLevel, 0.0), PinWrite(24, OffLevel, 10.0)]
    ensures !open
  {
    var hw := new BartenderHardware(false, true, false, sensor);
    var poured := hw.Pour(1, 80.0);
    log, open := hw.writes, hw.valveOpen[1];
  }

  /** Outside simulation, cleanup drives the four pump lines and then the four valve lines
      HIGH, and leaves every relay off. */
  method LiveCleanup(sensor: Sensor) returns (log: seq<PinWrite>, allOff: bool)
    ensures log == [PinWrite(17, OffLevel, 0.0), PinWrite(27, OffLevel, 0.0),
                    PinWrite(22, OffLevel, 0.0), PinWrite(23, OffLevel, 0.0),
                    PinWrite(24, OffLevel, 0.0), PinWrite(25, OffLevel, 0.0),
                    PinWrite(5, OffLevel, 0.0), PinWrite(6, OffLevel, 0.0)]
    ensures allOff
  {
    var hw := new BartenderHardware(false, true, false, sensor);
    hw.Cleanup();
    assert OffWrites(PumpPins, 4, 0.0) ==
      [PinWrite(17, OffLevel, 0.0), PinWrite(27, OffLevel, 0.0),
       PinWrite(22, OffLevel, 0.0), PinWrite(23, OffLevel, 0.0)];
    assert OffWrites(ValvePins, 4, 0.0) ==
      [PinWrite(24, OffLevel, 0.0), PinWrite(25, OffLevel, 0.0),
       PinWrite(5, OffLevel, 0.0), PinWrite(6, OffLevel, 0.0)];
    log := hw.writes;
    allOff := forall r :: r in DeviceIds ==> r in hw.pumpOn && !hw.pumpOn[r] && r in hw.valveOpen && !hw.valveOpen[r];
  }
}
