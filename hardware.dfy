/** The Smart Bartender's hardware controller: four reservoirs, each with a pump that
    refills it, a valve that pours from it and a float switch that reports its level.
    Wall-clock time is the field `now` of the controller, advanced by every sleep. */
module Hardware {
  import opened Config

  /** What a GPIO read of a float-switch line yields, or that the read itself failed. */
  datatype PinRead = High | Low | ReadFault

  /** The physical float-switch lines: what reading a given pin at a given time yields. */
  type Sensor = (int, real) -> PinRead

  datatype Device = Pump | Valve | FloatSwitch | Reservoir

  /** The `ValueError` raised for a device number outside the configured tables. */
  datatype DeviceError = InvalidNumber(device: Device, id: int)

  /** How a relay command or a pour ended: the source's commands return nothing, or raise. */
  datatype Outcome = Done | Failed(error: DeviceError)

  datatype Result<T> = Ok(value: T) | Err(error: DeviceError)

  /** How a call to refill a reservoir ended; the last three are logged, not raised. */
  datatype RefillResult = Rejected(error: DeviceError) | AlreadyRefilling | ReachedFull | TimedOut

  /** GPIO levels written to a relay line: LOW energises the relay, HIGH releases it. */
  const OnLevel: int := 0
  const OffLevel: int := 1

  /** One write to a GPIO output line: the line, the level written and the time of the write. */
  datatype PinWrite = PinWrite(pin: int, level: int, at: real)

  /** The writes that release the relays on lines `pins[1]`, ..., `pins[n]`, in that order,
      all at time `t`. */
  function OffWrites(pins: map<int, int>, n: nat, t: real): (ws: seq<PinWrite>)
    requires forall i :: 1 <= i <= n ==> i in pins
    ensures |ws| == n
    ensures forall k :: 0 <= k < n ==> ws[k] == PinWrite(pins[k + 1], OffLevel, t)
  {
    if n == 0 then [] else OffWrites(pins, n - 1, t) + [PinWrite(pins[n], OffLevel, t)]
  }

  /** Relay states `m` after the relays numbered 1, ..., `n` have been switched off. */
  function SwitchedOff(m: map<int, bool>, n: nat): map<int, bool>
  {
    if n == 0 then m else SwitchedOff(m, n - 1)[n := false]
  }

  /** Switching relays 1..`n` off adds them to the known relays, turns exactly them off and
      leaves every other relay as it was. */
  lemma {:induction false} SwitchedOffMeaning(m: map<int, bool>, n: nat)
    ensures forall x :: x in SwitchedOff(m, n) <==> x in m || 1 <= x <= n
    ensures forall x :: x in SwitchedOff(m, n) ==>
      SwitchedOff(m, n)[x] == (x in m && !(1 <= x <= n) && m[x])
  {
    if n > 0 {
      SwitchedOffMeaning(m, n - 1);
    }
  }

  /** Seconds between two polls of the float switch during a refill. */
  const PollInterval: real := 0.5

  /** What the float switch of the reservoir on `pin` reports at time `t`: in simulation,
      whether the estimated level is strictly above the refill threshold; live, whether the
      line reads high, a failed read counting as "level OK". */
  function LevelOk(sim: bool, sensor: Sensor, pin: int, level: real, t: real): bool
  {
    if sim then level > RefillThresholdMl else sensor(pin, t) != Low
  }

  /** The reservoir level after `ml` has been drawn from `level`, floored at empty. */
  function Drained(level: real, ml: real): (r: real)
    ensures r >= 0.0
    ensures 0.0 <= level && ml >= 0.0 ==> r <= level
    ensures r == level - ml || (r == 0.0 && level - ml < 0.0)
  {
    var left := level - ml;
    if left < 0.0 then 0.0 else left
  }

  /** Pouring `a` and then `b` leaves the level pouring `a + b` at once would. */
  lemma DrainedAdditive(level: real, a: real, b: real)
    requires a >= 0.0 && b >= 0.0
    ensures Drained(Drained(level, a), b) == Drained(level, a + b)
  {
  }

  /** How long the valve stays open to pour `ml`: the calibrated time, cut to the ceiling. */
  function PourTime(valve: int, ml: real): (t: real)
    requires valve in DeviceIds && ml > 0.0
    ensures 0.0 < t <= MaxPourTime
    ensures t <= ml / FlowRate(valve)
    ensures t == ml / FlowRate(valve) || t == MaxPourTime
  {
    var t := ml / FlowRate(valve);
    if t > MaxPourTime then MaxPourTime else t
  }

  /** The valve lets through exactly the requested volume when no clamping happens, and
      strictly less when it does. */
  lemma PourTimeDispenses(valve: int, ml: real)
    requires valve in DeviceIds && ml > 0.0
    ensures PourTime(valve, ml) * FlowRate(valve) <= ml
    ensures PourTime(valve, ml) * FlowRate(valve) == ml <==> ml <= MaxPourTime * FlowRate(valve)
  {
    var rate := FlowRate(valve);
    if ml / rate > MaxPourTime {
      assert ml > MaxPourTime * rate;
    }
  }

  /** Seconds a refill from `level` may run: half again the time the pump needs at its
      rated flow (given per minute), cut to the refill ceiling. */
  function RefillTimeoutFor(level: real): (timeout: real)
    ensures timeout <= RefillTimeout
    ensures timeout <= (ReservoirCapacityMl - level) / PumpFlowRate * 60.0 * 1.5
    ensures level <= ReservoirCapacityMl ==> 0.0 <= timeout
    ensures timeout == RefillTimeout
         || timeout == (ReservoirCapacityMl - level) / PumpFlowRate * 60.0 * 1.5
  {
    var mlNeeded := ReservoirCapacityMl - level;
    var expectedTime := mlNeeded / PumpFlowRate * 60.0;
    if expectedTime * 1.5 <= RefillTimeout then expectedTime * 1.5 else RefillTimeout
  }

  /** Time elapsed in a refill after `k` polls. */
  function Elapsed(k: nat): real
  {
    k as real * PollInterval
  }

  /** A bound past which every poll is beyond `timeout`. */
  function PollLimit(timeout: real): nat
  {
    if timeout < 0.0 then 0 else (2.0 * timeout).Floor + 1
  }

  lemma BelowPollLimit(k: nat, timeout: real)
    requires Elapsed(k) <= timeout
    ensures k < PollLimit(timeout)
  {
  }

  /** What the float switch of one reservoir consults while a refill holds it: the mode, the
      physical lines, the reservoir's pin and its estimated level (no poll changes the level).
      A snapshot of the controller's fields, so that the polling proofs need not mention the
      heap; `OkAt` and the controller's `FloatOk` both answer through `LevelOk`. */
  datatype Gauge = Gauge(sim: bool, sensor: Sensor, pin: int, level: real)
  {
    predicate OkAt(t: real)
    {
      LevelOk(sim, sensor, pin, level, t)
    }
  }

  /** The poll at which a refill that started at `start` leaves its polling loop, searching
      from poll `k`: the first poll that is past `timeout` or finds the switch reporting full. */
  function StopPoll(g: Gauge, start: real, timeout: real, k: nat): (n: nat)
    decreases PollLimit(timeout) - k
    ensures k <= n
    ensures Elapsed(n) > timeout || g.OkAt(start + Elapsed(n))
  {
    if Elapsed(k) > timeout || g.OkAt(start + Elapsed(k)) then k
    else
      BelowPollLimit(k, timeout);
      StopPoll(g, start, timeout, k + 1)
  }

  /** Every poll the loop passes over was within the timeout and found the switch low. */
  lemma {:induction false} StopPollSkipsOnlyLowPolls(g: Gauge, start: real, timeout: real, k: nat, j: nat)
    requires k <= j < StopPoll(g, start, timeout, k)
    ensures Elapsed(j) <= timeout && !g.OkAt(start + Elapsed(j))
    decreases PollLimit(timeout) - k
  {
    if j > k {
      BelowPollLimit(k, timeout);
      StopPollSkipsOnlyLowPolls(g, start, timeout, k + 1, j);
    }
  }

  /** The loop stops at most one poll interval after the timeout. */
  lemma {:induction false} StopPollWithinTimeout(g: Gauge, start: real, timeout: real, k: nat)
    requires Elapsed(k) <= timeout + PollInterval
    ensures Elapsed(StopPoll(g, start, timeout, k)) <= timeout + PollInterval
    decreases PollLimit(timeout) - k
  {
    if !(Elapsed(k) > timeout || g.OkAt(start + Elapsed(k))) {
      BelowPollLimit(k, timeout);
      StopPollWithinTimeout(g, start, timeout, k + 1);
    }
  }

  /** A poll past the timeout, or one that finds the switch full, is the last one. */
  lemma StopPollHere(g: Gauge, start: real, timeout: real, k: nat)
    requires Elapsed(k) > timeout || g.OkAt(start + Elapsed(k))
    ensures StopPoll(g, start, timeout, k) == k
  {
  }

  /** A poll that is within the timeout and finds the switch low is not the last one. */
  lemma StopPollStep(g: Gauge, start: real, timeout: real, k: nat)
    requires Elapsed(k) <= timeout && !g.OkAt(start + Elapsed(k))
    ensures k < PollLimit(timeout)
    ensures StopPoll(g, start, timeout, k) == StopPoll(g, start, timeout, k + 1)
  {
    BelowPollLimit(k, timeout);
  }

  /** A second write to the same key hides the first. */
  lemma OverwriteTwice<K, V>(m: map<K, V>, k: K, a: V, b: V)
    ensures m[k := a][k := b] == m[k := b]
  {
  }

  /** In simulation the switch of a reservoir at or below the threshold never reports full,
      so a refill polls until its timeout has passed. */
  lemma {:induction false} SimulatedLowRefillTimesOut(g: Gauge, start: real, timeout: real, k: nat)
    requires g.sim && g.level <= RefillThresholdMl
    requires 0.0 <= timeout && k <= PollLimit(timeout)
    ensures StopPoll(g, start, timeout, k) == PollLimit(timeout)
    decreases PollLimit(timeout) - k
  {
    if Elapsed(k) <= timeout {
      BelowPollLimit(k, timeout);
      SimulatedLowRefillTimesOut(g, start, timeout, k + 1);
    }
  }

  /** In simulation a refill of a reservoir at or below the threshold gets the full refill
      ceiling as its timeout and never sees the switch report full, so it stops at the first
      poll past the ceiling: 241 polls, 120.5 seconds after the pump started. */
  lemma SimulatedLowRefillDuration(g: Gauge, start: real)
    requires g.sim && g.level <= RefillThresholdMl
    ensures RefillTimeoutFor(g.level) == RefillTimeout
    ensures StopPoll(g, start, RefillTimeout, 0) == 241
    ensures Elapsed(241) == RefillTimeout + PollInterval
  {
    assert PollLimit(RefillTimeout) == 241;
    SimulatedLowRefillTimesOut(g, start, RefillTimeout, 0);
  }

  /** The controller of the four reservoirs. Each map is keyed by the device numbers 1..4. */
  class BartenderHardware {
    var simulationMode: bool
    /** Whether the level monitor is to keep running. */
    var running: bool
    /** Estimated fill level of each reservoir, in ml. */
    var levels: map<int, real>
    var refilling: map<int, bool>
    /** Whether each reservoir's refill lock is held. */
    var locked: map<int, bool>
    /** Relay state of each pump and valve (true = energised). */
    var pumpOn: map<int, bool>
    var valveOpen: map<int, bool>
    /** Every write made to a relay line, oldest first. */
    var writes: seq<PinWrite>
    /** The clock, in seconds. */
    var now: real
    /** The float-switch lines, consulted in live mode. */
    const sensor: Sensor

    /** Every reservoir has a level, between empty and full. */
    ghost predicate LevelsValid()
      reads this`levels
    {
      && DeviceIds <= levels.Keys
      && forall r :: r in levels ==> 0.0 <= levels[r] <= ReservoirCapacityMl
    }

    /** Every reservoir has a lock, and it is marked refilling exactly while its lock is held. */
    ghost predicate LocksValid()
      reads this`refilling, this`locked
    {
      && DeviceIds <= locked.Keys
      && refilling == locked
    }

    ghost predicate Valid()
      reads this`levels, this`refilling, this`locked
    {
      LevelsValid() && LocksValid()
    }

    /** What the float switch of reservoir `r` reports now. */
    function FloatOk(r: int): bool
      reads this`simulationMode, this`levels, this`now
      requires r in DeviceIds && r in levels
    {
      LevelOk(simulationMode, sensor, FloatPin(r), levels[r], now)
    }

    /** What a refill of reservoir `r` starting now would poll. */
    function GaugeOf(r: int): Gauge
      reads this`simulationMode, this`levels
      requires r in DeviceIds && r in levels
    {
      Gauge(simulationMode, sensor, FloatPin(r), levels[r])
    }

    /** Whether a monitor tick now launches a refill of reservoir `r`. */
    predicate LowAndIdle(r: int)
      reads this`simulationMode, this`levels, this`now, this`refilling
      requires r in DeviceIds && r in levels && r in refilling
    {
      !FloatOk(r) && !refilling[r]
    }

    /** The reservoirs among 1..n, in ascending order, that a monitor tick launches a refill of. */
    function Launches(n: nat): seq<int>
      reads this`simulationMode, this`levels, this`now, this`refilling, this`locked
      requires Valid() && n <= 4
    {
      if n == 0 then [] else Launches(n - 1) + (if LowAndIdle(n) then [n] else [])
    }

    /** A tick launches a refill of exactly the low, idle reservoirs, each once, in ascending
        order. */
    lemma {:induction false} LaunchesMeaning(n: nat)
      requires Valid() && n <= 4
      ensures forall r :: r in Launches(n) <==> 1 <= r <= n && LowAndIdle(r)
      ensures forall i, j :: 0 <= i < j < |Launches(n)| ==> Launches(n)[i] < Launches(n)[j]
      ensures forall i :: 0 <= i < |Launches(n)| ==> 1 <= Launches(n)[i] <= n
    {
      if n > 0 {
        LaunchesMeaning(n - 1);
      }
    }

    /** Starts the controller. Simulation is used when asked for, when the GPIO library is
        missing, or when claiming the pins fails; every relay starts off, every reservoir full,
        unlocked and not refilling, and the level monitor is started. */
    constructor (simulationMode: bool, gpioAvailable: bool, gpioInitFails: bool, sensor: Sensor)
      ensures Valid()
      ensures this.simulationMode == (simulationMode || !gpioAvailable || gpioInitFails)
      ensures this.sensor == sensor && running && now == 0.0 && writes == []
      ensures forall r :: r in DeviceIds ==>
        && levels[r] == ReservoirCapacityMl && !refilling[r] && !locked[r]
        && r in pumpOn && !pumpOn[r] && r in valveOpen && !valveOpen[r]
    {
      this.simulationMode := simulationMode || !gpioAvailable;
      this.sensor := sensor;
      running := false;
      levels := map[1 := ReservoirCapacityMl, 2 := ReservoirCapacityMl,
                    3 := ReservoirCapacityMl, 4 := ReservoirCapacityMl];
      refilling := map[1 := false, 2 := false, 3 := false, 4 := false];
      locked := map[1 := false, 2 := false, 3 := false, 4 := false];
      pumpOn := map[1 := false, 2 := false, 3 := false, 4 := false];
      valveOpen := map[1 := false, 2 := false, 3 := false, 4 := false];
      now := 0.0;
      writes := [];
      new;
      if !this.simulationMode && gpioInitFails {
        this.simulationMode := true;
      }
      running := true;
    }

    /** Sleeps for `d` seconds. */
    method Sleep(d: real)
      requires d >= 0.0
      modifies this`now
      ensures now == old(now) + d
    {
      now := now + d;
    }

    /** Switches pump `id` on: outside simulation its relay line is driven LOW. A number that is not a
        configured device is refused, with nothing changed. */
    method ActivatePump(id: int) returns (out: Outcome)
      modifies this`pumpOn, this`writes
      ensures out == if id in DeviceIds then Done else Failed(InvalidNumber(Pump, id))
      ensures pumpOn == if id in DeviceIds && !simulationMode then old(pumpOn)[id := true] else old(pumpOn)
      ensures writes == if id in DeviceIds && !simulationMode
        then old(writes) + [PinWrite(PumpPin(id), OnLevel, now)] else old(writes)
    {
      DeviceIdMembership(id);
      if id !in PumpPins {
        return Failed(InvalidNumber(Pump, id));
      }
      if !simulationMode {
        pumpOn := pumpOn[id := true];
        writes := writes + [PinWrite(PumpPins[id], OnLevel, now)];
      }
      out := Done;
    }

    /** Switches pump `id` off: outside simulation its relay line is driven HIGH. A number that is not a
        configured device is refused, with nothing changed. */
    method DeactivatePump(id: int) returns (out: Outcome)
      modifies this`pumpOn, this`writes
      ensures out == if id in DeviceIds then Done else Failed(InvalidNumber(Pump, id))
      ensures pumpOn == if id in DeviceIds && !simulationMode then old(pumpOn)[id := false] else old(pumpOn)
      ensures writes == if id in DeviceIds && !simulationMode
        then old(writes) + [PinWrite(PumpPin(id), OffLevel, now)] else old(writes)
    {
      DeviceIdMembership(id);
      if id !in PumpPins {
        return Failed(InvalidNumber(Pump, id));
      }
      if !simulationMode {
        pumpOn := pumpOn[id := false];
        writes := writes + [PinWrite(PumpPins[id], OffLevel, now)];
      }
      out := Done;
    }

    /** Opens valve `id`: outside simulation its relay line is driven LOW. A number that is not a
        configured device is refused, with nothing changed. */
    method OpenValve(id: int) returns (out: Outcome)
      modifies this`valveOpen, this`writes
      ensures out == if id in DeviceIds then Done else Failed(InvalidNumber(Valve, id))
      ensures valveOpen == if id in DeviceIds && !simulationMode then old(valveOpen)[id := true] else old(valveOpen)
      ensures writes == if id in DeviceIds && !simulationMode
        then old(writes) + [PinWrite(ValvePin(id), OnLevel, now)] else old(writes)
    {
      DeviceIdMembership(id);
      if id !in ValvePins {
        return Failed(InvalidNumber(Valve, id));
      }
      if !simulationMode {
        valveOpen := valveOpen[id := true];
        writes := writes + [PinWrite(ValvePins[id], OnLevel, now)];
      }
      out := Done;
    }

    /** Closes valve `id`: outside simulation its relay line is driven HIGH. A number that is not a
        configured device is refused, with nothing changed. */
    method CloseValve(id: int) returns (out: Outcome)
      modifies this`valveOpen, this`writes
      ensures out == if id in DeviceIds then Done else Failed(InvalidNumber(Valve, id))
      ensures valveOpen == if id in DeviceIds && !simulationMode then old(valveOpen)[id := false] else old(valveOpen)
      ensures writes == if id in DeviceIds && !simulationMode
        then old(writes) + [PinWrite(ValvePin(id), OffLevel, now)] else old(writes)
    {
      DeviceIdMembership(id);
      if id !in ValvePins {
        return Failed(InvalidNumber(Valve, id));
      }
      if !simulationMode {
        valveOpen := valveOpen[id := false];
        writes := writes + [PinWrite(ValvePins[id], OffLevel, now)];
      }
      out := Done;
    }

    /** Reads a float switch: true means the level is OK. */
    method ReadFloatSwitch(id: int) returns (res: Result<bool>)
      requires LevelsValid()
      ensures res.Ok? <==> id in DeviceIds
      ensures res.Err? ==> res.error == InvalidNumber(FloatSwitch, id)
      ensures res.Ok? && simulationMode ==> (res.value <==> levels[id] > RefillThresholdMl)
      ensures res.Ok? && !simulationMode ==> (res.value <==> sensor(FloatPin(id), now) != Low)
      ensures res.Ok? ==> res.value == FloatOk(id)
    {
      DeviceIdMembership(id);
      if id !in FloatPins {
        return Err(InvalidNumber(FloatSwitch, id));
      }
      if simulationMode {
        return Ok(levels[id] > RefillThresholdMl);
      }
      var state := sensor(FloatPins[id], now);
      match state
      case High => res := Ok(true);
      case Low => res := Ok(false);
      case ReadFault => res := Ok(true);
    }

    /** Pours `ml` through valve `valve`: outside simulation the valve's relay is energised
        and released again the pour time later, then the reservoir's estimated level drops by
        `ml`, floored at empty. A non-positive volume is accepted before the valve number is
        checked, and does nothing. */
    method Pour(valve: int, ml: real) returns (out: Outcome)
      requires Valid()
      modifies this`valveOpen, this`writes, this`levels, this`now
      ensures Valid()
      ensures out == if ml <= 0.0 || valve in DeviceIds then Done else Failed(InvalidNumber(Valve, valve))
      ensures ml <= 0.0 || valve !in DeviceIds ==>
        levels == old(levels) && valveOpen == old(valveOpen) && writes == old(writes) && now == old(now)
      ensures ml > 0.0 && valve in DeviceIds ==>
        && levels == old(levels)[valve := Drained(old(levels)[valve], ml)]
        && now == old(now) + PourTime(valve, ml)
        && valveOpen == (if simulationMode then old(valveOpen) else old(valveOpen)[valve := false])
        && writes == if simulationMode then old(writes)
           else old(writes) + [PinWrite(ValvePin(valve), OnLevel, old(now)),
                               PinWrite(ValvePin(valve), OffLevel, now)]
    {
      DeviceIdMembership(valve);
      if ml <= 0.0 {
        return Done;
      }
      if valve !in ValvePins {
        return Failed(InvalidNumber(Valve, valve));
      }
      var pourTime := PourTime(valve, ml);
      ghost var valves := valveOpen;
      var valveOpened := OpenValve(valve);
      Sleep(pourTime);
      var closed := CloseValve(valve);
      OverwriteTwice(valves, valve, true, false);
      levels := levels[valve := Drained(levels[valve], ml)];
      out := Done;
    }

    /** Takes reservoir `r`'s refill lock if it is free, without waiting, and marks the
        reservoir as refilling; a lock already held is left as it is. */
    method TryAcquire(r: int) returns (acquired: bool)
      requires LocksValid() && r in DeviceIds
      modifies this`locked, this`refilling
      ensures LocksValid()
      ensures acquired == !old(locked[r])
      ensures locked == old(locked)[r := true] && refilling == old(refilling)[r := true]
    {
      if locked[r] {
        return false;
      }
      locked := locked[r := true];
      refilling := refilling[r := true];
      acquired := true;
    }

    /** Clears the refilling mark of reservoir `r` and releases its lock. */
    method Release(r: int)
      requires LocksValid() && r in DeviceIds && locked[r]
      modifies this`locked, this`refilling
      ensures LocksValid()
      ensures locked == old(locked)[r := false] && refilling == old(refilling)[r := false]
    {
      refilling := refilling[r := false];
      locked := locked[r := false];
    }

    /** The polling loop of a refill of reservoir `r` whose pump has just been started: reads
        the float switch every half second until it reports full or more than `timeout`
        seconds have passed since the loop began. */
    method PollUntilFull(r: int, timeout: real) returns (res: RefillResult)
      requires LevelsValid() && r in DeviceIds
      modifies this`now
      ensures var polls := StopPoll(GaugeOf(r), old(now), timeout, 0);
        && now == old(now) + Elapsed(polls)
        && res == (if Elapsed(polls) > timeout then TimedOut else ReachedFull)
    {
      var start := now;
      ghost var g := GaugeOf(r);
      ghost var polls: nat := 0;
      while true
        invariant now == start + Elapsed(polls)
        invariant g == GaugeOf(r)
        invariant StopPoll(g, start, timeout, polls) == StopPoll(g, start, timeout, 0)
        decreases PollLimit(timeout) - polls
      {
        var elapsed := now - start;
        if elapsed > timeout {
          StopPollHere(g, start, timeout, polls);
          res := TimedOut;
          break;
        }
        var full := ReadFloatSwitch(r);
        assert full.value == g.OkAt(start + Elapsed(polls));
        if full.value {
          StopPollHere(g, start, timeout, polls);
          res := ReachedFull;
          break;
        }
        StopPollStep(g, start, timeout, polls);
        Sleep(PollInterval);
        polls := polls + 1;
      }
    }

    /** The active phase of a refill holding reservoir `r`'s lock: starts the pump, then polls
        the float switch until it reports full or the timeout has passed. The pump is left
        running. */
    method PumpUntilFull(r: int, timeout: real) returns (res: RefillResult)
      requires LevelsValid() && r in DeviceIds
      modifies this`pumpOn, this`writes, this`now
      ensures pumpOn == if simulationMode then old(pumpOn) else old(pumpOn)[r := true]
      ensures writes == if simulationMode then old(writes)
        else old(writes) + [PinWrite(PumpPin(r), OnLevel, old(now))]
      ensures var polls := StopPoll(GaugeOf(r), old(now), timeout, 0);
        && now == old(now) + Elapsed(polls)
        && res == (if Elapsed(polls) > timeout then TimedOut else ReachedFull)
    {
      var pumpStarted := ActivatePump(r);
      res := PollUntilFull(r, timeout);
    }

    /** The end of a refill's protected block, reached on both exits of the polling loop:
        stops the pump and records reservoir `r` as full. */
    method CompleteRefill(r: int)
      requires LevelsValid() && r in DeviceIds
      modifies this`pumpOn, this`writes, this`levels
      ensures LevelsValid()
      ensures pumpOn == if simulationMode then old(pumpOn) else old(pumpOn)[r := false]
      ensures writes == if simulationMode then old(writes)
        else old(writes) + [PinWrite(PumpPin(r), OffLevel, now)]
      ensures levels == old(levels)[r := ReservoirCapacityMl]
    {
      var pumpStopped := DeactivatePump(r);
      levels := levels[r := ReservoirCapacityMl];
    }

    /** The protected block of a refill of reservoir `r`: computes the timeout from the
        current level, pumps until the float switch reports full or the timeout has passed,
        then stops the pump and records the reservoir as full, whichever way the polling
        ended. */
    method RefillBody(r: int) returns (res: RefillResult)
      requires LevelsValid() && r in DeviceIds
      modifies this`levels, this`pumpOn, this`writes, this`now
      ensures LevelsValid()
      ensures var timeout := RefillTimeoutFor(old(levels[r]));
        var polls := StopPoll(old(GaugeOf(r)), old(now), timeout, 0);
        && levels == old(levels)[r := ReservoirCapacityMl]
        && pumpOn == (if simulationMode then old(pumpOn) else old(pumpOn)[r := false])
        && writes == (if simulationMode then old(writes)
           else old(writes) + [PinWrite(PumpPin(r), OnLevel, old(now)), PinWrite(PumpPin(r), OffLevel, now)])
        && now == old(now) + Elapsed(polls)
        && res == (if Elapsed(polls) > timeout then TimedOut else ReachedFull)
      ensures old(now) <= now <= old(now) + RefillTimeoutFor(old(levels[r])) + PollInterval
      ensures now <= old(now) + RefillTimeout + PollInterval
    {
      ghost var pumps, log, g, start := pumpOn, writes, GaugeOf(r), now;
      var timeout := RefillTimeoutFor(levels[r]);
      StopPollWithinTimeout(g, start, timeout, 0);
      res := PumpUntilFull(r, timeout);
      assert now == start + Elapsed(StopPoll(g, start, timeout, 0));
      CompleteRefill(r);
      OverwriteTwice(pumps, r, true, false);
      assert !simulationMode ==>
        writes == log + [PinWrite(PumpPin(r), OnLevel, start), PinWrite(PumpPin(r), OffLevel, now)];
    }

    /** The part of a refill that runs while reservoir `r`'s lock is held: the protected block,
        then, as its `finally` clause, clearing the refilling mark and releasing the lock. */
    method RefillHeld(r: int) returns (res: RefillResult)
      requires Valid() && r in DeviceIds && locked[r]
      modifies this`levels, this`refilling, this`locked, this`pumpOn, this`writes, this`now
      ensures Valid()
      ensures var timeout := RefillTimeoutFor(old(levels[r]));
        var polls := StopPoll(old(GaugeOf(r)), old(now), timeout, 0);
        && levels == old(levels)[r := ReservoirCapacityMl]
        && refilling == old(refilling)[r := false] && locked == old(locked)[r := false]
        && pumpOn == (if simulationMode then old(pumpOn) else old(pumpOn)[r := false])
        && writes == (if simulationMode then old(writes)
           else old(writes) + [PinWrite(PumpPin(r), OnLevel, old(now)), PinWrite(PumpPin(r), OffLevel, now)])
        && now == old(now) + Elapsed(polls)
        && res == (if Elapsed(polls) > timeout then TimedOut else ReachedFull)
      ensures old(now) <= now <= old(now) + RefillTimeoutFor(old(levels[r])) + PollInterval
      ensures now <= old(now) + RefillTimeout + PollInterval
    {
      res := RefillBody(r);
      Release(r);
    }

    /** Refills reservoir `r`: under its lock, runs the pump until the float switch reports
        full or the timeout has passed, then stops the pump and records the reservoir as full,
        whichever way the polling ended; the lock is released and the refilling mark cleared
        on every path. A reservoir whose lock is already held is left alone. */
    method RefillReservoir(r: int) returns (res: RefillResult)
      requires Valid()
      modifies this`levels, this`refilling, this`locked, this`pumpOn, this`writes, this`now
      ensures Valid()
      ensures res == Rejected(InvalidNumber(Reservoir, r)) <==> r !in DeviceIds
      ensures res == AlreadyRefilling <==> r in DeviceIds && old(locked[r])
      ensures res.Rejected? || res.AlreadyRefilling? ==>
        && levels == old(levels) && refilling == old(refilling) && locked == old(locked)
        && pumpOn == old(pumpOn) && writes == old(writes) && now == old(now)
      ensures r in DeviceIds && !old(locked[r]) ==>
        var timeout := RefillTimeoutFor(old(levels[r]));
        var polls := StopPoll(old(GaugeOf(r)), old(now), timeout, 0);
        && levels == old(levels)[r := ReservoirCapacityMl]
        && refilling == old(refilling) && locked == old(locked)
        && pumpOn == (if simulationMode then old(pumpOn) else old(pumpOn)[r := false])
        && writes == (if simulationMode then old(writes)
           else old(writes) + [PinWrite(PumpPin(r), OnLevel, old(now)), PinWrite(PumpPin(r), OffLevel, now)])
        && now == old(now) + Elapsed(polls)
        && res == (if Elapsed(polls) > timeout then TimedOut else ReachedFull)
      ensures r in DeviceIds ==> old(now) <= now <= old(now) + RefillTimeoutFor(old(levels[r])) + PollInterval
      ensures old(now) <= now <= old(now) + RefillTimeout + PollInterval
    {
      DeviceIdMembership(r);
      if r !in PumpPins {
        return Rejected(InvalidNumber(Reservoir, r));
      }
      var acquired := TryAcquire(r);
      if !acquired {
        return AlreadyRefilling;
      }
      res := RefillHeld(r);
    }

    /** One pass of the level monitor: the reservoirs, in ascending order, whose float switch
        reports low and that are not refilling, each of which gets a refill started. A stopped
        monitor starts nothing. */
    method MonitorTick() returns (launched: seq<int>)
      requires Valid()
      ensures launched == if running then Launches(4) else []
      ensures running ==> forall r :: r in launched <==> r in DeviceIds && LowAndIdle(r)
      ensures forall i, j :: 0 <= i < j < |launched| ==> launched[i] < launched[j]
    {
      launched := [];
      if !running {
        return;
      }
      for r := 1 to 5
        invariant launched == Launches(r - 1)
      {
        var levelOk := ReadFloatSwitch(r);
        if !levelOk.value && !refilling[r] {
          launched := launched + [r];
        }
      }
      LaunchesMeaning(4);
    }

    /** Switches every pump relay off, in ascending order of pump number. */
    method AllPumpsOff()
      requires !simulationMode
      modifies this`pumpOn, this`writes
      ensures pumpOn == SwitchedOff(old(pumpOn), 4)
      ensures writes == old(writes) + OffWrites(PumpPins, 4, now)
    {
      for id := 1 to 5
        invariant pumpOn == SwitchedOff(old(pumpOn), id - 1)
        invariant writes == old(writes) + OffWrites(PumpPins, id - 1, now)
      {
        var stopped := DeactivatePump(id);
      }
    }

    /** Switches every valve relay off, in ascending order of valve number. */
    method AllValvesOff()
      requires !simulationMode
      modifies this`valveOpen, this`writes
      ensures valveOpen == SwitchedOff(old(valveOpen), 4)
      ensures writes == old(writes) + OffWrites(ValvePins, 4, now)
    {
      for id := 1 to 5
        invariant valveOpen == SwitchedOff(old(valveOpen), id - 1)
        invariant writes == old(writes) + OffWrites(ValvePins, id - 1, now)
      {
        var closed := CloseValve(id);
      }
    }

    /** Shuts the controller down: stops the level monitor and, outside simulation, switches
        every pump relay and then every valve relay off, whatever state it is believed to be in. */
    method Cleanup()
      modifies this`running, this`pumpOn, this`valveOpen, this`writes
      ensures !running
      ensures simulationMode ==> pumpOn == old(pumpOn) && valveOpen == old(valveOpen) && writes == old(writes)
      ensures !simulationMode ==>
        pumpOn == SwitchedOff(old(pumpOn), 4) && valveOpen == SwitchedOff(old(valveOpen), 4)
      ensures !simulationMode ==> forall id :: id in DeviceIds ==>
        id in pumpOn && !pumpOn[id] && id in valveOpen && !valveOpen[id]
      ensures !simulationMode ==>
        writes == old(writes) + OffWrites(PumpPins, 4, now) + OffWrites(ValvePins, 4, now)
    {
      running := false;
      if simulationMode {
        return;
      }
      ghost var pumps, valves := pumpOn, valveOpen;
      AllPumpsOff();
      AllValvesOff();
      SwitchedOffMeaning(pumps, 4);
      SwitchedOffMeaning(valves, 4);
    }
  }
}
