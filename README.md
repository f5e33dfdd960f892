# Smart Bartender hardware controller

A Dafny model of the hardware-control core of the Smart Bartender: the `BartenderHardware`
controller in `hardware.py` and the configuration tables in `config.py` it is parameterised by.

The controller owns four reservoirs, numbered 1..4. Each reservoir has:

- a pump that refills it from a floor bottle;
- a valve that pours from it;
- a float switch that reports whether its level is OK;
- an estimated level in ml;
- a `refilling` mark;
- a refill lock.

Relays are active-low: writing LOW to a relay line energises it and HIGH releases it. In
simulation mode (asked for, no GPIO library, or a failed pin claim) no line is written, and a
float switch reports "OK" exactly when the estimated level is strictly above the 100 ml refill
threshold.

Files:

- `config.dfy` (module `Config`): the constant tables and limits, with lemmas about their shape.
  These cover pin tables keyed by exactly 1..4, distinct lines, positive calibration and ordered
  limits.
- `hardware.dfy` (module `Hardware`) holds three things:
  - the pure pieces of the controller: pour duration, level drain, refill timeout, and the float
    switch's answer;
  - `StopPoll`, a specification of the refill polling loop, with its lemmas;
  - the class `BartenderHardware`. Its fields are the controller's state:
    - `levels`, `refilling`, `locked`, `pumpOn` and `valveOpen`, maps keyed by reservoir number;
    - `simulationMode` and `running`;
    - `writes`, the log of GPIO output writes;
    - `now`, an abstract clock that every sleep advances.

  Each method of the class is proved against a full statement of the new state. `Valid()` is
  preserved throughout. It says:
  - every level is between 0 and capacity;
  - `refilling[r]` holds exactly while reservoir `r`'s lock is held.
- `scenarios.dfy` (module `Scenarios`): client runs of the controller that replay the behaviour
  the unit tests in `test_hardware.py` check. Each is proved from the controller's contracts
  alone.

In the Dafny model the live float-switch lines are a function `sensor(pin, time)`, supplied when
the controller is built. It yields `High`, `Low` or `ReadFault`, and a failed read counts as
"level OK", as in the source. Device numbers outside 1..4 produce a `DeviceError` value where the
source raises `ValueError`. A refill returns a `RefillResult` saying how it ended; the source only
logs this.

Behaviour of the code that the model keeps as written:

- The valve close after a pour is not in a `finally` block.
- The pump is stopped inside the `try` block, not in the `finally` block.
- On timeout, a refill still sets the level to full capacity.
- A pour lowers the level by the requested volume even when the pour time was cut to the
  30-second ceiling.
- The refill's expected time is `ml_needed / PUMP_FLOW_RATE * 60`, because the flow rate is
  given per minute.

## Model

| member | source | states |
|---|---|---|
| Config.PinTablesCoverDeviceIds | config.py:7-26 | the pump, valve and float-switch tables each have exactly the keys 1..4 |
| Config.DeviceIdMembership | config.py:7-43 | a number is a pump, valve, float switch or calibrated valve exactly when it is in 1..4, and its calibrated rate is positive |
| Config.FlowRate | config.py:38-43 | every valve's calibrated flow is strictly positive, so a pour's division is defined |
| Config.PinsDistinct | config.py:7-26 | no two devices share a GPIO line, within or across the three tables |
| Config.CalibrationCoversValves | config.py:38-43 | the calibration table has exactly the valve numbers as keys, with positive rates |
| Config.IngredientsCoverDeviceIds | config.py:29-34 | the ingredient table has exactly the keys 1..4 |
| Config.LimitsConsistent | config.py:46-53 | 0 < threshold < capacity; positive pump rate, pour ceiling and refill ceiling; refill ceiling below the pump limit |
| Hardware.OffWrites | hardware.py:347-352 | the shutdown writes for lines `pins[1..n]` are n HIGH writes, the k-th on `pins[k+1]` |
| Hardware.SwitchedOffMeaning | hardware.py:347-352 | switching relays 1..n off turns exactly those off, adds them if unknown, and leaves every other relay as it was |
| Hardware.Drained | hardware.py:230-232 | the level after a pour is never negative, never above the old level, and is old - ml unless that is negative, in which case it is 0 |
| Hardware.DrainedAdditive | hardware.py:230-232 | two pours in a row leave the level one pour of their sum would |
| Hardware.PourTime | hardware.py:213-220 | the valve-open time is positive, at most MAX_POUR_TIME and at most ml / rate, and equals one of the two |
| Hardware.PourTimeDispenses | hardware.py:213-220 | the valve lets through at most the requested volume, and exactly that volume iff it fits under the pour ceiling |
| Hardware.RefillTimeoutFor | hardware.py:256-259 | the refill timeout is the smaller of REFILL_TIMEOUT and 1.5 times the time the pump needs for the missing volume: at most each, equal to one, and non-negative for a level within capacity |
| Hardware.StopPoll | hardware.py:268-281 | the poll at which the refill loop stops exists, is not before the start poll, and is past the timeout or finds the switch reporting full |
| Hardware.StopPollSkipsOnlyLowPolls | hardware.py:268-281 | every poll before the stopping one was within the timeout and found the switch reporting low |
| Hardware.StopPollWithinTimeout | hardware.py:268-281 | the loop stops at most one poll interval after the timeout |
| Hardware.StopPollHere | hardware.py:271-279 | a poll past the timeout, or one that finds the switch full, ends the loop |
| Hardware.StopPollStep | hardware.py:268-281 | a poll within the timeout that finds the switch low is followed by another, and the loop still terminates |
| Hardware.SimulatedLowRefillTimesOut | hardware.py:184-188 | in simulation a reservoir at or below the threshold never reads full, so polling runs to the first poll past the timeout |
| Hardware.SimulatedLowRefillDuration | hardware.py:255-281 | in simulation, a refill from at or below the threshold gets the 120 s ceiling as timeout and stops after 241 polls, 120.5 s after the pump started |
| Hardware.BartenderHardware.LaunchesMeaning | hardware.py:303-316 | a monitor pass launches reservoir r iff its switch reads low and it is not refilling, each at most once, in ascending order |
| Hardware.BartenderHardware.constructor | hardware.py:27-61 | simulation iff asked, no GPIO library, or pin claiming failed; every reservoir full, not refilling, unlocked; every relay off; monitor running; no line written |
| Hardware.BartenderHardware.Sleep | hardware.py:226 | sleeping d seconds advances the clock by d |
| Hardware.BartenderHardware.ActivatePump | hardware.py:110-124 | number outside 1..4: refused, nothing changed; otherwise, in live mode only, the pump is on and its line is written LOW |
| Hardware.BartenderHardware.DeactivatePump | hardware.py:126-140 | number outside 1..4: refused, nothing changed; otherwise, in live mode only, the pump is off and its line is written HIGH |
| Hardware.BartenderHardware.OpenValve | hardware.py:142-156 | number outside 1..4: refused, nothing changed; otherwise, in live mode only, the valve is open and its line is written LOW |
| Hardware.BartenderHardware.CloseValve | hardware.py:158-172 | number outside 1..4: refused, nothing changed; otherwise, in live mode only, the valve is closed and its line is written HIGH |
| Hardware.BartenderHardware.ReadFloatSwitch | hardware.py:174-197 | succeeds iff the number is in 1..4; in simulation true iff level > threshold (strict); live true unless the line reads low, so a read fault is "OK" |
| Hardware.BartenderHardware.Pour | hardware.py:199-234 | ml <= 0: accepted before the valve check, nothing changes; bad valve: refused, nothing changes; otherwise only that level drops (floored at 0), the clock advances by the pour time, and live mode writes LOW then HIGH to the valve line; Valid preserved |
| Hardware.BartenderHardware.TryAcquire | hardware.py:247-253 | the lock is taken iff it was free, after which the reservoir is locked and marked refilling; the lock/mark agreement is preserved |
| Hardware.BartenderHardware.Release | hardware.py:293-295 | the mark is cleared and the lock released for that reservoir only; the lock/mark agreement is preserved |
| Hardware.BartenderHardware.PollUntilFull | hardware.py:265-281 | the loop terminates at the poll StopPoll names; the clock has advanced 0.5 s per poll; the result says whether it ended by timeout or by a full reading |
| Hardware.BartenderHardware.PumpUntilFull | hardware.py:262-281 | pump started (live: line LOW at the start time) and left running; the polling outcome is as in PollUntilFull |
| Hardware.BartenderHardware.CompleteRefill | hardware.py:283-287 | the pump is stopped (live: line HIGH) and the level is reset to capacity |
| Hardware.BartenderHardware.RefillBody | hardware.py:255-287 | on either exit of the loop: level reset to capacity, pump off, pump line written LOW then HIGH in live mode, clock at the stopping poll, at most the computed timeout + 0.5 s later |
| Hardware.BartenderHardware.RefillHeld | hardware.py:252-295 | the protected block followed by clearing the mark and releasing the lock, the pump running at most the computed timeout + 0.5 s; Valid preserved |
| Hardware.BartenderHardware.RefillReservoir | hardware.py:236-295 | refused iff the number is outside 1..4; a no-op iff the lock is already held; otherwise level at capacity even on timeout, pump off, marks and locks as before the call, the clock at the stopping poll and at most the computed timeout + 0.5 s later, and the outcome TimedOut iff elapsed > timeout |
| Hardware.BartenderHardware.MonitorTick | hardware.py:301-316 | while running, the reservoirs launched are exactly those that read low and are not refilling, in ascending order; a stopped monitor launches none |
| Hardware.BartenderHardware.AllPumpsOff | hardware.py:348-349 | pumps 1..4 are switched off in order, one HIGH write each |
| Hardware.BartenderHardware.AllValvesOff | hardware.py:351-352 | valves 1..4 are switched off in order, one HIGH write each |
| Hardware.BartenderHardware.Cleanup | hardware.py:333-362 | the monitor stops; in simulation nothing else changes; live, pumps and valves 1..4 are switched off, every other relay is untouched, and the log gains the four pump lines then the four valve lines written HIGH |
| Scenarios.DrinkSequence | test_hardware.py:329-341 | three vodka-cranberries leave reservoir 1 at 250 ml and reservoir 4 at 100 ml |
| Scenarios.ClampedPours | test_hardware.py:174-206 | an over-long pour is cut to 30 s; a pour of more than is left empties the reservoir, not below zero |
| Scenarios.InvalidPours | test_hardware.py:158-213 | a pour from valve 5 is refused; zero and negative pours succeed and change nothing |
| Scenarios.InvalidDeviceNumbers | test_hardware.py:67-122 | float switch 5 and pump 0 are refused with the matching error |
| Scenarios.InvalidRefill | test_hardware.py:263-268 | refilling reservoir 0 is refused before any time passes |
| Scenarios.LowLevelLaunchesRefill | hardware.py:303-316 | after reservoir 1 is drained to the threshold, a monitor pass launches a refill of reservoir 1 only |
| Scenarios.SimulatedRefillTimesOut | test_hardware.py:217-225 | a simulated refill from the threshold times out after 120.5 s and still leaves the reservoir full and unmarked |
| Scenarios.FullReservoirsLaunchNothing | hardware.py:303-316 | on a fresh controller a monitor pass launches nothing |
| Scenarios.StoppedMonitorLaunchesNothing | test_hardware.py:351-360 | after cleanup the monitor launches nothing, even for a drained reservoir |
| Scenarios.BusyRefill | test_hardware.py:242-261 | while the lock is held, a refill returns at once, with no time passed and the mark still set |
| Scenarios.LivePour | test_hardware.py:182-193 | a live 80 ml pour writes valve line 24 LOW at 0 s and HIGH at 10 s, leaving the valve closed |
| Scenarios.LiveCleanup | hardware.py:346-352 | live cleanup writes lines 17, 27, 22, 23, then 24, 25, 5, 6 HIGH and leaves every relay off |

## Left out

- Threads: the monitor runs as a daemon thread that spawns a refill thread per low reservoir, and cleanup joins it with a 5-second timeout. The model runs one monitor pass, `MonitorTick`, as a sequential step.
- Concurrent interleavings: a pour racing a refill of the same reservoir, and the unlocked window between taking the lock and setting the `refilling` mark. `TryAcquire` takes the lock and sets the mark in one step.
- `MonitorTick` returns the reservoirs to refill but does not start the refills. The monitor loop's 2-second period and its 5-second back-off after an exception are not modelled.
- lgpio itself is not modelled. That covers opening and closing the GPIO chip and claiming pins (those initial writes are not in the `writes` log), as well as write failures, which the source catches and logs. Every modelled relay write succeeds.
- Hardware.BartenderHardware.constructor: a failed pin claim is a single flag, `gpioInitFails`. It switches to simulation with no partial claims recorded.
- The exception branch of the refill is not modelled. No modelled step of the protected block can fail for a valid reservoir, so the `finally` clause (clearing the mark and releasing the lock) runs on every path.
- Time passes only in sleeps. The time between `start_time` and the first float-switch read, and the duration of the reads and writes themselves, are taken as zero.
- Logging, f-string formatting and IEEE floating point are not modelled; levels, rates and times are exact reals.
- `MAX_POUR_TIME` is enforced. `MAX_PUMP_TIME` is declared but nothing in the controller reads it, so the model only relates it to the refill ceiling.
- Hardware.BartenderHardware.Valid: requires each map to have at least the keys 1..4, not exactly those keys. The source's dictionaries never gain other keys, but the invariant does not say so.
- `app.py`, `test.py` and the Flask layer are not part of this model.
