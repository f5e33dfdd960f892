/** Hardware mappings, calibration values and safety limits of the Smart Bartender.
    Every table is read-only configuration, fixed before the controller starts. */
module Config {

  /** The device numbers every pump, valve, float-switch and ingredient table is keyed by. */
  const DeviceIds: set<int> := {1, 2, 3, 4}

  /** GPIO line (BCM numbering) of the relay that drives each pump. */
  const PumpPins: map<int, int> := map[1 := 17, 2 := 27, 3 := 22, 4 := 23]

  /** GPIO line of the relay that opens each reservoir's valve. */
  const ValvePins: map<int, int> := map[1 := 24, 2 := 25, 3 := 5, 4 := 6]

  /** GPIO input line of each reservoir's float switch. */
  const FloatPins: map<int, int> := map[1 := 16, 2 := 20, 3 := 21, 4 := 26]

  const Ingredients: map<int, string> :=
    map[1 := "Vodka", 2 := "Rum", 3 := "Orange Juice", 4 := "Cranberry Juice"]

  /** Gravity flow through each valve, in ml per second. */
  const MlPerSecond: map<int, real> := map[1 := 8.0, 2 := 8.0, 3 := 8.0, 4 := 8.0]

  const ReservoirCapacityMl: real := 400.0
  /** The simulated float switch reports "low" at or below this level. */
  const RefillThresholdMl: real := 100.0
  /** Refill pump throughput, in ml per MINUTE. */
  const PumpFlowRate: real := 220.0

  /** Longest a valve may stay open for one pour, in seconds. */
  const MaxPourTime: real := 30.0
  /** Longest a pump may run, in seconds. */
  const MaxPumpTime: real := 180.0
  /** Ceiling on the refill timeout, in seconds. */
  const RefillTimeout: real := 120.0

  /** The three pin tables define the valid device numbers: exactly 1..4 each. */
  lemma PinTablesCoverDeviceIds()
    ensures PumpPins.Keys == DeviceIds
    ensures ValvePins.Keys == DeviceIds
    ensures FloatPins.Keys == DeviceIds
    ensures |PumpPins| == 4 && |ValvePins| == 4 && |FloatPins| == 4
  {
  }

  /** A number names a pump, a valve, a float switch or a calibrated valve exactly when it
      is one of the device numbers. */
  lemma DeviceIdMembership(id: int)
    ensures id in PumpPins <==> id in DeviceIds
    ensures id in ValvePins <==> id in DeviceIds
    ensures id in FloatPins <==> id in DeviceIds
    ensures id in MlPerSecond <==> id in DeviceIds
    ensures id in MlPerSecond ==> MlPerSecond[id] > 0.0
    ensures id in DeviceIds <==> 1 <= id <= 4
  {
  }

  /** Calibrated flow of valve `valve`, in ml per second. */
  function FlowRate(valve: int): (rate: real)
    requires valve in DeviceIds
    ensures rate > 0.0
  {
    DeviceIdMembership(valve);
    MlPerSecond[valve]
  }

  /** GPIO output line of pump `p`'s relay. */
  function PumpPin(p: int): int
    requires p in DeviceIds
  {
    DeviceIdMembership(p);
    PumpPins[p]
  }

  /** GPIO output line of valve `v`'s relay. */
  function ValvePin(v: int): int
    requires v in DeviceIds
  {
    DeviceIdMembership(v);
    ValvePins[v]
  }

  /** GPIO input line of reservoir `r`'s float switch. */
  function FloatPin(r: int): int
    requires r in DeviceIds
  {
    DeviceIdMembership(r);
    FloatPins[r]
  }

  /** No two devices share a GPIO line. */
  lemma PinsDistinct()
    ensures forall a, b :: a in PumpPins && b in ValvePins ==> PumpPins[a] != ValvePins[b]
    ensures forall a, b :: a in PumpPins && b in FloatPins ==> PumpPins[a] != FloatPins[b]
    ensures forall a, b :: a in ValvePins && b in FloatPins ==> ValvePins[a] != FloatPins[b]
    ensures forall a, b :: a in PumpPins && b in PumpPins && a != b ==> PumpPins[a] != PumpPins[b]
    ensures forall a, b :: a in ValvePins && b in ValvePins && a != b ==> ValvePins[a] != ValvePins[b]
    ensures forall a, b :: a in FloatPins && b in FloatPins && a != b ==> FloatPins[a] != FloatPins[b]
  {
  }

  /** Every valve has a calibrated, positive flow rate, so a pour's duration is defined. */
  lemma CalibrationCoversValves()
    ensures MlPerSecond.Keys == ValvePins.Keys
    ensures forall v :: v in MlPerSecond ==> MlPerSecond[v] > 0.0
  {
  }

  /** Every reservoir has a named ingredient. */
  lemma IngredientsCoverDeviceIds()
    ensures Ingredients.Keys == DeviceIds
    ensures |Ingredients| == 4
  {
  }

  /** The level and time limits are positive and ordered: a full reservoir is above the
      refill threshold, and a refill may never outlast the pump limit. */
  lemma LimitsConsistent()
    ensures 0.0 < RefillThresholdMl < ReservoirCapacityMl
    ensures PumpFlowRate > 0.0
    ensures MaxPourTime > 0.0 && RefillTimeout > 0.0
    ensures RefillTimeout < MaxPumpTime
  {
  }
}
