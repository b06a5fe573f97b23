/** The CCS2 status parser (internal/bluelink/parse_ccs2.go). */
module CCS2Parser {
  import opened Wrappers
  import opened VehicleModel
  import opened Json
  import opened Layouts

  function DistanceUnit(index: Option<int>): string {
    match index
    case Some(1) => "km"
    case Some(2) => "mi"
    case Some(3) => "mi"
    case _ => ""
  }

  function TemperatureC(value: Option<real>, unit: Option<int>): Option<real> {
    match value
    case None => None
    case Some(v) => Some(if unit == Some(1) then (v - 32.0) * 5.0 / 9.0 else v)
  }

  function NormalizeBatterySoC(value: Option<real>, reliability: Option<int>): Option<int> {
    if reliability == Some(1) || value.None? || value.value < 0.0 || value.value > 100.0 then None
    else Some(Truncate(value.value))
  }

  /** Open only for 1, closed only for 0 and 2, unknown otherwise. */
  function PortDoor(state: Option<int>): Option<bool> {
    match state
    case Some(1) => Some(true)
    case Some(0) => Some(false)
    case Some(2) => Some(false)
    case _ => None
  }

  /** A flag built from readings: unknown when there is no reading at all, else whether some
      reading is not zero. */
  function AnyRaised(readings: seq<Option<int>>): Option<bool> {
    if forall i | 0 <= i < |readings| :: readings[i].None? then None
    else Some(exists i | 0 <= i < |readings| :: readings[i].Some? && readings[i].value != 0)
  }

  /** Unknown when some reading is missing, else whether every reading is zero. */
  function AllZero(readings: seq<Option<int>>): Option<bool> {
    if exists i | 0 <= i < |readings| :: readings[i].None? then None
    else Some(forall i | 0 <= i < |readings| :: readings[i] == Some(0))
  }

  function Readings(state: Json, paths: seq<Path>): seq<Option<int>> {
    seq(|paths|, i requires 0 <= i < |paths| => GetInt(state, paths[i]))
  }

  const DOOR_LOCKS: seq<Path> := [
    ["Cabin", "Door", "Row1", "Driver", "Lock"],
    ["Cabin", "Door", "Row1", "Passenger", "Lock"],
    ["Cabin", "Door", "Row2", "Left", "Lock"],
    ["Cabin", "Door", "Row2", "Right", "Lock"]]

  const TIRE_FLAGS: seq<Path> := [
    ["Chassis", "Axle", "Tire", "PressureLow"],
    ["Chassis", "Axle", "Row1", "Left", "Tire", "PressureLow"],
    ["Chassis", "Axle", "Row1", "Right", "Tire", "PressureLow"],
    ["Chassis", "Axle", "Row2", "Left", "Tire", "PressureLow"],
    ["Chassis", "Axle", "Row2", "Right", "Tire", "PressureLow"]]

  /** A non-zero Lock means that door is unlocked, so the car is locked when every reading is 0. */
  method AllDoorsLocked(state: Json, paths: seq<Path>) returns (locked: Option<bool>)
    ensures locked == AllZero(Readings(state, paths))
  {
    ghost var readings := Readings(state, paths);
    var all := true;
    for i := 0 to |paths|
      invariant forall k | 0 <= k < i :: readings[k].Some?
      invariant all <==> forall k | 0 <= k < i :: readings[k] == Some(0)
    {
      var v := GetInt(state, paths[i]);
      assert v == readings[i];
      if v.None? {
        return None;
      }
      if v.value != 0 {
        all := false;
      }
    }
    return Some(all);
  }

  method TireWarning(state: Json, paths: seq<Path>) returns (warning: Option<bool>)
    ensures warning == AnyRaised(Readings(state, paths))
  {
    ghost var readings := Readings(state, paths);
    var warn, seen := false, false;
    for i := 0 to |paths|
      invariant seen <==> exists k | 0 <= k < i :: readings[k].Some?
      invariant warn <==> exists k | 0 <= k < i :: readings[k].Some? && readings[k].value != 0
    {
      var v := GetInt(state, paths[i]);
      assert v == readings[i];
      if v.None? {
        continue;
      }
      seen := true;
      if v.value != 0 {
        warn := true;
      }
    }
    return if seen then Some(warn) else None;
  }

  function EnergyFields(s: VehicleState, state: Json): VehicleState {
    var remain := GetInt(state, ["Green", "ChargingInformation", "Charging", "RemainTime"]);
    var connector := GetInt(state, ["Green", "ChargingInformation", "ConnectorFastening", "State"]);
    s.(evBatteryPercentage := GetFloat(state, ["Green", "BatteryManagement", "BatteryRemain", "Ratio"]),
       evBatterySoH := GetFloat(state, ["Green", "BatteryManagement", "SoH", "Ratio"]),
       evRange := GetFloat(state, ["Drivetrain", "FuelSystem", "DTE", "Total"]),
       evRangeUnit := DistanceUnit(GetInt(state, ["Drivetrain", "FuelSystem", "DTE", "Unit"])),
       charging := if remain.Some? then Some(remain.value > 0) else s.charging,
       estChargeDurationMin := if remain.Some? then remain else s.estChargeDurationMin,
       estFastChargeDurationMin := GetInt(state, ["Green", "ChargingInformation", "EstimatedTime", "Quick"]),
       pluggedIn := if connector.Some? then Some(connector.value != 0) else s.pluggedIn)
  }

  function ChargerFields(s: VehicleState, state: Json): VehicleState {
    var door := PortDoor(GetInt(state, ["Green", "ChargingDoor", "State"]));
    s.(chargePortDoorOpen := if door.Some? then door else s.chargePortDoorOpen,
       chargeLimitAC := GetFloat(state, ["Green", "ChargingInformation", "TargetSoC", "Standard"]),
       chargeLimitDC := GetFloat(state, ["Green", "ChargingInformation", "TargetSoC", "Quick"]),
       chargingPowerKW := GetFloat(state, ["Green", "Electric", "SmartGrid", "RealTimePower"]),
       battery12VPercentage := NormalizeBatterySoC(
         GetFloat(state, ["Electronics", "Battery", "Level"]),
         GetInt(state, ["Electronics", "Battery", "SensorReliability"])))
  }

  function BodyFields(layouts: Layouts, s: VehicleState, state: Json): VehicleState {
    var odometer := GetFloat(state, ["Drivetrain", "Odometer"]);
    var inside := GetFloat(state, ["Cabin", "HVAC", "Row1", "Driver", "Temperature", "Value"]);
    var date := ParseCCS2Date(layouts, GetString(state, ["Date"]));
    s.(odometer := odometer,
       odometerUnit := if odometer.Some? then "km" else s.odometerUnit,
       outsideTemperatureC := TemperatureC(
         GetFloat(state, ["Cabin", "HVAC", "OutsideTemperature", "Value"]),
         GetInt(state, ["Cabin", "HVAC", "OutsideTemperature", "Unit"])),
       insideTemperatureC :=
         if inside.Some? then TemperatureC(inside, GetInt(state, ["Cabin", "HVAC", "Row1", "Driver", "Temperature", "Unit"]))
         else s.insideTemperatureC,
       locked := AllZero(Readings(state, DOOR_LOCKS)),
       tirePressureWarning := AnyRaised(Readings(state, TIRE_FLAGS)),
       lastUpdatedAt := if date.Some? then date else s.lastUpdatedAt)
  }

  function ParseCCS2(layouts: Layouts, state: Json): VehicleState {
    BodyFields(layouts, ChargerFields(EnergyFields(ZERO, state), state), state)
  }

  method FillEnergyFields(state: Json, before: VehicleState) returns (s: VehicleState)
    ensures s == EnergyFields(before, state)
  {
    s := before;
    s := s.(evBatteryPercentage := GetFloat(state, ["Green", "BatteryManagement", "BatteryRemain", "Ratio"]));
    s := s.(evBatterySoH := GetFloat(state, ["Green", "BatteryManagement", "SoH", "Ratio"]));
    s := s.(evRange := GetFloat(state, ["Drivetrain", "FuelSystem", "DTE", "Total"]));
    s := s.(evRangeUnit := DistanceUnit(GetInt(state, ["Drivetrain", "FuelSystem", "DTE", "Unit"])));
    var remain := GetInt(state, ["Green", "ChargingInformation", "Charging", "RemainTime"]);
    if remain.Some? {
      s := s.(charging := Some(remain.value > 0));
      s := s.(estChargeDurationMin := remain);
    }
    s := s.(estFastChargeDurationMin := GetInt(state, ["Green", "ChargingInformation", "EstimatedTime", "Quick"]));
    var connector := GetInt(state, ["Green", "ChargingInformation", "ConnectorFastening", "State"]);
    if connector.Some? {
      s := s.(pluggedIn := Some(connector.value != 0));
    }
  }

  method FillChargerFields(state: Json, before: VehicleState) returns (s: VehicleState)
    ensures s == ChargerFields(before, state)
  {
    s := before;
    var door := GetInt(state, ["Green", "ChargingDoor", "State"]);
    if door == Some(1) {
      s := s.(chargePortDoorOpen := Some(true));
    } else if door == Some(0) || door == Some(2) {
      s := s.(chargePortDoorOpen := Some(false));
    }
    s := s.(chargeLimitAC := GetFloat(state, ["Green", "ChargingInformation", "TargetSoC", "Standard"]));
    s := s.(chargeLimitDC := GetFloat(state, ["Green", "ChargingInformation", "TargetSoC", "Quick"]));
    s := s.(chargingPowerKW := GetFloat(state, ["Green", "Electric", "SmartGrid", "RealTimePower"]));
    s := s.(battery12VPercentage := NormalizeBatterySoC(
      GetFloat(state, ["Electronics", "Battery", "Level"]),
      GetInt(state, ["Electronics", "Battery", "SensorReliability"])));
  }

  method FillBodyFields(layouts: Layouts, state: Json, before: VehicleState) returns (s: VehicleState)
    ensures s == BodyFields(layouts, before, state)
  {
    s := before;
    s := s.(odometer := GetFloat(state, ["Drivetrain", "Odometer"]));
    if s.odometer.Some? {
      s := s.(odometerUnit := "km");
    }
    s := s.(outsideTemperatureC := TemperatureC(
      GetFloat(state, ["Cabin", "HVAC", "OutsideTemperature", "Value"]),
      GetInt(state, ["Cabin", "HVAC", "OutsideTemperature", "Unit"])));
    var raw := GetPath(state, ["Cabin", "HVAC", "Row1", "Driver", "Temperature", "Value"]);
    if raw != Null && AsFloat(raw).Some? {
      s := s.(insideTemperatureC := TemperatureC(
        AsFloat(raw),
        GetInt(state, ["Cabin", "HVAC", "Row1", "Driver", "Temperature", "Unit"])));
    }
    var locked := AllDoorsLocked(state, DOOR_LOCKS);
    s := s.(locked := locked);
    var warning := TireWarning(state, TIRE_FLAGS);
    s := s.(tirePressureWarning := warning);
    var date := ParseCCS2Date(layouts, GetString(state, ["Date"]));
    if date.Some? {
      s := s.(lastUpdatedAt := date);
    }
  }

  // ---------------------------------------------------------------------------
  // What the parse depends on
  // ---------------------------------------------------------------------------

  const ENERGY_PATHS: seq<Path> := [
    ["Green", "ChargingInformation", "Charging", "RemainTime"],
    ["Green", "ChargingInformation", "ConnectorFastening", "State"],
    ["Green", "BatteryManagement", "BatteryRemain", "Ratio"],
    ["Green", "BatteryManagement", "SoH", "Ratio"],
    ["Drivetrain", "FuelSystem", "DTE", "Total"],
    ["Drivetrain", "FuelSystem", "DTE", "Unit"],
    ["Green", "ChargingInformation", "EstimatedTime", "Quick"]]

  const CHARGER_PATHS: seq<Path> := [
    ["Green", "ChargingDoor", "State"],
    ["Green", "ChargingInformation", "TargetSoC", "Standard"],
    ["Green", "ChargingInformation", "TargetSoC", "Quick"],
    ["Green", "Electric", "SmartGrid", "RealTimePower"],
    ["Electronics", "Battery", "Level"],
    ["Electronics", "Battery", "SensorReliability"]]

  const BODY_PATHS: seq<Path> := [
    ["Drivetrain", "Odometer"],
    ["Cabin", "HVAC", "OutsideTemperature", "Value"],
    ["Cabin", "HVAC", "OutsideTemperature", "Unit"],
    ["Cabin", "HVAC", "Row1", "Driver", "Temperature", "Value"],
    ["Cabin", "HVAC", "Row1", "Driver", "Temperature", "Unit"],
    ["Date"]]

  ghost predicate SameAt(a: Json, b: Json, paths: seq<Path>) {
    forall i | 0 <= i < |paths| :: GetPath(a, paths[i]) == GetPath(b, paths[i])
  }

  /** The documents agree wherever the parser looks. */
  ghost predicate SameReadings(a: Json, b: Json) {
    && SameAt(a, b, ENERGY_PATHS) && SameAt(a, b, CHARGER_PATHS) && SameAt(a, b, BODY_PATHS)
    && SameAt(a, b, DOOR_LOCKS) && SameAt(a, b, TIRE_FLAGS)
  }

  lemma AgreeAt(a: Json, b: Json, paths: seq<Path>, i: nat, path: Path)
    requires SameAt(a, b, paths) && i < |paths| && paths[i] == path
    ensures GetPath(a, path) == GetPath(b, path)
  {
  }

  lemma EnergyFrame(s: VehicleState, a: Json, b: Json)
    requires SameAt(a, b, ENERGY_PATHS)
    ensures EnergyFields(s, a) == EnergyFields(s, b)
  {
    AgreeAt(a, b, ENERGY_PATHS, 0, ["Green", "ChargingInformation", "Charging", "RemainTime"]);
    AgreeAt(a, b, ENERGY_PATHS, 1, ["Green", "ChargingInformation", "ConnectorFastening", "State"]);
    AgreeAt(a, b, ENERGY_PATHS, 2, ["Green", "BatteryManagement", "BatteryRemain", "Ratio"]);
    AgreeAt(a, b, ENERGY_PATHS, 3, ["Green", "BatteryManagement", "SoH", "Ratio"]);
    AgreeAt(a, b, ENERGY_PATHS, 4, ["Drivetrain", "FuelSystem", "DTE", "Total"]);
    AgreeAt(a, b, ENERGY_PATHS, 5, ["Drivetrain", "FuelSystem", "DTE", "Unit"]);
    AgreeAt(a, b, ENERGY_PATHS, 6, ["Green", "ChargingInformation", "EstimatedTime", "Quick"]);
  }

  lemma ChargerFrame(s: VehicleState, a: Json, b: Json)
    requires SameAt(a, b, CHARGER_PATHS)
    ensures ChargerFields(s, a) == ChargerFields(s, b)
  {
    AgreeAt(a, b, CHARGER_PATHS, 0, ["Green", "ChargingDoor", "State"]);
    AgreeAt(a, b, CHARGER_PATHS, 1, ["Green", "ChargingInformation", "TargetSoC", "Standard"]);
    AgreeAt(a, b, CHARGER_PATHS, 2, ["Green", "ChargingInformation", "TargetSoC", "Quick"]);
    AgreeAt(a, b, CHARGER_PATHS, 3, ["Green", "Electric", "SmartGrid", "RealTimePower"]);
    AgreeAt(a, b, CHARGER_PATHS, 4, ["Electronics", "Battery", "Level"]);
    AgreeAt(a, b, CHARGER_PATHS, 5, ["Electronics", "Battery", "SensorReliability"]);
  }

  lemma ReadingsFrame(a: Json, b: Json, paths: seq<Path>)
    requires SameAt(a, b, paths)
    ensures Readings(a, paths) == Readings(b, paths)
  {
    forall i | 0 <= i < |paths|
      ensures GetInt(a, paths[i]) == GetInt(b, paths[i])
    {
      AgreeAt(a, b, paths, i, paths[i]);
    }
  }

  lemma BodyFrame(layouts: Layouts, s: VehicleState, a: Json, b: Json)
    requires SameAt(a, b, BODY_PATHS)
    requires Readings(a, DOOR_LOCKS) == Readings(b, DOOR_LOCKS) && Readings(a, TIRE_FLAGS) == Readings(b, TIRE_FLAGS)
    ensures BodyFields(layouts, s, a) == BodyFields(layouts, s, b)
  {
    AgreeAt(a, b, BODY_PATHS, 0, ["Drivetrain", "Odometer"]);
    AgreeAt(a, b, BODY_PATHS, 1, ["Cabin", "HVAC", "OutsideTemperature", "Value"]);
    AgreeAt(a, b, BODY_PATHS, 2, ["Cabin", "HVAC", "OutsideTemperature", "Unit"]);
    AgreeAt(a, b, BODY_PATHS, 3, ["Cabin", "HVAC", "Row1", "Driver", "Temperature", "Value"]);
    AgreeAt(a, b, BODY_PATHS, 4, ["Cabin", "HVAC", "Row1", "Driver", "Temperature", "Unit"]);
    AgreeAt(a, b, BODY_PATHS, 5, ["Date"]);
  }

  /** The state depends on nothing but these paths: documents that agree there parse to the same
      state, whatever else they hold. */
  lemma ParseCCS2Frame(layouts: Layouts, a: Json, b: Json)
    requires SameReadings(a, b)
    ensures ParseCCS2(layouts, a) == ParseCCS2(layouts, b)
  {
    EnergyFrame(ZERO, a, b);
    var s := EnergyFields(ZERO, a);
    ChargerFrame(s, a, b);
    ReadingsFrame(a, b, DOOR_LOCKS);
    ReadingsFrame(a, b, TIRE_FLAGS);
    BodyFrame(layouts, ChargerFields(s, a), a, b);
  }

  /** parseCCS2 as it is written: one field after another into an empty state. */
  method ParseCCS2Document(layouts: Layouts, state: Json) returns (s: VehicleState)
    ensures s == ParseCCS2(layouts, state)
  {
    s := FillEnergyFields(state, ZERO);
    s := FillChargerFields(state, s);
    s := FillBodyFields(layouts, state, s);
  }
}
