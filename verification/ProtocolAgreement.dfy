/** Both wire protocols mean the same vehicle: the two parsers against the mock's two printers. */
module ProtocolAgreement {
  import opened Wrappers
  import opened VehicleModel
  import opened Json
  import opened Layouts
  import opened CCS2Parser
  import opened CCS1Parser
  import opened StatusFetch
  import opened MockVehicle

  /** The layouts read the mock's two spellings of each timestamp as the same instant. */
  ghost predicate ReadsMockTimes(layouts: Layouts) {
    && layouts.compact(FRESH_COMPACT).Some?
    && layouts.compact(FRESH_COMPACT) == layouts.rfc3339(FRESH_RFC3339)
    && layouts.compact(FORCED_COMPACT).Some?
    && layouts.compact(FORCED_COMPACT) == layouts.rfc3339(FORCED_RFC3339)
  }

  function StatusInstant(layouts: Layouts, forced: bool): Option<int> {
    layouts.compact(if forced then FORCED_COMPACT else FRESH_COMPACT)
  }

  /** What the canned options say about the vehicle, protocol apart: the fields both protocols
      carry, without odometer and location. */
  function CommonReading(layouts: Layouts, o: Options, forced: bool): VehicleState {
    ZERO.(
      evBatteryPercentage := Some(o.batteryPercent + (if forced then 1.0 else 0.0)),
      evRange := Some(o.rangeKM),
      evRangeUnit := "km",
      charging := Some(o.chargeRemainMin > 0),
      pluggedIn := Some(o.pluggedIn),
      chargeLimitAC := Some(80.0),
      chargeLimitDC := Some(100.0),
      estChargeDurationMin := Some(o.chargeRemainMin),
      estFastChargeDurationMin := Some(42),
      battery12VPercentage := Some(87),
      locked := Some(true),
      tirePressureWarning := Some(false),
      lastUpdatedAt := StatusInstant(layouts, forced))
  }

  function WithOdometer(s: VehicleState): VehicleState {
    s.(odometer := Some(4213.5), odometerUnit := "km")
  }

  function WithFix(layouts: Layouts, s: VehicleState, o: Options): VehicleState {
    s.(latitude := Some(o.latitude), longitude := Some(o.longitude), locationUpdatedAt := layouts.compact(FRESH_COMPACT))
  }

  /** The fields only CCS2 carries. */
  function CCS2Extras(s: VehicleState, o: Options): VehicleState {
    s.(evBatterySoH := Some(99.0),
       chargePortDoorOpen := Some(o.pluggedIn),
       chargingPowerKW := Some(7.2),
       outsideTemperatureC := Some(18.5),
       insideTemperatureC := Some(21.0))
  }

  // ---------------------------------------------------------------------------
  // CCS1
  // ---------------------------------------------------------------------------

  lemma TwoTargets()
    ensures LastTarget([Target(100, 0), Target(80, 1)], DC_PLUG) == Some(100.0)
    ensures LastTarget([Target(100, 0), Target(80, 1)], AC_PLUG) == Some(80.0)
  {
    var entries := [Target(100, 0), Target(80, 1)];
    LastTargetIsLast(entries, DC_PLUG, 0);
    LastTargetIsLast(entries, AC_PLUG, 1);
  }

  lemma EVReadings(o: Options, forced: bool)
    ensures var ev := EVStatus(o, forced);
            && GetPath(ev, ["batteryStatus"]) == Battery(o, forced)
            && GetPath(ev, ["batteryCharge"]) == Bool(o.chargeRemainMin > 0)
            && GetPath(ev, ["batteryPlugin"]) == Flag(o.pluggedIn)
            && GetPath(ev, ["drvDistance"]) == Arr([RangeEntry(o)])
  {
    var ev := EVStatus(o, forced);
    GetMember(ev, "batteryStatus");
    GetMember(ev, "batteryCharge");
    GetMember(ev, "batteryPlugin");
    GetMember(ev, "drvDistance");
  }

  lemma EVNestedReadings(o: Options, forced: bool)
    ensures var ev := EVStatus(o, forced);
            && GetPath(ev, ["reservChargeInfos", "targetSOClist"]) == Arr([Target(100, 0), Target(80, 1)])
            && GetPath(ev, ["remainTime2", "atc", "value"]) == Int(o.chargeRemainMin)
            && GetPath(ev, ["remainTime2", "etc3", "value"]) == Int(42)
  {
    var ev := EVStatus(o, forced);
    GetPath2(ev, "reservChargeInfos", "targetSOClist");
    GetPath3(ev, "remainTime2", "atc", "value");
    GetPath3(ev, "remainTime2", "etc3", "value");
  }

  lemma RangeReadings(o: Options)
    ensures GetPath(RangeEntry(o), ["rangeByFuel", "totalAvailableRange", "value"]) == Num(o.rangeKM)
    ensures GetPath(RangeEntry(o), ["rangeByFuel", "totalAvailableRange", "unit"]) == Int(1)
  {
    GetPath3(RangeEntry(o), "rangeByFuel", "totalAvailableRange", "value");
    GetPath3(RangeEntry(o), "rangeByFuel", "totalAvailableRange", "unit");
  }

  lemma CCS1EVFields(o: Options, forced: bool, s: VehicleState)
    ensures EVFields(s, EVStatus(o, forced)) == s.(
              evBatteryPercentage := Some(o.batteryPercent + (if forced then 1.0 else 0.0)),
              evRange := Some(o.rangeKM),
              evRangeUnit := "km",
              charging := Some(o.chargeRemainMin > 0),
              pluggedIn := Some(o.pluggedIn),
              chargeLimitAC := Some(80.0),
              chargeLimitDC := Some(100.0),
              estChargeDurationMin := Some(o.chargeRemainMin),
              estFastChargeDurationMin := Some(42))
  {
    EVReadings(o, forced);
    EVNestedReadings(o, forced);
    RangeReadings(o);
    TwoTargets();
  }

  lemma StatusReadings(o: Options, forced: bool)
    ensures var status := VehicleStatus(o, forced);
            && GetPath(status, ["evStatus"]) == EVStatus(o, forced)
            && GetPath(status, ["doorLock"]) == Bool(true)
            && GetPath(status, ["time"]) == Str(if forced then FORCED_COMPACT else FRESH_COMPACT)
            && GetPath(status, ["battery", "batSoc"]) == Int(87)
  {
    var status := VehicleStatus(o, forced);
    GetMember(status, "evStatus");
    GetMember(status, "doorLock");
    GetMember(status, "time");
    GetPath2(status, "battery", "batSoc");
  }

  lemma LampReadings(o: Options, forced: bool)
    ensures AnyRaised(Readings(VehicleStatus(o, forced), LAMPS)) == Some(false)
  {
    var status := VehicleStatus(o, forced);
    GetPath2(status, "tirePressureLamp", "tirePressureLampAll");
    GetPath2(status, "tirePressureLamp", "tirePressureLampFL");
    GetPath2(status, "tirePressureLamp", "tirePressureLampFR");
    GetPath2(status, "tirePressureLamp", "tirePressureLampRL");
    GetPath2(status, "tirePressureLamp", "tirePressureLampRR");
    assert Readings(status, LAMPS) == [Some(0), None, None, None, None];
    assert Readings(status, LAMPS)[0].Some?;
  }

  lemma CCS1StatusFields(layouts: Layouts, o: Options, forced: bool, s: VehicleState)
    requires ReadsMockTimes(layouts)
    ensures StatusFields(layouts, s, VehicleStatus(o, forced)) == s.(
              battery12VPercentage := Some(87),
              locked := Some(true),
              tirePressureWarning := Some(false),
              lastUpdatedAt := StatusInstant(layouts, forced))
  {
    StatusReadings(o, forced);
    LampReadings(o, forced);
  }

  lemma FixReadings(o: Options)
    ensures var fix := Obj(map["coord" := Coord(o), "time" := Str(FRESH_COMPACT)]);
            && Child(fix, "coord") == Coord(o)
            && GetPath(fix, ["coord", "lat"]) == Num(o.latitude)
            && GetPath(fix, ["coord", "lon"]) == Num(o.longitude)
            && GetPath(fix, ["time"]) == Str(FRESH_COMPACT)
  {
    var fix := Obj(map["coord" := Coord(o), "time" := Str(FRESH_COMPACT)]);
    GetPath2(fix, "coord", "lat");
    GetPath2(fix, "coord", "lon");
    GetMember(fix, "time");
  }

  lemma CCS1LocationFields(layouts: Layouts, o: Options, s: VehicleState)
    requires ReadsMockTimes(layouts)
    ensures LocationFields(layouts, s, Obj(map["coord" := Coord(o), "time" := Str(FRESH_COMPACT)]))
         == (if o.latitude == 0.0 == o.longitude then s else WithFix(layouts, s, o))
  {
    FixReadings(o);
  }

  lemma CCS1OdometerFields(s: VehicleState)
    ensures OdometerFields(s, Obj(map["value" := Num(4213.5), "unit" := Int(1)])) == WithOdometer(s)
  {
    var odometer := Obj(map["value" := Num(4213.5), "unit" := Int(1)]);
    GetMember(odometer, "value");
    GetMember(odometer, "unit");
  }

  /** What a CCS1 read yields for any options. */
  function CCS1Reading(layouts: Layouts, o: Options, forced: bool): VehicleState {
    var s := CommonReading(layouts, o, forced);
    var s := if forced then s else WithOdometer(s);
    if o.latitude == 0.0 == o.longitude then s else WithFix(layouts, s, o)
  }

  lemma SuccessUnwraps(resMsg: Json)
    ensures AuthedGet(Ok(Success(resMsg))) == Ok(Success(resMsg))
    ensures Member(Success(resMsg), "resMsg") == Ok(resMsg)
  {
    GetMember(Success(resMsg), "retCode");
  }

  lemma InfoReadings(o: Options)
    ensures var info := StatusInfoTree(o);
            && info.Obj?
            && GetPath(info, ["vehicleStatus"]) == VehicleStatus(o, false)
            && GetPath(info, ["vehicleLocation"]) == Obj(map["coord" := Coord(o), "time" := Str(FRESH_COMPACT)])
            && GetPath(info, ["odometer"]) == Obj(map["value" := Num(4213.5), "unit" := Int(1)])
  {
    var info := StatusInfoTree(o);
    GetMember(info, "vehicleStatus");
    GetMember(info, "vehicleLocation");
    GetMember(info, "odometer");
  }

  lemma CCS1InfoRead(layouts: Layouts, info: Json, o: Options)
    requires ReadsMockTimes(layouts)
    requires GetPath(info, ["vehicleStatus"]) == VehicleStatus(o, false)
    requires GetPath(info, ["vehicleLocation"]) == Obj(map["coord" := Coord(o), "time" := Str(FRESH_COMPACT)])
    requires GetPath(info, ["odometer"]) == Obj(map["value" := Num(4213.5), "unit" := Int(1)])
    ensures ParseCCS1(layouts, info) == Ok(CCS1Reading(layouts, o, false))
  {
    CCS1StatusRead(layouts, info, o, false);
    CCS1OdometerFields(CommonReading(layouts, o, false));
    CCS1LocationFields(layouts, o, WithOdometer(CommonReading(layouts, o, false)));
  }

  lemma CachedInfoUnwraps(info: Json)
    requires info.Obj?
    ensures StatusInfo(Ok(Success(Obj(map["vehicleStatusInfo" := info])))) == Ok(info)
  {
    SuccessUnwraps(Obj(map["vehicleStatusInfo" := info]));
  }

  lemma CCS1CachedRead(layouts: Layouts, v: Vehicle, o: Options, park: Body)
    requires ReadsMockTimes(layouts) && !v.IsCCS2() && !o.ccs2
    ensures ReadStatus(layouts, v, false, Ok(StatusBody(o, false)), park) == Ok(CCS1Reading(layouts, o, false))
  {
    InfoReadings(o);
    CachedInfoUnwraps(StatusInfoTree(o));
    CCS1InfoRead(layouts, StatusInfoTree(o), o);
  }

  lemma CCS1Assembly(layouts: Layouts, info: Json, status: Json, s: VehicleState)
    requires GetPath(info, ["vehicleStatus"]) == status != Null
    requires StatusFields(layouts, EVFields(ZERO, GetPath(status, ["evStatus"])), status) == s
    ensures ParseCCS1(layouts, info)
         == Ok(LocationFields(layouts, OdometerFields(s, GetPath(info, ["odometer"])), GetPath(info, ["vehicleLocation"])))
  {
  }

  lemma CCS1StatusRead(layouts: Layouts, info: Json, o: Options, forced: bool)
    requires ReadsMockTimes(layouts)
    requires GetPath(info, ["vehicleStatus"]) == VehicleStatus(o, forced)
    ensures ParseCCS1(layouts, info) == Ok(LocationFields(layouts,
              OdometerFields(CommonReading(layouts, o, forced), GetPath(info, ["odometer"])), GetPath(info, ["vehicleLocation"])))
  {
    StatusReadings(o, forced);
    CCS1EVFields(o, forced, ZERO);
    CCS1StatusFields(layouts, o, forced, EVFields(ZERO, EVStatus(o, forced)));
    CCS1Assembly(layouts, info, VehicleStatus(o, forced), CommonReading(layouts, o, forced));
  }

  lemma CCS1ForcedInfo(layouts: Layouts, o: Options, fix: Json)
    requires ReadsMockTimes(layouts) && fix == Obj(map["coord" := Coord(o), "time" := Str(FRESH_COMPACT)])
    ensures ParseCCS1(layouts, ForcedInfo(VehicleStatus(o, true), fix)) == Ok(CCS1Reading(layouts, o, true))
  {
    var info := ForcedInfo(VehicleStatus(o, true), fix);
    GetMember(info, "vehicleStatus");
    GetMember(info, "vehicleLocation");
    GetMember(info, "odometer");
    CCS1StatusRead(layouts, info, o, true);
    GetMember(Null, "value");
    GetMember(Null, "unit");
    CCS1LocationFields(layouts, o, CommonReading(layouts, o, true));
  }

  lemma CCS1ForcedAssembly(layouts: Layouts, v: Vehicle, status: Body, park: Body, resMsg: Json, fix: Json)
    requires !v.IsCCS2() && resMsg.Obj?
    requires ResMsg(status) == Ok(resMsg) && ParkLocationCCS1(park) == Ok(fix)
    ensures ReadStatus(layouts, v, true, status, park) == ParseCCS1(layouts, ForcedInfo(resMsg, fix))
  {
  }

  lemma CCS1ForcedRead(layouts: Layouts, v: Vehicle, o: Options)
    requires ReadsMockTimes(layouts) && !v.IsCCS2() && !o.ccs2
    ensures ReadStatus(layouts, v, true, Ok(StatusBody(o, true)), Ok(LocationBody(o))) ==
            Ok(CCS1Reading(layouts, o, true))
  {
    var fix := Obj(map["coord" := Coord(o), "time" := Str(FRESH_COMPACT)]);
    SuccessUnwraps(VehicleStatus(o, true));
    SuccessUnwraps(Obj(map["gpsDetail" := fix]));
    CCS1ForcedAssembly(layouts, v, Ok(StatusBody(o, true)), Ok(LocationBody(o)), VehicleStatus(o, true), fix);
    CCS1ForcedInfo(layouts, o, fix);
  }

  lemma CCS1Read(layouts: Layouts, v: Vehicle, o: Options, forced: bool)
    requires ReadsMockTimes(layouts) && !v.IsCCS2() && !o.ccs2
    ensures ReadStatus(layouts, v, forced, Ok(StatusBody(o, forced)), Ok(LocationBody(o))) ==
            Ok(CCS1Reading(layouts, o, forced))
  {
    if forced {
      CCS1ForcedRead(layouts, v, o);
    } else {
      CCS1CachedRead(layouts, v, o, Ok(LocationBody(o)));
    }
  }

  // ---------------------------------------------------------------------------
  // CCS2
  // ---------------------------------------------------------------------------

  /** What a CCS2 read yields for any options. */
  function CCS2Reading(layouts: Layouts, o: Options, forced: bool): VehicleState {
    WithFix(layouts, WithOdometer(CCS2Extras(CommonReading(layouts, o, forced), o)), o)
  }

  lemma TopLevel(o: Options, forced: bool)
    ensures var vehicle := VehicleTree(o, forced);
            && Child(vehicle, "Drivetrain") == Drivetrain(o)
            && Child(vehicle, "Electronics") == Reading("Battery", Obj(map["Level" := Int(87), "SensorReliability" := Int(0)]))
            && Child(vehicle, "Green") == Green(o, forced)
            && Child(vehicle, "Cabin") == Cabin()
            && Child(vehicle, "Chassis") == Reading("Axle", Reading("Tire", Reading("PressureLow", Int(0))))
            && Child(vehicle, "Date") == Str(if forced then FORCED_RFC3339 else FRESH_RFC3339)
  {
  }

  lemma DrivetrainReadings(o: Options, forced: bool)
    ensures var vehicle := VehicleTree(o, forced);
            && GetPath(vehicle, ["Drivetrain", "Odometer"]) == Num(4213.5)
            && GetPath(vehicle, ["Drivetrain", "FuelSystem", "DTE", "Total"]) == Num(o.rangeKM)
            && GetPath(vehicle, ["Drivetrain", "FuelSystem", "DTE", "Unit"]) == Int(1)
            && GetPath(vehicle, ["Electronics", "Battery", "Level"]) == Int(87)
            && GetPath(vehicle, ["Electronics", "Battery", "SensorReliability"]) == Int(0)
            && GetPath(vehicle, ["Date"]) == Str(if forced then FORCED_RFC3339 else FRESH_RFC3339)
  {
    var vehicle := VehicleTree(o, forced);
    TopLevel(o, forced);
    GetPath2(vehicle, "Drivetrain", "Odometer");
    GetPath4(vehicle, "Drivetrain", "FuelSystem", "DTE", "Total");
    GetPath4(vehicle, "Drivetrain", "FuelSystem", "DTE", "Unit");
    GetPath3(vehicle, "Electronics", "Battery", "Level");
    GetPath3(vehicle, "Electronics", "Battery", "SensorReliability");
    GetMember(vehicle, "Date");
  }

  lemma GreenChildren(o: Options, forced: bool)
    ensures var green := Green(o, forced);
            && Child(Child(Child(green, "BatteryManagement"), "BatteryRemain"), "Ratio") == Battery(o, forced)
            && Child(Child(Child(green, "BatteryManagement"), "SoH"), "Ratio") == Int(99)
            && Child(green, "ChargingInformation") == ChargingInformation(o)
            && Child(Child(green, "ChargingDoor"), "State") == Flag(o.pluggedIn)
            && Child(Child(Child(green, "Electric"), "SmartGrid"), "RealTimePower") == Num(7.2)
  {
  }

  lemma GreenReadings(o: Options, forced: bool)
    ensures var vehicle := VehicleTree(o, forced);
            && GetPath(vehicle, ["Green", "BatteryManagement", "BatteryRemain", "Ratio"]) == Battery(o, forced)
            && GetPath(vehicle, ["Green", "BatteryManagement", "SoH", "Ratio"]) == Int(99)
            && GetPath(vehicle, ["Green", "ChargingDoor", "State"]) == Flag(o.pluggedIn)
            && GetPath(vehicle, ["Green", "Electric", "SmartGrid", "RealTimePower"]) == Num(7.2)
  {
    var vehicle := VehicleTree(o, forced);
    TopLevel(o, forced);
    GreenChildren(o, forced);
    GetPath4(vehicle, "Green", "BatteryManagement", "BatteryRemain", "Ratio");
    GetPath4(vehicle, "Green", "BatteryManagement", "SoH", "Ratio");
    GetPath3(vehicle, "Green", "ChargingDoor", "State");
    GetPath4(vehicle, "Green", "Electric", "SmartGrid", "RealTimePower");
  }

  lemma ChargingChildren(o: Options)
    ensures var charging := ChargingInformation(o);
            && Child(Child(charging, "Charging"), "RemainTime") == Int(o.chargeRemainMin)
            && Child(Child(charging, "EstimatedTime"), "Quick") == Int(42)
            && Child(Child(charging, "ConnectorFastening"), "State") == Flag(o.pluggedIn)
            && Child(Child(charging, "TargetSoC"), "Standard") == Int(80)
            && Child(Child(charging, "TargetSoC"), "Quick") == Int(100)
  {
  }

  lemma ChargingReadings(o: Options, forced: bool)
    ensures var vehicle := VehicleTree(o, forced);
            && GetPath(vehicle, ["Green", "ChargingInformation", "Charging", "RemainTime"]) == Int(o.chargeRemainMin)
            && GetPath(vehicle, ["Green", "ChargingInformation", "EstimatedTime", "Quick"]) == Int(42)
            && GetPath(vehicle, ["Green", "ChargingInformation", "ConnectorFastening", "State"]) == Flag(o.pluggedIn)
            && GetPath(vehicle, ["Green", "ChargingInformation", "TargetSoC", "Standard"]) == Int(80)
            && GetPath(vehicle, ["Green", "ChargingInformation", "TargetSoC", "Quick"]) == Int(100)
  {
    var vehicle := VehicleTree(o, forced);
    TopLevel(o, forced);
    GreenChildren(o, forced);
    ChargingChildren(o);
    GetPath4(vehicle, "Green", "ChargingInformation", "Charging", "RemainTime");
    GetPath4(vehicle, "Green", "ChargingInformation", "EstimatedTime", "Quick");
    GetPath4(vehicle, "Green", "ChargingInformation", "ConnectorFastening", "State");
    GetPath4(vehicle, "Green", "ChargingInformation", "TargetSoC", "Standard");
    GetPath4(vehicle, "Green", "ChargingInformation", "TargetSoC", "Quick");
  }

  lemma CabinReadings(o: Options, forced: bool)
    ensures var vehicle := VehicleTree(o, forced);
            && GetPath(vehicle, ["Cabin", "HVAC", "OutsideTemperature", "Value"]) == Num(18.5)
            && GetPath(vehicle, ["Cabin", "HVAC", "OutsideTemperature", "Unit"]) == Int(0)
            && GetPath(vehicle, ["Cabin", "HVAC", "Row1", "Driver", "Temperature", "Value"]) == Int(21)
            && GetPath(vehicle, ["Cabin", "HVAC", "Row1", "Driver", "Temperature", "Unit"]) == Int(0)
  {
    var vehicle := VehicleTree(o, forced);
    TopLevel(o, forced);
    GetPath4(vehicle, "Cabin", "HVAC", "OutsideTemperature", "Value");
    GetPath4(vehicle, "Cabin", "HVAC", "OutsideTemperature", "Unit");
    GetPath6(vehicle, "Cabin", "HVAC", "Row1", "Driver", "Temperature", "Value");
    GetPath6(vehicle, "Cabin", "HVAC", "Row1", "Driver", "Temperature", "Unit");
  }

  lemma DoorReadings(vehicle: Json, door: Json)
    requires Child(Child(vehicle, "Cabin"), "Door") == door
    requires Child(Child(Child(door, "Row1"), "Driver"), "Lock") == Int(0)
    requires Child(Child(Child(door, "Row1"), "Passenger"), "Lock") == Int(0)
    requires Child(Child(Child(door, "Row2"), "Left"), "Lock") == Int(0)
    requires Child(Child(Child(door, "Row2"), "Right"), "Lock") == Int(0)
    ensures AllZero(Readings(vehicle, DOOR_LOCKS)) == Some(true)
  {
    GetPath5(vehicle, "Cabin", "Door", "Row1", "Driver", "Lock");
    GetPath5(vehicle, "Cabin", "Door", "Row1", "Passenger", "Lock");
    GetPath5(vehicle, "Cabin", "Door", "Row2", "Left", "Lock");
    GetPath5(vehicle, "Cabin", "Door", "Row2", "Right", "Lock");
    assert Readings(vehicle, DOOR_LOCKS) == [Some(0), Some(0), Some(0), Some(0)];
  }

  lemma TireReadings(vehicle: Json, axle: Json)
    requires Child(Child(vehicle, "Chassis"), "Axle") == axle
    requires Child(Child(axle, "Tire"), "PressureLow") == Int(0)
    requires Child(axle, "Row1") == Null == Child(axle, "Row2")
    ensures AnyRaised(Readings(vehicle, TIRE_FLAGS)) == Some(false)
  {
    GetPath4(vehicle, "Chassis", "Axle", "Tire", "PressureLow");
    GetPath6(vehicle, "Chassis", "Axle", "Row1", "Left", "Tire", "PressureLow");
    GetPath6(vehicle, "Chassis", "Axle", "Row1", "Right", "Tire", "PressureLow");
    GetPath6(vehicle, "Chassis", "Axle", "Row2", "Left", "Tire", "PressureLow");
    GetPath6(vehicle, "Chassis", "Axle", "Row2", "Right", "Tire", "PressureLow");
    var flags := Readings(vehicle, TIRE_FLAGS);
    assert flags == [Some(0), None, None, None, None];
    assert flags[0].Some?;
  }

  lemma DoorChildren()
    ensures Child(Cabin(), "Door") == Doors()
    ensures Child(Child(Child(Doors(), "Row1"), "Driver"), "Lock") == Int(0)
    ensures Child(Child(Child(Doors(), "Row1"), "Passenger"), "Lock") == Int(0)
    ensures Child(Child(Child(Doors(), "Row2"), "Left"), "Lock") == Int(0)
    ensures Child(Child(Child(Doors(), "Row2"), "Right"), "Lock") == Int(0)
  {
  }

  lemma VehicleDoors(vehicle: Json)
    requires Child(vehicle, "Cabin") == Cabin()
    ensures AllZero(Readings(vehicle, DOOR_LOCKS)) == Some(true)
  {
    DoorChildren();
    DoorReadings(vehicle, Doors());
  }

  lemma VehicleTires(o: Options, forced: bool)
    ensures AnyRaised(Readings(VehicleTree(o, forced), TIRE_FLAGS)) == Some(false)
  {
    TopLevel(o, forced);
    TireReadings(VehicleTree(o, forced), Reading("Tire", Reading("PressureLow", Int(0))));
  }

  /** A document with the mock's reading at every path the parser looks at. */
  ghost predicate EnergyReadings(vehicle: Json, o: Options, forced: bool) {
    && GetPath(vehicle, ["Drivetrain", "FuelSystem", "DTE", "Total"]) == Num(o.rangeKM)
    && GetPath(vehicle, ["Drivetrain", "FuelSystem", "DTE", "Unit"]) == Int(1)
    && GetPath(vehicle, ["Green", "BatteryManagement", "BatteryRemain", "Ratio"]) == Battery(o, forced)
    && GetPath(vehicle, ["Green", "BatteryManagement", "SoH", "Ratio"]) == Int(99)
    && GetPath(vehicle, ["Green", "ChargingInformation", "Charging", "RemainTime"]) == Int(o.chargeRemainMin)
    && GetPath(vehicle, ["Green", "ChargingInformation", "EstimatedTime", "Quick"]) == Int(42)
    && GetPath(vehicle, ["Green", "ChargingInformation", "ConnectorFastening", "State"]) == Flag(o.pluggedIn)
  }

  ghost predicate ChargerReadings(vehicle: Json, o: Options) {
    && GetPath(vehicle, ["Green", "ChargingDoor", "State"]) == Flag(o.pluggedIn)
    && GetPath(vehicle, ["Green", "ChargingInformation", "TargetSoC", "Standard"]) == Int(80)
    && GetPath(vehicle, ["Green", "ChargingInformation", "TargetSoC", "Quick"]) == Int(100)
    && GetPath(vehicle, ["Green", "Electric", "SmartGrid", "RealTimePower"]) == Num(7.2)
    && GetPath(vehicle, ["Electronics", "Battery", "Level"]) == Int(87)
    && GetPath(vehicle, ["Electronics", "Battery", "SensorReliability"]) == Int(0)
  }

  ghost predicate CabinAndDate(vehicle: Json, forced: bool) {
    && GetPath(vehicle, ["Drivetrain", "Odometer"]) == Num(4213.5)
    && GetPath(vehicle, ["Cabin", "HVAC", "OutsideTemperature", "Value"]) == Num(18.5)
    && GetPath(vehicle, ["Cabin", "HVAC", "OutsideTemperature", "Unit"]) == Int(0)
    && GetPath(vehicle, ["Cabin", "HVAC", "Row1", "Driver", "Temperature", "Value"]) == Int(21)
    && GetPath(vehicle, ["Cabin", "HVAC", "Row1", "Driver", "Temperature", "Unit"]) == Int(0)
    && GetPath(vehicle, ["Date"]) == Str(if forced then FORCED_RFC3339 else FRESH_RFC3339)
  }

  lemma CCS2EnergyFields(vehicle: Json, o: Options, forced: bool, s: VehicleState)
    requires EnergyReadings(vehicle, o, forced)
    ensures EnergyFields(s, vehicle) == s.(
              evBatteryPercentage := Some(o.batteryPercent + (if forced then 1.0 else 0.0)),
              evBatterySoH := Some(99.0),
              evRange := Some(o.rangeKM),
              evRangeUnit := "km",
              charging := Some(o.chargeRemainMin > 0),
              estChargeDurationMin := Some(o.chargeRemainMin),
              estFastChargeDurationMin := Some(42),
              pluggedIn := Some(o.pluggedIn))
  {
  }

  lemma CCS2ChargerFields(vehicle: Json, o: Options, s: VehicleState)
    requires ChargerReadings(vehicle, o)
    ensures ChargerFields(s, vehicle) == s.(
              chargePortDoorOpen := Some(o.pluggedIn),
              chargeLimitAC := Some(80.0),
              chargeLimitDC := Some(100.0),
              chargingPowerKW := Some(7.2),
              battery12VPercentage := Some(87))
  {
  }

  lemma CCS2BodyFields(layouts: Layouts, vehicle: Json, forced: bool, s: VehicleState)
    requires ReadsMockTimes(layouts) && CabinAndDate(vehicle, forced)
    requires AllZero(Readings(vehicle, DOOR_LOCKS)) == Some(true)
    requires AnyRaised(Readings(vehicle, TIRE_FLAGS)) == Some(false)
    ensures BodyFields(layouts, s, vehicle) == s.(
              odometer := Some(4213.5),
              odometerUnit := "km",
              outsideTemperatureC := Some(18.5),
              insideTemperatureC := Some(21.0),
              locked := Some(true),
              tirePressureWarning := Some(false),
              lastUpdatedAt := StatusInstant(layouts, forced))
  {
  }

  lemma CCS2Parse(layouts: Layouts, vehicle: Json, o: Options, forced: bool)
    requires ReadsMockTimes(layouts)
    requires EnergyReadings(vehicle, o, forced) && ChargerReadings(vehicle, o) && CabinAndDate(vehicle, forced)
    requires AllZero(Readings(vehicle, DOOR_LOCKS)) == Some(true)
    requires AnyRaised(Readings(vehicle, TIRE_FLAGS)) == Some(false)
    ensures ParseCCS2(layouts, vehicle) == WithOdometer(CCS2Extras(CommonReading(layouts, o, forced), o))
  {
    var energy := EnergyFields(ZERO, vehicle);
    CCS2EnergyFields(vehicle, o, forced, ZERO);
    CCS2ChargerFields(vehicle, o, energy);
    CCS2BodyFields(layouts, vehicle, forced, ChargerFields(energy, vehicle));
  }

  lemma VehicleTreeReads(o: Options, forced: bool)
    ensures var vehicle := VehicleTree(o, forced);
            && EnergyReadings(vehicle, o, forced) && ChargerReadings(vehicle, o) && CabinAndDate(vehicle, forced)
            && AllZero(Readings(vehicle, DOOR_LOCKS)) == Some(true)
            && AnyRaised(Readings(vehicle, TIRE_FLAGS)) == Some(false)
  {
    DrivetrainReadings(o, forced);
    GreenReadings(o, forced);
    ChargingReadings(o, forced);
    CabinReadings(o, forced);
    TopLevel(o, forced);
    VehicleDoors(VehicleTree(o, forced));
    VehicleTires(o, forced);
  }

  lemma CCS2TreeParse(layouts: Layouts, o: Options, forced: bool)
    requires ReadsMockTimes(layouts)
    ensures ParseCCS2(layouts, VehicleTree(o, forced)) == WithOdometer(CCS2Extras(CommonReading(layouts, o, forced), o))
  {
    VehicleTreeReads(o, forced);
    CCS2Parse(layouts, VehicleTree(o, forced), o, forced);
  }

  lemma VehicleUnwraps(vehicle: Json)
    requires vehicle.Obj?
    ensures VehicleDocument(Ok(Success(Reading("state", Reading("Vehicle", vehicle))))) == Ok(vehicle)
  {
    SuccessUnwraps(Reading("state", Reading("Vehicle", vehicle)));
  }

  lemma CCS2ParkLocation(layouts: Layouts, o: Options)
    requires ReadsMockTimes(layouts) && o.ccs2
    ensures ParkLocation(layouts, Ok(LocationBody(o))) ==
            Ok(Fix(Some(o.latitude), Some(o.longitude), layouts.compact(FRESH_COMPACT)))
  {
    SuccessUnwraps(Obj(map["coord" := Coord(o), "time" := Str(FRESH_COMPACT)]));
    FixReadings(o);
  }

  lemma CCS2Assembly(layouts: Layouts, v: Vehicle, forced: bool, status: Body, park: Body, vehicle: Json, fix: Fix)
    requires v.IsCCS2() && vehicle.Obj?
    requires VehicleDocument(status) == Ok(vehicle) && ParkLocation(layouts, park) == Ok(fix)
    ensures ReadStatus(layouts, v, forced, status, park)
         == Ok(ParseCCS2(layouts, vehicle).(latitude := fix.lat, longitude := fix.lon, locationUpdatedAt := fix.at))
  {
  }

  lemma CCS2Read(layouts: Layouts, v: Vehicle, o: Options, forced: bool)
    requires ReadsMockTimes(layouts) && v.IsCCS2() && o.ccs2
    ensures ReadStatus(layouts, v, forced, Ok(StatusBody(o, forced)), Ok(LocationBody(o))) ==
            Ok(CCS2Reading(layouts, o, forced))
  {
    var vehicle := VehicleTree(o, forced);
    VehicleUnwraps(vehicle);
    CCS2ParkLocation(layouts, o);
    CCS2Assembly(layouts, v, forced, Ok(StatusBody(o, forced)), Ok(LocationBody(o)), vehicle,
      Fix(Some(o.latitude), Some(o.longitude), layouts.compact(FRESH_COMPACT)));
    CCS2TreeParse(layouts, o, forced);
  }

  // ---------------------------------------------------------------------------
  // Agreement
  // ---------------------------------------------------------------------------

  /** A state without what CCS1 does not expose: health, port door, power, temperatures, and the
      odometer on a forced read. */
  function Comparable(s: VehicleState, forced: bool): VehicleState {
    var s := s.(evBatterySoH := None, chargePortDoorOpen := None, chargingPowerKW := None,
                outsideTemperatureC := None, insideTemperatureC := None);
    if forced then s.(odometer := None, odometerUnit := "") else s
  }

  lemma ReadingsCompareIff(layouts: Layouts, ccs1: Options, ccs2: Options, forced: bool)
    requires ccs2 == ccs1.(ccs2 := true)
    ensures Comparable(CCS1Reading(layouts, ccs1, forced), forced) ==
            Comparable(CCS2Reading(layouts, ccs2, forced), forced)
            <==> !(ccs1.latitude == 0.0 == ccs1.longitude)
  {
  }

  /** Main result: for every canned vehicle, cached or forced, the CCS1 and the CCS2 exchange both
      succeed, and they give the same state exactly when the position is not (0, 0), which CCS1
      alone takes to mean unknown. */
  lemma ProtocolsAgreeIff(layouts: Layouts, v1: Vehicle, ccs1: Options, v2: Vehicle, ccs2: Options, forced: bool)
    requires ReadsMockTimes(layouts)
    requires !v1.IsCCS2() && !ccs1.ccs2 && v2.IsCCS2() && ccs2 == ccs1.(ccs2 := true)
    ensures var read1 := ReadStatus(layouts, v1, forced, Ok(StatusBody(ccs1, forced)), Ok(LocationBody(ccs1)));
            var read2 := ReadStatus(layouts, v2, forced, Ok(StatusBody(ccs2, forced)), Ok(LocationBody(ccs2)));
            && read1.Ok? && read2.Ok?
            && (Comparable(read1.value, forced) == Comparable(read2.value, forced) <==> !(ccs1.latitude == 0.0 == ccs1.longitude))
  {
    CCS1Read(layouts, v1, ccs1, forced);
    CCS2Read(layouts, v2, ccs2, forced);
    ReadingsCompareIff(layouts, ccs1, ccs2, forced);
  }
}
