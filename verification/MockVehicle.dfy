/** The mock API's printers (internal/mock/server.go): the same canned vehicle in either protocol. */
module MockVehicle {
  import opened Json

  datatype Options = Options(
    batteryPercent: real,
    rangeKM: real,
    chargeRemainMin: int,
    pluggedIn: bool,
    ccs2: bool,
    latitude: real,
    longitude: real)

  const FRESH_COMPACT := "20260710063000"
  const FORCED_COMPACT := "20260710050000"
  const FRESH_RFC3339 := "2026-07-10T06:30:00Z"
  const FORCED_RFC3339 := "2026-07-10T05:00:00Z"

  function Int(n: int): Json {
    Num(n as real)
  }

  function Battery(o: Options, forced: bool): Json {
    Num(o.batteryPercent + (if forced then 1.0 else 0.0))
  }

  function Flag(b: bool): Json {
    Int(if b then 1 else 0)
  }

  function Success(resMsg: Json): Json {
    Obj(map["retCode" := Str("S"), "resMsg" := resMsg])
  }

  function Coord(o: Options): Json {
    Obj(map["lat" := Num(o.latitude), "lon" := Num(o.longitude), "alt" := Int(0)])
  }

  /** handleLocation: the same fix for both protocols, one level deeper for the older one. */
  function LocationBody(o: Options): Json {
    var fix := Obj(map["coord" := Coord(o), "time" := Str(FRESH_COMPACT)]);
    Success(if o.ccs2 then fix else Obj(map["gpsDetail" := fix]))
  }

  // ---------------------------------------------------------------------------
  // CCS1
  // ---------------------------------------------------------------------------

  function Target(level: int, plug: int): Json {
    Obj(map["targetSOClevel" := Int(level), "plugType" := Int(plug)])
  }

  function Duration(value: int): Json {
    Obj(map["value" := Int(value), "unit" := Int(1)])
  }

  function RangeEntry(o: Options): Json {
    Obj(map[
      "rangeByFuel" := Obj(map["totalAvailableRange" := Obj(map["value" := Num(o.rangeKM), "unit" := Int(1)])]),
      "type" := Int(2)])
  }

  function EVStatus(o: Options, forced: bool): Json {
    Obj(map[
      "batteryCharge" := Bool(o.chargeRemainMin > 0),
      "batteryStatus" := Battery(o, forced),
      "batteryPlugin" := Flag(o.pluggedIn),
      "remainTime2" := Obj(map["atc" := Duration(o.chargeRemainMin), "etc3" := Duration(42)]),
      "drvDistance" := Arr([RangeEntry(o)]),
      "reservChargeInfos" := Obj(map["targetSOClist" := Arr([Target(100, 0), Target(80, 1)])])])
  }

  function VehicleStatus(o: Options, forced: bool): Json {
    Obj(map[
      "doorLock" := Bool(true),
      "evStatus" := EVStatus(o, forced),
      "tirePressureLamp" := Obj(map["tirePressureLampAll" := Int(0)]),
      "battery" := Obj(map["batSoc" := Int(87)]),
      "time" := Str(if forced then FORCED_COMPACT else FRESH_COMPACT)])
  }

  function StatusInfoTree(o: Options): Json {
    Obj(map[
      "vehicleLocation" := Obj(map["coord" := Coord(o), "time" := Str(FRESH_COMPACT)]),
      "vehicleStatus" := VehicleStatus(o, false),
      "odometer" := Obj(map["value" := Num(4213.5), "unit" := Int(1)])])
  }

  function CarStatusCCS1(o: Options, forced: bool): Json {
    if forced then Success(VehicleStatus(o, true))
    else Success(Obj(map["vehicleStatusInfo" := StatusInfoTree(o)]))
  }

  // ---------------------------------------------------------------------------
  // CCS2
  // ---------------------------------------------------------------------------

  function Reading(name: string, value: Json): Json {
    Obj(map[name := value])
  }

  function Drivetrain(o: Options): Json {
    Obj(map[
      "Odometer" := Num(4213.5),
      "FuelSystem" := Obj(map["DTE" := Obj(map["Total" := Num(o.rangeKM), "Unit" := Int(1)])])])
  }

  function ChargingInformation(o: Options): Json {
    Obj(map[
      "Charging" := Reading("RemainTime", Int(o.chargeRemainMin)),
      "EstimatedTime" := Obj(map["Quick" := Int(42), "Standard" := Int(320), "ICCB" := Int(600)]),
      "ConnectorFastening" := Reading("State", Flag(o.pluggedIn)),
      "TargetSoC" := Obj(map["Standard" := Int(80), "Quick" := Int(100)])])
  }

  function Green(o: Options, forced: bool): Json {
    Obj(map[
      "BatteryManagement" := Obj(map[
        "BatteryRemain" := Reading("Ratio", Battery(o, forced)),
        "SoH" := Reading("Ratio", Int(99))]),
      "ChargingInformation" := ChargingInformation(o),
      "ChargingDoor" := Reading("State", Flag(o.pluggedIn)),
      "Electric" := Reading("SmartGrid", Reading("RealTimePower", Num(7.2)))])
  }

  function Doors(): Json {
    Obj(map[
      "Row1" := Obj(map["Driver" := Reading("Lock", Int(0)), "Passenger" := Reading("Lock", Int(0))]),
      "Row2" := Obj(map["Left" := Reading("Lock", Int(0)), "Right" := Reading("Lock", Int(0))])])
  }

  function Cabin(): Json {
    Obj(map[
      "HVAC" := Obj(map[
        "OutsideTemperature" := Obj(map["Value" := Num(18.5), "Unit" := Int(0)]),
        "Row1" := Reading("Driver", Reading("Temperature", Obj(map["Value" := Int(21), "Unit" := Int(0)])))]),
      "Door" := Doors()])
  }

  function VehicleTree(o: Options, forced: bool): Json {
    Obj(map[
      "Date" := Str(if forced then FORCED_RFC3339 else FRESH_RFC3339),
      "Drivetrain" := Drivetrain(o),
      "Electronics" := Reading("Battery", Obj(map["Level" := Int(87), "SensorReliability" := Int(0)])),
      "Green" := Green(o, forced),
      "Cabin" := Cabin(),
      "Chassis" := Reading("Axle", Reading("Tire", Reading("PressureLow", Int(0))))])
  }

  function CarStatus(o: Options, forced: bool): Json {
    Success(Reading("state", Reading("Vehicle", VehicleTree(o, forced))))
  }

  /** The status body the mock serves for the protocol it reports. */
  function StatusBody(o: Options, forced: bool): Json {
    if o.ccs2 then CarStatus(o, forced) else CarStatusCCS1(o, forced)
  }
}
