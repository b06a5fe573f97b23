/** What a state says about the document it was parsed from (internal/bluelink/parse_ccs2.go,
    internal/bluelink/parse_ccs1.go), told of the numbers in the document. */
module DocumentLaws {
  import opened Wrappers
  import opened VehicleModel
  import opened Json
  import opened Layouts
  import opened Distances
  import opened CCS2Parser
  import opened CCS1Parser
  import opened StatusFetch

  // ---------------------------------------------------------------------------
  // Distances
  // ---------------------------------------------------------------------------

  /** A distance in the document stands for this many kilometres per unit of its number; nothing is
      known of a unit index other than one to three. */
  function LengthOfOne(index: Json): Option<real> {
    match AsInt(index)
    case Some(i) => if i == 1 then Some(1.0) else if 2 <= i <= 3 then Some(1.609344) else None
    case None => None
  }

  /** The reading says what the document's number and unit index say. */
  predicate ReadsAs(value: Option<real>, unit: string, number: Json, index: Json) {
    && value == AsFloat(number)
    && (LengthOfOne(index).None? ==> unit == "")
    && (LengthOfOne(index).Some? ==> Known(unit) && Kilometres(1.0, unit) == LengthOfOne(index).value)
  }

  /** Published, it still does: within 0.05 of the configured unit of the document's own length. */
  ghost predicate PublishesAs(published: Option<real>, shown: string, number: Json, index: Json, configured: string)
    requires Known(configured)
  {
    AsFloat(number).Some? && LengthOfOne(index).Some? ==>
      && published.Some? && shown == configured
      && var error := Kilometres(published.value, configured) - AsFloat(number).value * LengthOfOne(index).value;
         -Kilometres(0.05, configured) <= error <= Kilometres(0.05, configured)
  }

  lemma ReadThenPublished(value: Option<real>, unit: string, number: Json, index: Json, configured: string)
    requires Known(configured) && ReadsAs(value, unit, number, index)
    ensures var (published, shown) := ConvertDistanceField(value, unit, configured);
            PublishesAs(published, shown, number, index, configured)
  {
    ConvertedRightly(value, unit, configured);
  }

  /** The CCS2 range and odometer, for every document. The odometer has no unit index: it is in km. */
  lemma CCS2Distances(layouts: Layouts, vehicle: Json)
    ensures var s := ParseCCS2(layouts, vehicle);
            && ReadsAs(s.evRange, s.evRangeUnit, GetPath(vehicle, ["Drivetrain", "FuelSystem", "DTE", "Total"]),
                       GetPath(vehicle, ["Drivetrain", "FuelSystem", "DTE", "Unit"]))
            && s.odometer == AsFloat(GetPath(vehicle, ["Drivetrain", "Odometer"]))
            && (s.odometer.Some? ==> s.odometerUnit == "km")
  {
  }

  lemma OdometerReads(s: VehicleState, odometer: Json)
    ensures var t := OdometerFields(s, odometer);
            ReadsAs(t.odometer, t.odometerUnit, GetPath(odometer, ["value"]), GetPath(odometer, ["unit"]))
  {
  }

  // What each part of the CCS1 parse leaves to the parts before it.

  lemma LocationKeeps(layouts: Layouts, s: VehicleState, location: Json)
    ensures LocationFields(layouts, s, location).(latitude := s.latitude, longitude := s.longitude,
                                                  locationUpdatedAt := s.locationUpdatedAt) == s
  {
  }

  lemma OdometerKeeps(s: VehicleState, odometer: Json)
    ensures OdometerFields(s, odometer).(odometer := s.odometer, odometerUnit := s.odometerUnit) == s
  {
  }

  /** The parse, with the odometer and location it adds to what the status document gives. */
  lemma CCS1Parts(layouts: Layouts, status: Json, odometer: Json, location: Json, parsed: Result<VehicleState, string>)
    requires var s := StatusFields(layouts, EVFields(ZERO, GetPath(status, ["evStatus"])), status);
             parsed == Ok(LocationFields(layouts, OdometerFields(s, odometer), location))
    ensures var s := StatusFields(layouts, EVFields(ZERO, GetPath(status, ["evStatus"])), status);
            && parsed.value.odometer == OdometerFields(s, odometer).odometer
            && parsed.value.odometerUnit == OdometerFields(s, odometer).odometerUnit
            && parsed.value.battery12VPercentage == s.battery12VPercentage
            && parsed.value.lastUpdatedAt == s.lastUpdatedAt
            && parsed.value.locked == s.locked && parsed.value.tirePressureWarning == s.tirePressureWarning
  {
    var s := StatusFields(layouts, EVFields(ZERO, GetPath(status, ["evStatus"])), status);
    OdometerKeeps(s, odometer);
    LocationKeeps(layouts, OdometerFields(s, odometer), location);
  }

  lemma CCS1Is(layouts: Layouts, info: Json, status: Json, odometer: Json, location: Json)
    requires GetPath(info, ["vehicleStatus"]) == status != Null
    requires GetPath(info, ["odometer"]) == odometer && GetPath(info, ["vehicleLocation"]) == location
    ensures var s := StatusFields(layouts, EVFields(ZERO, GetPath(status, ["evStatus"])), status);
            ParseCCS1(layouts, info) == Ok(LocationFields(layouts, OdometerFields(s, odometer), location))
  {
  }

  lemma CCS1FromOdometer(layouts: Layouts, info: Json, status: Json, odometer: Json) returns (before: VehicleState)
    requires GetPath(info, ["vehicleStatus"]) == status != Null && GetPath(info, ["odometer"]) == odometer
    ensures ParseCCS1(layouts, info).Ok?
    ensures ParseCCS1(layouts, info).value.odometer == OdometerFields(before, odometer).odometer
    ensures ParseCCS1(layouts, info).value.odometerUnit == OdometerFields(before, odometer).odometerUnit
  {
    var location := GetPath(info, ["vehicleLocation"]);
    CCS1Is(layouts, info, status, odometer, location);
    CCS1Parts(layouts, status, odometer, location, ParseCCS1(layouts, info));
    before := StatusFields(layouts, EVFields(ZERO, GetPath(status, ["evStatus"])), status);
  }

  /** The CCS1 odometer, for every document that parses. */
  lemma CCS1Odometer(layouts: Layouts, info: Json)
    requires GetPath(info, ["vehicleStatus"]) != Null
    ensures ParseCCS1(layouts, info).Ok?
    ensures var s := ParseCCS1(layouts, info).value;
            ReadsAs(s.odometer, s.odometerUnit, GetPath(info, ["odometer", "value"]), GetPath(info, ["odometer", "unit"]))
  {
    var odometer := GetPath(info, ["odometer"]);
    PathBelow(info, ["odometer"], ["value"], ["odometer", "value"]);
    PathBelow(info, ["odometer"], ["unit"], ["odometer", "unit"]);
    var before := CCS1FromOdometer(layouts, info, GetPath(info, ["vehicleStatus"]), odometer);
    OdometerReads(before, odometer);
  }

  lemma EVRange(s: VehicleState, ev: Json, drv: Json, first: Json)
    requires GetPath(ev, ["drvDistance"]) == drv && drv.Arr? && |drv.items| > 0 && drv.items[0] == first && first.Obj?
    ensures var t := EVFields(s, ev);
            ReadsAs(t.evRange, t.evRangeUnit, GetPath(first, ["rangeByFuel", "totalAvailableRange", "value"]),
                    GetPath(first, ["rangeByFuel", "totalAvailableRange", "unit"]))
  {
  }

  /** The CCS1 range: the first entry of drvDistance. */
  lemma CCS1Range(layouts: Layouts, info: Json, drv: Json, first: Json)
    requires GetPath(info, ["vehicleStatus"]) != Null
    requires GetPath(info, ["vehicleStatus", "evStatus", "drvDistance"]) == drv
    requires drv.Arr? && |drv.items| > 0 && drv.items[0] == first && first.Obj?
    ensures ParseCCS1(layouts, info).Ok?
    ensures var s := ParseCCS1(layouts, info).value;
            ReadsAs(s.evRange, s.evRangeUnit, GetPath(first, ["rangeByFuel", "totalAvailableRange", "value"]),
                    GetPath(first, ["rangeByFuel", "totalAvailableRange", "unit"]))
  {
    PathBelow(info, ["vehicleStatus"], ["evStatus", "drvDistance"], ["vehicleStatus", "evStatus", "drvDistance"]);
    var status := GetPath(info, ["vehicleStatus"]);
    PathBelow(status, ["evStatus"], ["drvDistance"], ["evStatus", "drvDistance"]);
    EVRange(ZERO, GetPath(status, ["evStatus"]), drv, first);
  }

  /** From the CCS2 status body to what is published of the range. */
  lemma CCS2RangePublished(layouts: Layouts, v: Vehicle, force: bool, status: Body, park: Body, vehicle: Json, configured: string)
    requires v.IsCCS2() && VehicleDocument(status) == Ok(vehicle) && vehicle != Null && Known(configured)
    ensures ReadStatus(layouts, v, force, status, park).Ok?
    ensures var p := InDistanceUnit(ReadStatus(layouts, v, force, status, park).value, configured);
            PublishesAs(p.evRange, p.evRangeUnit, GetPath(vehicle, ["Drivetrain", "FuelSystem", "DTE", "Total"]),
                        GetPath(vehicle, ["Drivetrain", "FuelSystem", "DTE", "Unit"]), configured)
  {
    CCS2Distances(layouts, vehicle);
    var s := ParseCCS2(layouts, vehicle);
    ReadThenPublished(s.evRange, s.evRangeUnit, GetPath(vehicle, ["Drivetrain", "FuelSystem", "DTE", "Total"]),
                      GetPath(vehicle, ["Drivetrain", "FuelSystem", "DTE", "Unit"]), configured);
  }

  /** From a cached CCS1 status body to what is published of its odometer and its range. */
  lemma CCS1DistancesPublished(layouts: Layouts, v: Vehicle, status: Body, park: Body, info: Json, drv: Json, first: Json,
                               configured: string)
    requires !v.IsCCS2() && StatusInfo(status) == Ok(info) && GetPath(info, ["vehicleStatus"]) != Null
    requires GetPath(info, ["vehicleStatus", "evStatus", "drvDistance"]) == drv && Known(configured)
    requires drv.Arr? && |drv.items| > 0 && drv.items[0] == first && first.Obj?
    ensures ReadStatus(layouts, v, false, status, park).Ok?
    ensures var p := InDistanceUnit(ReadStatus(layouts, v, false, status, park).value, configured);
            && PublishesAs(p.odometer, p.odometerUnit, GetPath(info, ["odometer", "value"]),
                           GetPath(info, ["odometer", "unit"]), configured)
            && PublishesAs(p.evRange, p.evRangeUnit, GetPath(first, ["rangeByFuel", "totalAvailableRange", "value"]),
                           GetPath(first, ["rangeByFuel", "totalAvailableRange", "unit"]), configured)
  {
    CCS1Odometer(layouts, info);
    CCS1Range(layouts, info, drv, first);
    var s := ParseCCS1(layouts, info).value;
    ReadThenPublished(s.odometer, s.odometerUnit, GetPath(info, ["odometer", "value"]),
                      GetPath(info, ["odometer", "unit"]), configured);
    ReadThenPublished(s.evRange, s.evRangeUnit, GetPath(first, ["rangeByFuel", "totalAvailableRange", "value"]),
                      GetPath(first, ["rangeByFuel", "totalAvailableRange", "unit"]), configured);
  }

  // ---------------------------------------------------------------------------
  // Temperatures
  // ---------------------------------------------------------------------------

  /** In degrees Celsius, whatever the document's scale: index 1 is Fahrenheit. */
  predicate Celsius(value: Option<real>, number: Json, index: Json) {
    && (value.Some? <==> AsFloat(number).Some?)
    && (value.Some? && AsInt(index) == Some(1) ==> 9.0 * value.value == 5.0 * (AsFloat(number).value - 32.0))
    && (value.Some? && AsInt(index) != Some(1) ==> value == AsFloat(number))
  }

  lemma CCS2Temperatures(layouts: Layouts, vehicle: Json)
    ensures var s := ParseCCS2(layouts, vehicle);
            && Celsius(s.outsideTemperatureC, GetPath(vehicle, ["Cabin", "HVAC", "OutsideTemperature", "Value"]),
                       GetPath(vehicle, ["Cabin", "HVAC", "OutsideTemperature", "Unit"]))
            && Celsius(s.insideTemperatureC, GetPath(vehicle, ["Cabin", "HVAC", "Row1", "Driver", "Temperature", "Value"]),
                       GetPath(vehicle, ["Cabin", "HVAC", "Row1", "Driver", "Temperature", "Unit"]))
  {
  }

  // ---------------------------------------------------------------------------
  // Battery and plug
  // ---------------------------------------------------------------------------

  /** The whole percents of a level between 0 and 100 that is not marked unreliable, nothing else. */
  predicate Percent(value: Option<int>, level: Json, reliability: Option<int>) {
    var number := AsFloat(level);
    && (value.Some? <==> number.Some? && 0.0 <= number.value <= 100.0 && reliability != Some(1))
    && (value.Some? ==> value.value as real <= number.value < value.value as real + 1.0)
  }

  lemma CCS2Battery(layouts: Layouts, vehicle: Json)
    ensures Percent(ParseCCS2(layouts, vehicle).battery12VPercentage, GetPath(vehicle, ["Electronics", "Battery", "Level"]),
                    AsInt(GetPath(vehicle, ["Electronics", "Battery", "SensorReliability"])))
  {
  }

  /** The fields CCS1 takes from the status document itself. */
  lemma CCS1FromStatus(layouts: Layouts, info: Json, status: Json) returns (before: VehicleState)
    requires GetPath(info, ["vehicleStatus"]) == status != Null
    ensures ParseCCS1(layouts, info).Ok? && before.lastUpdatedAt.None?
    ensures var s, t := ParseCCS1(layouts, info).value, StatusFields(layouts, before, status);
            && s.battery12VPercentage == t.battery12VPercentage && s.lastUpdatedAt == t.lastUpdatedAt
            && s.locked == t.locked && s.tirePressureWarning == t.tirePressureWarning
  {
    var odometer, location := GetPath(info, ["odometer"]), GetPath(info, ["vehicleLocation"]);
    CCS1Is(layouts, info, status, odometer, location);
    CCS1Parts(layouts, status, odometer, location, ParseCCS1(layouts, info));
    before := EVFields(ZERO, GetPath(status, ["evStatus"]));
    assert before.lastUpdatedAt == ZERO.lastUpdatedAt;
  }

  lemma StatusBattery(layouts: Layouts, s: VehicleState, status: Json)
    ensures Percent(StatusFields(layouts, s, status).battery12VPercentage, GetPath(status, ["battery", "batSoc"]), None)
  {
  }

  lemma CCS1Battery(layouts: Layouts, info: Json)
    requires GetPath(info, ["vehicleStatus"]) != Null
    ensures ParseCCS1(layouts, info).Ok?
    ensures Percent(ParseCCS1(layouts, info).value.battery12VPercentage,
                    GetPath(info, ["vehicleStatus", "battery", "batSoc"]), None)
  {
    var status := GetPath(info, ["vehicleStatus"]);
    PathBelow(info, ["vehicleStatus"], ["battery", "batSoc"], ["vehicleStatus", "battery", "batSoc"]);
    var before := CCS1FromStatus(layouts, info, status);
    StatusBattery(layouts, before, status);
  }

  /** Yes for any number but zero, unknown without one. */
  predicate SaysNonZero(value: Option<bool>, number: Json) {
    && (value.None? <==> AsInt(number).None?)
    && (value == Some(false) <==> AsInt(number) == Some(0))
  }

  /** Plugged in, charging and the port door, for every CCS2 document. */
  lemma CCS2Plug(layouts: Layouts, vehicle: Json)
    ensures var s := ParseCCS2(layouts, vehicle);
            var remain := AsInt(GetPath(vehicle, ["Green", "ChargingInformation", "Charging", "RemainTime"]));
            var door := AsInt(GetPath(vehicle, ["Green", "ChargingDoor", "State"]));
            && SaysNonZero(s.pluggedIn, GetPath(vehicle, ["Green", "ChargingInformation", "ConnectorFastening", "State"]))
            && s.estChargeDurationMin == remain && (s.charging.None? <==> remain.None?)
            && (s.charging == Some(true) <==> remain.Some? && remain.value > 0)
            && (s.chargePortDoorOpen == Some(true) <==> door == Some(1))
            && (s.chargePortDoorOpen == Some(false) <==> door == Some(0) || door == Some(2))
  {
  }

  lemma EVPlug(s: VehicleState, ev: Json)
    requires s.pluggedIn.None?
    ensures SaysNonZero(EVFields(s, ev).pluggedIn, GetPath(ev, ["batteryPlugin"]))
  {
  }

  /** Plugged in, AC or DC, for every CCS1 document that parses. */
  lemma CCS1Plug(layouts: Layouts, info: Json)
    requires GetPath(info, ["vehicleStatus"]) != Null
    ensures ParseCCS1(layouts, info).Ok?
    ensures SaysNonZero(ParseCCS1(layouts, info).value.pluggedIn, GetPath(info, ["vehicleStatus", "evStatus", "batteryPlugin"]))
  {
    PathBelow(info, ["vehicleStatus"], ["evStatus", "batteryPlugin"], ["vehicleStatus", "evStatus", "batteryPlugin"]);
    var status := GetPath(info, ["vehicleStatus"]);
    PathBelow(status, ["evStatus"], ["batteryPlugin"], ["evStatus", "batteryPlugin"]);
    EVPlug(ZERO, GetPath(status, ["evStatus"]));
  }

  /** An entry of the target list counts for a plug type exactly when it is an object with that type
      and a number for its level: type 0 is DC, type 1 is AC. */
  lemma TargetEntries(entry: Json, level: real)
    ensures TargetLevel(entry, DC_PLUG) == Some(level) <==>
            && entry.Obj? && AsFloat(GetPath(entry, ["targetSOClevel"])) == Some(level)
            && AsInt(GetPath(entry, ["plugType"])) == Some(0)
    ensures TargetLevel(entry, AC_PLUG) == Some(level) <==>
            && entry.Obj? && AsFloat(GetPath(entry, ["targetSOClevel"])) == Some(level)
            && AsInt(GetPath(entry, ["plugType"])) == Some(1)
  {
  }

  // ---------------------------------------------------------------------------
  // Doors and tires
  // ---------------------------------------------------------------------------

  lemma FourReadings(a: Option<int>, b: Option<int>, c: Option<int>, d: Option<int>)
    ensures AllZero([a, b, c, d]).None? <==> a.None? || b.None? || c.None? || d.None?
    ensures AllZero([a, b, c, d]) == Some(true) <==> a == b == c == d == Some(0)
  {
    var all := [a, b, c, d];
    assert all[0] == a && all[1] == b && all[2] == c && all[3] == d;
  }

  /** Locked when all four doors read zero, unknown when one of them has no reading. */
  lemma CCS2Locked(layouts: Layouts, vehicle: Json)
    ensures var locked := ParseCCS2(layouts, vehicle).locked;
            var driver := AsInt(GetPath(vehicle, ["Cabin", "Door", "Row1", "Driver", "Lock"]));
            var passenger := AsInt(GetPath(vehicle, ["Cabin", "Door", "Row1", "Passenger", "Lock"]));
            var left := AsInt(GetPath(vehicle, ["Cabin", "Door", "Row2", "Left", "Lock"]));
            var right := AsInt(GetPath(vehicle, ["Cabin", "Door", "Row2", "Right", "Lock"]));
            && (locked.None? <==> driver.None? || passenger.None? || left.None? || right.None?)
            && (locked == Some(true) <==> driver == passenger == left == right == Some(0))
  {
    var r := Readings(vehicle, DOOR_LOCKS);
    FourReadings(r[0], r[1], r[2], r[3]);
    assert r == [r[0], r[1], r[2], r[3]];
  }

  predicate Raised(reading: Option<int>) {
    reading.Some? && reading.value != 0
  }

  lemma FiveReadings(a: Option<int>, b: Option<int>, c: Option<int>, d: Option<int>, e: Option<int>)
    ensures AnyRaised([a, b, c, d, e]).None? <==> a.None? && b.None? && c.None? && d.None? && e.None?
    ensures AnyRaised([a, b, c, d, e]) == Some(true) <==> Raised(a) || Raised(b) || Raised(c) || Raised(d) || Raised(e)
  {
    var all := [a, b, c, d, e];
    assert all[0] == a && all[1] == b && all[2] == c && all[3] == d && all[4] == e;
  }

  /** A warning when one of the five flags is raised, unknown when none of them has a reading. */
  lemma CCS2Tires(layouts: Layouts, vehicle: Json)
    ensures var warning := ParseCCS2(layouts, vehicle).tirePressureWarning;
            var all := AsInt(GetPath(vehicle, ["Chassis", "Axle", "Tire", "PressureLow"]));
            var fl := AsInt(GetPath(vehicle, ["Chassis", "Axle", "Row1", "Left", "Tire", "PressureLow"]));
            var fr := AsInt(GetPath(vehicle, ["Chassis", "Axle", "Row1", "Right", "Tire", "PressureLow"]));
            var rl := AsInt(GetPath(vehicle, ["Chassis", "Axle", "Row2", "Left", "Tire", "PressureLow"]));
            var rr := AsInt(GetPath(vehicle, ["Chassis", "Axle", "Row2", "Right", "Tire", "PressureLow"]));
            && (warning.None? <==> all.None? && fl.None? && fr.None? && rl.None? && rr.None?)
            && (warning == Some(true) <==> Raised(all) || Raised(fl) || Raised(fr) || Raised(rl) || Raised(rr))
  {
    var r := Readings(vehicle, TIRE_FLAGS);
    FiveReadings(r[0], r[1], r[2], r[3], r[4]);
    assert r == [r[0], r[1], r[2], r[3], r[4]];
  }

  /** What the lamps of a CCS1 status document say. */
  lemma LampsOfStatus(status: Json)
    ensures var warning := AnyRaised(Readings(status, LAMPS));
            var all := AsInt(GetPath(status, ["tirePressureLamp", "tirePressureLampAll"]));
            var fl := AsInt(GetPath(status, ["tirePressureLamp", "tirePressureLampFL"]));
            var fr := AsInt(GetPath(status, ["tirePressureLamp", "tirePressureLampFR"]));
            var rl := AsInt(GetPath(status, ["tirePressureLamp", "tirePressureLampRL"]));
            var rr := AsInt(GetPath(status, ["tirePressureLamp", "tirePressureLampRR"]));
            && (warning.None? <==> all.None? && fl.None? && fr.None? && rl.None? && rr.None?)
            && (warning == Some(true) <==> Raised(all) || Raised(fl) || Raised(fr) || Raised(rl) || Raised(rr))
  {
    var r := Readings(status, LAMPS);
    FiveReadings(r[0], r[1], r[2], r[3], r[4]);
    assert r == [r[0], r[1], r[2], r[3], r[4]];
  }

  lemma StatusLock(layouts: Layouts, s: VehicleState, status: Json)
    ensures var t := StatusFields(layouts, s, status);
            && t.tirePressureWarning == AnyRaised(Readings(status, LAMPS))
            && (t.locked.Some? <==> GetPath(status, ["doorLock"]).Bool?)
            && (t.locked.Some? ==> t.locked.value == GetPath(status, ["doorLock"]).truth)
  {
  }

  /** The same for the five lamps of CCS1, and the door lock as the document has it. */
  lemma CCS1TiresAndLock(layouts: Layouts, info: Json)
    requires GetPath(info, ["vehicleStatus"]) != Null
    ensures ParseCCS1(layouts, info).Ok?
    ensures var s := ParseCCS1(layouts, info).value;
            var status := GetPath(info, ["vehicleStatus"]);
            && s.tirePressureWarning == AnyRaised(Readings(status, LAMPS))
            && (s.locked.Some? <==> GetPath(status, ["doorLock"]).Bool?)
            && (s.locked.Some? ==> s.locked.value == GetPath(status, ["doorLock"]).truth)
  {
    var before := CCS1FromStatus(layouts, info, GetPath(info, ["vehicleStatus"]));
    StatusLock(layouts, before, GetPath(info, ["vehicleStatus"]));
  }

  // ---------------------------------------------------------------------------
  // Timestamps
  // ---------------------------------------------------------------------------

  /** The first layout of the list that reads the text, and none for no text. */
  predicate FirstReading(value: Option<int>, text: string, first: Option<int>, second: Option<int>, third: Option<int>) {
    && (value.Some? <==> text != "" && (first.Some? || second.Some? || third.Some?))
    && (value.Some? && first.Some? ==> value == first)
    && (value.Some? && first.None? && second.Some? ==> value == second)
    && (value.Some? && first.None? && second.None? ==> value == third)
  }

  /** CCS2 tries RFC 3339, the compact and the spaced form in this order. */
  lemma CCS2Date(layouts: Layouts, vehicle: Json)
    ensures var text := AsString(GetPath(vehicle, ["Date"]));
            FirstReading(ParseCCS2(layouts, vehicle).lastUpdatedAt, text,
                         layouts.rfc3339(text), layouts.compact(text), layouts.spaced(text))
  {
  }

  lemma StatusTime(layouts: Layouts, s: VehicleState, status: Json)
    requires s.lastUpdatedAt.None?
    ensures var text := AsString(GetPath(status, ["time"]));
            FirstReading(StatusFields(layouts, s, status).lastUpdatedAt, text, layouts.compact(text), layouts.rfc3339(text), None)
  {
  }

  /** CCS1 tries the compact form before RFC 3339, and no other. */
  lemma CCS1Time(layouts: Layouts, info: Json)
    requires GetPath(info, ["vehicleStatus"]) != Null
    ensures ParseCCS1(layouts, info).Ok?
    ensures var text := AsString(GetPath(info, ["vehicleStatus", "time"]));
            FirstReading(ParseCCS1(layouts, info).value.lastUpdatedAt, text, layouts.compact(text), layouts.rfc3339(text), None)
  {
    var status := GetPath(info, ["vehicleStatus"]);
    PathBelow(info, ["vehicleStatus"], ["time"], ["vehicleStatus", "time"]);
    var before := CCS1FromStatus(layouts, info, status);
    StatusTime(layouts, before, status);
  }

  // ---------------------------------------------------------------------------
  // Numbers
  // ---------------------------------------------------------------------------

  /** A number is itself, a boolean one or zero, nothing else is a number; an integer is what is left
      of one after dropping its fraction, towards zero. */
  lemma NumbersOfTrees(j: Json)
    ensures AsFloat(j).Some? <==> j.Num? || j.Bool?
    ensures j.Num? ==> AsFloat(j).value == j.number
    ensures j.Bool? ==> AsFloat(j).value == (if j.truth then 1.0 else 0.0)
    ensures AsInt(j).Some? <==> AsFloat(j).Some?
    ensures AsInt(j).Some? && AsFloat(j).value >= 0.0 ==>
              AsInt(j).value as real <= AsFloat(j).value < AsInt(j).value as real + 1.0
    ensures AsInt(j).Some? && AsFloat(j).value <= 0.0 ==>
              AsInt(j).value as real - 1.0 < AsFloat(j).value <= AsInt(j).value as real
  {
  }
}
