/** From the response bodies to the published distances (internal/bluelink/status.go,
    internal/bluelink/parse_ccs1.go, internal/bluelink/parse_ccs2.go, internal/bluelink/model.go,
    internal/homeassistant/entities.go). */
module DistanceLabels {
  import opened Wrappers
  import opened VehicleModel
  import opened Json
  import opened Layouts
  import opened Distances
  import opened CCS2Parser
  import opened CCS1Parser
  import opened StatusFetch

  lemma IndexedUnit(index: Option<int>)
    ensures DistanceUnit(index) == "" || Known(DistanceUnit(index))
  {
  }

  lemma CCS2EnergyUnits(s: VehicleState, state: Json)
    requires UnitsParsed(s)
    ensures UnitsParsed(EnergyFields(s, state))
  {
    IndexedUnit(GetInt(state, ["Drivetrain", "FuelSystem", "DTE", "Unit"]));
  }

  lemma CCS2Units(layouts: Layouts, state: Json)
    ensures UnitsParsed(ParseCCS2(layouts, state))
  {
    CCS2EnergyUnits(ZERO, state);
  }

  lemma CCS1EVUnits(s: VehicleState, ev: Json)
    requires UnitsParsed(s)
    ensures UnitsParsed(EVFields(s, ev))
  {
    var drv := Items(GetPath(ev, ["drvDistance"]));
    if |drv| > 0 && drv[0].Obj? {
      IndexedUnit(GetInt(drv[0], ["rangeByFuel", "totalAvailableRange", "unit"]));
    }
  }

  lemma CCS1OdometerUnits(s: VehicleState, odometer: Json)
    requires UnitsParsed(s)
    ensures UnitsParsed(OdometerFields(s, odometer))
  {
    IndexedUnit(GetInt(odometer, ["unit"]));
  }

  lemma CCS1LocationUnits(layouts: Layouts, s: VehicleState, location: Json)
    requires UnitsParsed(s)
    ensures UnitsParsed(LocationFields(layouts, s, location))
  {
  }

  lemma CCS1StatusUnits(layouts: Layouts, s: VehicleState, status: Json)
    requires UnitsParsed(s)
    ensures UnitsParsed(StatusFields(layouts, s, status))
  {
  }

  lemma CCS1AssembledUnits(layouts: Layouts, ev: Json, status: Json, odometer: Json, location: Json)
    ensures var s := StatusFields(layouts, EVFields(ZERO, ev), status);
            UnitsParsed(LocationFields(layouts, OdometerFields(s, odometer), location))
  {
    var s := EVFields(ZERO, ev);
    CCS1EVUnits(ZERO, ev);
    CCS1StatusUnits(layouts, s, status);
    CCS1OdometerUnits(StatusFields(layouts, s, status), odometer);
    CCS1LocationUnits(layouts, OdometerFields(StatusFields(layouts, s, status), odometer), location);
  }

  lemma CCS1Units(layouts: Layouts, info: Json)
    requires ParseCCS1(layouts, info).Ok?
    ensures UnitsParsed(ParseCCS1(layouts, info).value)
  {
    var status := GetPath(info, ["vehicleStatus"]);
    CCS1AssembledUnits(layouts, GetPath(status, ["evStatus"]), status,
      GetPath(info, ["odometer"]), GetPath(info, ["vehicleLocation"]));
  }

  /** Every state a read returns comes from one of the two parsers, but for its position. */
  lemma FetchedUnits(layouts: Layouts, v: Vehicle, force: bool, status: Body, park: Body)
    requires ReadStatus(layouts, v, force, status, park).Ok?
    ensures UnitsParsed(ReadStatus(layouts, v, force, status, park).value)
  {
    if v.IsCCS2() {
      CCS2Units(layouts, VehicleDocument(status).value);
    } else if force {
      CCS1Units(layouts, ForcedInfo(ResMsg(status).value, OrNull(ParkLocationCCS1(park))));
    } else {
      CCS1Units(layouts, StatusInfo(status).value);
    }
  }

  /** Whatever the servers answered, for both protocols, cached or forced, and either configured
      unit: what a read returns is published rightly, and unchanged but for its distances. */
  lemma FetchedDistancesArePublishedRightly(layouts: Layouts, v: Vehicle, force: bool, status: Body, park: Body,
                                            configured: string)
    requires Configurable(configured)
    requires ReadStatus(layouts, v, force, status, park).Ok?
    ensures var s := ReadStatus(layouts, v, force, status, park).value;
            SaysTheSame(InDistanceUnit(s, configured), s, configured)
  {
    FetchedUnits(layouts, v, force, status, park);
    ConvertedStateSaysTheSame(ReadStatus(layouts, v, force, status, park).value, configured);
  }
}
