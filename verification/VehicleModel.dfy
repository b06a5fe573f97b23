/** The normalised vehicle snapshot (internal/bluelink/model.go).
    Pointer fields are optional values, floats are exact reals, timestamps are abstract instants. */
module VehicleModel {
  import opened Wrappers

  datatype Vehicle = Vehicle(id: string, ccs2ProtocolSupport: int) {
    predicate IsCCS2() {
      ccs2ProtocolSupport != 0
    }
  }

  datatype VehicleState = VehicleState(
    evBatteryPercentage: Option<real>,
    evBatterySoH: Option<real>,
    evRange: Option<real>,
    evRangeUnit: string,
    charging: Option<bool>,
    pluggedIn: Option<bool>,
    chargePortDoorOpen: Option<bool>,
    chargeLimitAC: Option<real>,
    chargeLimitDC: Option<real>,
    chargingPowerKW: Option<real>,
    estChargeDurationMin: Option<int>,
    estFastChargeDurationMin: Option<int>,
    battery12VPercentage: Option<int>,
    odometer: Option<real>,
    odometerUnit: string,
    outsideTemperatureC: Option<real>,
    insideTemperatureC: Option<real>,
    locked: Option<bool>,
    tirePressureWarning: Option<bool>,
    latitude: Option<real>,
    longitude: Option<real>,
    locationUpdatedAt: Option<int>,
    lastUpdatedAt: Option<int>)

  /** Go's zero VehicleState: every pointer nil, every string empty. */
  const ZERO: VehicleState := VehicleState(
    None, None, None, "", None, None, None, None, None, None, None, None,
    None, None, "", None, None, None, None, None, None, None, None)
}
