/** The CCS1 status parser (internal/bluelink/parse_ccs1.go). The specification reads each of the
    three sub-documents on its own; the method reads full dotted paths from the top, as the program
    does, and the two are tied together by the path-composition law. */
module CCS1Parser {
  import opened Wrappers
  import opened VehicleModel
  import opened Json
  import opened Layouts
  import opened CCS2Parser

  // ---------------------------------------------------------------------------
  // Target state of charge per plug type
  // ---------------------------------------------------------------------------

  const DC_PLUG := 0
  const AC_PLUG := 1

  /** The level an entry sets for the plug type, if it is a well-formed entry of that type. */
  function TargetLevel(entry: Json, plug: int): Option<real> {
    if entry.Obj? && GetInt(entry, ["plugType"]) == Some(plug) then GetFloat(entry, ["targetSOClevel"]) else None
  }

  /** The level of the last well-formed entry of the plug type. */
  function LastTarget(entries: seq<Json>, plug: int): Option<real> {
    if entries == [] then None
    else
      var last := TargetLevel(entries[|entries| - 1], plug);
      if last.Some? then last else LastTarget(entries[..|entries| - 1], plug)
  }

  /** LastTarget, said by positions. */
  lemma {:induction false} LastTargetIsLast(entries: seq<Json>, plug: int, i: nat)
    requires i < |entries|
    requires TargetLevel(entries[i], plug).Some?
    requires forall k | i < k < |entries| :: TargetLevel(entries[k], plug).None?
    ensures LastTarget(entries, plug) == TargetLevel(entries[i], plug)
  {
    if i < |entries| - 1 {
      LastTargetIsLast(entries[..|entries| - 1], plug, i);
    }
  }

  lemma {:induction false} NoTargetIff(entries: seq<Json>, plug: int)
    ensures LastTarget(entries, plug).None? <==> forall k | 0 <= k < |entries| :: TargetLevel(entries[k], plug).None?
  {
    if entries != [] {
      NoTargetIff(entries[..|entries| - 1], plug);
    }
  }

  /** All well-formed entries of the plug type set the same level; a plug type listed at most once
      is the usual case. */
  ghost predicate OneLevel(entries: seq<Json>, plug: int) {
    forall i, j |
      && 0 <= i < |entries| && TargetLevel(entries[i], plug).Some?
      && 0 <= j < |entries| && TargetLevel(entries[j], plug).Some? ::
      TargetLevel(entries[i], plug) == TargetLevel(entries[j], plug)
  }

  ghost predicate Shuffled(entries: seq<Json>, others: seq<Json>) {
    multiset(entries) == multiset(others)
  }

  lemma ShuffledContains(entries: seq<Json>, others: seq<Json>, i: nat) returns (j: nat)
    requires Shuffled(entries, others) && i < |entries|
    ensures j < |others| && others[j] == entries[i]
  {
    assert entries[i] in multiset(entries);
    assert entries[i] in others;
    j :| 0 <= j < |others| && others[j] == entries[i];
  }

  lemma OneLevelIgnoresOrder(entries: seq<Json>, shuffled: seq<Json>, plug: int)
    requires Shuffled(entries, shuffled) && OneLevel(entries, plug)
    ensures LastTarget(entries, plug) == LastTarget(shuffled, plug)
  {
    NoTargetIff(entries, plug);
    NoTargetIff(shuffled, plug);
    if i :| 0 <= i < |entries| && TargetLevel(entries[i], plug).Some? {
      var j := ShuffledContains(entries, shuffled, i);
      var m := LastTargetPosition(entries, plug);
      var n := LastTargetPosition(shuffled, plug);
      var k := ShuffledContains(shuffled, entries, n);
    } else {
      forall j | 0 <= j < |shuffled|
        ensures TargetLevel(shuffled[j], plug).None?
      {
        var k := ShuffledContains(shuffled, entries, j);
      }
    }
  }

  lemma {:induction false} LastTargetPosition(entries: seq<Json>, plug: int) returns (i: nat)
    requires LastTarget(entries, plug).Some?
    ensures i < |entries| && TargetLevel(entries[i], plug) == LastTarget(entries, plug)
  {
    i := |entries| - 1;
    if TargetLevel(entries[i], plug).None? {
      i := LastTargetPosition(entries[..i], plug);
    }
  }

  lemma MovedLast(entries: seq<Json>, i: nat, plug: int) returns (shuffled: seq<Json>)
    requires i < |entries| && TargetLevel(entries[i], plug).Some?
    ensures Shuffled(entries, shuffled) && LastTarget(shuffled, plug) == TargetLevel(entries[i], plug)
  {
    shuffled := entries[..i] + entries[i + 1..] + [entries[i]];
    assert entries == entries[..i] + [entries[i]] + entries[i + 1..];
  }

  /** The order of the list is irrelevant exactly when its entries of the plug type agree. */
  lemma TargetIgnoresOrderIff(entries: seq<Json>, plug: int)
    ensures (forall shuffled | Shuffled(entries, shuffled) :: LastTarget(shuffled, plug) == LastTarget(entries, plug))
            <==> OneLevel(entries, plug)
  {
    if OneLevel(entries, plug) {
      forall shuffled | Shuffled(entries, shuffled)
        ensures LastTarget(shuffled, plug) == LastTarget(entries, plug)
      {
        OneLevelIgnoresOrder(entries, shuffled, plug);
      }
    } else {
      var i, j :| 0 <= i < |entries| && 0 <= j < |entries|
        && TargetLevel(entries[i], plug).Some? && TargetLevel(entries[j], plug).Some?
        && TargetLevel(entries[i], plug) != TargetLevel(entries[j], plug);
      var iLast := MovedLast(entries, i, plug);
      var jLast := MovedLast(entries, j, plug);
    }
  }

  /** Inserting a malformed entry, or one of another plug type, changes nothing. */
  lemma {:induction false} MalformedEntryIgnored(entries: seq<Json>, entry: Json, rest: seq<Json>, plug: int)
    requires TargetLevel(entry, plug).None?
    ensures LastTarget(entries + [entry] + rest, plug) == LastTarget(entries + rest, plug)
  {
    var with, without := entries + [entry] + rest, entries + rest;
    if rest == [] {
      assert with[..|with| - 1] == entries == without;
    } else {
      var front := rest[..|rest| - 1];
      MalformedEntryIgnored(entries, entry, front, plug);
      assert with[..|with| - 1] == entries + [entry] + front;
      assert without[..|without| - 1] == entries + front;
    }
  }

  /** The overwriting loop over targetSOClist. */
  method ChargeLimits(entries: seq<Json>) returns (dc: Option<real>, ac: Option<real>)
    ensures dc == LastTarget(entries, DC_PLUG) && ac == LastTarget(entries, AC_PLUG)
  {
    dc, ac := None, None;
    for i := 0 to |entries|
      invariant dc == LastTarget(entries[..i], DC_PLUG) && ac == LastTarget(entries[..i], AC_PLUG)
    {
      assert entries[..i + 1][..i] == entries[..i];
      var e := entries[i];
      if !e.Obj? {
        continue;
      }
      var level := GetFloat(e, ["targetSOClevel"]);
      var plug := GetInt(e, ["plugType"]);
      if level.None? || plug.None? {
        continue;
      }
      if plug.value == DC_PLUG {
        dc := level;
      } else if plug.value == AC_PLUG {
        ac := level;
      }
    }
    assert entries[..|entries|] == entries;
  }

  // ---------------------------------------------------------------------------
  // Sub-documents
  // ---------------------------------------------------------------------------

  const LAMPS: seq<Path> := [
    ["tirePressureLamp", "tirePressureLampAll"],
    ["tirePressureLamp", "tirePressureLampFL"],
    ["tirePressureLamp", "tirePressureLampFR"],
    ["tirePressureLamp", "tirePressureLampRL"],
    ["tirePressureLamp", "tirePressureLampRR"]]

  function Items(j: Json): seq<Json> {
    if j.Arr? then j.items else []
  }

  function EVFields(s: VehicleState, ev: Json): VehicleState {
    var drv := Items(GetPath(ev, ["drvDistance"]));
    var hasRange := |drv| > 0 && drv[0].Obj?;
    var plugin := GetInt(ev, ["batteryPlugin"]);
    var targets := Items(GetPath(ev, ["reservChargeInfos", "targetSOClist"]));
    s.(evBatteryPercentage := GetFloat(ev, ["batteryStatus"]),
       evRange := if hasRange then GetFloat(drv[0], ["rangeByFuel", "totalAvailableRange", "value"]) else s.evRange,
       evRangeUnit :=
         if hasRange then DistanceUnit(GetInt(drv[0], ["rangeByFuel", "totalAvailableRange", "unit"])) else s.evRangeUnit,
       charging := GetBool(ev, ["batteryCharge"]),
       pluggedIn := if plugin.Some? then Some(plugin.value != 0) else s.pluggedIn,
       chargeLimitDC := LastTarget(targets, DC_PLUG),
       chargeLimitAC := LastTarget(targets, AC_PLUG),
       estChargeDurationMin := GetInt(ev, ["remainTime2", "atc", "value"]),
       estFastChargeDurationMin := GetInt(ev, ["remainTime2", "etc3", "value"]))
  }

  function StatusFields(layouts: Layouts, s: VehicleState, status: Json): VehicleState {
    var updated := ParseBluelinkTime(layouts, GetString(status, ["time"]));
    s.(battery12VPercentage := NormalizeBatterySoC(GetFloat(status, ["battery", "batSoc"]), None),
       locked := GetBool(status, ["doorLock"]),
       tirePressureWarning := AnyRaised(Readings(status, LAMPS)),
       lastUpdatedAt := if updated.Some? then updated else s.lastUpdatedAt)
  }

  function OdometerFields(s: VehicleState, odometer: Json): VehicleState {
    s.(odometer := GetFloat(odometer, ["value"]),
       odometerUnit := DistanceUnit(GetInt(odometer, ["unit"])))
  }

  function LocationFields(layouts: Layouts, s: VehicleState, location: Json): VehicleState {
    var lat, lon := GetFloat(location, ["coord", "lat"]), GetFloat(location, ["coord", "lon"]);
    var fixed := ParseBluelinkTime(layouts, GetString(location, ["time"]));
    if lat.Some? && lon.Some? && (lat.value != 0.0 || lon.value != 0.0) then
      s.(latitude := lat, longitude := lon, locationUpdatedAt := if fixed.Some? then fixed else s.locationUpdatedAt)
    else s
  }

  function ParseCCS1(layouts: Layouts, info: Json): Result<VehicleState, string> {
    var status := GetPath(info, ["vehicleStatus"]);
    if status == Null then Err("CCS1 status missing vehicleStatus")
    else
      var s := EVFields(ZERO, GetPath(status, ["evStatus"]));
      var s := StatusFields(layouts, s, status);
      var s := OdometerFields(s, GetPath(info, ["odometer"]));
      Ok(LocationFields(layouts, s, GetPath(info, ["vehicleLocation"])))
  }

  /** The parse depends on nothing but the status and location sub-documents, odometer aside. */
  lemma ParseCCS1Frame(layouts: Layouts, info: Json, other: Json)
    requires GetPath(info, ["vehicleStatus"]) == GetPath(other, ["vehicleStatus"]) != Null
    requires GetPath(info, ["vehicleLocation"]) == GetPath(other, ["vehicleLocation"])
    ensures ParseCCS1(layouts, info).Ok? && ParseCCS1(layouts, other).Ok?
    ensures var s, t := ParseCCS1(layouts, info).value, ParseCCS1(layouts, other).value;
            s == t.(odometer := s.odometer, odometerUnit := s.odometerUnit)
  {
  }

  // ---------------------------------------------------------------------------
  // parseCCS1 as it is written: full paths from the top, field after field
  // ---------------------------------------------------------------------------

  lemma PathBelow(info: Json, p: Path, q: Path, pq: Path)
    requires pq == p + q
    ensures GetPath(info, pq) == GetPath(GetPath(info, p), q)
  {
    GetPathComposes(info, p, q);
  }

  const STATUS_LAMPS: seq<Path> := [
    ["vehicleStatus", "tirePressureLamp", "tirePressureLampAll"],
    ["vehicleStatus", "tirePressureLamp", "tirePressureLampFL"],
    ["vehicleStatus", "tirePressureLamp", "tirePressureLampFR"],
    ["vehicleStatus", "tirePressureLamp", "tirePressureLampRL"],
    ["vehicleStatus", "tirePressureLamp", "tirePressureLampRR"]]

  lemma LampsBelow(info: Json)
    ensures Readings(info, STATUS_LAMPS) == Readings(GetPath(info, ["vehicleStatus"]), LAMPS)
  {
    forall i | 0 <= i < |LAMPS|
      ensures GetInt(info, STATUS_LAMPS[i]) == GetInt(GetPath(info, ["vehicleStatus"]), LAMPS[i])
    {
      PathBelow(info, ["vehicleStatus"], LAMPS[i], STATUS_LAMPS[i]);
    }
  }

  method FillEVFields(info: Json, before: VehicleState) returns (s: VehicleState)
    ensures s == EVFields(before, GetPath(GetPath(info, ["vehicleStatus"]), ["evStatus"]))
  {
    ghost var ev: Path := ["vehicleStatus", "evStatus"];
    PathBelow(info, ["vehicleStatus"], ["evStatus"], ev);
    PathBelow(info, ev, ["batteryStatus"], ["vehicleStatus", "evStatus", "batteryStatus"]);
    PathBelow(info, ev, ["drvDistance"], ["vehicleStatus", "evStatus", "drvDistance"]);
    PathBelow(info, ev, ["batteryCharge"], ["vehicleStatus", "evStatus", "batteryCharge"]);
    PathBelow(info, ev, ["batteryPlugin"], ["vehicleStatus", "evStatus", "batteryPlugin"]);
    PathBelow(info, ev, ["reservChargeInfos", "targetSOClist"],
              ["vehicleStatus", "evStatus", "reservChargeInfos", "targetSOClist"]);
    PathBelow(info, ev, ["remainTime2", "atc", "value"], ["vehicleStatus", "evStatus", "remainTime2", "atc", "value"]);
    PathBelow(info, ev, ["remainTime2", "etc3", "value"], ["vehicleStatus", "evStatus", "remainTime2", "etc3", "value"]);

    s := before;
    s := s.(evBatteryPercentage := GetFloat(info, ["vehicleStatus", "evStatus", "batteryStatus"]));
    var drv := GetPath(info, ["vehicleStatus", "evStatus", "drvDistance"]);
    if drv.Arr? && |drv.items| > 0 {
      var first := drv.items[0];
      if first.Obj? {
        s := s.(evRange := GetFloat(first, ["rangeByFuel", "totalAvailableRange", "value"]));
        s := s.(evRangeUnit := DistanceUnit(GetInt(first, ["rangeByFuel", "totalAvailableRange", "unit"])));
      }
    }
    s := s.(charging := GetBool(info, ["vehicleStatus", "evStatus", "batteryCharge"]));
    var plugin := GetInt(info, ["vehicleStatus", "evStatus", "batteryPlugin"]);
    if plugin.Some? {
      s := s.(pluggedIn := Some(plugin.value != 0));
    }
    var targets := GetPath(info, ["vehicleStatus", "evStatus", "reservChargeInfos", "targetSOClist"]);
    var dc, ac := ChargeLimits(Items(targets));
    s := s.(chargeLimitDC := dc, chargeLimitAC := ac);
    s := s.(estChargeDurationMin := GetInt(info, ["vehicleStatus", "evStatus", "remainTime2", "atc", "value"]));
    s := s.(estFastChargeDurationMin := GetInt(info, ["vehicleStatus", "evStatus", "remainTime2", "etc3", "value"]));
  }

  method FillStatusFields(layouts: Layouts, info: Json, before: VehicleState) returns (s: VehicleState)
    ensures s == StatusFields(layouts, before, GetPath(info, ["vehicleStatus"]))
  {
    PathBelow(info, ["vehicleStatus"], ["battery", "batSoc"], ["vehicleStatus", "battery", "batSoc"]);
    PathBelow(info, ["vehicleStatus"], ["doorLock"], ["vehicleStatus", "doorLock"]);
    PathBelow(info, ["vehicleStatus"], ["time"], ["vehicleStatus", "time"]);
    LampsBelow(info);

    s := before;
    s := s.(battery12VPercentage := NormalizeBatterySoC(GetFloat(info, ["vehicleStatus", "battery", "batSoc"]), None));
    s := s.(locked := GetBool(info, ["vehicleStatus", "doorLock"]));
    var warning := TireWarning(info, STATUS_LAMPS);
    s := s.(tirePressureWarning := warning);
    var updated := ParseBluelinkTime(layouts, GetString(info, ["vehicleStatus", "time"]));
    if updated.Some? {
      s := s.(lastUpdatedAt := updated);
    }
  }

  method FillPlaceFields(layouts: Layouts, info: Json, before: VehicleState) returns (s: VehicleState)
    ensures s == LocationFields(layouts, OdometerFields(before, GetPath(info, ["odometer"])), GetPath(info, ["vehicleLocation"]))
  {
    PathBelow(info, ["odometer"], ["value"], ["odometer", "value"]);
    PathBelow(info, ["odometer"], ["unit"], ["odometer", "unit"]);
    PathBelow(info, ["vehicleLocation"], ["coord", "lat"], ["vehicleLocation", "coord", "lat"]);
    PathBelow(info, ["vehicleLocation"], ["coord", "lon"], ["vehicleLocation", "coord", "lon"]);
    PathBelow(info, ["vehicleLocation"], ["time"], ["vehicleLocation", "time"]);

    s := before;
    s := s.(odometer := GetFloat(info, ["odometer", "value"]));
    s := s.(odometerUnit := DistanceUnit(GetInt(info, ["odometer", "unit"])));
    var lat := GetFloat(info, ["vehicleLocation", "coord", "lat"]);
    if lat.Some? {
      var lon := GetFloat(info, ["vehicleLocation", "coord", "lon"]);
      if lon.Some? && (lat.value != 0.0 || lon.value != 0.0) {
        s := s.(latitude := lat, longitude := lon);
        var fixed := ParseBluelinkTime(layouts, GetString(info, ["vehicleLocation", "time"]));
        if fixed.Some? {
          s := s.(locationUpdatedAt := fixed);
        }
      }
    }
  }

  method ParseCCS1Document(layouts: Layouts, info: Json) returns (r: Result<VehicleState, string>)
    ensures r == ParseCCS1(layouts, info)
  {
    if GetPath(info, ["vehicleStatus"]) == Null {
      return Err("CCS1 status missing vehicleStatus");
    }
    var s := FillEVFields(info, ZERO);
    s := FillStatusFields(layouts, info, s);
    s := FillPlaceFields(layouts, info, s);
    return Ok(s);
  }
}
