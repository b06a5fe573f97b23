/** Status retrieval (internal/bluelink/status.go): which endpoint is asked, how each response
    envelope is unwrapped, and how the park location is merged in. A response body is a decoded
    tree, or the error doAuthedGet returned; decoding follows encoding/json into the declared
    structs, where null and an absent member leave the zero value and a wrong type is an error. */
module StatusFetch {
  import opened Wrappers
  import opened VehicleModel
  import opened Json
  import opened Layouts
  import opened CCS2Parser
  import opened CCS1Parser

  type Body = Result<Json, string>

  // ---------------------------------------------------------------------------
  // Endpoints
  // ---------------------------------------------------------------------------

  function StatusPath(v: Vehicle, force: bool): string {
    if v.IsCCS2() then "vehicles/" + v.id + (if force then "/ccs2/carstatus" else "/ccs2/carstatus/latest")
    else "vehicles/" + v.id + (if force then "/status" else "/status/latest")
  }

  function ParkPath(v: Vehicle): string {
    "vehicles/" + v.id + "/location/park"
  }

  /** The paths one status read may ask for, in order. */
  function RequestedPaths(v: Vehicle, force: bool): seq<string> {
    if v.IsCCS2() || force then [StatusPath(v, force), ParkPath(v)] else [StatusPath(v, force)]
  }

  /** The two endpoints, one for each protocol, that make the car report afresh. */
  predicate WakesCar(v: Vehicle, path: string) {
    path == "vehicles/" + v.id + "/ccs2/carstatus" || path == "vehicles/" + v.id + "/status"
  }

  /** How many requests wake the car. */
  function WakeRequests(v: Vehicle, paths: seq<string>): nat {
    multiset(paths)["vehicles/" + v.id + "/ccs2/carstatus"] + multiset(paths)["vehicles/" + v.id + "/status"]
  }

  lemma WakeEndpointsDiffer(v: Vehicle)
    ensures "vehicles/" + v.id + "/ccs2/carstatus" != "vehicles/" + v.id + "/status"
  {
    var base := "vehicles/" + v.id;
    assert |base + "/ccs2/carstatus"| == |base| + 15 && |base + "/status"| == |base| + 7;
  }

  /** The cached endpoint is the forced one's /latest, and only the forced one wakes the car, each in
      the vehicle's own protocol. */
  lemma StatusEndpoints(v: Vehicle)
    ensures StatusPath(v, false) == StatusPath(v, true) + "/latest"
    ensures StatusPath(v, true) == "vehicles/" + v.id + (if v.IsCCS2() then "/ccs2/carstatus" else "/status")
    ensures WakesCar(v, StatusPath(v, true)) && !WakesCar(v, StatusPath(v, false)) && !WakesCar(v, ParkPath(v))
    ensures ParkPath(v) !in [StatusPath(v, true), StatusPath(v, false)]
  {
    var base := "vehicles/" + v.id;
    WakeEndpointsDiffer(v);
    assert |base + "/ccs2/carstatus"| == |base| + 15 && |base + "/status"| == |base| + 7;
    assert |base + "/ccs2/carstatus/latest"| == |base| + 22 && |base + "/status/latest"| == |base| + 14;
    assert ParkPath(v)[|base| + 1] == 'l';
  }

  lemma WakesOfOne(v: Vehicle, path: string)
    ensures WakeRequests(v, [path]) == if WakesCar(v, path) then 1 else 0
  {
    WakeEndpointsDiffer(v);
  }

  lemma WakesOfTwo(v: Vehicle, path: string, other: string)
    ensures WakeRequests(v, [path, other]) == WakeRequests(v, [path]) + WakeRequests(v, [other])
  {
    assert [path, other] == [path] + [other];
  }

  lemma RequestedPathsWake(v: Vehicle, force: bool)
    ensures WakeRequests(v, RequestedPaths(v, force)) == if force then 1 else 0
  {
    StatusEndpoints(v);
    WakesOfOne(v, StatusPath(v, force));
    WakesOfOne(v, ParkPath(v));
    WakesOfTwo(v, StatusPath(v, force), ParkPath(v));
  }

  // ---------------------------------------------------------------------------
  // Envelopes
  // ---------------------------------------------------------------------------

  /** A struct member: null and absent are both null. */
  function Member(j: Json, name: string): Body {
    match j
    case Null => Ok(Null)
    case Obj(_) => Ok(Child(j, name))
    case _ => Err("cannot unmarshal into struct")
  }

  function ObjectOrNil(j: Json): Body {
    if j.Obj? || j.Null? then Ok(j) else Err("cannot unmarshal into map")
  }

  function NumberOrNil(j: Json): Result<Option<real>, string> {
    match j
    case Null => Ok(None)
    case Num(n) => Ok(Some(n))
    case _ => Err("cannot unmarshal into float64")
  }

  function StringOrEmpty(j: Json): Result<string, string> {
    match j
    case Null => Ok("")
    case Str(s) => Ok(s)
    case _ => Err("cannot unmarshal into string")
  }

  /** authedGet: an envelope whose retCode says anything but S is an error. */
  function AuthedGet(body: Body): Body {
    var j :- body;
    var retCode := GetString(j, ["retCode"]);
    if retCode != "" && retCode != "S" then Err("bluelink API error") else Ok(j)
  }

  function VehicleDocument(body: Body): Body {
    var j :- AuthedGet(body);
    var resMsg :- Member(j, "resMsg");
    var state :- Member(resMsg, "state");
    var vehicle :- Member(state, "Vehicle");
    ObjectOrNil(vehicle)
  }

  function StatusInfo(body: Body): Body {
    var j :- AuthedGet(body);
    var resMsg :- Member(j, "resMsg");
    var info :- Member(resMsg, "vehicleStatusInfo");
    ObjectOrNil(info)
  }

  function ResMsg(body: Body): Body {
    var j :- AuthedGet(body);
    var resMsg :- Member(j, "resMsg");
    ObjectOrNil(resMsg)
  }

  function ParkLocationCCS1(body: Body): Body {
    var j :- AuthedGet(body);
    var resMsg :- Member(j, "resMsg");
    var gpsDetail :- Member(resMsg, "gpsDetail");
    ObjectOrNil(gpsDetail)
  }

  datatype Fix = Fix(lat: Option<real>, lon: Option<real>, at: Option<int>)

  function ParkLocation(layouts: Layouts, body: Body): Result<Fix, string> {
    var j :- AuthedGet(body);
    var resMsg :- Member(j, "resMsg");
    var coord :- Member(resMsg, "coord");
    var latField :- Member(coord, "lat");
    var lonField :- Member(coord, "lon");
    var timeField :- Member(resMsg, "time");
    var lat :- NumberOrNil(latField);
    var lon :- NumberOrNil(lonField);
    var time :- StringOrEmpty(timeField);
    Ok(Fix(lat, lon, ParseBluelinkTime(layouts, time)))
  }

  // ---------------------------------------------------------------------------
  // Reads
  // ---------------------------------------------------------------------------

  /** The document forceStatusCCS1 builds around a bare vehicleStatus. */
  function ForcedInfo(status: Json, location: Json): Json {
    if location == Null then Obj(map["vehicleStatus" := status])
    else Obj(map["vehicleStatus" := status, "vehicleLocation" := location])
  }

  function OrNull(body: Body): Json {
    if body.Ok? then body.value else Null
  }

  /** The CCS2 state, with its stale location overridden when there is a fix. */
  function CCS2State(layouts: Layouts, vehicle: Body, fix: Result<Fix, string>): Result<VehicleState, string> {
    if vehicle.Err? then Err(vehicle.error)
    else if vehicle.value == Null then Err("status response missing resMsg.state.Vehicle")
    else if fix.Err? then Ok(ParseCCS2(layouts, vehicle.value))
    else Ok(ParseCCS2(layouts, vehicle.value).(
              latitude := fix.value.lat, longitude := fix.value.lon, locationUpdatedAt := fix.value.at))
  }

  function ForcedCCS1State(layouts: Layouts, resMsg: Body, gpsDetail: Body): Result<VehicleState, string> {
    if resMsg.Err? then Err(resMsg.error)
    else if resMsg.value == Null then Err("CCS1 force status response missing resMsg")
    else ParseCCS1(layouts, ForcedInfo(resMsg.value, OrNull(gpsDetail)))
  }

  function CachedCCS1State(layouts: Layouts, info: Body): Result<VehicleState, string> {
    if info.Err? then Err(info.error)
    else if info.value == Null then Err("CCS1 status response missing resMsg.vehicleStatusInfo")
    else ParseCCS1(layouts, info.value)
  }

  function ReadStatus(layouts: Layouts, v: Vehicle, force: bool, status: Body, park: Body)
      : Result<VehicleState, string>
  {
    if v.IsCCS2() then CCS2State(layouts, VehicleDocument(status), ParkLocation(layouts, park))
    else if force then ForcedCCS1State(layouts, ResMsg(status), ParkLocationCCS1(park))
    else CachedCCS1State(layouts, StatusInfo(status))
  }

  /** The read goes on to the park location once the status document is at hand; a cached CCS1 read
      has the location in it already. */
  predicate AsksForPark(v: Vehicle, force: bool, status: Body) {
    if v.IsCCS2() then Present(VehicleDocument(status)) else force && Present(ResMsg(status))
  }

  predicate Present(document: Body) {
    document.Ok? && document.value != Null
  }

  function Requested(v: Vehicle, force: bool, status: Body): seq<string> {
    if AsksForPark(v, force, status) then [StatusPath(v, force), ParkPath(v)] else [StatusPath(v, force)]
  }

  /** What a read asks for: the beginning of its list, no path twice. A cached read asks for nothing
      that wakes the car, a forced one does so exactly once, for either protocol. */
  lemma RequestsOfRead(v: Vehicle, force: bool, status: Body)
    ensures Requested(v, force, status) <= RequestedPaths(v, force)
    ensures forall i, j | 0 <= i < j < |Requested(v, force, status)| ::
            Requested(v, force, status)[i] != Requested(v, force, status)[j]
    ensures WakeRequests(v, Requested(v, force, status)) == if force then 1 else 0
    ensures !force ==> forall path | path in Requested(v, force, status) :: !WakesCar(v, path)
  {
    StatusEndpoints(v);
    WakesOfOne(v, StatusPath(v, force));
    RequestedPathsWake(v, force);
  }

  /** A response whose return code says anything but S, or nothing, makes the read fail if it is the
      status, and is as good as no park location if it is that. */
  lemma ErrorCodeFails(layouts: Layouts, v: Vehicle, force: bool, document: Json, other: Body)
    requires GetPath(document, ["retCode"]).Str? && GetPath(document, ["retCode"]).text !in ["", "S"]
    ensures ReadStatus(layouts, v, force, Ok(document), other).Err?
    ensures ParkLocation(layouts, Ok(document)).Err? && ParkLocationCCS1(Ok(document)).Err?
  {
  }

  /** A read succeeds exactly when its status document is at hand and, for a cached CCS1 read, has a
      vehicleStatus in it. */
  lemma ReadSucceedsIff(layouts: Layouts, v: Vehicle, force: bool, status: Body, park: Body)
    ensures ReadStatus(layouts, v, force, status, park).Ok? <==>
            if v.IsCCS2() then VehicleDocument(status).Ok? && VehicleDocument(status).value != Null
            else if force then ResMsg(status).Ok? && ResMsg(status).value != Null
            else && StatusInfo(status).Ok? && StatusInfo(status).value != Null
                 && GetPath(StatusInfo(status).value, ["vehicleStatus"]) != Null
  {
    if !v.IsCCS2() && force && ResMsg(status).Ok? {
      GetMember(ForcedInfo(ResMsg(status).value, OrNull(ParkLocationCCS1(park))), "vehicleStatus");
    }
  }

  /** Once the status document is at hand, no answer about the park location makes the read fail; a
      failed one leaves the position to the status document, or to nothing. */
  lemma ParkFailureIsHarmless(layouts: Layouts, v: Vehicle, force: bool, status: Body, park: Body)
    requires AsksForPark(v, force, status)
    ensures ReadStatus(layouts, v, force, status, park).Ok?
    ensures v.IsCCS2() && ParkLocation(layouts, park).Err? ==>
              ReadStatus(layouts, v, force, status, park) == Ok(ParseCCS2(layouts, VehicleDocument(status).value))
    ensures !v.IsCCS2() && ParkLocationCCS1(park).Err? ==>
              ReadStatus(layouts, v, force, status, park) ==
              ParseCCS1(layouts, Obj(map["vehicleStatus" := ResMsg(status).value]))
  {
    if !v.IsCCS2() {
      GetMember(ForcedInfo(ResMsg(status).value, OrNull(ParkLocationCCS1(park))), "vehicleStatus");
    }
  }

  /** The result rests on nothing but the answers the read asked for. */
  lemma UnaskedParkIsIgnored(layouts: Layouts, v: Vehicle, force: bool, status: Body, park: Body, other: Body)
    requires ParkPath(v) !in Requested(v, force, status)
    ensures ReadStatus(layouts, v, force, status, park) == ReadStatus(layouts, v, force, status, other)
  {
  }

  lemma OneThenAnother(paths: seq<string>, a: string, b: string)
    ensures paths + [a] + [b] == paths + [a, b]
  {
  }

  /** The client as status.go uses it: each request is recorded, and its answer is arbitrary. */
  class Api {
    const answer: nat -> Body
    var requested: seq<string>

    constructor (answer: nat -> Body)
      ensures requested == [] && this.answer == answer
    {
      this.answer := answer;
      requested := [];
    }

    method Get(path: string) returns (body: Body)
      modifies this
      ensures requested == old(requested) + [path] && body == answer(|old(requested)|)
    {
      body := answer(|requested|);
      requested := requested + [path];
    }

    /** fetchStatus. Whatever the answers, it asks for the beginning of
        its list and no more, it asks to wake the car once if forced and never if not, and its
        result is that of the documents it was given. */
    method FetchStatus(layouts: Layouts, v: Vehicle, force: bool) returns (r: Result<VehicleState, string>)
      modifies this
      ensures requested == old(requested) + Requested(v, force, answer(|old(requested)|))
      ensures Requested(v, force, answer(|old(requested)|)) <= RequestedPaths(v, force)
      ensures WakeRequests(v, requested) == WakeRequests(v, old(requested)) + if force then 1 else 0
      ensures |requested| > |old(requested)|
      ensures requested[|old(requested)|] == "vehicles/" + v.id + (if v.IsCCS2() then "/ccs2/carstatus" else "/status") +
                                            (if force then "" else "/latest")
      ensures r == ReadStatus(layouts, v, force, answer(|old(requested)|), answer(|old(requested)| + 1))
    {
      RequestsOfRead(v, force, answer(|requested|));
      StatusEndpoints(v);
      if !v.IsCCS2() {
        r := FetchStatusCCS1(layouts, v, force);
      } else {
        r := FetchStatusCCS2(layouts, v, force);
      }
    }

    method CarStatusPath(v: Vehicle, force: bool) returns (path: string)
      requires v.IsCCS2()
      ensures path == StatusPath(v, force)
    {
      path := "vehicles/" + v.id + "/ccs2/carstatus/latest";
      if force {
        path := "vehicles/" + v.id + "/ccs2/carstatus";
      }
    }

    /** The rest of fetchStatus, with its overwritten fields. */
    method FetchStatusCCS2(layouts: Layouts, v: Vehicle, force: bool) returns (r: Result<VehicleState, string>)
      requires v.IsCCS2()
      modifies this
      ensures var vehicle := VehicleDocument(answer(|old(requested)|));
              && requested == old(requested) +
                   (if Present(vehicle) then [StatusPath(v, force), ParkPath(v)] else [StatusPath(v, force)])
              && r == CCS2State(layouts, vehicle, ParkLocation(layouts, answer(|old(requested)| + 1)))
    {
      var path := CarStatusPath(v, force);
      var status := Get(path);
      var vehicle := VehicleDocument(status);
      OneThenAnother(old(requested), path, ParkPath(v));
      if vehicle.Err? {
        return Err(vehicle.error);
      }
      if vehicle.value == Null {
        return Err("status response missing resMsg.state.Vehicle");
      }
      var state := ParseCCS2Document(layouts, vehicle.value);
      var fix := FetchParkLocation(layouts, v);
      if fix.Ok? {
        state := state.(latitude := fix.value.lat, longitude := fix.value.lon, locationUpdatedAt := fix.value.at);
      }
      r := Ok(state);
    }

    method FetchParkLocation(layouts: Layouts, v: Vehicle) returns (fix: Result<Fix, string>)
      modifies this
      ensures requested == old(requested) + [ParkPath(v)]
      ensures fix == ParkLocation(layouts, answer(|old(requested)|))
    {
      var park := Get("vehicles/" + v.id + "/location/park");
      fix := ParkLocation(layouts, park);
    }

    method FetchStatusCCS1(layouts: Layouts, v: Vehicle, force: bool) returns (r: Result<VehicleState, string>)
      requires !v.IsCCS2()
      modifies this
      ensures requested == old(requested) + Requested(v, force, answer(|old(requested)|))
      ensures r == ReadStatus(layouts, v, force, answer(|old(requested)|), answer(|old(requested)| + 1))
    {
      if force {
        r := ForceStatusCCS1(layouts, v);
      } else {
        r := CachedStatusCCS1(layouts, v);
      }
    }

    method CachedStatusCCS1(layouts: Layouts, v: Vehicle) returns (r: Result<VehicleState, string>)
      requires !v.IsCCS2()
      modifies this
      ensures requested == old(requested) + [StatusPath(v, false)]
      ensures r == CachedCCS1State(layouts, StatusInfo(answer(|old(requested)|)))
    {
      var status := Get("vehicles/" + v.id + "/status/latest");
      var info := StatusInfo(status);
      if info.Err? {
        return Err(info.error);
      }
      if info.value == Null {
        return Err("CCS1 status response missing resMsg.vehicleStatusInfo");
      }
      r := ParseCCS1Document(layouts, info.value);
    }

    /** forceStatusCCS1 with its growing info map. */
    method ForceStatusCCS1(layouts: Layouts, v: Vehicle) returns (r: Result<VehicleState, string>)
      requires !v.IsCCS2()
      modifies this
      ensures var resMsg := ResMsg(answer(|old(requested)|));
              && requested == old(requested) +
                   (if Present(resMsg) then [StatusPath(v, true), ParkPath(v)] else [StatusPath(v, true)])
              && r == ForcedCCS1State(layouts, resMsg, ParkLocationCCS1(answer(|old(requested)| + 1)))
    {
      var status := Get("vehicles/" + v.id + "/status");
      var resMsg := ResMsg(status);
      OneThenAnother(old(requested), StatusPath(v, true), ParkPath(v));
      if resMsg.Err? {
        return Err(resMsg.error);
      }
      if resMsg.value == Null {
        return Err("CCS1 force status response missing resMsg");
      }
      var info := map["vehicleStatus" := resMsg.value];
      var gpsDetail := FetchParkLocationCCS1(v);
      if gpsDetail.Ok? && gpsDetail.value != Null {
        info := info["vehicleLocation" := gpsDetail.value];
      }
      assert Obj(info) == ForcedInfo(resMsg.value, OrNull(gpsDetail));
      r := ParseCCS1Document(layouts, Obj(info));
    }

    method FetchParkLocationCCS1(v: Vehicle) returns (gpsDetail: Body)
      modifies this
      ensures requested == old(requested) + [ParkPath(v)]
      ensures gpsDetail == ParkLocationCCS1(answer(|old(requested)|))
    {
      var park := Get("vehicles/" + v.id + "/location/park");
      gpsDetail := ParkLocationCCS1(park);
    }
  }

  /** Envelope frame: around any status and location document, the forced wrapping parses without
      error, and to the same state as the cached wrapping of the same two documents whatever else
      that carries, odometer aside. */
  lemma ForcedWrappingFrame(layouts: Layouts, status: Json, location: Json, cached: map<string, Json>)
    requires status.Obj? && (location.Obj? || location.Null?)
    requires "vehicleStatus" in cached && cached["vehicleStatus"] == status
    requires if location == Null then "vehicleLocation" !in cached
             else "vehicleLocation" in cached && cached["vehicleLocation"] == location
    ensures ParseCCS1(layouts, ForcedInfo(status, location)).Ok? && ParseCCS1(layouts, Obj(cached)).Ok?
    ensures var forced, whole := ParseCCS1(layouts, ForcedInfo(status, location)).value, ParseCCS1(layouts, Obj(cached)).value;
            && forced == whole.(odometer := None, odometerUnit := "")
  {
    var info := ForcedInfo(status, location);
    GetMember(info, "vehicleStatus");
    GetMember(Obj(cached), "vehicleStatus");
    GetMember(info, "vehicleLocation");
    GetMember(Obj(cached), "vehicleLocation");
    GetMember(info, "odometer");
    ParseCCS1Frame(layouts, info, Obj(cached));
  }
}
