/** A device (boschshcpy/device.py): its raw record, the supported services
    it was built with, and its callback table. */
module Devices {
  import opened PyJson
  import opened PyDicts
  import opened Effects
  import DeviceServices
  import opened ServicesImpl

  datatype Device = Device(raw: Json, services: PyDict<string, DeviceServices.Service>, observers: Observers)

  /** An entry of `deviceServiceIds` the library builds a service for. */
  predicate Supported(j: Json) { j.JStr? && j.s in SupportedServiceIds }

  /** The supported service ids listed in `ids`. */
  function SupportedIdsIn(ids: seq<Json>): set<string> {
    set i | 0 <= i < |ids| && Supported(ids[i]) :: ids[i].s
  }

  lemma SupportedIdsInCons(ids: seq<Json>)
    requires |ids| > 0
    ensures SupportedIdsIn(ids) == (if Supported(ids[0]) then {ids[0].s} else {}) + SupportedIdsIn(ids[1..])
  {
    var tail := ids[1..];
    forall k | k in SupportedIdsIn(ids)
      ensures k in (if Supported(ids[0]) then {ids[0].s} else {}) + SupportedIdsIn(tail)
    {
      var i :| 0 <= i < |ids| && Supported(ids[i]) && ids[i].s == k;
      if i > 0 {
        assert tail[i - 1] == ids[i];
      }
    }
    forall k | k in SupportedIdsIn(tail)
      ensures k in SupportedIdsIn(ids)
    {
      var i :| 0 <= i < |tail| && Supported(tail[i]) && tail[i].s == k;
      assert ids[i + 1] == tail[i];
    }
  }

  /** Every listed id can be a dict key. */
  predicate AllHashable(ids: seq<Json>) {
    forall i | 0 <= i < |ids| :: Hashable(ids[i])
  }

  lemma AllHashableCons(ids: seq<Json>)
    requires |ids| > 0
    ensures AllHashable(ids) <==> Hashable(ids[0]) && AllHashable(ids[1..])
  {
    assert forall i | 0 <= i < |ids| - 1 :: ids[1..][i] == ids[i + 1];
  }

  /** The service built for the supported id `k` of the device `raw`:
      `build(get_device_service(raw["id"], k))`. */
  function ServiceFor(raw: Json, fetch: (Json, Json) -> Result<Json>, k: string): Result<DeviceServices.Service> {
    var deviceId :- Field(raw, "id");
    var data :- fetch(deviceId, JStr(k));
    Build(data)
  }

  /** `_enumerate_services` from the position reached so far: supported ids
      are fetched and built, unsupported ones skipped, and a list or dict
      among the ids raises. Any failure aborts the whole enumeration. */
  function AddServices(acc: PyDict<string, DeviceServices.Service>, ids: seq<Json>, raw: Json,
                       fetch: (Json, Json) -> Result<Json>): (r: Result<PyDict<string, DeviceServices.Service>>)
    ensures r.Ok? <==> AllHashable(ids) && (forall k | k in SupportedIdsIn(ids) :: ServiceFor(raw, fetch, k).Ok?)
    ensures r.Ok? ==> Keys(r.value) == Keys(acc) + SupportedIdsIn(ids)
    ensures r.Ok? ==> forall k | k in SupportedIdsIn(ids) :: Get(r.value, k) == Some(ServiceFor(raw, fetch, k).value)
    ensures r.Ok? ==> forall k | k !in SupportedIdsIn(ids) :: Get(r.value, k) == Get(acc, k)
    decreases |ids|
  {
    if |ids| == 0 then Ok(acc)
    else
      SupportedIdsInCons(ids);
      AllHashableCons(ids);
      var j := ids[0];
      if !Hashable(j) then Fail(TypeError("unhashable type"))
      else if !Supported(j) then AddServices(acc, ids[1..], raw, fetch)
      else
        var svc :- ServiceFor(raw, fetch, j.s);
        AddServices(Put(acc, j.s, svc), ids[1..], raw, fetch)
  }

  /** `SHCDevice(api, raw)`: the device holds exactly the services of its
      supported ids, each built from the record fetched for it. */
  function New(raw: Json, fetch: (Json, Json) -> Result<Json>): (r: Result<Device>)
    ensures r.Ok? ==> r.value.raw == raw && Keys(r.value.observers) == {}
    ensures r.Ok? ==> Has(raw, "deviceServiceIds") && raw.fields["deviceServiceIds"].JArr?
                      && Keys(r.value.services) == SupportedIdsIn(raw.fields["deviceServiceIds"].items)
                      && forall k | k in Keys(r.value.services) :: ServiceFor(raw, fetch, k).Ok? && Get(r.value.services, k) == Some(ServiceFor(raw, fetch, k).value)
    ensures Has(raw, "deviceServiceIds") && raw.fields["deviceServiceIds"].JArr? ==>
              var ids := raw.fields["deviceServiceIds"].items;
              (r.Ok? <==> AllHashable(ids) && (forall k | k in SupportedIdsIn(ids) :: ServiceFor(raw, fetch, k).Ok?))
  {
    var listed :- Field(raw, "deviceServiceIds");
    var ids :- Elements(listed);
    var services :- AddServices([], ids, raw, fetch);
    Ok(Device(raw, services, []))
  }

  function Id(d: Device): Result<Json> { Field(d.raw, "id") }
  function RootDeviceId(d: Device): Result<Json> { Field(d.raw, "rootDeviceId") }
  function Manufacturer(d: Device): Result<Json> { Field(d.raw, "manufacturer") }
  function DeviceModel(d: Device): Result<Json> { Field(d.raw, "deviceModel") }
  function Name(d: Device): Result<Json> { Field(d.raw, "name") }
  function Status(d: Device): Result<Json> { Field(d.raw, "status") }

  /** The optional members of the record read as `None` when absent. */
  function RoomId(d: Device): Json { FieldOr(d.raw, "roomId", JNull) }
  function Serial(d: Device): Json { FieldOr(d.raw, "serial", JNull) }
  function Profile(d: Device): Json { FieldOr(d.raw, "profile", JNull) }
  function ChildDeviceIds(d: Device): Json { FieldOr(d.raw, "childDeviceIds", JNull) }
  function ParentDeviceId(d: Device): Json { FieldOr(d.raw, "parentDeviceId", JNull) }

  /** `deleted`: the record says `"deleted": true` (or anything equal to
      it under Python's `==`). */
  predicate Deleted(d: Device) {
    Has(d.raw, "deleted") && PyEq(d.raw.fields["deleted"], JBool(true))
  }

  /** A device whose `deviceServiceIds` is not a list is not built: the
      model reports a `TypeError` for it, whatever the other members hold. */
  lemma NewNeedsList(raw: Json, fetch: (Json, Json) -> Result<Json>)
    requires Has(raw, "deviceServiceIds") && !raw.fields["deviceServiceIds"].JArr?
    ensures New(raw, fetch).Fail? && New(raw, fetch).error.TypeError?
  {
  }

  /** Each optional member reads as the record's member when present and
      as `None` when absent. */
  lemma OptionalMembers(d: Device)
    requires d.raw.JObj?
    ensures RoomId(d) == (if "roomId" in d.raw.fields then d.raw.fields["roomId"] else JNull)
    ensures Serial(d) == (if "serial" in d.raw.fields then d.raw.fields["serial"] else JNull)
    ensures Profile(d) == (if "profile" in d.raw.fields then d.raw.fields["profile"] else JNull)
    ensures ChildDeviceIds(d) == (if "childDeviceIds" in d.raw.fields then d.raw.fields["childDeviceIds"] else JNull)
    ensures ParentDeviceId(d) == (if "parentDeviceId" in d.raw.fields then d.raw.fields["parentDeviceId"] else JNull)
  {
  }

  /** A device is deleted exactly when its record says `deleted` is true,
      or the integer 1, which Python's `==` takes for true. */
  lemma DeletedMeansTrue(d: Device)
    ensures Deleted(d) <==> Has(d.raw, "deleted") && d.raw.fields["deleted"] in {JBool(true), JInt(1)}
  {
  }

  /** `device_services` and `device_service_ids`. */
  function ServiceList(d: Device): seq<DeviceServices.Service> { Values(d.services) }
  function ServiceIds(d: Device): set<string> { Keys(d.services) }

  /** `device_service(id)`: the service, or `None`. */
  function DeviceService(d: Device, serviceId: string): (r: Option<DeviceServices.Service>)
    ensures r.Some? <==> serviceId in ServiceIds(d)
    ensures r == Get(d.services, serviceId)
  {
    Get(d.services, serviceId)
  }

  function Subscribe(d: Device, token: Token, callback: Callback): (r: Device)
    ensures Get(r.observers, token) == Some(callback)
    ensures forall t | t != token :: Get(r.observers, t) == Get(d.observers, t)
    ensures r.raw == d.raw && r.services == d.services
  {
    d.(observers := Put(d.observers, token, callback))
  }

  function Unsubscribe(d: Device, token: Token): (r: Device)
    ensures Get(r.observers, token) == None
    ensures forall t | t != token :: Get(r.observers, t) == Get(d.observers, t)
    ensures r.raw == d.raw && r.services == d.services
  {
    d.(observers := Pop(d.observers, token))
  }

  /** `update_raw_information`: a record with an equal id replaces the raw
      record and every device callback runs once; the services are not
      rebuilt. A record with another id raises and changes nothing. */
  function UpdateRawInformation(d: Device, raw: Json): (st: Step<Device>)
    ensures st.state.services == d.services && st.state.observers == d.observers
    ensures st.error.None? <==> Has(d.raw, "id") && Has(raw, "id") && PyEq(d.raw.fields["id"], raw.fields["id"])
    ensures st.error.None? ==> st.state.raw == raw && st.effects == Notify(d.observers)
    ensures st.error.Some? ==> st.state == d && st.effects == []
    ensures Has(d.raw, "id") && Has(raw, "id") && !PyEq(d.raw.fields["id"], raw.fields["id"]) ==>
              st.error == Some(ShcException("Error due to mismatching device ids!"))
  {
    match Field(d.raw, "id")
    case Fail(e) => Step(d, [], Some(e))
    case Ok(mine) =>
      match Field(raw, "id")
      case Fail(e) => Step(d, [], Some(e))
      case Ok(theirs) =>
        if !PyEq(mine, theirs) then Step(d, [], Some(ShcException("Error due to mismatching device ids!")))
        else Step(d.(raw := raw), Notify(d.observers), None)
  }

  /** Updating with a record and reading it back: the accessors see the new
      record, so a device reported deleted reads as deleted. */
  lemma UpdateThenRead(d: Device, raw: Json)
    requires Has(d.raw, "id") && Has(raw, "id") && PyEq(d.raw.fields["id"], raw.fields["id"])
    ensures var u := UpdateRawInformation(d, raw).state;
            Name(u) == Field(raw, "name") && RoomId(u) == FieldOr(raw, "roomId", JNull)
            && (Deleted(u) <==> Has(raw, "deleted") && PyEq(raw.fields["deleted"], JBool(true)))
            && ServiceIds(u) == ServiceIds(d)
  {
  }

  /** `process_long_polling_poll_result`: the record goes to the service it
      names; a record for a service the device does not hold is skipped. */
  function ProcessPush(d: Device, rec: Json): (st: Step<Device>)
    ensures st.state.raw == d.raw && st.state.observers == d.observers
    ensures Keys(st.state.services) == Keys(d.services)
    ensures forall e | e in st.effects :: e.Notified?
    ensures Field(rec, "@type") != Ok(JStr("DeviceServiceData")) ==> st.state == d && st.error.Some? && st.effects == []
    ensures Field(rec, "@type") == Ok(JStr("DeviceServiceData")) && Has(rec, "id") && rec.fields["id"].JStr?
            && rec.fields["id"].s in Keys(d.services) ==>
              var sid := rec.fields["id"].s;
              var pushed := DeviceServices.ProcessPush(Get(d.services, sid).value, rec);
              Get(st.state.services, sid) == Some(pushed.state) && st.effects == pushed.effects && st.error == pushed.error
    ensures forall k | !(Has(rec, "id") && rec.fields["id"] == JStr(k)) :: Get(st.state.services, k) == Get(d.services, k)
    ensures (Field(rec, "@type") == Ok(JStr("DeviceServiceData")) && Has(rec, "id") && Hashable(rec.fields["id"])
             && !(rec.fields["id"].JStr? && rec.fields["id"].s in Keys(d.services))) ==> st == Step(d, [], None)
  {
    match Field(rec, "@type")
    case Fail(e) => Step(d, [], Some(e))
    case Ok(tag) =>
      if tag != JStr("DeviceServiceData") then Step(d, [], Some(AssertionError("@type == DeviceServiceData")))
      else
        match Field(rec, "id")
        case Fail(e) => Step(d, [], Some(e))
        case Ok(sid) =>
          if !Hashable(sid) then Step(d, [], Some(TypeError("unhashable type")))
          else if !(sid.JStr? && sid.s in Keys(d.services)) then Step(d, [], None)
          else
            var pushed := DeviceServices.ProcessPush(Get(d.services, sid.s).value, rec);
            Step(d.(services := Put(d.services, sid.s, pushed.state)), pushed.effects, pushed.error)
  }

  /** Delivering the same accepted record twice leaves the device as one
      delivery did. */
  lemma PushIdempotent(d: Device, rec: Json)
    requires Has(rec, "id") && rec.fields["id"].JStr? && rec.fields["id"].s in Keys(d.services)
    requires DeviceServices.Accepts(Get(d.services, rec.fields["id"].s).value, rec)
    ensures var once := ProcessPush(d, rec);
            var twice := ProcessPush(once.state, rec);
            twice.state == once.state && twice.error.None?
  {
    var sid := rec.fields["id"].s;
    var once := ProcessPush(d, rec);
    DeviceServices.PushIdempotent(Get(d.services, sid).value, rec);
    assert Get(once.state.services, sid) == Some(DeviceServices.ProcessPush(Get(d.services, sid).value, rec).state);
    var twice := ProcessPush(once.state, rec);
    assert Get(twice.state.services, sid) == Get(once.state.services, sid);
    assert KeyList(twice.state.services) == KeyList(once.state.services);
    assert forall i | 0 <= i < |once.state.services| :: twice.state.services[i] == once.state.services[i] by {
      forall i | 0 <= i < |once.state.services|
        ensures twice.state.services[i] == once.state.services[i]
      {
        var k := once.state.services[i].0;
        assert KeyList(once.state.services)[i] == k;
        assert twice.state.services[i].0 == k;
      }
    }
  }
}
