/** The legacy Eyes outdoor camera (BoschShcPy/camera_eyes.py): three
    switches (light, notifications, privacy mode) held as the names the
    controller uses, and read as booleans through two name tables. */
module LegacyCameraEyes {
  import opened PyJson
  import opened Effects
  import opened LegacyBase

  const LightNames: set<string> := {"ON", "OFF"}
  const SwitchNames: set<string> := {"ENABLED", "DISABLED"}

  /** The light's name for a boolean (`state_tx`). */
  function LightName(b: bool): (r: string)
    ensures r in LightNames
  {
    if b then "ON" else "OFF"
  }

  /** The notification and privacy switches' name for a boolean
      (`state1_tx`). */
  function SwitchName(b: bool): (r: string)
    ensures r in SwitchNames
  {
    if b then "ENABLED" else "DISABLED"
  }

  /** `state_rx`. */
  function LightRx(v: Json): (r: Result<bool>)
    ensures r.Ok? <==> v.JStr? && v.s in LightNames
    ensures r.Ok? ==> LightName(r.value) == v.s
  {
    var name :- TableKey(v, LightNames);
    Ok(name == "ON")
  }

  /** `state1_rx`. */
  function SwitchRx(v: Json): (r: Result<bool>)
    ensures r.Ok? <==> v.JStr? && v.s in SwitchNames
    ensures r.Ok? ==> SwitchName(r.value) == v.s
  {
    var name :- TableKey(v, SwitchNames);
    Ok(name == "ENABLED")
  }

  /** `state_tx[state]` for whatever the caller passes: the dict's keys are
      True and False, so 1 and 0 find them too. */
  function LightTx(state: Json): (r: Result<string>)
    ensures r.Ok? <==> PyNumber(state) == Some(0) || PyNumber(state) == Some(1)
    ensures r.Ok? ==> r.value == LightName(PyNumber(state) == Some(1))
    ensures r.Fail? ==> (r.error.TypeError? <==> !Hashable(state))
  {
    if !Hashable(state) then Fail(TypeError("unhashable type"))
    else if PyNumber(state) == Some(1) then Ok("ON")
    else if PyNumber(state) == Some(0) then Ok("OFF")
    else Fail(KeyError(""))
  }

  /** The tables are inverse to each other in both directions. */
  lemma TablesRoundTrip(b: bool, v: Json)
    ensures LightRx(JStr(LightName(b))) == Ok(b) && LightTx(JBool(b)) == Ok(LightName(b))
    ensures SwitchRx(JStr(SwitchName(b))) == Ok(b)
    ensures LightRx(v).Ok? ==> LightTx(JBool(LightRx(v).value)) == Ok(v.s)
  {
  }

  const Attributes: set<string> :=
    {"device", "id", "name", "type", "cameraLight", "cameraNotification", "privacyMode", "value"}

  /** `CameraEyes(client, device, id, name)`: light off, notifications and
      privacy mode disabled. */
  function New(device: Obj, id: Json, name: Json): (o: Obj)
    ensures o.Keys == Attributes
    ensures o["device"] == JObj(device) && o["id"] == id && o["name"] == name
    ensures o["cameraLight"] == JStr("OFF") && o["cameraNotification"] == JStr("DISABLED") && o["privacyMode"] == JStr("DISABLED")
    ensures o["type"] == JNull && o["value"] == JNull
  {
    map["device" := JObj(device), "id" := id, "name" := name, "type" := JNull,
        "cameraLight" := JStr("OFF"), "cameraNotification" := JStr("DISABLED"),
        "privacyMode" := JStr("DISABLED"), "value" := JNull]
  }

  /** `get_light_state`, `get_notification_state` and `get_privacy_state`. */
  function GetLightState(o: Obj): (r: Result<bool>)
    requires o.Keys == Attributes
    ensures r.Ok? <==> o["cameraLight"].JStr? && o["cameraLight"].s in LightNames
    ensures r.Ok? ==> JStr(LightName(r.value)) == o["cameraLight"]
  {
    LightRx(o["cameraLight"])
  }

  function GetNotificationState(o: Obj): (r: Result<bool>)
    requires o.Keys == Attributes
    ensures r.Ok? <==> o["cameraNotification"].JStr? && o["cameraNotification"].s in SwitchNames
    ensures r.Ok? ==> JStr(SwitchName(r.value)) == o["cameraNotification"]
  {
    SwitchRx(o["cameraNotification"])
  }

  function GetPrivacyState(o: Obj): (r: Result<bool>)
    requires o.Keys == Attributes
    ensures r.Ok? <==> o["privacyMode"].JStr? && o["privacyMode"].s in SwitchNames
    ensures r.Ok? ==> JStr(SwitchName(r.value)) == o["privacyMode"]
  {
    SwitchRx(o["privacyMode"])
  }

  /** A fresh camera reads all three switches as off. */
  lemma NewIsOff(device: Obj, id: Json, name: Json)
    ensures var o := New(device, id, name);
            GetLightState(o) == Ok(false) && GetNotificationState(o) == Ok(false) && GetPrivacyState(o) == Ok(false)
  {
    TablesRoundTrip(false, JNull);
  }

  /** `update_privacymode`, `update_cameranotification` and
      `update_cameralight`: the record must be for this device and carry
      the switch's state type. */
  function UpdatePrivacyMode(o: Obj, q: Json): (out: Outcome)
    requires o.Keys == Attributes
    ensures out.effects == [] && out.obj.Keys == Attributes
    ensures out.result == Ok(JBool(true)) <==> CheckQuery(o["id"], q, "privacyModeState") == Ok(true) && Has(q.fields["state"], "value")
    ensures out.result == Ok(JBool(true)) ==> out.obj == o["privacyMode" := q.fields["state"].fields["value"]]
    ensures out.result != Ok(JBool(true)) ==> out.obj == o
  {
    UpdateValue(o, q, "privacyModeState", "privacyMode")
  }

  function UpdateCameraNotification(o: Obj, q: Json): (out: Outcome)
    requires o.Keys == Attributes
    ensures out.effects == [] && out.obj.Keys == Attributes
    ensures out.result == Ok(JBool(true)) <==> CheckQuery(o["id"], q, "cameraNotificationState") == Ok(true) && Has(q.fields["state"], "value")
    ensures out.result == Ok(JBool(true)) ==> out.obj == o["cameraNotification" := q.fields["state"].fields["value"]]
    ensures out.result != Ok(JBool(true)) ==> out.obj == o
  {
    UpdateValue(o, q, "cameraNotificationState", "cameraNotification")
  }

  function UpdateCameraLight(o: Obj, q: Json): (out: Outcome)
    requires o.Keys == Attributes
    ensures out.effects == [] && out.obj.Keys == Attributes
    ensures out.result == Ok(JBool(true)) <==> CheckQuery(o["id"], q, "cameraLightState") == Ok(true) && Has(q.fields["state"], "value")
    ensures out.result == Ok(JBool(true)) ==> out.obj == o["cameraLight" := q.fields["state"].fields["value"]]
    ensures out.result != Ok(JBool(true)) ==> out.obj == o
  {
    UpdateValue(o, q, "cameraLightState", "cameraLight")
  }

  /** `update_from_query(record)`: routed by the record's service id to
      one updater, whose verdict is dropped; a record of any other service
      changes nothing. Only an updater's exception escapes. */
  function UpdateFromQuery(o: Obj, q: Json): (out: Outcome)
    requires o.Keys == Attributes
    ensures out.effects == [] && out.obj.Keys == Attributes
    ensures out.result.Ok? ==> out.result.value == JNull
    ensures !Has(q, "id") ==> out.obj == o && out.result.Fail?
    ensures Has(q, "id") && q.fields["id"] !in {JStr("PrivacyMode"), JStr("CameraNotification"), JStr("CameraLight")} ==>
              out == Outcome(o, [], Ok(JNull))
    ensures Has(q, "id") && q.fields["id"] == JStr("PrivacyMode") ==> out.obj == UpdatePrivacyMode(o, q).obj
    ensures Has(q, "id") && q.fields["id"] == JStr("CameraNotification") ==> out.obj == UpdateCameraNotification(o, q).obj
    ensures Has(q, "id") && q.fields["id"] == JStr("CameraLight") ==> out.obj == UpdateCameraLight(o, q).obj
  {
    match Field(q, "id")
    case Fail(e) => Outcome(o, [], Fail(e))
    case Ok(sid) =>
      var out :=
        if sid == JStr("PrivacyMode") then UpdatePrivacyMode(o, q)
        else if sid == JStr("CameraNotification") then UpdateCameraNotification(o, q)
        else if sid == JStr("CameraLight") then UpdateCameraLight(o, q)
        else Outcome(o, [], Ok(JNull));
      Outcome(out.obj, [], if out.result.Fail? then out.result else Ok(JNull))
  }

  /** The records of a service listing, taken one after another; the
      first exception stops the run, keeping what earlier records set. */
  function UpdateAll(o: Obj, records: seq<Json>): (out: Outcome)
    requires o.Keys == Attributes
    ensures out.effects == [] && out.obj.Keys == Attributes
    ensures out.result.Ok? ==> out.result.value == JNull
    decreases |records|
  {
    if |records| == 0 then Outcome(o, [], Ok(JNull))
    else
      var first := UpdateFromQuery(o, records[0]);
      if first.result.Fail? then first
      else UpdateAll(first.obj, records[1..])
  }

  /** `update()`: every service record of the camera is routed through
      `update_from_query`; a client error returns False. Iterating an
      answer that is not a list yields no records when it is empty, and
      texts that cannot be indexed by `'id'` otherwise. */
  function Update(o: Obj, reply: Result<Json>): (out: Outcome)
    requires o.Keys == Attributes
    ensures out.obj.Keys == Attributes
    ensures !o["id"].JStr? ==> out == Outcome(o, [], Fail(TypeError("can only concatenate str")))
    ensures o["id"].JStr? ==> out.effects == [Sent(ClientCall("GET", "smarthome/devices/" + o["id"].s + "/services", JNull))]
    ensures reply.Fail? ==> out.obj == o
    ensures o["id"].JStr? && reply.Fail? ==> out.result == Swallowed(reply.error)
    ensures o["id"].JStr? && reply.Ok? && reply.value.JArr? ==>
              out.obj == UpdateAll(o, reply.value.items).obj
              && (out.result.Ok? <==> UpdateAll(o, reply.value.items).result.Ok?)
              && (out.result.Ok? ==> out.result == Ok(JBool(true)))
    ensures o["id"].JStr? && reply.Ok? && !reply.value.JArr? ==>
              out.obj == o && (out.result.Ok? <==> reply.value == JObj(map[]) || reply.value == JStr(""))
  {
    if !o["id"].JStr? then Outcome(o, [], Fail(TypeError("can only concatenate str")))
    else
      var sent := [Sent(ClientCall("GET", "smarthome/devices/" + o["id"].s + "/services", JNull))];
      match reply
      case Fail(e) => Outcome(o, sent, Swallowed(e))
      case Ok(listing) =>
        if listing == JObj(map[]) || listing == JStr("") then Outcome(o, sent, Ok(JBool(true)))
        else if !listing.JArr? then Outcome(o, sent, Fail(TypeError("string indices must be integers")))
        else
          var all := UpdateAll(o, listing.items);
          Outcome(all.obj, sent, if all.result.Fail? then all.result else Ok(JBool(true)))
  }

  /** The record the controller lists for one switch. */
  function Record(deviceId: Json, service: string, stateType: string, value: string): Json {
    JObj(map["id" := JStr(service), "deviceId" := deviceId,
             "state" := JObj(map["@type" := JStr(stateType), "value" := JStr(value)])])
  }

  /** The attribute each service's record sets. */
  function AttributeOf(service: string): string {
    if service == "PrivacyMode" then "privacyMode"
    else if service == "CameraNotification" then "cameraNotification"
    else "cameraLight"
  }

  function StateTypeOf(service: string): string {
    if service == "PrivacyMode" then "privacyModeState"
    else if service == "CameraNotification" then "cameraNotificationState"
    else "cameraLightState"
  }

  /** A switch's record for this device sets exactly that switch. */
  lemma RecordTaken(o: Obj, service: string, value: string)
    requires o.Keys == Attributes
    requires service in {"PrivacyMode", "CameraNotification", "CameraLight"}
    ensures UpdateFromQuery(o, Record(o["id"], service, StateTypeOf(service), value))
            == Outcome(o[AttributeOf(service) := JStr(value)], [], Ok(JNull))
  {
  }

  /** Running a listing of records is running them one by one. */
  lemma UpdateAllCons(o: Obj, r: Json, rest: seq<Json>)
    requires o.Keys == Attributes
    requires UpdateFromQuery(o, r).result.Ok?
    ensures UpdateAll(o, [r] + rest) == UpdateAll(UpdateFromQuery(o, r).obj, rest)
  {
    assert ([r] + rest)[0] == r;
    assert ([r] + rest)[1..] == rest;
  }

  /** A switch's record at the head of a listing sets that switch before
      the rest are taken. */
  lemma RecordThenRest(o: Obj, id: Json, service: string, value: string, rest: seq<Json>)
    requires o.Keys == Attributes && o["id"] == id
    requires service in {"PrivacyMode", "CameraNotification", "CameraLight"}
    ensures UpdateAll(o, [Record(id, service, StateTypeOf(service), value)] + rest)
            == UpdateAll(o[AttributeOf(service) := JStr(value)], rest)
  {
    RecordTaken(o, service, value);
    UpdateAllCons(o, Record(id, service, StateTypeOf(service), value), rest);
  }

  /** The three switches' records, taken in turn, set the three
      attributes. */
  lemma ListingSetsSwitches(o: Obj, privacy: string, notification: string, light: string)
    requires o.Keys == Attributes
    ensures UpdateAll(o, [Record(o["id"], "PrivacyMode", "privacyModeState", privacy),
                          Record(o["id"], "CameraNotification", "cameraNotificationState", notification),
                          Record(o["id"], "CameraLight", "cameraLightState", light)])
            == Outcome(o["privacyMode" := JStr(privacy)]["cameraNotification" := JStr(notification)]["cameraLight" := JStr(light)],
                       [], Ok(JNull))
  {
    var id := o["id"];
    var r1 := Record(id, "PrivacyMode", "privacyModeState", privacy);
    var r2 := Record(id, "CameraNotification", "cameraNotificationState", notification);
    var r3 := Record(id, "CameraLight", "cameraLightState", light);
    var o1 := o["privacyMode" := JStr(privacy)];
    var o2 := o1["cameraNotification" := JStr(notification)];
    RecordThenRest(o2, id, "CameraLight", light, []);
    RecordThenRest(o1, id, "CameraNotification", notification, [r3]);
    RecordThenRest(o, id, "PrivacyMode", privacy, [r2, r3]);
  }

  /** A listing with the three switches' records sets all three getters. */
  lemma UpdateReadsListing(o: Obj, privacy: bool, notification: bool, light: bool)
    requires o.Keys == Attributes && o["id"].JStr?
    ensures var listing := JArr([Record(o["id"], "PrivacyMode", "privacyModeState", SwitchName(privacy)),
                                 Record(o["id"], "CameraNotification", "cameraNotificationState", SwitchName(notification)),
                                 Record(o["id"], "CameraLight", "cameraLightState", LightName(light))]);
            var out := Update(o, Ok(listing));
            && out.result == Ok(JBool(true))
            && GetPrivacyState(out.obj) == Ok(privacy)
            && GetNotificationState(out.obj) == Ok(notification)
            && GetLightState(out.obj) == Ok(light)
  {
    ListingSetsSwitches(o, SwitchName(privacy), SwitchName(notification), LightName(light));
    var o3 := o["privacyMode" := JStr(SwitchName(privacy))]["cameraNotification" := JStr(SwitchName(notification))]
               ["cameraLight" := JStr(LightName(light))];
    assert o3["privacyMode"] == JStr(SwitchName(privacy));
    assert o3["cameraNotification"] == JStr(SwitchName(notification));
    assert o3["cameraLight"] == JStr(LightName(light));
    TablesRoundTrip(privacy, JNull);
    TablesRoundTrip(notification, JNull);
    TablesRoundTrip(light, JNull);
  }

  /** `set_light_state(state)`: the light's new name is recorded only once
      the request went through. A state that is not a boolean fails the
      table lookup before anything is sent. */
  function SetLightState(o: Obj, state: Json, reply: Result<Json>): (out: Outcome)
    requires o.Keys == Attributes
    ensures out.obj.Keys == Attributes
    ensures LightTx(state).Fail? ==> out == Outcome(o, [], Fail(LightTx(state).error))
    ensures LightTx(state).Ok? && o["id"].JStr? ==>
              && out.effects == [Sent(ClientCall("PUT", "smarthome/devices/" + o["id"].s + "/services/CameraLight/state",
                                                 JObj(map["@type" := JStr("cameraLightState"), "value" := JStr(LightTx(state).value)])))]
              && (reply.Ok? ==> out.obj == o["cameraLight" := JStr(LightTx(state).value)] && out.result == Ok(JBool(true)))
              && (reply.Fail? ==> out.obj == o && out.result == Swallowed(reply.error))
  {
    match LightTx(state)
    case Fail(e) => Outcome(o, [], Fail(e))
    case Ok(name) =>
      if !o["id"].JStr? then Outcome(o, [], Fail(TypeError("can only concatenate str")))
      else
        Command(o, "PUT", "smarthome/devices/" + o["id"].s + "/services/CameraLight/state",
                JObj(map["@type" := JStr("cameraLightState"), "value" := JStr(name)]), reply, o["cameraLight" := JStr(name)])
  }

  /** After a successful request the getter reads the light as set. */
  lemma SetThenGet(o: Obj, b: bool, response: Json)
    requires o.Keys == Attributes && o["id"].JStr?
    ensures GetLightState(SetLightState(o, JBool(b), Ok(response)).obj) == Ok(b)
  {
    TablesRoundTrip(b, JNull);
  }

  /** `async_update(callback)` as written: the module never imports
      `AsyncUpdate`, so the first line raises before anything is
      registered, started or sent, and the attributes stay as they were. */
  function AsyncUpdateCall(o: Obj): (out: Outcome)
    ensures out.obj == o && out.effects == []
    ensures out.result.Fail? && out.result.error == NameError("AsyncUpdate")
  {
    Outcome(o, [], Fail(NameError("AsyncUpdate")))
  }

  /** The attributes of one entry of the camera's service listing
      (`CameraEyesService`), all `None` when it is made. */
  const ServiceAttributes: set<string> := {"id", "deviceId", "state"}

  function NewService(): (s: Obj)
    ensures s.Keys == ServiceAttributes
    ensures forall n | n in s :: s[n] == JNull
  {
    map["id" := JNull, "deviceId" := JNull, "state" := JNull]
  }

  /** What `get_services()` leaves behind: the request sent, and the list it
      returned or what it raised. */
  datatype ServiceListing = ServiceListing(effects: seq<Effect>, result: Result<BaseList>)

  /** `get_services()`: one GET of the camera's services, loaded into a
      fresh `CameraEyesServices` list of `CameraEyesService` entries. Unlike
      `update()`, nothing here catches a client error. */
  function GetServices(o: Obj, reply: Result<Json>): (out: ServiceListing)
    requires o.Keys == Attributes
    ensures !o["id"].JStr? ==> out == ServiceListing([], Fail(TypeError("can only concatenate str")))
    ensures o["id"].JStr? ==> out.effects == [Sent(ClientCall("GET", "smarthome/devices/" + o["id"].s + "/services", JNull))]
    ensures o["id"].JStr? && reply.Fail? ==> out.result == Fail(reply.error)
    ensures out.result.Ok? <==> o["id"].JStr? && reply.Ok? && reply.value.JArr?
                                && LoadItems(NewService(), reply.value.items).Ok?
    ensures out.result.Ok? ==> out.result.value.itemType == NewService()
                               && out.result.value.items == Some(LoadItems(NewService(), reply.value.items).value)
  {
    if !o["id"].JStr? then ServiceListing([], Fail(TypeError("can only concatenate str")))
    else
      var sent := [Sent(ClientCall("GET", "smarthome/devices/" + o["id"].s + "/services", JNull))];
      match reply
      case Fail(e) => ServiceListing(sent, Fail(e))
      case Ok(listing) => ServiceListing(sent, LoadList(NewList(NewService()), listing))
  }

  /** A listing of service records reads back entry by entry: each entry
      holds the record's id, device id and state, and `None` for any of
      them the record lacks. */
  lemma GetServicesReadsListing(o: Obj, records: seq<map<string, Json>>)
    requires o.Keys == Attributes && o["id"].JStr?
    ensures var out := GetServices(o, Ok(JArr(seq(|records|, i requires 0 <= i < |records| => JObj(records[i])))));
            out.result.Ok? && |out.result.value.items.value| == |records|
            && forall i, n | 0 <= i < |records| && n in ServiceAttributes ::
                 out.result.value.items.value[i][n] == (if n in records[i] then records[i][n] else JNull)
  {
    var data := seq(|records|, i requires 0 <= i < |records| => JObj(records[i]));
    assert forall i | 0 <= i < |data| :: Load(NewService(), data[i]).error.None?;
    var items := LoadItems(NewService(), data).value;
    forall i, n | 0 <= i < |records| && n in ServiceAttributes
      ensures items[i][n] == (if n in records[i] then records[i][n] else JNull)
    {
      assert items[i] == Load(NewService(), data[i]).state;
      assert items[i] == LoadDict(NewService(), JObj(records[i])).value;
    }
  }

  /** A client error that `update()` turns into False escapes from
      `get_services()`. */
  lemma GetServicesRaisesClientError(o: Obj, what: string)
    requires o.Keys == Attributes && o["id"].JStr?
    ensures GetServices(o, Fail(ClientError(what))).result == Fail(ClientError(what))
    ensures Update(o, Fail(ClientError(what))).result == Ok(JBool(false))
  {
  }

  function Make(item: Obj, id: Json, name: Json): Obj {
    New(item, id, name)
  }

  /** `initialize_camera_eyes(client, device_list)`: one camera per
      CAMERA_EYES device, made from that device. */
  function InitializeCameraEyes(deviceList: BaseList): (r: Result<seq<Obj>>)
    ensures deviceList.items.None? ==> r.Fail?
    ensures r.Ok? ==> forall y | y in r.value ::
              exists x | x in deviceList.items.value :: IsModel(x, "CAMERA_EYES") && Named(x) && y == New(x, x["id"], x["name"])
    ensures r.Ok? ==> forall x | x in deviceList.items.value && IsModel(x, "CAMERA_EYES") :: Named(x) && New(x, x["id"], x["name"]) in r.value
  {
    InitializeAll(deviceList.items, "CAMERA_EYES", Make)
  }
}
