/** The legacy smoke detector (BoschShcPy/smoke_detector.py): its alarm
    state follows the controller's `alarmState` records, and alarms are
    requested through the Alarm service. */
module LegacySmokeDetector {
  import opened PyJson
  import opened Effects
  import opened LegacyBase

  /** The states a detector reports. */
  datatype AlarmState = IdleOff | IntrusionAlarm | SecondaryAlarm | PrimaryAlarm

  /** The requests a detector accepts. */
  datatype AlarmRequest = IntrusionAlarmOn | IntrusionAlarmOff | MuteSecondaryAlarm

  const StateNames: set<string> := {"IDLE_OFF", "INTRUSION_ALARM", "SECONDARY_ALARM", "PRIMARY_ALARM"}
  const RequestNames: set<string> :=
    {"INTRUSION_ALARM_ON_REQUESTED", "INTRUSION_ALARM_OFF_REQUESTED", "MUTE_SECONDARY_ALARM_REQUESTED"}

  /** The name of a reported state, the key `state_rx` lists it under. */
  function StateName(s: AlarmState): (r: string)
    ensures r in StateNames
  {
    match s
    case IdleOff => "IDLE_OFF"
    case IntrusionAlarm => "INTRUSION_ALARM"
    case SecondaryAlarm => "SECONDARY_ALARM"
    case PrimaryAlarm => "PRIMARY_ALARM"
  }

  /** `state_rx`: defined exactly on the four state names. */
  function Rx(v: Json): (r: Result<AlarmState>)
    ensures r.Ok? <==> v.JStr? && v.s in StateNames
    ensures r.Ok? ==> StateName(r.value) == v.s
    ensures r.Fail? ==> r.error.KeyError? || r.error.TypeError?
  {
    var name :- TableKey(v, StateNames);
    Ok(if name == "IDLE_OFF" then IdleOff
       else if name == "INTRUSION_ALARM" then IntrusionAlarm
       else if name == "SECONDARY_ALARM" then SecondaryAlarm
       else PrimaryAlarm)
  }

  lemma RxStateName(s: AlarmState)
    ensures Rx(JStr(StateName(s))) == Ok(s)
  {
  }

  /** `state_tx`: one request name per request, none of them a state
      name, so a request is never mistaken for a report. */
  function Tx(a: AlarmRequest): (r: string)
    ensures r in RequestNames && r !in StateNames
  {
    match a
    case IntrusionAlarmOn => "INTRUSION_ALARM_ON_REQUESTED"
    case IntrusionAlarmOff => "INTRUSION_ALARM_OFF_REQUESTED"
    case MuteSecondaryAlarm => "MUTE_SECONDARY_ALARM_REQUESTED"
  }

  /** Distinct requests send distinct names, and every listed name is
      sent by some request. */
  lemma TxBijective(a: AlarmRequest, b: AlarmRequest, name: string)
    ensures Tx(a) == Tx(b) ==> a == b
    ensures name in RequestNames ==> exists c :: Tx(c) == name
  {
    if name == "INTRUSION_ALARM_ON_REQUESTED" { assert Tx(IntrusionAlarmOn) == name; }
    else if name == "INTRUSION_ALARM_OFF_REQUESTED" { assert Tx(IntrusionAlarmOff) == name; }
    else if name == "MUTE_SECONDARY_ALARM_REQUESTED" { assert Tx(MuteSecondaryAlarm) == name; }
  }

  const Attributes: set<string> := {"device", "id", "name", "value", "batterylevel"}

  /** `SmokeDetector(client, device, id, name)`: idle, battery level
      unknown. */
  function New(device: Obj, id: Json, name: Json): (o: Obj)
    ensures o.Keys == Attributes
    ensures o["device"] == JObj(device) && o["id"] == id && o["name"] == name
    ensures o["value"] == JStr("IDLE_OFF") && o["batterylevel"] == JNull
  {
    map["device" := JObj(device), "id" := id, "name" := name,
        "value" := JStr("IDLE_OFF"), "batterylevel" := JNull]
  }

  /** `get_state`. */
  function GetState(o: Obj): (r: Result<AlarmState>)
    requires o.Keys == Attributes
    ensures r.Ok? <==> o["value"].JStr? && o["value"].s in StateNames
    ensures r.Ok? ==> JStr(StateName(r.value)) == o["value"]
  {
    Rx(o["value"])
  }

  /** `set_state(request)`: the request goes to the Alarm service; the
      reported state is left for the controller to push back. */
  function SetState(o: Obj, request: AlarmRequest, reply: Result<Json>): (out: Outcome)
    requires o.Keys == Attributes
    ensures out.obj == o
    ensures !o["id"].JStr? ==> out.effects == [] && out.result.Fail?
    ensures o["id"].JStr? ==>
              out.effects == [Sent(ClientCall("PUT", "smarthome/devices/" + o["id"].s + "/services/Alarm/state",
                                              JObj(map["@type" := JStr("alarmState"), "state" := JStr(Tx(request))])))]
    ensures o["id"].JStr? ==> out.result == (if reply.Ok? then Ok(JBool(true)) else Swallowed(reply.error))
  {
    if !o["id"].JStr? then Outcome(o, [], Fail(TypeError("can only concatenate str")))
    else
      Command(o, "PUT", "smarthome/devices/" + o["id"].s + "/services/Alarm/state",
              JObj(map["@type" := JStr("alarmState"), "state" := JStr(Tx(request))]), reply, o)
  }

  /** What a caller may pass to `set_state`: one of the `alarm` members the
      table is keyed by, or any other value. */
  datatype AlarmArg = Member(request: AlarmRequest) | Other(value: Json)

  /** `set_state(state)` for any argument: `state_tx[state]` is looked up
      before the id is read or anything is sent, and no plain value is an
      `alarm` member, so any other argument raises there. */
  function SetStateWith(o: Obj, arg: AlarmArg, reply: Result<Json>): (out: Outcome)
    requires o.Keys == Attributes
    ensures out.obj == o
    ensures arg.Other? ==> out.effects == [] && out.result.Fail?
    ensures arg.Other? ==> (out.result.error.TypeError? <==> !Hashable(arg.value))
    ensures arg.Other? && Hashable(arg.value) ==> out.result.error.KeyError?
    ensures out.effects != [] <==> arg.Member? && o["id"].JStr?
    ensures arg.Member? ==> out == SetState(o, arg.request, reply)
  {
    match arg
    case Other(v) =>
      if !Hashable(v) then Outcome(o, [], Fail(TypeError("unhashable type")))
      else Outcome(o, [], Fail(KeyError("")))
    case Member(request) => SetState(o, request, reply)
  }

  /** `update()`: the state read from the device's Alarm service is loaded
      into the attributes. */
  function Update(o: Obj, reply: Result<Json>): (out: Outcome)
    requires o.Keys == Attributes
    ensures out.obj.Keys == Attributes
    ensures !o["id"].JStr? ==> out == Outcome(o, [], Fail(TypeError("can only concatenate str")))
    ensures o["id"].JStr? ==> out == LegacyBase.Update(o, "smarthome/devices/" + o["id"].s + "/services/Alarm/state", reply)
  {
    if !o["id"].JStr? then Outcome(o, [], Fail(TypeError("can only concatenate str")))
    else LegacyBase.Update(o, "smarthome/devices/" + o["id"].s + "/services/Alarm/state", reply)
  }

  /** `update_from_query(record)`: a SmokeDetector record for this device
      with an `alarmState` sets the value; anything else is refused
      unchanged. */
  function UpdateFromQuery(o: Obj, q: Json): (out: Outcome)
    requires o.Keys == Attributes
    ensures out.effects == [] && out.obj.Keys == Attributes
    ensures Has(q, "id") && q.fields["id"] != JStr("SmokeDetector") ==> out == Outcome(o, [], Ok(JBool(false)))
    ensures out.result == Ok(JBool(true)) <==>
              && Has(q, "id") && q.fields["id"] == JStr("SmokeDetector")
              && CheckQuery(o["id"], q, "alarmState") == Ok(true)
              && Has(q.fields["state"], "value")
    ensures out.result == Ok(JBool(true)) ==> out.obj == o["value" := q.fields["state"].fields["value"]]
    ensures out.result != Ok(JBool(true)) ==> out.obj == o
  {
    ServiceQuery(o, q, "SmokeDetector", "alarmState", "value")
  }

  /** The record the controller pushes for a detector in state `s`. */
  function Record(deviceId: Json, s: AlarmState): Json {
    JObj(map["id" := JStr("SmokeDetector"), "deviceId" := deviceId,
             "state" := JObj(map["@type" := JStr("alarmState"), "value" := JStr(StateName(s))])])
  }

  /** A pushed state is read back by the getter. */
  lemma RecordReadBack(o: Obj, s: AlarmState)
    requires o.Keys == Attributes
    ensures var out := UpdateFromQuery(o, Record(o["id"], s));
            out.result == Ok(JBool(true)) && GetState(out.obj) == Ok(s)
  {
    RxStateName(s);
  }

  /** Requesting an alarm and then receiving the controller's record: only
      the record changes what the getter reports. */
  lemma RequestThenRecord(o: Obj, request: AlarmRequest, reply: Result<Json>, s: AlarmState)
    requires o.Keys == Attributes
    ensures GetState(SetState(o, request, reply).obj) == GetState(o)
    ensures GetState(UpdateFromQuery(SetState(o, request, reply).obj, Record(o["id"], s)).obj) == Ok(s)
  {
    RecordReadBack(o, s);
  }

  function Make(item: Obj, id: Json, name: Json): Obj {
    New(item, id, name)
  }

  /** `initialize_smoke_detectors(client, device_list)`: one detector per
      SD device, made from that device. */
  function InitializeSmokeDetectors(deviceList: BaseList): (r: Result<seq<Obj>>)
    ensures deviceList.items.None? ==> r.Fail?
    ensures r.Ok? ==> forall y | y in r.value ::
              exists x | x in deviceList.items.value :: IsModel(x, "SD") && Named(x) && y == New(x, x["id"], x["name"])
    ensures r.Ok? ==> forall x | x in deviceList.items.value && IsModel(x, "SD") :: Named(x) && New(x, x["id"], x["name"]) in r.value
  {
    InitializeAll(deviceList.items, "SD", Make)
  }
}
