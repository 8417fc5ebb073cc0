/** The legacy intrusion detection system
    (BoschShcPy/intrusion_detection.py): a fixed singleton entity that
    arms, disarms and mutes the alarm through the controller. */
module LegacyIntrusionDetection {
  import opened PyJson
  import opened Effects
  import opened LegacyBase

  datatype OperationState = SystemDisarmed | SystemArming | SystemArmed | MuteAlarm

  const StateNames: set<string> := {"SYSTEM_DISARMED", "SYSTEM_ARMING", "SYSTEM_ARMED", "MUTE_ALARM"}

  /** `operation_state_tx`. */
  function Tx(s: OperationState): (r: string)
    ensures r in StateNames
  {
    match s
    case SystemDisarmed => "SYSTEM_DISARMED"
    case SystemArming => "SYSTEM_ARMING"
    case SystemArmed => "SYSTEM_ARMED"
    case MuteAlarm => "MUTE_ALARM"
  }

  /** `operation_state_rx`: defined exactly on the four names, and the
      inverse of `Tx` there. */
  function Rx(v: Json): (r: Result<OperationState>)
    ensures r.Ok? <==> v.JStr? && v.s in StateNames
    ensures r.Ok? ==> Tx(r.value) == v.s
    ensures r.Fail? ==> r.error.KeyError? || r.error.TypeError?
  {
    var name :- TableKey(v, StateNames);
    Ok(if name == "SYSTEM_DISARMED" then SystemDisarmed
       else if name == "SYSTEM_ARMING" then SystemArming
       else if name == "SYSTEM_ARMED" then SystemArmed
       else MuteAlarm)
  }

  lemma RxTx(s: OperationState)
    ensures Rx(JStr(Tx(s))) == Ok(s)
  {
  }

  const Attributes: set<string> :=
    {"id", "name", "value", "actuators", "triggers", "remainingTimeUntilArmed",
     "armActivationDelayTime", "alarmActivationDelayTime"}

  /** The service state every request of the system addresses. */
  const StatePath := "smarthome/devices/intrusionDetectionSystem/services/IntrusionDetectionControl/state"

  /** `IntrusionDetection(client)`: disarmed, with a fixed id and name and
      no actuators, triggers or delays known. */
  function New(): (o: Obj)
    ensures o.Keys == Attributes
    ensures o["id"] == JStr("intrusionDetectionControlState") && o["name"] == JStr("Intrusion Detection System")
    ensures o["value"] == JStr("SYSTEM_DISARMED") && o["actuators"] == JArr([]) && o["triggers"] == JArr([])
    ensures o["remainingTimeUntilArmed"] == JNull && o["armActivationDelayTime"] == JNull && o["alarmActivationDelayTime"] == JNull
  {
    map["id" := JStr("intrusionDetectionControlState"), "name" := JStr("Intrusion Detection System"),
        "value" := JStr("SYSTEM_DISARMED"), "actuators" := JArr([]), "triggers" := JArr([]),
        "remainingTimeUntilArmed" := JNull, "armActivationDelayTime" := JNull, "alarmActivationDelayTime" := JNull]
  }

  /** `get_state`. */
  function GetState(o: Obj): (r: Result<OperationState>)
    requires o.Keys == Attributes
    ensures r.Ok? <==> o["value"].JStr? && o["value"].s in StateNames
    ensures r.Ok? ==> JStr(Tx(r.value)) == o["value"]
  {
    Rx(o["value"])
  }

  lemma NewIsDisarmed()
    ensures GetState(New()) == Ok(SystemDisarmed)
  {
    RxTx(SystemDisarmed);
  }

  /** `update()`: the control state is loaded into the attributes; a
      client error returns False. */
  function Update(o: Obj, reply: Result<Json>): (out: Outcome)
    requires o.Keys == Attributes
    ensures out.obj.Keys == Attributes
    ensures out.effects == [Sent(ClientCall("GET", StatePath, JNull))]
    ensures reply.Fail? ==> out.obj == o && out.result == Swallowed(reply.error)
    ensures reply.Ok? && reply.value.JObj? ==> out.obj == LoadDict(o, reply.value).value && out.result == Ok(JBool(true))
  {
    LegacyBase.Update(o, StatePath, reply)
  }

  /** The body that requests operation state `s`. */
  function StateBody(s: OperationState): Json {
    JObj(map["@type" := JStr("intrusionDetectionControlState"), "value" := JStr(Tx(s))])
  }

  /** `setOperationState(s)`: arming is not something to request, so it
      returns False without a request; any other state is requested and
      True returned, or False on a client error. The local value waits for
      the controller either way. */
  function SetOperationState(o: Obj, s: OperationState, reply: Result<Json>): (out: Outcome)
    ensures out.obj == o
    ensures s == SystemArming ==> out == Outcome(o, [], Ok(JBool(false)))
    ensures s != SystemArming ==> out.effects == [Sent(ClientCall("PUT", StatePath, StateBody(s)))]
    ensures s != SystemArming && reply.Ok? ==> out.result == Ok(JBool(true))
    ensures s != SystemArming && reply.Fail? ==> out.result == Swallowed(reply.error)
  {
    if s == SystemArming then Outcome(o, [], Ok(JBool(false)))
    else Command(o, "PUT", StatePath, StateBody(s), reply, o)
  }

  /** `disarm()`, `arm()` and `mute_alarm()`. */
  function Disarm(o: Obj, reply: Result<Json>): (out: Outcome)
    ensures out == SetOperationState(o, SystemDisarmed, reply)
    ensures out.effects == [Sent(ClientCall("PUT", StatePath, JObj(map["@type" := JStr("intrusionDetectionControlState"), "value" := JStr("SYSTEM_DISARMED")])))]
  {
    SetOperationState(o, SystemDisarmed, reply)
  }

  function Arm(o: Obj, reply: Result<Json>): (out: Outcome)
    ensures out == SetOperationState(o, SystemArmed, reply)
    ensures out.effects == [Sent(ClientCall("PUT", StatePath, JObj(map["@type" := JStr("intrusionDetectionControlState"), "value" := JStr("SYSTEM_ARMED")])))]
  {
    SetOperationState(o, SystemArmed, reply)
  }

  function MuteAlarmRequest(o: Obj, reply: Result<Json>): (out: Outcome)
    ensures out == SetOperationState(o, MuteAlarm, reply)
    ensures out.effects == [Sent(ClientCall("PUT", StatePath, JObj(map["@type" := JStr("intrusionDetectionControlState"), "value" := JStr("MUTE_ALARM")])))]
  {
    SetOperationState(o, MuteAlarm, reply)
  }

  /** Requesting a state and then loading the controller's answer: the
      getter reports the requested state once the controller reports it. */
  lemma RequestThenUpdate(o: Obj, s: OperationState, reply: Result<Json>)
    requires o.Keys == Attributes && s != SystemArming
    ensures var asked := SetOperationState(o, s, reply).obj;
            GetState(Update(asked, Ok(StateBody(s))).obj) == Ok(s)
  {
    RxTx(s);
  }
}
