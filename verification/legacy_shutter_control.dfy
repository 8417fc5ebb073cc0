/** The legacy shutter control (BoschShcPy/shutter_control.py): a roller
    shutter whose operation state and level follow the controller's
    `shutterControlState` records. */
module LegacyShutterControl {
  import opened PyJson
  import opened Effects
  import opened LegacyBase

  datatype OperationState = Stopped | Moving | Calibrating

  const StateNames: set<string> := {"STOPPED", "MOVING", "CALIBRATING"}

  /** `operation_state_tx`. */
  function Tx(s: OperationState): (r: string)
    ensures r in StateNames
  {
    match s
    case Stopped => "STOPPED"
    case Moving => "MOVING"
    case Calibrating => "CALIBRATING"
  }

  /** `operation_state_rx`: defined exactly on the three names, and the
      inverse of `Tx` there. */
  function Rx(v: Json): (r: Result<OperationState>)
    ensures r.Ok? <==> v.JStr? && v.s in StateNames
    ensures r.Ok? ==> Tx(r.value) == v.s
    ensures r.Fail? ==> r.error.KeyError? || r.error.TypeError?
  {
    var name :- TableKey(v, StateNames);
    Ok(if name == "STOPPED" then Stopped else if name == "MOVING" then Moving else Calibrating)
  }

  /** Sending a state and reading it back gives the state. */
  lemma RxTx(s: OperationState)
    ensures Rx(JStr(Tx(s))) == Ok(s)
  {
  }

  /** The attributes of a shutter control; the client it sends through is
      not one of them. */
  const Attributes: set<string> := {"device", "id", "name", "type", "operationState", "level"}

  /** `ShutterControl(client, device, id, name)`: stopped, level unknown. */
  function New(device: Obj, id: Json, name: Json): (o: Obj)
    ensures o.Keys == Attributes
    ensures o["device"] == JObj(device) && o["id"] == id && o["name"] == name
    ensures o["operationState"] == JStr("STOPPED") && o["level"] == JNull && o["type"] == JNull
  {
    map["device" := JObj(device), "id" := id, "name" := name, "type" := JNull,
        "operationState" := JStr("STOPPED"), "level" := JNull]
  }

  /** `get_state`. */
  function GetState(o: Obj): (r: Result<OperationState>)
    requires o.Keys == Attributes
    ensures r.Ok? <==> o["operationState"].JStr? && o["operationState"].s in StateNames
    ensures r.Ok? ==> JStr(Tx(r.value)) == o["operationState"]
  {
    Rx(o["operationState"])
  }

  /** A fresh shutter control reports STOPPED. */
  lemma NewIsStopped(device: Obj, id: Json, name: Json)
    ensures GetState(New(device, id, name)) == Ok(Stopped)
  {
    RxTx(Stopped);
  }

  /** `update()`: the state read from the device's ShutterControl service
      is loaded into the attributes. */
  function Update(o: Obj, reply: Result<Json>): (out: Outcome)
    requires o.Keys == Attributes
    ensures out.obj.Keys == Attributes
    ensures !o["id"].JStr? ==> out == Outcome(o, [], Fail(TypeError("can only concatenate str")))
    ensures o["id"].JStr? ==> out == LegacyBase.Update(o, "smarthome/devices/" + o["id"].s + "/services/ShutterControl/state", reply)
  {
    if !o["id"].JStr? then Outcome(o, [], Fail(TypeError("can only concatenate str")))
    else LegacyBase.Update(o, "smarthome/devices/" + o["id"].s + "/services/ShutterControl/state", reply)
  }

  /** `update_from_query(record)`: only a ShutterControl record for this
      device with a `shutterControlState` is taken. It always sets the
      operation state, and the level only once the shutter has stopped,
      because a moving shutter reports a stale level. A level missing from
      a STOPPED record raises after the operation state was already set. */
  function UpdateFromQuery(o: Obj, q: Json): (out: Outcome)
    requires o.Keys == Attributes
    ensures out.effects == [] && out.obj.Keys == Attributes
    ensures Has(q, "id") && q.fields["id"] != JStr("ShutterControl") ==> out == Outcome(o, [], Ok(JBool(false)))
    ensures out.result == Ok(JBool(false)) ==> out.obj == o
    ensures out.result == Ok(JBool(true)) <==>
              && Has(q, "id") && q.fields["id"] == JStr("ShutterControl")
              && CheckQuery(o["id"], q, "shutterControlState") == Ok(true)
              && Has(q.fields["state"], "operationState")
              && (q.fields["state"].fields["operationState"] == JStr("STOPPED") ==> Has(q.fields["state"], "level"))
    ensures out.result == Ok(JBool(true)) ==>
              var state := q.fields["state"].fields;
              && out.obj["operationState"] == state["operationState"]
              && (state["operationState"] == JStr("STOPPED") ==> out.obj["level"] == state["level"])
              && (state["operationState"] != JStr("STOPPED") ==> out.obj["level"] == o["level"])
              && forall n | n in o && n != "operationState" && n != "level" :: out.obj[n] == o[n]
    ensures out.result.Fail? ==> out.result.error.KeyError? || out.result.error.TypeError?
    ensures out.result.Fail? ==> forall n | n in o && n != "operationState" :: out.obj[n] == o[n]
  {
    match Field(q, "id")
    case Fail(e) => Outcome(o, [], Fail(e))
    case Ok(sid) =>
      if sid != JStr("ShutterControl") then Outcome(o, [], Ok(JBool(false)))
      else match CheckQuery(o["id"], q, "shutterControlState")
        case Fail(e) => Outcome(o, [], Fail(e))
        case Ok(accepted) =>
          if !accepted then Outcome(o, [], Ok(JBool(false)))
          else
            var state := q.fields["state"];
            match Field(state, "operationState")
            case Fail(e) => Outcome(o, [], Fail(e))
            case Ok(op) =>
              var moved := o["operationState" := op];
              if op != JStr("STOPPED") then Outcome(moved, [], Ok(JBool(true)))
              else match Field(state, "level")
                case Fail(e) => Outcome(moved, [], Fail(e))
                case Ok(level) => Outcome(moved["level" := level], [], Ok(JBool(true)))
  }

  /** The record the controller pushes for a shutter in state `s` at
      `level`. */
  function Record(deviceId: Json, s: OperationState, level: Json): Json {
    JObj(map["id" := JStr("ShutterControl"), "deviceId" := deviceId,
             "state" := JObj(map["@type" := JStr("shutterControlState"),
                                 "operationState" := JStr(Tx(s)), "level" := level])])
  }

  /** A record for this device is accepted and read back: the reported
      state is `s`, and the level is the record's once stopped and the old
      one while moving or calibrating. */
  lemma RecordReadBack(o: Obj, s: OperationState, level: Json)
    requires o.Keys == Attributes
    ensures var out := UpdateFromQuery(o, Record(o["id"], s, level));
            && out.result == Ok(JBool(true))
            && GetState(out.obj) == Ok(s)
            && out.obj["level"] == (if s == Stopped then level else o["level"])
  {
    RxTx(s);
  }

  /** Taking the same record twice leaves what taking it once left. */
  lemma UpdateFromQueryIdempotent(o: Obj, q: Json)
    requires o.Keys == Attributes
    requires UpdateFromQuery(o, q).result.Ok?
    ensures UpdateFromQuery(UpdateFromQuery(o, q).obj, q) == UpdateFromQuery(o, q)
  {
    var once := UpdateFromQuery(o, q);
    if once.result == Ok(JBool(true)) {
      var twice := UpdateFromQuery(once.obj, q);
      assert once.obj["id"] == o["id"];
      assert twice.obj.Keys == once.obj.Keys;
      assert forall n | n in once.obj :: twice.obj[n] == once.obj[n];
    }
  }

  /** `set_level(level)`: the new level is recorded only once the request
      went through. */
  function SetLevel(o: Obj, level: Json, reply: Result<Json>): (out: Outcome)
    requires o.Keys == Attributes
    ensures out.obj.Keys == Attributes
    ensures !o["id"].JStr? ==> out == Outcome(o, [], Fail(TypeError("can only concatenate str")))
    ensures o["id"].JStr? ==>
              out.effects == [Sent(ClientCall("PUT", "smarthome/devices/" + o["id"].s + "/services/ShutterControl/state",
                                              JObj(map["@type" := JStr("shutterControlState"), "level" := level])))]
    ensures o["id"].JStr? && reply.Ok? ==> out.obj == o["level" := level] && out.result == Ok(JBool(true))
    ensures reply.Fail? ==> out.obj == o
    ensures o["id"].JStr? && reply.Fail? && reply.error.ClientError? ==> out.result == Ok(JBool(false))
  {
    if !o["id"].JStr? then Outcome(o, [], Fail(TypeError("can only concatenate str")))
    else
      Command(o, "PUT", "smarthome/devices/" + o["id"].s + "/services/ShutterControl/state", JObj(map["@type" := JStr("shutterControlState"), "level" := level]), reply, o["level" := level])
  }

  /** `stop()`: a bodiless PUT to the shading endpoint; nothing local
      changes. */
  function Stop(o: Obj, reply: Result<Json>): (out: Outcome)
    requires o.Keys == Attributes
    ensures out.obj == o
    ensures !o["id"].JStr? ==> out.effects == [] && out.result.Fail?
    ensures o["id"].JStr? ==> out.effects == [Sent(ClientCall("PUT", "smarthome/shading/shutters/" + o["id"].s + "/stop", JNull))]
    ensures o["id"].JStr? ==> out.result == (if reply.Ok? then Ok(JBool(true)) else Swallowed(reply.error))
  {
    if !o["id"].JStr? then Outcome(o, [], Fail(TypeError("can only concatenate str")))
    else Command(o, "PUT", "smarthome/shading/shutters/" + o["id"].s + "/stop", JNull, reply, o)
  }

  function Make(item: Obj, id: Json, name: Json): Obj {
    New(item, id, name)
  }

  /** `initialize_shutter_controls(client, device_list)`: one shutter
      control per BBL device, made from that device. */
  function InitializeShutterControls(deviceList: BaseList): (r: Result<seq<Obj>>)
    ensures deviceList.items.None? ==> r.Fail?
    ensures r.Ok? ==> forall y | y in r.value ::
              exists x | x in deviceList.items.value :: IsModel(x, "BBL") && Named(x) && y == New(x, x["id"], x["name"])
    ensures r.Ok? ==> forall x | x in deviceList.items.value && IsModel(x, "BBL") :: Named(x) && New(x, x["id"], x["name"]) in r.value
  {
    InitializeAll(deviceList.items, "BBL", Make)
  }
}
