/** The legacy shutter contact (BoschShcPy/shutter_contact.py): a window or
    door contact whose value follows the controller's
    `shutterContactState` records. */
module LegacyShutterContact {
  import opened PyJson
  import opened Effects
  import opened LegacyBase

  datatype ContactState = Closed | Open

  const StateNames: set<string> := {"CLOSED", "OPEN"}

  /** `state_tx`. */
  function Tx(s: ContactState): (r: string)
    ensures r in StateNames
  {
    match s
    case Closed => "CLOSED"
    case Open => "OPEN"
  }

  /** `state_rx`: defined exactly on the two names, and the inverse of
      `Tx` there. */
  function Rx(v: Json): (r: Result<ContactState>)
    ensures r.Ok? <==> v.JStr? && v.s in StateNames
    ensures r.Ok? ==> Tx(r.value) == v.s
    ensures r.Fail? ==> r.error.KeyError? || r.error.TypeError?
  {
    var name :- TableKey(v, StateNames);
    Ok(if name == "CLOSED" then Closed else Open)
  }

  lemma RxTx(s: ContactState)
    ensures Rx(JStr(Tx(s))) == Ok(s)
  {
  }

  /** The attributes of a shutter contact; the client is not one of them. */
  const Attributes: set<string> := {"device", "id", "name", "value", "batterylevel"}

  /** `ShutterContact(client, device, id, name)`: closed, battery level
      unknown. */
  function New(device: Obj, id: Json, name: Json): (o: Obj)
    ensures o.Keys == Attributes
    ensures o["device"] == JObj(device) && o["id"] == id && o["name"] == name
    ensures o["value"] == JStr("CLOSED") && o["batterylevel"] == JNull
  {
    map["device" := JObj(device), "id" := id, "name" := name,
        "value" := JStr("CLOSED"), "batterylevel" := JNull]
  }

  /** `get_state` as written: it looks the state up under `operationState`,
      an attribute a shutter contact never has (`load` only overwrites
      attributes that exist), so it raises every time. */
  function GetStateAsWritten(o: Obj): (r: Result<ContactState>)
    ensures "operationState" !in o ==> r == Fail(AttributeError("'ShutterContact' object has no attribute 'operationState'"))
    ensures r.Ok? ==> "operationState" in o && JStr(Tx(r.value)) == o["operationState"]
  {
    if "operationState" in o then Rx(o["operationState"])
    else Fail(AttributeError("'ShutterContact' object has no attribute 'operationState'"))
  }

  /** `get_state` as intended: the state named by `value`, the attribute
      the updates write. */
  function GetState(o: Obj): (r: Result<ContactState>)
    requires o.Keys == Attributes
    ensures r.Ok? <==> o["value"].JStr? && o["value"].s in StateNames
    ensures r.Ok? ==> JStr(Tx(r.value)) == o["value"]
  {
    Rx(o["value"])
  }

  /** Whatever state a contact holds, the getter as written raises on it;
      on a fresh contact the intended getter reads CLOSED. */
  lemma GetStateDiscrepancy(o: Obj, device: Obj, id: Json, name: Json)
    requires o.Keys == Attributes
    ensures GetStateAsWritten(o).Fail? && GetStateAsWritten(o).error.AttributeError?
    ensures GetState(New(device, id, name)) == Ok(Closed)
    ensures GetStateAsWritten(New(device, id, name)).Fail?
  {
    RxTx(Closed);
  }

  /** `update()`: the state read from the device's ShutterContact service
      is loaded into the attributes. */
  function Update(o: Obj, reply: Result<Json>): (out: Outcome)
    requires o.Keys == Attributes
    ensures out.obj.Keys == Attributes
    ensures !o["id"].JStr? ==> out == Outcome(o, [], Fail(TypeError("can only concatenate str")))
    ensures o["id"].JStr? ==> out == LegacyBase.Update(o, "smarthome/devices/" + o["id"].s + "/services/ShutterContact/state", reply)
  {
    if !o["id"].JStr? then Outcome(o, [], Fail(TypeError("can only concatenate str")))
    else LegacyBase.Update(o, "smarthome/devices/" + o["id"].s + "/services/ShutterContact/state", reply)
  }

  /** `update_from_query(record)`: a ShutterContact record for this device
      with a `shutterContactState` sets the value; anything else is refused
      unchanged. */
  function UpdateFromQuery(o: Obj, q: Json): (out: Outcome)
    requires o.Keys == Attributes
    ensures out.effects == [] && out.obj.Keys == Attributes
    ensures Has(q, "id") && q.fields["id"] != JStr("ShutterContact") ==> out == Outcome(o, [], Ok(JBool(false)))
    ensures out.result == Ok(JBool(true)) <==>
              && Has(q, "id") && q.fields["id"] == JStr("ShutterContact")
              && CheckQuery(o["id"], q, "shutterContactState") == Ok(true)
              && Has(q.fields["state"], "value")
    ensures out.result == Ok(JBool(true)) ==> out.obj == o["value" := q.fields["state"].fields["value"]]
    ensures out.result != Ok(JBool(true)) ==> out.obj == o
  {
    ServiceQuery(o, q, "ShutterContact", "shutterContactState", "value")
  }

  /** The record the controller pushes for a contact in state `s`. */
  function Record(deviceId: Json, s: ContactState): Json {
    JObj(map["id" := JStr("ShutterContact"), "deviceId" := deviceId,
             "state" := JObj(map["@type" := JStr("shutterContactState"), "value" := JStr(Tx(s))])])
  }

  /** A record for this device is accepted, and the intended getter reads
      its state back. */
  lemma RecordReadBack(o: Obj, s: ContactState)
    requires o.Keys == Attributes
    ensures var out := UpdateFromQuery(o, Record(o["id"], s));
            out.result == Ok(JBool(true)) && GetState(out.obj) == Ok(s)
  {
    RxTx(s);
  }

  function Make(item: Obj, id: Json, name: Json): Obj {
    New(item, id, name)
  }

  /** `initialize_shutter_contacts(client, device_list)`: one contact per
      SWD device, made from that device. */
  function InitializeShutterContacts(deviceList: BaseList): (r: Result<seq<Obj>>)
    ensures deviceList.items.None? ==> r.Fail?
    ensures r.Ok? ==> forall y | y in r.value ::
              exists x | x in deviceList.items.value :: IsModel(x, "SWD") && Named(x) && y == New(x, x["id"], x["name"])
    ensures r.Ok? ==> forall x | x in deviceList.items.value && IsModel(x, "SWD") :: Named(x) && New(x, x["id"], x["name"]) in r.value
  {
    InitializeAll(deviceList.items, "SWD", Make)
  }
}
