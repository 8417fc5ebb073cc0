/** The legacy smart plug (BoschShcPy/smart_plug.py): a switch state read
    from the PowerSwitch service. */
module LegacySmartPlug {
  import opened PyJson
  import opened Effects
  import opened LegacyBase

  /** The attributes of a smart plug: the client and the name are private
      (`_client`, `_name`); only the name is kept here. */
  const Attributes: set<string> := {"id", "_name", "type", "switchState", "automaticPowerOffTime"}

  /** `SmartPlug(client, id, name)`: switch state and power-off time
      unknown. */
  function New(id: Json, name: Json): (o: Obj)
    ensures o.Keys == Attributes
    ensures o["id"] == id && o["_name"] == name
    ensures o["type"] == JNull && o["switchState"] == JNull && o["automaticPowerOffTime"] == JNull
  {
    map["id" := id, "_name" := name, "type" := JNull, "switchState" := JNull, "automaticPowerOffTime" := JNull]
  }

  /** The `state` property. */
  function State(o: Obj): Json
    requires o.Keys == Attributes
  {
    o["switchState"]
  }

  /** The `name` property. */
  function Name(o: Obj): Json
    requires o.Keys == Attributes
  {
    o["_name"]
  }

  /** `state` and `name` are properties without a setter: `load_dict`
      finds them present and not callable, and its `setattr` raises. */
  const ReadOnly: set<string> := {"state", "name"}

  const ReadOnlyError := AttributeError("can't set attribute")

  /** Data `load_dict` can apply without meeting a read-only name; anything
      that is not a dict is left to `load_dict`'s own failure. */
  predicate Settable(d: Json) {
    !(d.JObj? && ("state" in d.fields || "name" in d.fields))
  }

  /** `load(data)` on a smart plug over the elements of a list: as the base
      class's, except that a dict naming a read-only property raises. */
  function LoadPlugAll(o: Obj, items: seq<Json>): (st: Step<Obj>)
    ensures st.effects == [] && st.state.Keys == o.Keys
    ensures st.error.Some? ==> st.error.value.AttributeError?
    decreases |items|
  {
    if |items| == 0 then Step(o, [], None)
    else if !Settable(items[0]) then Step(o, [], Some(ReadOnlyError))
    else
      match LoadDict(o, items[0])
      case Fail(e) => Step(o, [], Some(e))
      case Ok(o') => LoadPlugAll(o', items[1..])
  }

  /** Without read-only names, the smart plug loads a list as any entity
      does. */
  lemma {:induction false} LoadPlugAllAgrees(o: Obj, items: seq<Json>)
    requires forall i | 0 <= i < |items| :: Settable(items[i])
    ensures LoadPlugAll(o, items) == LoadAll(o, items)
    decreases |items|
  {
    if |items| > 0 && items[0].JObj? {
      assert forall i | 0 <= i < |items| - 1 :: items[1..][i] == items[i + 1];
      LoadPlugAllAgrees(LoadDict(o, items[0]).value, items[1..]);
    }
  }

  /** Loading a list into a smart plug completes exactly when every element
      is a dict naming neither read-only property. */
  lemma {:induction false} LoadPlugAllSucceeds(o: Obj, items: seq<Json>)
    ensures LoadPlugAll(o, items).error.None? <==> forall i | 0 <= i < |items| :: items[i].JObj? && Settable(items[i])
    decreases |items|
  {
    if |items| > 0 && items[0].JObj? && Settable(items[0]) {
      LoadPlugAllSucceeds(LoadDict(o, items[0]).value, items[1..]);
      assert forall i | 1 <= i < |items| :: items[i] == items[1..][i - 1];
    }
  }

  /** `load(data)` on a smart plug. */
  function LoadPlug(o: Obj, data: Json): (st: Step<Obj>)
    ensures st.effects == [] && st.state.Keys == o.Keys
    ensures data.JArr? ==> st == LoadPlugAll(o, data.items)
    ensures !data.JArr? && Settable(data) ==> st == Load(o, data)
    ensures !Settable(data) ==> st == Step(o, [], Some(ReadOnlyError))
  {
    if data.JArr? then LoadPlugAll(o, data.items)
    else if !Settable(data) then Step(o, [], Some(ReadOnlyError))
    else Load(o, data)
  }

  /** `update()`: the PowerSwitch state is loaded and True returned. There
      is no handler, so a client error escapes instead of returning False. */
  function Update(o: Obj, reply: Result<Json>): (out: Outcome)
    requires o.Keys == Attributes
    ensures out.obj.Keys == Attributes
    ensures !o["id"].JStr? ==> out == Outcome(o, [], Fail(TypeError("can only concatenate str")))
    ensures o["id"].JStr? ==> out.effects == [Sent(ClientCall("GET", "smarthome/devices/" + o["id"].s + "/services/PowerSwitch/state", JNull))]
    ensures reply.Fail? ==> out.obj == o && out.result.Fail?
    ensures o["id"].JStr? && reply.Fail? ==> out.result == Fail(reply.error)
    ensures o["id"].JStr? && reply.Ok? ==> out.obj == LoadPlug(o, reply.value).state
    ensures o["id"].JStr? && reply.Ok? ==> (out.result == Ok(JBool(true)) <==> LoadPlug(o, reply.value).error.None?)
    ensures o["id"].JStr? && reply.Ok? && !Settable(reply.value) ==> out.obj == o && out.result == Fail(ReadOnlyError)
  {
    if !o["id"].JStr? then Outcome(o, [], Fail(TypeError("can only concatenate str")))
    else
      var sent := [Sent(ClientCall("GET", "smarthome/devices/" + o["id"].s + "/services/PowerSwitch/state", JNull))];
      match reply
      case Fail(e) => Outcome(o, sent, Fail(e))
      case Ok(data) =>
        var st := LoadPlug(o, data);
        Outcome(st.state, sent, if st.error.Some? then Fail(st.error.value) else Ok(JBool(true)))
  }

  /** After an update the state is the reported switch state, and the name
      and id are those the plug was made with. */
  lemma UpdateThenState(id: string, name: Json, switchState: Json, rest: map<string, Json>)
    requires "id" !in rest && "_name" !in rest && "name" !in rest && "state" !in rest
    ensures var out := Update(New(JStr(id), name), Ok(JObj(rest["switchState" := switchState])));
            && out.result == Ok(JBool(true))
            && State(out.obj) == switchState
            && Name(out.obj) == name && out.obj["id"] == JStr(id)
  {
  }

  /** A reply naming the `state` or `name` property makes the update raise
      and leaves the plug as it was. */
  lemma UpdateReadOnlyRaises(id: string, name: Json, rest: map<string, Json>)
    requires "name" in rest || "state" in rest
    ensures var out := Update(New(JStr(id), name), Ok(JObj(rest)));
            out.result == Fail(ReadOnlyError) && out.obj == New(JStr(id), name)
  {
  }

  function Make(item: Obj, id: Json, name: Json): Obj {
    New(id, name)
  }

  /** `initialize_smart_plugs(client, device_list)`: one plug per PSM
      device, carrying its id and name. */
  function InitializeSmartPlugs(deviceList: BaseList): (r: Result<seq<Obj>>)
    ensures deviceList.items.None? ==> r.Fail?
    ensures r.Ok? ==> forall y | y in r.value ::
              exists x | x in deviceList.items.value :: IsModel(x, "PSM") && Named(x) && y == New(x["id"], x["name"])
    ensures r.Ok? ==> forall x | x in deviceList.items.value && IsModel(x, "PSM") :: Named(x) && New(x["id"], x["name"]) in r.value
  {
    InitializeAll(deviceList.items, "PSM", Make)
  }
}
