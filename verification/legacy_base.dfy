/** The base classes of the legacy package (BoschShcPy/base.py and
    BoschShcPy/base_list.py). A legacy entity is modelled by its instance
    attributes; `load` copies decoded controller data into the attributes
    the entity already has and ignores every other key. */
module LegacyBase {
  import opened PyJson
  import opened Effects

  /** An entity's instance attributes: name to value. The client object an
      entity keeps for its requests is not an attribute here; requests are
      effects. */
  type Obj = map<string, Json>

  /** The value one key of `data` gives attribute `n`, if any. */
  function Merged(o: Obj, fields: map<string, Json>): (r: Obj)
    ensures r.Keys == o.Keys
  {
    map n | n in o :: if n in fields then fields[n] else o[n]
  }

  /** `load_dict(data)`: each key of `data` that names an existing attribute
      overwrites it; keys naming no attribute are dropped, so the set of
      attributes never grows. Anything but a dict has no `items`. */
  function LoadDict(o: Obj, data: Json): (r: Result<Obj>)
    ensures r.Ok? <==> data.JObj?
    ensures r.Fail? ==> r.error.AttributeError?
    ensures r.Ok? ==> r.value.Keys == o.Keys
    ensures r.Ok? ==> forall n | n in o && n in data.fields :: r.value[n] == data.fields[n]
    ensures r.Ok? ==> forall n | n in o && n !in data.fields :: r.value[n] == o[n]
  {
    if !data.JObj? then Fail(AttributeError("object has no attribute 'items'"))
    else Ok(Merged(o, data.fields))
  }

  /** Loading the same data twice is loading it once. */
  lemma LoadDictIdempotent(o: Obj, data: Json)
    requires data.JObj?
    ensures LoadDict(LoadDict(o, data).value, data) == LoadDict(o, data)
  {
    var a := LoadDict(LoadDict(o, data).value, data).value;
    var b := LoadDict(o, data).value;
    assert a.Keys == b.Keys;
    assert forall n | n in o :: a[n] == b[n];
    assert a == b;
  }

  /** Loading two dicts in turn is loading their union, the second winning
      on shared keys. */
  lemma LoadDictTwice(o: Obj, d1: map<string, Json>, d2: map<string, Json>)
    ensures LoadDict(LoadDict(o, JObj(d1)).value, JObj(d2)) == LoadDict(o, JObj(d1 + d2))
  {
    var a := LoadDict(LoadDict(o, JObj(d1)).value, JObj(d2)).value;
    var b := LoadDict(o, JObj(d1 + d2)).value;
    assert a.Keys == b.Keys;
    assert forall n | n in o :: a[n] == b[n];
    assert a == b;
  }

  /** `load(data)` over the elements of a list, in order: an element that
      is not a dict raises, keeping what the earlier elements loaded. */
  function LoadAll(o: Obj, items: seq<Json>): (st: Step<Obj>)
    ensures st.effects == [] && st.state.Keys == o.Keys
    ensures st.error.Some? ==> st.error.value.AttributeError?
    decreases |items|
  {
    if |items| == 0 then Step(o, [], None)
    else
      match LoadDict(o, items[0])
      case Fail(e) => Step(o, [], Some(e))
      case Ok(o') =>
        var st := LoadAll(o', items[1..]);
        assert forall i | 1 <= i < |items| :: items[i] == items[1..][i - 1];
        st
  }

  /** Loading a list fails exactly when some element is not a dict. */
  lemma {:induction false} LoadAllSucceeds(o: Obj, items: seq<Json>)
    ensures LoadAll(o, items).error.None? <==> forall i | 0 <= i < |items| :: items[i].JObj?
    decreases |items|
  {
    if |items| > 0 && items[0].JObj? {
      LoadAllSucceeds(LoadDict(o, items[0]).value, items[1..]);
      assert forall i | 1 <= i < |items| :: items[i] == items[1..][i - 1];
    }
  }

  /** Loading a list in two runs is loading the second run into what the
      first run produced. */
  lemma {:induction false} LoadAllAppend(o: Obj, a: seq<Json>, b: seq<Json>)
    requires forall i | 0 <= i < |a| :: a[i].JObj?
    ensures LoadAll(o, a + b) == LoadAll(LoadAll(o, a).state, b)
    decreases |a|
  {
    if |a| == 0 {
      assert a + b == b;
    } else {
      assert (a + b)[0] == a[0];
      assert (a + b)[1..] == a[1..] + b;
      LoadAllAppend(LoadDict(o, a[0]).value, a[1..], b);
    }
  }

  /** A later element wins: whatever came before, the attributes the last
      element names take its values. */
  lemma {:induction false} LoadLastWins(o: Obj, a: seq<Json>, last: map<string, Json>, n: string)
    requires forall i | 0 <= i < |a| :: a[i].JObj?
    requires n in o && n in last
    ensures LoadAll(o, a + [JObj(last)]).error.None?
    ensures LoadAll(o, a + [JObj(last)]).state[n] == last[n]
  {
    LoadAllAppend(o, a, [JObj(last)]);
    assert [JObj(last)][1..] == [];
    LoadAllSucceeds(o, a);
  }

  /** `load(data)`: a list is loaded element by element, anything else as
      one dict. The entity itself is returned, so the result is the
      updated attributes. */
  function Load(o: Obj, data: Json): (st: Step<Obj>)
    ensures st.effects == [] && st.state.Keys == o.Keys
    ensures data.JArr? ==> st == LoadAll(o, data.items)
    ensures !data.JArr? ==> (st.error.None? <==> data.JObj?)
    ensures data.JObj? ==> st.state == LoadDict(o, data).value
    ensures st.error.Some? ==> st.error.value.AttributeError?
  {
    if data.JArr? then LoadAll(o, data.items)
    else
      match LoadDict(o, data)
      case Fail(e) => Step(o, [], Some(e))
      case Ok(o') => Step(o', [], None)
  }

  /** `value_to_time(value)`: `None` stays `None`; a text goes to the date
      parser, which is outside the model. */
  function ValueToTime(value: Json, parse: string -> Result<Json>): (r: Result<Json>)
    ensures value == JNull ==> r == Ok(JNull)
    ensures value.JStr? ==> r == parse(value.s)
    ensures !value.JNull? && !value.JStr? ==> r.Fail?
  {
    if value == JNull then Ok(JNull)
    else if value.JStr? then parse(value.s)
    else Fail(TypeError("Parser must be a string or character stream"))
  }

  /** `BaseList(item_type)`: paging fields, the typed items once loaded, and
      the attributes a fresh item starts with. */
  datatype BaseList = BaseList(limit: Json, offset: Json, count: Json, totalCount: Json,
                               items: Option<seq<Obj>>, itemType: Obj)

  function NewList(itemType: Obj): (l: BaseList)
    ensures l.items.None? && l.itemType == itemType
  {
    BaseList(JNull, JNull, JNull, JNull, None, itemType)
  }

  /** One fresh item per element, each loaded from its element. */
  function LoadItems(itemType: Obj, data: seq<Json>): (r: Result<seq<Obj>>)
    ensures r.Ok? <==> forall i | 0 <= i < |data| :: Load(itemType, data[i]).error.None?
    ensures r.Ok? ==> |r.value| == |data|
    ensures r.Ok? ==> forall i | 0 <= i < |data| :: r.value[i] == Load(itemType, data[i]).state
    decreases |data|
  {
    if |data| == 0 then Ok([])
    else
      var first := Load(itemType, data[0]);
      if first.error.Some? then Fail(first.error.value)
      else
        var tail := data[1..];
        var rest := LoadItems(itemType, tail);
        if rest.Fail? then
          assert exists k | 0 <= k < |data| :: Load(itemType, data[k]).error.Some? by {
            var k :| 0 <= k < |tail| && Load(itemType, tail[k]).error.Some?;
            assert data[k + 1] == tail[k];
          }
          Fail(rest.error)
        else
          var items := [first.state] + rest.value;
          assert forall i | 0 <= i < |data| :: Load(itemType, data[i]).error.None? && items[i] == Load(itemType, data[i]).state by {
            forall i | 0 <= i < |data|
              ensures Load(itemType, data[i]).error.None? && items[i] == Load(itemType, data[i]).state
            {
              if i > 0 {
                assert data[i] == tail[i - 1] && items[i] == rest.value[i - 1];
              }
            }
          }
          Ok(items)
  }

  /** `BaseList.load(data)` and the `items` setter, which does the same:
      the items are replaced only when every element loaded. */
  function LoadList(l: BaseList, data: Json): (r: Result<BaseList>)
    ensures r.Ok? <==> data.JArr? && LoadItems(l.itemType, data.items).Ok?
    ensures r.Ok? ==> r.value == l.(items := Some(LoadItems(l.itemType, data.items).value))
  {
    var elements :- Elements(data);
    var items :- LoadItems(l.itemType, elements);
    Ok(l.(items := Some(items)))
  }

  /** The item count reported for a list: none before loading. */
  function ItemCount(l: BaseList): (n: nat)
    ensures l.items.None? ==> n == 0
    ensures l.items.Some? ==> n == |l.items.value|
  {
    if l.items.None? then 0 else |l.items.value|
  }

  /** Loading a list yields as many items as it had elements. */
  lemma LoadListCount(l: BaseList, data: seq<Json>)
    requires forall i | 0 <= i < |data| :: data[i].JObj?
    ensures LoadList(l, JArr(data)).Ok?
    ensures ItemCount(LoadList(l, JArr(data)).value) == |data|
  {
  }

  /** An entity is of `model` when its `deviceModel` attribute is that
      text. */
  predicate IsModel(item: Obj, model: string) {
    "deviceModel" in item && item["deviceModel"] == JStr(model)
  }

  /** The entity has the `id` and `name` attributes a helper reads. */
  predicate Named(item: Obj) {
    "id" in item && "name" in item
  }

  /** The `initialize_*` helpers: one entity made by `make(item, item.id,
      item.name)` for each listed device of `model`, in list order. A list
      that was never loaded is not iterable, and a device lacking an
      attribute the helper reads raises. */
  function InitializeAll(items: Option<seq<Obj>>, model: string, make: (Obj, Json, Json) -> Obj): (r: Result<seq<Obj>>)
    ensures items.None? ==> r.Fail? && r.error.TypeError?
    ensures r.Ok? ==> items.Some? && forall y | y in r.value ::
              exists x | x in items.value :: IsModel(x, model) && Named(x) && y == make(x, x["id"], x["name"])
    ensures r.Ok? ==> forall x | x in items.value && IsModel(x, model) :: Named(x) && make(x, x["id"], x["name"]) in r.value
    ensures items.Some? && (forall x | x in items.value :: "deviceModel" in x && Named(x)) ==> r.Ok?
  {
    if items.None? then Fail(TypeError("'NoneType' object is not iterable"))
    else
      var r := Select(items.value, model, make);
      if r.Ok? then SelectSoundComplete(items.value, model, make); r
      else
        assert !forall i | 0 <= i < |items.value| :: "deviceModel" in items.value[i] && Named(items.value[i]) by {
          if forall i | 0 <= i < |items.value| :: "deviceModel" in items.value[i] && Named(items.value[i]) {
            SelectTotal(items.value, model, make);
          }
        }
        r
  }

  function Select(items: seq<Obj>, model: string, make: (Obj, Json, Json) -> Obj): (r: Result<seq<Obj>>)
    decreases |items|
  {
    if |items| == 0 then Ok([])
    else
      var x := items[0];
      if "deviceModel" !in x then Fail(AttributeError("object has no attribute 'deviceModel'"))
      else if x["deviceModel"] != JStr(model) then
        assert forall y | y in items[1..] :: y in items;
        Select(items[1..], model, make)
      else if !Named(x) then Fail(AttributeError("object has no attribute"))
      else
        assert forall y | y in items[1..] :: y in items;
        var rest :- Select(items[1..], model, make);
        Ok([make(x, x["id"], x["name"])] + rest)
  }

  /** Selection cannot fail when every listed device has the attributes
      it reads. */
  lemma {:induction false} SelectTotal(items: seq<Obj>, model: string, make: (Obj, Json, Json) -> Obj)
    requires forall i | 0 <= i < |items| :: "deviceModel" in items[i] && Named(items[i])
    ensures Select(items, model, make).Ok?
    decreases |items|
  {
    if |items| > 0 {
      assert forall i | 0 <= i < |items| - 1 :: items[1..][i] == items[i + 1];
      SelectTotal(items[1..], model, make);
    }
  }

  /** Every entity made comes from a listed device of the model, and every
      listed device of the model gives one. */
  lemma {:induction false} SelectSoundComplete(items: seq<Obj>, model: string, make: (Obj, Json, Json) -> Obj)
    requires Select(items, model, make).Ok?
    ensures forall y | y in Select(items, model, make).value ::
              exists x | x in items :: IsModel(x, model) && Named(x) && y == make(x, x["id"], x["name"])
    ensures forall x | x in items && IsModel(x, model) :: Named(x) && make(x, x["id"], x["name"]) in Select(items, model, make).value
    decreases |items|
  {
    if |items| > 0 {
      SelectSoundComplete(items[1..], model, make);
      assert forall y | y in items[1..] :: y in items;
      assert forall y | y in items :: y == items[0] || y in items[1..];
    }
  }

  /** Selection keeps list order: the entities of a longer list start with
      those of its first part. */
  lemma {:induction false} SelectAppend(a: seq<Obj>, b: seq<Obj>, model: string, make: (Obj, Json, Json) -> Obj)
    requires Select(a, model, make).Ok? && Select(b, model, make).Ok?
    ensures Select(a + b, model, make) == Ok(Select(a, model, make).value + Select(b, model, make).value)
    decreases |a|
  {
    if |a| == 0 {
      assert a + b == b;
      assert Select(a, model, make).value == [];
      assert [] + Select(b, model, make).value == Select(b, model, make).value;
    } else {
      assert (a + b)[0] == a[0];
      assert (a + b)[1..] == a[1..] + b;
      assert "deviceModel" in a[0];
      SelectAppend(a[1..], b, model, make);
      if a[0]["deviceModel"] == JStr(model) {
        var m := make(a[0], a[0]["id"], a[0]["name"]);
        var rest := Select(a[1..], model, make).value;
        assert [m] + (rest + Select(b, model, make).value) == [m] + rest + Select(b, model, make).value;
      }
    }
  }

  /** The methods of the legacy entities report a client error
      (`ErrorException`) by returning False. */
  function Swallowed(e: Error): (r: Result<Json>)
    ensures e.ClientError? ==> r == Ok(JBool(false))
    ensures !e.ClientError? ==> r == Fail(e)
  {
    if e.ClientError? then Ok(JBool(false)) else Fail(e)
  }

  /** What a method of a legacy entity leaves behind: the attributes
      afterwards, the requests sent, and what it returned or raised. */
  datatype Outcome = Outcome(obj: Obj, effects: seq<Effect>, result: Result<Json>)

  /** `update()` of an entity that refreshes itself from one path: the
      state read is loaded into the attributes and True returned; a client
      error returns False with the attributes untouched. */
  function Update(o: Obj, path: string, response: Result<Json>): (out: Outcome)
    ensures out.effects == [Sent(ClientCall("GET", path, JNull))]
    ensures response.Fail? ==> out.obj == o && out.result == Swallowed(response.error)
    ensures response.Ok? ==> out.obj == Load(o, response.value).state
    ensures response.Ok? && Load(o, response.value).error.None? ==> out.result == Ok(JBool(true))
    ensures out.obj.Keys == o.Keys
  {
    var sent := [Sent(ClientCall("GET", path, JNull))];
    match response
    case Fail(e) => Outcome(o, sent, Swallowed(e))
    case Ok(data) =>
      var st := Load(o, data);
      Outcome(st.state, sent, if st.error.Some? then Fail(st.error.value) else Ok(JBool(true)))
  }

  /** The two checks every `update_from_query` of a device makes: the
      record is for this device and its state has the expected `@type`.
      A rejection is logged with both values, so they are read either way. */
  function CheckQuery(id: Json, q: Json, stateType: string): (r: Result<bool>)
    ensures r.Ok? <==> Has(q, "deviceId") && Has(q, "state") && Has(q.fields["state"], "@type")
    ensures r == Ok(true) <==>
              && Has(q, "deviceId") && PyEq(id, q.fields["deviceId"])
              && Has(q, "state") && Has(q.fields["state"], "@type")
              && q.fields["state"].fields["@type"] == JStr(stateType)
  {
    var deviceId :- Field(q, "deviceId");
    var state :- Field(q, "state");
    var t :- Field(state, "@type");
    Ok(PyEq(id, deviceId) && t == JStr(stateType))
  }

  /** Looking a value up in one of the `*_rx` dicts, keyed by member name:
      a value that is not a listed name raises `KeyError`, and one that
      cannot be a dict key raises `TypeError`. */
  function TableKey(v: Json, names: set<string>): (r: Result<string>)
    ensures r.Ok? <==> v.JStr? && v.s in names
    ensures r.Ok? ==> r.value == v.s
    ensures r.Fail? ==> (r.error.TypeError? <==> !Hashable(v)) && (r.error.KeyError? <==> Hashable(v))
  {
    if !Hashable(v) then Fail(TypeError("unhashable type"))
    else if v.JStr? && v.s in names then Ok(v.s)
    else Fail(KeyError(if v.JStr? then v.s else ""))
  }

  /** The updaters that copy `state['value']` into one attribute once the
      record passed `CheckQuery`; a rejected record changes nothing. */
  function UpdateValue(o: Obj, q: Json, stateType: string, attr: string): (out: Outcome)
    requires "id" in o && attr in o
    ensures out.effects == [] && out.obj.Keys == o.Keys
    ensures out.result.Ok? <==> CheckQuery(o["id"], q, stateType).Ok? && (CheckQuery(o["id"], q, stateType).value ==> Has(q.fields["state"], "value"))
    ensures out.result == Ok(JBool(true)) <==> CheckQuery(o["id"], q, stateType) == Ok(true) && Has(q.fields["state"], "value")
    ensures out.result == Ok(JBool(true)) ==> out.obj == o[attr := q.fields["state"].fields["value"]]
    ensures out.result != Ok(JBool(true)) ==> out.obj == o
    ensures out.result.Ok? ==> out.result.value.JBool?
    ensures out.result.Fail? ==> out.result.error.KeyError? || out.result.error.TypeError?
  {
    match CheckQuery(o["id"], q, stateType)
    case Fail(e) => Outcome(o, [], Fail(e))
    case Ok(accepted) =>
      if !accepted then Outcome(o, [], Ok(JBool(false)))
      else match Field(q.fields["state"], "value")
        case Fail(e) => Outcome(o, [], Fail(e))
        case Ok(v) => Outcome(o[attr := v], [], Ok(JBool(true)))
  }

  /** The `update_from_query` of a device with one service: a record of
      another service is refused before anything else is read. */
  function ServiceQuery(o: Obj, q: Json, serviceId: string, stateType: string, attr: string): (out: Outcome)
    requires "id" in o && attr in o
    ensures out.effects == [] && out.obj.Keys == o.Keys
    ensures Has(q, "id") && q.fields["id"] != JStr(serviceId) ==> out == Outcome(o, [], Ok(JBool(false)))
    ensures Has(q, "id") && q.fields["id"] == JStr(serviceId) ==> out == UpdateValue(o, q, stateType, attr)
    ensures !Has(q, "id") ==> out.obj == o && out.result.Fail?
  {
    match Field(q, "id")
    case Fail(e) => Outcome(o, [], Fail(e))
    case Ok(sid) =>
      if sid != JStr(serviceId) then Outcome(o, [], Ok(JBool(false)))
      else UpdateValue(o, q, stateType, attr)
  }

  /** A request of a legacy setter: sent whatever happens; on success the
      attributes become `after` and True is returned; a client error
      returns False with the attributes untouched. */
  function Command(o: Obj, verb: string, path: string, body: Json, reply: Result<Json>, after: Obj): (out: Outcome)
    ensures out.effects == [Sent(ClientCall(verb, path, body))]
    ensures reply.Ok? ==> out.obj == after && out.result == Ok(JBool(true))
    ensures reply.Fail? ==> out.obj == o && out.result == Swallowed(reply.error)
  {
    if reply.Ok? then Outcome(after, [Sent(ClientCall(verb, path, body))], Ok(JBool(true)))
    else Outcome(o, [Sent(ClientCall(verb, path, body))], Swallowed(reply.error))
  }

  /** The attributes of a listed device (`Device` in BoschShcPy/device.py),
      all `None` until loaded. */
  const DeviceAttributes: set<string> :=
    {"id", "deviceServiceIds", "manufacturer", "deviceModel", "serial", "name", "deleted", "status"}

  function NewDevice(): (o: Obj)
    ensures o.Keys == DeviceAttributes && forall n | n in o :: o[n] == JNull
  {
    map n | n in DeviceAttributes :: JNull
  }

  /** The module-level names `BoschShcPy/device.py` defines. */
  const DeviceModuleNames: set<string> := {"Base", "BaseList", "DeviceList", "Device"}

  /** `from BoschShcPy.device import Device, status_rx`, the first import the
      shutter contact, shutter control, smoke detector, camera and
      intrusion modules run, against a device module defining
      `deviceNames`. */
  function ImportEntityModule(deviceNames: set<string>): (e: Option<Error>)
    ensures e.None? <==> "Device" in deviceNames && "status_rx" in deviceNames
    ensures e.Some? ==> e.value.ImportError?
  {
    if "Device" !in deviceNames then Some(ImportError("Device"))
    else if "status_rx" !in deviceNames then Some(ImportError("status_rx"))
    else None
  }

  /** The discrepancy: the device module as written defines no `status_rx`,
      so importing any of those modules, and with them the package, raises
      `ImportError`; a device module that also defines the table imports
      cleanly. */
  lemma ImportDiscrepancy()
    ensures ImportEntityModule(DeviceModuleNames) == Some(ImportError("status_rx"))
    ensures ImportEntityModule(DeviceModuleNames + {"status_rx"}).None?
  {
  }

  /** `get_availability` with a `status_rx` table: the status of the
      entity's device looked up in the table. A device that is not an
      object has no `status`; a status the table does not list raises as
      any `*_rx` lookup does. */
  function GetAvailability(statusRx: map<string, Json>, device: Json): (r: Result<Json>)
    ensures r.Ok? <==> device.JObj? && "status" in device.fields && device.fields["status"].JStr?
                       && device.fields["status"].s in statusRx
    ensures r.Ok? ==> r.value == statusRx[device.fields["status"].s]
    ensures !(device.JObj? && "status" in device.fields) ==> r.Fail? && r.error.AttributeError?
  {
    if !device.JObj? || "status" !in device.fields then Fail(AttributeError("object has no attribute 'status'"))
    else
      var name :- TableKey(device.fields["status"], statusRx.Keys);
      Ok(statusRx[name])
  }

  /** A listed device loaded with a status the table knows reads back that
      status's entry. */
  lemma AvailabilityOfLoadedDevice(statusRx: map<string, Json>, data: map<string, Json>)
    requires "status" in data && data["status"].JStr? && data["status"].s in statusRx
    ensures GetAvailability(statusRx, JObj(LoadDict(NewDevice(), JObj(data)).value)) == Ok(statusRx[data["status"].s])
  {
    assert "status" in NewDevice();
  }

  /** A device list loaded from a list of dicts holds only devices, each of
      which the `initialize_*` helpers can read. */
  lemma DeviceListSelectable(data: seq<Json>, model: string, make: (Obj, Json, Json) -> Obj)
    requires forall i | 0 <= i < |data| :: data[i].JObj?
    ensures LoadList(NewList(NewDevice()), JArr(data)).Ok?
    ensures InitializeAll(LoadList(NewList(NewDevice()), JArr(data)).value.items, model, make).Ok?
  {
    var items := LoadItems(NewDevice(), data).value;
    forall x | x in items
      ensures "deviceModel" in x && Named(x)
    {
      var i :| 0 <= i < |items| && items[i] == x;
      assert x == Load(NewDevice(), data[i]).state;
    }
  }
}
