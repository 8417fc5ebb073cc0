/** One service of a device (boschshcpy/device_service.py): the raw
    `DeviceServiceData` record, its `state` object, the callback table, and
    the levels remembered by the shutter-control service. */
module DeviceServices {
  import opened PyJson
  import opened PyDicts
  import opened Effects

  /** The two levels the shutter-control service remembers between reads:
      the level seen last and the one before it. */
  datatype ShutterLevels = ShutterLevels(current: Json, last: Json)

  datatype Service = Service(raw: Json, state: Json, observers: Observers, levels: Option<ShutterLevels>)

  /** The state object of a raw record: its `state` member, or `{}`. */
  function StateOf(raw: Json): (st: Json)
    ensures Has(raw, "state") ==> st == raw.fields["state"]
    ensures !Has(raw, "state") ==> st == JObj(map[])
  {
    FieldOr(raw, "state", JObj(map[]))
  }

  /** `SHCDeviceService(api, raw)`: no callbacks yet, no remembered levels. */
  function New(raw: Json): (s: Service)
    ensures s.raw == raw && s.state == StateOf(raw)
    ensures Keys(s.observers) == {} && s.levels.None?
  {
    Service(raw, StateOf(raw), [], None)
  }

  function Id(s: Service): Result<Json> { Field(s.raw, "id") }
  function DeviceId(s: Service): Result<Json> { Field(s.raw, "deviceId") }
  function Path(s: Service): Result<Json> { Field(s.raw, "path") }

  /** `subscribe_callback`: registers or replaces the callback of `token`;
      nothing else about the service changes. */
  function Subscribe(s: Service, token: Token, callback: Callback): (r: Service)
    ensures Get(r.observers, token) == Some(callback)
    ensures forall t | t != token :: Get(r.observers, t) == Get(s.observers, t)
    ensures r.raw == s.raw && r.state == s.state && r.levels == s.levels
  {
    s.(observers := Put(s.observers, token, callback))
  }

  /** `unsubscribe_callback`: forgets the callback of `token`, if any. */
  function Unsubscribe(s: Service, token: Token): (r: Service)
    ensures Get(r.observers, token) == None
    ensures forall t | t != token :: Get(r.observers, t) == Get(s.observers, t)
    ensures r.raw == s.raw && r.state == s.state && r.levels == s.levels
  {
    s.(observers := Pop(s.observers, token))
  }

  /** The body `{"@type": state["@type"], **pairs}`: the given members,
      plus the state's own type unless the pairs override it. */
  predicate IsStateBody(body: Json, stateType: Json, pairs: map<string, Json>) {
    body.JObj? && body.fields.Keys == pairs.Keys + {"@type"}
    && (forall k | k in pairs :: body.fields[k] == pairs[k])
    && ("@type" !in pairs ==> body.fields["@type"] == stateType)
  }

  /** `put_state`: the PUT request that asks the controller to change the
      state. The local state is not changed; the new value arrives later as
      a long-poll record. */
  function PutState(s: Service, pairs: map<string, Json>): (r: Result<Request>)
    ensures r.Ok? <==> Has(s.raw, "deviceId") && Has(s.raw, "id") && Has(s.state, "@type")
    ensures r.Ok? ==> r.value.PutServiceState?
                      && r.value.deviceId == s.raw.fields["deviceId"]
                      && r.value.serviceId == s.raw.fields["id"]
                      && IsStateBody(r.value.body, s.state.fields["@type"], pairs)
  {
    var deviceId :- DeviceId(s);
    var id :- Id(s);
    var stateType :- Field(s.state, "@type");
    Ok(PutServiceState(deviceId, id, JObj(map["@type" := stateType] + pairs)))
  }

  /** `put_state_element(key, value)`: a PUT whose body holds `@type` and
      `key` only. */
  function PutStateElement(s: Service, key: string, value: Json): (r: Result<Request>)
    ensures r.Ok? <==> Has(s.raw, "deviceId") && Has(s.raw, "id") && Has(s.state, "@type")
    ensures r.Ok? ==> r.value.PutServiceState?
                      && r.value.deviceId == s.raw.fields["deviceId"]
                      && r.value.serviceId == s.raw.fields["id"]
                      && r.value.body.JObj? && r.value.body.fields.Keys == {"@type", key}
                      && r.value.body.fields[key] == value
                      && (key != "@type" ==> r.value.body.fields["@type"] == s.state.fields["@type"])
  {
    PutState(s, map[key := value])
  }

  /** `short_poll`: the record is fetched again and replaces the raw record
      and the state; callbacks are not run. `fetch` stands for
      `get_device_service(device_id, id)`. */
  function ShortPoll(s: Service, fetch: (Json, Json) -> Result<Json>): (r: Result<Service>)
    ensures r.Ok? ==> Has(s.raw, "deviceId") && Has(s.raw, "id")
                      && fetch(s.raw.fields["deviceId"], s.raw.fields["id"]) == Ok(r.value.raw)
                      && r.value.state == StateOf(r.value.raw)
                      && r.value.observers == s.observers && r.value.levels == s.levels
  {
    var deviceId :- DeviceId(s);
    var id :- Id(s);
    var raw :- fetch(deviceId, id);
    Ok(s.(raw := raw, state := StateOf(raw)))
  }

  /** The type of an incoming state agrees with the type of the state held,
      as the assertion of `process_long_polling_poll_result` demands. */
  predicate StateTypeAgrees(s: Service, incoming: Json) {
    Has(incoming, "@type") && Has(s.state, "@type") && PyEq(incoming.fields["@type"], s.state.fields["@type"])
  }

  /** A push record this service accepts without raising. */
  predicate Accepts(s: Service, rec: Json) {
    Field(rec, "@type") == Ok(JStr("DeviceServiceData"))
    && (Has(rec, "state") ==> StateTypeAgrees(s, rec.fields["state"]))
  }

  /** `process_long_polling_poll_result`: a `DeviceServiceData` record
      replaces the raw record at once; when it carries a state of the same
      type, the state is replaced and every callback runs once. A state of
      another type raises after the raw record was already replaced. */
  function ProcessPush(s: Service, rec: Json): (st: Step<Service>)
    ensures st.state.observers == s.observers && st.state.levels == s.levels
    ensures st.error.None? <==> Accepts(s, rec)
    ensures Field(rec, "@type") != Ok(JStr("DeviceServiceData")) ==> st.state == s && st.effects == []
    ensures Field(rec, "@type") == Ok(JStr("DeviceServiceData")) ==> st.state.raw == rec
    ensures Accepts(s, rec) && Has(rec, "state") ==>
              st.state.state == rec.fields["state"] && st.effects == Notify(s.observers)
    ensures !(Accepts(s, rec) && Has(rec, "state")) ==> st.state.state == s.state && st.effects == []
  {
    match Field(rec, "@type")
    case Fail(e) => Step(s, [], Some(e))
    case Ok(tag) =>
      if tag != JStr("DeviceServiceData") then Step(s, [], Some(AssertionError("@type == DeviceServiceData")))
      else
        var s1 := s.(raw := rec);
        if !Has(rec, "state") then Step(s1, [], None)
        else
          var incoming := rec.fields["state"];
          match Field(incoming, "@type")
          case Fail(e) => Step(s1, [], Some(e))
          case Ok(newType) =>
            match Field(s.state, "@type")
            case Fail(e) => Step(s1, [], Some(e))
            case Ok(oldType) =>
              if !PyEq(newType, oldType) then Step(s1, [], Some(AssertionError("state @type unchanged")))
              else Step(s1.(state := incoming), Notify(s.observers), None)
  }

  /** An accepted record keeps the type of the state: the state held after
      it has the same `@type` as the one held before. */
  lemma PushKeepsStateType(s: Service, rec: Json)
    requires Accepts(s, rec) && Has(s.state, "@type")
    ensures Has(ProcessPush(s, rec).state.state, "@type")
    ensures PyEq(ProcessPush(s, rec).state.state.fields["@type"], s.state.fields["@type"])
  {
  }

  /** Delivering the same accepted record twice leaves the service as one
      delivery did, and runs the callbacks again. */
  lemma PushIdempotent(s: Service, rec: Json)
    requires Accepts(s, rec)
    ensures var once := ProcessPush(s, rec);
            var twice := ProcessPush(once.state, rec);
            twice.state == once.state && twice.error.None? && twice.effects == once.effects
  {
    var once := ProcessPush(s, rec);
    if Has(rec, "state") {
      assert once.state.state == rec.fields["state"];
      assert StateTypeAgrees(once.state, rec.fields["state"]);
    }
  }
}
