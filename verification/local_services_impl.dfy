/** The device services of the local variant of the library
    (boschshcpy/bosch-shc-py/services_impl.py): four service classes,
    built by id, over the same service record as the main package. */
module LocalServicesImpl {
  import opened PyJson
  import opened Effects
  import opened DeviceServices
  import ServicesImpl

  /** The service classes of `SERVICE_MAPPING`. */
  datatype LocalKind = TemperatureLevel | RoomClimateControl | ShutterContact | ValveTappet

  /** The mapping's key of each class. */
  function KindName(k: LocalKind): (r: string)
    ensures r in LocalServiceIds
  {
    match k
    case TemperatureLevel => "TemperatureLevel"
    case RoomClimateControl => "RoomClimateControl"
    case ShutterContact => "ShutterContact"
    case ValveTappet => "ValveTappet"
  }

  /** `SUPPORTED_DEVICE_SERVICE_IDS`: the mapping's keys. */
  const LocalServiceIds: set<string> := {"TemperatureLevel", "RoomClimateControl", "ShutterContact", "ValveTappet"}

  /** Each supported id names exactly one class, and every one of them is
      also supported by the main package. */
  lemma LocalServiceIdsFacts(k: LocalKind, l: LocalKind, id: string)
    ensures KindName(k) == KindName(l) ==> k == l
    ensures id in LocalServiceIds ==> exists m :: KindName(m) == id
    ensures LocalServiceIds <= ServicesImpl.SupportedServiceIds
  {
    if id == "TemperatureLevel" { assert KindName(TemperatureLevel) == id; }
    else if id == "RoomClimateControl" { assert KindName(RoomClimateControl) == id; }
    else if id == "ShutterContact" { assert KindName(ShutterContact) == id; }
    else if id == "ValveTappet" { assert KindName(ValveTappet) == id; }
    assert "TemperatureLevel" == ServicesImpl.ServiceIds[23];
    assert "RoomClimateControl" == ServicesImpl.ServiceIds[17];
    assert "ShutterContact" == ServicesImpl.ServiceIds[19];
    assert "ValveTappet" == ServicesImpl.ServiceIds[25];
  }

  /** A built service: its class and its record. */
  datatype LocalService = LocalService(kind: LocalKind, service: Service)

  /** The class `SERVICE_MAPPING` gives a supported id. */
  function KindOf(id: string): (r: Option<LocalKind>)
    ensures r.Some? <==> id in LocalServiceIds
    ensures r.Some? ==> KindName(r.value) == id
  {
    if id == "TemperatureLevel" then Some(TemperatureLevel)
    else if id == "RoomClimateControl" then Some(RoomClimateControl)
    else if id == "ShutterContact" then Some(ShutterContact)
    else if id == "ValveTappet" then Some(ValveTappet)
    else None
  }

  /** `build(api, raw)`: the record's id must be one of the four; a
      missing id is a KeyError, an id that cannot be a dict key a
      TypeError, any other unsupported id fails the assertion. */
  function Build(raw: Json): (r: Result<LocalService>)
    ensures r.Ok? <==> Has(raw, "id") && raw.fields["id"].JStr? && raw.fields["id"].s in LocalServiceIds
    ensures r.Ok? ==> KindName(r.value.kind) == raw.fields["id"].s && r.value.service == New(raw)
    ensures !Has(raw, "id") ==> r.Fail? && (r.error.KeyError? || r.error.TypeError?)
    ensures Has(raw, "id") && !Hashable(raw.fields["id"]) ==> r == Fail(TypeError("unhashable type"))
    ensures Has(raw, "id") && Hashable(raw.fields["id"]) && !(raw.fields["id"].JStr? && raw.fields["id"].s in LocalServiceIds) ==>
              r == Fail(AssertionError("Device service is supported"))
  {
    var id :- Field(raw, "id");
    if !Hashable(id) then Fail(TypeError("unhashable type"))
    else if !id.JStr? || KindOf(id.s).None? then Fail(AssertionError("Device service is supported"))
    else Ok(LocalService(KindOf(id.s).value, New(raw)))
  }

  /** A record of each class builds to that class, and every build the
      main package accepts for one of the four ids this one accepts too. */
  lemma BuildKind(raw: Json, k: LocalKind)
    requires Has(raw, "id") && raw.fields["id"] == JStr(KindName(k))
    ensures Build(raw).Ok? && Build(raw).value.kind == k
    ensures ServicesImpl.Build(raw).Ok? ==> Build(raw).value.service == ServicesImpl.Build(raw).value
  {
    LocalServiceIdsFacts(k, k, KindName(k));
    var l := Build(raw).value.kind;
    LocalServiceIdsFacts(k, l, KindName(k));
  }

  /** `RoomClimateControlService.show_setpoint_temperature`: the state's
      member when it has one, and false otherwise. */
  function ShowSetpointTemperature(s: Service): (r: Result<Json>)
    ensures r.Ok? <==> s.state.JObj?
    ensures Has(s.state, "showSetpointTemperature") ==> r == Ok(s.state.fields["showSetpointTemperature"])
    ensures s.state.JObj? && "showSetpointTemperature" !in s.state.fields ==> r == Ok(JBool(false))
  {
    ServicesImpl.ShowSetpointTemperature(s)
  }

  /** The settings this variant's room-climate service can write: no
      summer-mode setter. */
  datatype LocalSetting =
    | SetOperationMode(mode: ServicesImpl.OperationMode)
    | SetSetpointTemperature(temperature: Json)
    | SetLow(low: bool)
    | SetBoostMode(boost: bool)

  function AsClimate(c: LocalSetting): (r: ServicesImpl.ClimateSetting)
    ensures ServicesImpl.SettingKey(r) in {"operationMode", "setpointTemperature", "low", "boostMode"}
  {
    match c
    case SetOperationMode(m) => ServicesImpl.SetOperationMode(m)
    case SetSetpointTemperature(t) => ServicesImpl.SetSetpointTemperature(t)
    case SetLow(b) => ServicesImpl.SetLow(b)
    case SetBoostMode(b) => ServicesImpl.SetBoostMode(b)
  }

  /** The `operation_mode`, `setpoint_temperature`, `low` and `boost_mode`
      setters: one `put_state_element` each, with the setting's key and
      value beside the state type, and nothing else. */
  function Climate(s: Service, c: LocalSetting): (r: Result<Request>)
    requires s.state.JObj?
    ensures r.Ok? <==> Has(s.raw, "deviceId") && Has(s.raw, "id") && "@type" in s.state.fields
    ensures r.Ok? ==> r.value == PutServiceState(s.raw.fields["deviceId"], s.raw.fields["id"],
                                   JObj(map["@type" := s.state.fields["@type"],
                                            ServicesImpl.SettingKey(AsClimate(c)) := ServicesImpl.SettingValue(AsClimate(c))]))
  {
    var r := ServicesImpl.Climate(s, AsClimate(c));
    if r.Ok? then
      var body := r.value.body.fields;
      var key := ServicesImpl.SettingKey(AsClimate(c));
      assert body == map["@type" := s.state.fields["@type"], key := ServicesImpl.SettingValue(AsClimate(c))] by {
        assert body.Keys == {"@type", key};
      }
      r
    else r
  }

  /** What a setter writes, the matching getter reads once the controller
      pushes the written state back. */
  lemma ClimateSetThenRead(s: Service, c: LocalSetting)
    requires s.state.JObj? && Field(s.raw, "@type") == Ok(JStr("DeviceServiceData"))
    requires Climate(s, c).Ok?
    ensures var pushed := ProcessPush(s, ServicesImpl.Echo(s, Climate(s, c).value.body));
            pushed.error.None? && ServicesImpl.ReadSetting(pushed.state.state, AsClimate(c)) == Ok(ServicesImpl.SettingValue(AsClimate(c)))
  {
    ServicesImpl.ClimateSetThenRead(s, AsClimate(c));
  }

  const ContactStates: set<string> := {"CLOSED", "OPEN"}

  /** `ShutterContactService.value`: the state's `value`, which must be
      CLOSED or OPEN. */
  function ContactValue(s: Service): (r: Result<string>)
    ensures r.Ok? <==> Has(s.state, "value") && s.state.fields["value"].JStr? && s.state.fields["value"].s in ContactStates
    ensures r.Ok? ==> s.state.fields["value"] == JStr(r.value)
  {
    ServicesImpl.ReadEnum(s.state, ServicesImpl.EnumProperty("value", ContactStates, None))
  }

  /** A contact reads the state the controller last pushed. */
  lemma ContactPushThenRead(s: Service, rec: Json, m: string)
    requires Accepts(s, rec) && Has(rec, "state")
    requires Has(rec.fields["state"], "value") && rec.fields["state"].fields["value"] == JStr(m) && m in ContactStates
    ensures ContactValue(ProcessPush(s, rec).state) == Ok(m)
  {
    ServicesImpl.PushThenReadEnum(s, rec, ServicesImpl.EnumProperty("value", ContactStates, None), m);
  }
}
