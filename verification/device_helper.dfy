/** The model-bucket registry (boschshcpy/device_helper.py): one bucket of
    devices per supported device model, keyed by device id, filled as
    devices are initialised, and the getters that list the devices of one
    or more models. The helper is generic in what it stores; the session
    stores references to its devices. */
module DeviceHelper {
  import opened PyJson
  import opened PyDicts

  datatype Helper<V> = Helper(supported: set<string>, buckets: map<string, PyDict<Json, V>>)

  /** Every supported model, and only those, has a bucket. */
  predicate Valid<V>(h: Helper<V>) {
    h.buckets.Keys == h.supported
  }

  /** `SHCDeviceHelper(api)`: an empty bucket for every supported model. */
  function Init<V>(supported: set<string>): (h: Helper<V>)
    ensures Valid(h) && h.supported == supported
    ensures forall m | m in supported :: h.buckets[m] == []
  {
    Helper(supported, map m | m in supported :: [])
  }

  /** `device_init(raw, services)`: the id and the model are read first. A
      device of a supported model is built by `build` and stored in its
      model's bucket under its id, replacing any device stored there
      before; any other device is built by `generic` and not stored. */
  function DeviceInit<V>(h: Helper<V>, raw: Json, build: Json -> Result<V>, generic: Json -> Result<V>): (r: (Helper<V>, Result<V>))
    requires Valid(h)
    ensures Valid(r.0) && r.0.supported == h.supported
    ensures r.1.Fail? ==> r.0 == h
    ensures r.1.Ok? ==> Has(raw, "id") && Has(raw, "deviceModel") && (r.1 == build(raw) || r.1 == generic(raw))
    ensures (Has(raw, "id") && Has(raw, "deviceModel") && raw.fields["deviceModel"].JStr?
             && raw.fields["deviceModel"].s in h.supported && Hashable(raw.fields["id"]) && build(raw).Ok?) ==>
              var model := raw.fields["deviceModel"].s;
              r.1 == build(raw)
              && r.0.buckets == h.buckets[model := Put(h.buckets[model], raw.fields["id"], build(raw).value)]
    ensures (Has(raw, "id") && Has(raw, "deviceModel") && Hashable(raw.fields["deviceModel"])
             && !(raw.fields["deviceModel"].JStr? && raw.fields["deviceModel"].s in h.supported)) ==>
              r == (h, generic(raw))
    ensures r.0 != h ==> Has(raw, "deviceModel") && raw.fields["deviceModel"].JStr? && raw.fields["deviceModel"].s in h.supported
  {
    match Field(raw, "id")
    case Fail(e) => (h, Fail(e))
    case Ok(id) =>
      match Field(raw, "deviceModel")
      case Fail(e) => (h, Fail(e))
      case Ok(model) =>
        if !Hashable(model) then (h, Fail(TypeError("unhashable type")))
        else if !(model.JStr? && model.s in h.supported) then (h, generic(raw))
        else
          match build(raw)
          case Fail(e) => (h, Fail(e))
          case Ok(device) =>
            if !Hashable(id) then (h, Fail(TypeError("unhashable type")))
            else (h.(buckets := h.buckets[model.s := Put(h.buckets[model.s], id, device)]), Ok(device))
  }

  /** Initialising the same device twice keeps one entry: the bucket holds
      the device built last, at the position of the first. */
  lemma DeviceInitTwice<V>(h: Helper<V>, raw: Json, build: Json -> Result<V>, generic: Json -> Result<V>)
    requires Valid(h)
    requires Has(raw, "id") && Has(raw, "deviceModel") && raw.fields["deviceModel"].JStr?
    requires raw.fields["deviceModel"].s in h.supported && Hashable(raw.fields["id"]) && build(raw).Ok?
    ensures var once := DeviceInit(h, raw, build, generic).0;
            var twice := DeviceInit(once, raw, build, generic).0;
            var model := raw.fields["deviceModel"].s;
            Keys(twice.buckets[model]) == Keys(h.buckets[model]) + {raw.fields["id"]}
            && Get(twice.buckets[model], raw.fields["id"]) == Some(build(raw).value)
            && KeyList(twice.buckets[model]) == KeyList(once.buckets[model])
  {
  }

  /** The getters that list devices, one per property of the helper. */
  datatype Getter =
    | ShutterContacts | ShutterContacts2 | ShutterControls | MicromoduleShutterControls
    | MicromoduleBlinds | LightSwitchesBsm | MicromoduleLightAttached | MicromoduleLightControls
    | SmartPlugs | SmartPlugsCompact | SmokeDetectors | ClimateControls | Thermostats
    | WallThermostats | RoomThermostats | MotionDetectors | Twinguards | UniversalSwitches
    | CameraEyes | Camera360 | LedvanceLights | HueLights | WaterLeakageDetectors | HeatingCircuits

  /** The models a getter lists, in the order it lists them. */
  function GetterModels(g: Getter): seq<string> {
    match g
    case ShutterContacts => ["SWD"]
    case ShutterContacts2 => ["SWD2", "SWD2_PLUS"]
    case ShutterControls => ["BBL"]
    case MicromoduleShutterControls => ["MICROMODULE_SHUTTER", "MICROMODULE_AWNING"]
    case MicromoduleBlinds => ["MICROMODULE_BLINDS"]
    case LightSwitchesBsm => ["BSM"]
    case MicromoduleLightAttached => ["MICROMODULE_LIGHT_ATTACHED"]
    case MicromoduleLightControls => ["MICROMODULE_LIGHT_CONTROL"]
    case SmartPlugs => ["PSM"]
    case SmartPlugsCompact => ["PLUG_COMPACT"]
    case SmokeDetectors => ["SD", "SMOKE_DETECTOR2"]
    case ClimateControls => ["ROOM_CLIMATE_CONTROL"]
    case Thermostats => ["TRV", "TRV_GEN2"]
    case WallThermostats => ["THB", "BWTH"]
    case RoomThermostats => ["RTH2_BAT", "RTH2_230"]
    case MotionDetectors => ["MD"]
    case Twinguards => ["TWINGUARD"]
    case UniversalSwitches => ["WRC2", "SWITCH2"]
    case CameraEyes => ["CAMERA_EYES"]
    case Camera360 => ["CAMERA_360"]
    case LedvanceLights => ["LEDVANCE_LIGHT"]
    case HueLights => ["HUE_LIGHT"]
    case WaterLeakageDetectors => ["WLS"]
    case HeatingCircuits => ["HEATING_CIRCUIT"]
  }

  /** The devices of the supported models among `models`: each bucket's
      devices in insertion order, the buckets in the order given. */
  function Collect<V>(h: Helper<V>, models: seq<string>): (r: seq<V>)
    requires Valid(h)
    ensures forall m | m in models && m in h.supported :: forall v | v in Values(h.buckets[m]) :: v in r
    ensures forall v | v in r :: exists m | m in models && m in h.supported :: v in Values(h.buckets[m])
    ensures (forall m | m in models :: m !in h.supported) ==> r == []
  {
    if |models| == 0 then []
    else
      var first := if models[0] in h.supported then Values(h.buckets[models[0]]) else [];
      var rest := Collect(h, models[1..]);
      assert forall m | m in models :: m == models[0] || m in models[1..];
      first + rest
  }

  /** What a getter returns. */
  function Devices<V>(h: Helper<V>, g: Getter): (r: seq<V>)
    requires Valid(h)
    ensures forall v | v in r :: exists m | m in GetterModels(g) && m in h.supported :: v in Values(h.buckets[m])
  {
    Collect(h, GetterModels(g))
  }

  /** A two-model getter lists the first model's devices, then the
      second's. */
  lemma UnionOrder<V>(h: Helper<V>, a: string, b: string)
    requires Valid(h) && a in h.supported && b in h.supported
    ensures Collect(h, [a, b]) == Values(h.buckets[a]) + Values(h.buckets[b])
  {
    assert [a, b][1..] == [b];
    assert [b][1..] == [];
  }

  /** `micromodule_relays` and `micromodule_impulse_relays`: the relays of
      the given type, in bucket order; reading a relay's type may raise. */
  function RelaysOfType<V>(relays: seq<V>, wanted: string, relayType: V -> Result<string>): (r: Result<seq<V>>)
    ensures r.Ok? ==> forall v | v in r.value :: v in relays && relayType(v) == Ok(wanted)
    ensures r.Ok? ==> forall v | v in relays && relayType(v) == Ok(wanted) :: v in r.value
    ensures r.Ok? <==> forall v | v in relays :: relayType(v).Ok?
  {
    if |relays| == 0 then Ok([])
    else
      var t :- relayType(relays[0]);
      var rest :- RelaysOfType(relays[1..], wanted, relayType);
      assert forall v | v in relays :: v == relays[0] || v in relays[1..];
      Ok(if t == wanted then [relays[0]] + rest else rest)
  }

  const RelayModel := "MICROMODULE_RELAY"

  function Relays<V>(h: Helper<V>, wanted: string, relayType: V -> Result<string>): (r: Result<seq<V>>)
    requires Valid(h)
    ensures RelayModel !in h.supported ==> r == Ok([])
    ensures RelayModel in h.supported ==> r == RelaysOfType(Values(h.buckets[RelayModel]), wanted, relayType)
  {
    if RelayModel !in h.supported then Ok([]) else RelaysOfType(Values(h.buckets[RelayModel]), wanted, relayType)
  }

  /** The switch relays and the impulse relays never share a device. */
  lemma RelayKindsDisjoint<V>(h: Helper<V>, relayType: V -> Result<string>, v: V)
    requires Valid(h)
    requires Relays(h, "SWITCH", relayType).Ok? && Relays(h, "BUTTON", relayType).Ok?
    ensures !(v in Relays(h, "SWITCH", relayType).value && v in Relays(h, "BUTTON", relayType).value)
  {
  }

  /** `presence_simulation_system` and `smoke_detection_system`: the entry
      stored under a fixed id in a model's bucket, or `None`. */
  function Singleton<V>(h: Helper<V>, model: string, key: string): (r: Option<V>)
    requires Valid(h)
    ensures model !in h.supported ==> r.None?
    ensures model in h.supported ==> r == Get(h.buckets[model], JStr(key))
  {
    if model !in h.supported then None else Get(h.buckets[model], JStr(key))
  }

  function PresenceSimulationSystem<V>(h: Helper<V>): Option<V>
    requires Valid(h)
  {
    Singleton(h, "PRESENCE_SIMULATION_SERVICE", "presenceSimulationService")
  }

  function SmokeDetectionSystem<V>(h: Helper<V>): Option<V>
    requires Valid(h)
  {
    Singleton(h, "SMOKE_DETECTION_SYSTEM", "smokeDetectionSystem")
  }

  /** The smoke detection system, once initialised under its fixed id, is
      what `smoke_detection_system` returns; before any such device it is
      `None`. */
  lemma InitThenSingleton<V>(h: Helper<V>, raw: Json, build: Json -> Result<V>, generic: Json -> Result<V>)
    requires Valid(h) && "SMOKE_DETECTION_SYSTEM" in h.supported
    requires Has(raw, "id") && raw.fields["id"] == JStr("smokeDetectionSystem")
    requires Has(raw, "deviceModel") && raw.fields["deviceModel"] == JStr("SMOKE_DETECTION_SYSTEM") && build(raw).Ok?
    ensures SmokeDetectionSystem(Init<V>(h.supported)) == None
    ensures SmokeDetectionSystem(DeviceInit(h, raw, build, generic).0) == Some(build(raw).value)
  {
  }

  /** A device initialised with a supported model is listed by every getter
      that lists its model. */
  lemma InitThenList<V>(h: Helper<V>, raw: Json, build: Json -> Result<V>, generic: Json -> Result<V>, g: Getter)
    requires Valid(h)
    requires Has(raw, "id") && Has(raw, "deviceModel") && raw.fields["deviceModel"].JStr?
    requires raw.fields["deviceModel"].s in h.supported && Hashable(raw.fields["id"]) && build(raw).Ok?
    requires raw.fields["deviceModel"].s in GetterModels(g)
    ensures build(raw).value in Devices(DeviceInit(h, raw, build, generic).0, g)
  {
    var h' := DeviceInit(h, raw, build, generic).0;
    var model := raw.fields["deviceModel"].s;
    var bucket := h'.buckets[model];
    var i :| 0 <= i < |bucket| && bucket[i].0 == raw.fields["id"];
    assert Values(bucket)[i] == build(raw).value;
  }
}
