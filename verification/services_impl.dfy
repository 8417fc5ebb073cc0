/** The concrete device services (boschshcpy/services_impl.py): which
    service ids the library builds, the enumerations each one reads out of
    its state, the defaults some of them fall back on, the battery warning
    level, the shutter-control service's direction tracking and the
    room-climate setters. */
module ServicesImpl {
  import opened PyJson
  import opened PyDicts
  import opened Effects
  import opened DeviceServices

  /** The keys of `SERVICE_MAPPING`, in declaration order. */
  const ServiceIds: seq<string> := [
    "AirQualityLevel", "Alarm", "BatteryLevel", "BinarySwitch", "CameraLight",
    "CameraNotification", "CommunicationQuality", "HSBColorActuator",
    "HueColorTemperature", "HumidityLevel", "Keypad", "LatestMotion",
    "MultiLevelSwitch", "PowerMeter", "PowerSwitch", "PowerSwitchProgram",
    "PrivacyMode", "RoomClimateControl", "Routing", "ShutterContact",
    "ShutterControl", "SmokeDetectorCheck", "SurveillanceAlarm",
    "TemperatureLevel", "Thermostat", "ValveTappet", "WaterLeakageSensor",
    "WaterLeakageSensorTilt", "WaterLeakageSensorCheck"]

  /** `SUPPORTED_DEVICE_SERVICE_IDS`. */
  const SupportedServiceIds: set<string> := set id | id in ServiceIds

  /** The mapping lists 29 ids; the smoke-detection control service
      is declared but left out of it. */
  lemma SupportedServiceIdsFacts()
    ensures |ServiceIds| == 29
    ensures "SmokeDetectionControl" !in SupportedServiceIds
    ensures "ShutterControl" in SupportedServiceIds && "BatteryLevel" in SupportedServiceIds
  {
    assert forall i | 0 <= i < |ServiceIds| :: |ServiceIds[i]| != |"SmokeDetectionControl"|;
    assert ServiceIds[20] == "ShutterControl" && ServiceIds[2] == "BatteryLevel";
  }

  /** `build(api, raw)`: the id must be one of the supported ids. The
      shutter-control service remembers its level from the start, so its
      state must carry one. */
  function Build(raw: Json): (r: Result<Service>)
    ensures r.Ok? <==> Has(raw, "id") && raw.fields["id"].JStr? && raw.fields["id"].s in SupportedServiceIds
                       && (raw.fields["id"].s == "ShutterControl" ==> Has(StateOf(raw), "level"))
    ensures r.Ok? ==> r.value.raw == raw && r.value.state == StateOf(raw) && Keys(r.value.observers) == {}
    ensures r.Ok? ==> (r.value.levels.Some? <==> raw.fields["id"] == JStr("ShutterControl"))
    ensures r.Ok? && r.value.levels.Some? ==>
              r.value.levels.value.current == StateOf(raw).fields["level"]
              && r.value.levels.value.last == StateOf(raw).fields["level"]
    ensures Has(raw, "id") && !Hashable(raw.fields["id"]) ==> r == Fail(TypeError("unhashable type"))
    ensures Has(raw, "id") && Hashable(raw.fields["id"]) && !(raw.fields["id"].JStr? && raw.fields["id"].s in SupportedServiceIds) ==>
              r == Fail(AssertionError("Device service is supported"))
  {
    var id :- Field(raw, "id");
    if !Hashable(id) then Fail(TypeError("unhashable type"))
    else if !(id.JStr? && id.s in SupportedServiceIds) then Fail(AssertionError("Device service is supported"))
    else
      var s := New(raw);
      if id.s == "ShutterControl" then
        var level :- Field(s.state, "level");
        Ok(s.(levels := Some(ShutterLevels(level, level))))
      else Ok(s)
  }

  /** An enumerated property: the state member it reads, the members of its
      enumeration, and the value used when the state lacks the member. */
  datatype EnumProperty = EnumProperty(key: string, members: set<string>, default: Option<string>)

  const OnOff: set<string> := {"ON", "OFF"}
  const EnabledDisabled: set<string> := {"ENABLED", "DISABLED"}
  const Ratings: set<string> := {"GOOD", "MEDIUM", "BAD"}
  const AutomaticManual: set<string> := {"AUTOMATIC", "MANUAL"}
  const ShutterStates: set<string> := {"STOPPED", "MOVING", "CALIBRATING", "OPENING", "CLOSING"}
  const BatteryStates: set<string> := {"LOW_BATTERY", "CRITICAL_LOW", "CRITICALLY_LOW_BATTERY", "OK", "NOT_AVAILABLE"}
  const KeyStates: set<string> := {"LOWER_BUTTON", "UPPER_BUTTON"}
  const KeyEvents: set<string> := {"PRESS_SHORT", "PRESS_LONG"}

  /** The enumerated properties of the service classes, by service id and
      property name. */
  function EnumPropertyOf(serviceId: string, name: string): Option<EnumProperty> {
    match (serviceId, name)
    case ("ShutterContact", "value") => Some(EnumProperty("value", {"CLOSED", "OPEN"}, None))
    case ("ValveTappet", "value") =>
      Some(EnumProperty("value", {"VALVE_ADAPTION_SUCCESSFUL", "VALVE_ADAPTION_IN_PROGRESS", "RANGE_TOO_BIG",
                                  "RUN_TO_START_POSITION", "IN_START_POSITION"}, None))
    case ("PowerSwitch", "value") => Some(EnumProperty("switchState", OnOff, None))
    case ("Routing", "value") => Some(EnumProperty("value", EnabledDisabled, None))
    case ("PowerSwitchProgram", "value") => Some(EnumProperty("operationMode", AutomaticManual, None))
    case ("SmokeDetectorCheck", "value") =>
      Some(EnumProperty("value", {"NONE", "SMOKE_TEST_OK", "SMOKE_TEST_REQUESTED"}, None))
    case ("Alarm", "value") =>
      Some(EnumProperty("value", {"IDLE_OFF", "INTRUSION_ALARM", "SECONDARY_ALARM", "PRIMARY_ALARM"}, None))
    case ("SurveillanceAlarm", "value") => Some(EnumProperty("value", {"ALARM_OFF", "ALARM_ON", "ALARM_MUTED"}, None))
    case ("Thermostat", "value") => Some(EnumProperty("childLock", OnOff, None))
    case ("CommunicationQuality", "value") => Some(EnumProperty("quality", {"GOOD", "MEDIUM", "BAD", "UNKNOWN"}, None))
    case ("WaterLeakageSensor", "value") => Some(EnumProperty("state", {"LEAKAGE_DETECTED", "NO_LEAKAGE"}, None))
    case ("WaterLeakageSensorTilt", "pushNotificationState") => Some(EnumProperty("pushNotificationState", EnabledDisabled, None))
    case ("WaterLeakageSensorTilt", "acousticSignalState") => Some(EnumProperty("acousticSignalState", EnabledDisabled, None))
    case ("AirQualityLevel", "combinedRating") => Some(EnumProperty("combinedRating", Ratings, None))
    case ("AirQualityLevel", "temperatureRating") => Some(EnumProperty("temperatureRating", Ratings, None))
    case ("AirQualityLevel", "humidityRating") => Some(EnumProperty("humidityRating", Ratings, None))
    case ("AirQualityLevel", "purityRating") => Some(EnumProperty("purityRating", Ratings, None))
    case ("RoomClimateControl", "operation_mode") => Some(EnumProperty("operationMode", AutomaticManual, None))
    case ("CameraLight", "value") => Some(EnumProperty("value", {"ON", "OFF", "NONE"}, Some("NONE")))
    case ("PrivacyMode", "value") => Some(EnumProperty("value", EnabledDisabled, Some("DISABLED")))
    case ("CameraNotification", "value") => Some(EnumProperty("value", EnabledDisabled, Some("DISABLED")))
    case _ => None
  }

  /** Every default is itself a member of its enumeration. */
  lemma DefaultsAreMembers(serviceId: string, name: string)
    requires EnumPropertyOf(serviceId, name).Some?
    ensures var p := EnumPropertyOf(serviceId, name).value;
            p.default.Some? ==> p.default.value in p.members
  {
  }

  /** Reading an enumerated property: `State(state[key])`, or, for a
      property with a default, `State(state[key] if key in state else
      default)`. */
  function ReadEnum(state: Json, p: EnumProperty): (r: Result<string>)
    ensures p.default.None? ==> (r.Ok? <==> Has(state, p.key) && state.fields[p.key].JStr? && state.fields[p.key].s in p.members)
    ensures r.Ok? && Has(state, p.key) ==> state.fields[p.key] == JStr(r.value)
    ensures r.Ok? ==> r.value in p.members
    ensures state.JObj? && p.key !in state.fields && p.default.Some? ==> r == EnumMember(JStr(p.default.value), p.members)
  {
    match p.default
    case None =>
      var v :- Field(state, p.key);
      EnumMember(v, p.members)
    case Some(d) =>
      var present :- PyIn(p.key, state);
      var v :- if present then Field(state, p.key) else Ok(JStr(d));
      EnumMember(v, p.members)
  }

  /** A pushed state is what the accessors read: after a service accepts a
      record whose state holds a member `m` under the property's key, the
      property reads `m`. */
  lemma PushThenReadEnum(s: Service, rec: Json, p: EnumProperty, m: string)
    requires Accepts(s, rec) && Has(rec, "state")
    requires Has(rec.fields["state"], p.key) && rec.fields["state"].fields[p.key] == JStr(m) && m in p.members
    ensures ReadEnum(ProcessPush(s, rec).state.state, p) == Ok(m)
  {
  }

  /** `ValveTappetService.position` and `PowerSwitchService.powerofftime`:
      `int(state[key])`. */
  function ReadInt(state: Json, key: string): (r: Result<int>)
    ensures r.Ok? ==> Has(state, key) && PyInt(state.fields[key]) == r
    ensures Has(state, key) && state.fields[key].JInt? ==> r == Ok(state.fields[key].i)
  {
    var v :- Field(state, key);
    PyInt(v)
  }

  /** `state[key] if key in state else default`, as the keypad's
      `keyCode` and `eventTimestamp` and the latest-motion service read. */
  function ReadOr(state: Json, key: string, default: Json): (r: Result<Json>)
    ensures state.JObj? ==> r == Ok(if key in state.fields then state.fields[key] else default)
    ensures r.Ok? ==> state.JObj? || state.JArr? || state.JStr?
  {
    var present :- PyIn(key, state);
    if present then Field(state, key) else Ok(default)
  }

  function KeyCode(s: Service): Result<Json> { ReadOr(s.state, "keyCode", JInt(0)) }
  function EventTimestamp(s: Service): Result<Json> { ReadOr(s.state, "eventTimestamp", JInt(0)) }
  function LatestMotionDetected(s: Service): Result<Json> { ReadOr(s.state, "latestMotionDetected", JStr("n/a")) }

  /** `KeypadService.keyName` and `eventType`: `None` when the state lacks
      the member, otherwise a member of the enumeration. */
  function ReadOptionalEnum(state: Json, key: string, members: set<string>): (r: Result<Option<string>>)
    ensures state.JObj? && key !in state.fields ==> r == Ok(None)
    ensures state.JObj? && key in state.fields ==> (r.Ok? <==> state.fields[key].JStr? && state.fields[key].s in members)
    ensures r.Ok? && r.value.Some? ==> Has(state, key) && state.fields[key] == JStr(r.value.value) && r.value.value in members
  {
    var present :- PyIn(key, state);
    if !present then Ok(None)
    else
      var v :- Field(state, key);
      var m :- EnumMember(v, members);
      Ok(Some(m))
  }

  function KeyName(s: Service): Result<Option<string>> { ReadOptionalEnum(s.state, "keyName", KeyStates) }
  function EventType(s: Service): Result<Option<string>> { ReadOptionalEnum(s.state, "eventType", KeyEvents) }

  /** `RoomClimateControlService.show_setpoint_temperature`: the member if
      present, otherwise false. The state must be a dict (`state.keys()`). */
  function ShowSetpointTemperature(s: Service): (r: Result<Json>)
    ensures r.Ok? <==> s.state.JObj?
    ensures s.state.JObj? ==> r == Ok(FieldOr(s.state, "showSetpointTemperature", JBool(false)))
  {
    if !s.state.JObj? then Fail(AttributeError("keys"))
    else Ok(FieldOr(s.state, "showSetpointTemperature", JBool(false)))
  }

  /** `BatteryLevelService.warningLevel`: `OK` when the raw record has no
      faults (or empty ones); otherwise the faults must hold exactly one
      entry, and its `type` names the level. */
  function BatteryWarningLevel(s: Service): (r: Result<string>)
    ensures !Truthy(FieldOr(s.raw, "faults", JNull)) ==> r == Ok("OK")
    ensures r.Ok? ==> r.value in BatteryStates
    ensures r.Ok? && r.value != "OK" ==>
              var faults := s.raw.fields["faults"];
              Has(faults, "entries") && faults.fields["entries"].JArr? && |faults.fields["entries"].items| == 1
              && Field(faults.fields["entries"].items[0], "type") == Ok(JStr(r.value))
  {
    var faults := FieldOr(s.raw, "faults", JNull);
    if !Truthy(faults) then Ok("OK")
    else
      var entries :- Field(faults, "entries");
      var n :- PyLen(entries);
      if n != 1 then Fail(AssertionError("len(entries) == 1"))
      else
        var first :- Item0(entries);
        var hasType :- PyIn("type", first);
        if !hasType then Fail(AssertionError("type in entries[0]"))
        else
          var t :- Field(first, "type");
          EnumMember(t, BatteryStates)
  }

  /** A record whose single fault entry has a battery type reads as that
      type, and one without faults reads `OK`. */
  lemma BatteryWarningLevelRoundTrip(s: Service, t: string)
    requires t in BatteryStates
    requires Has(s.raw, "faults")
    requires s.raw.fields["faults"] == JObj(map["entries" := JArr([JObj(map["type" := JStr(t)])])])
    ensures BatteryWarningLevel(s) == Ok(t)
  {
  }

  /** `ShutterControlService.value`. A level different (under `!=`) from
      the remembered one shifts it into the last level. While the service
      reports MOVING, a level below the last one reads CLOSING and one above
      it OPENING; otherwise the reported operation state is returned. The
      levels are updated even when a later read raises. */
  function ShutterValue(s: Service): (r: (Service, Result<string>))
    ensures r.0.raw == s.raw && r.0.state == s.state && r.0.observers == s.observers
    ensures s.levels.None? ==> r.0 == s && r.1.Fail?
    ensures r.1.Ok? ==> s.levels.Some? && r.1.value in ShutterStates && Has(s.state, "level") && Has(s.state, "operationState")
    ensures s.levels.Some? && Has(s.state, "level") ==>
              var level := s.state.fields["level"];
              var before := s.levels.value;
              r.0.levels.Some?
              && (PyEq(before.current, level) ==> r.0.levels == s.levels)
              && (!PyEq(before.current, level) ==> r.0.levels == Some(ShutterLevels(level, before.current)))
    ensures r.1.Ok? && r.1.value == "CLOSING" ==>
              (s.state.fields["operationState"] == JStr("MOVING") && PyLess(s.state.fields["level"], r.0.levels.value.last) == Ok(true))
              || s.state.fields["operationState"] == JStr("CLOSING")
    ensures r.1.Ok? && r.1.value == "OPENING" ==>
              (s.state.fields["operationState"] == JStr("MOVING") && PyLess(r.0.levels.value.last, s.state.fields["level"]) == Ok(true))
              || s.state.fields["operationState"] == JStr("OPENING")
    ensures r.1.Ok? && s.state.fields["operationState"] != JStr("MOVING") ==> s.state.fields["operationState"] == JStr(r.1.value)
  {
    match s.levels
    case None => (s, Fail(AttributeError("_current_level")))
    case Some(prev) =>
      match Field(s.state, "level")
      case Fail(e) => (s, Fail(e))
      case Ok(level) =>
        var levels := if PyEq(prev.current, level) then prev else ShutterLevels(level, prev.current);
        var s1 := s.(levels := Some(levels));
        (s1, ShutterDirection(s.state, level, levels.last))
  }

  /** The part of `value` after the levels are updated: the direction
      derived from the operation state and the two levels. */
  function ShutterDirection(state: Json, level: Json, last: Json): (r: Result<string>)
    ensures r.Ok? ==> Has(state, "operationState") && r.value in ShutterStates
    ensures r.Ok? && r.value == "CLOSING" ==>
              (state.fields["operationState"] == JStr("MOVING") && PyLess(level, last) == Ok(true))
              || state.fields["operationState"] == JStr("CLOSING")
    ensures r.Ok? && r.value == "OPENING" ==>
              (state.fields["operationState"] == JStr("MOVING") && PyLess(last, level) == Ok(true))
              || state.fields["operationState"] == JStr("OPENING")
    ensures r.Ok? && state.fields["operationState"] != JStr("MOVING") ==> state.fields["operationState"] == JStr(r.value)
    ensures Has(state, "operationState") && state.fields["operationState"] == JStr("MOVING") && PyLess(level, last) == Ok(true) ==>
              r == Ok("CLOSING")
    ensures (Has(state, "operationState") && state.fields["operationState"] == JStr("MOVING") && PyLess(level, last) == Ok(false)
             && PyLess(last, level) == Ok(true)) ==> r == Ok("OPENING")
  {
    var op :- Field(state, "operationState");
    if op == JStr("MOVING") then
      var below :- PyLess(level, last);
      if below then Ok("CLOSING")
      else
        if PyLess(last, level).value then Ok("OPENING") else EnumMember(op, ShutterStates)
    else EnumMember(op, ShutterStates)
  }

  /** Reading the value twice in a row gives the same answer and leaves the
      levels as the first read left them. */
  lemma ShutterValueStable(s: Service)
    requires s.levels.Some? && Has(s.state, "level")
    ensures var first := ShutterValue(s);
            var second := ShutterValue(first.0);
            second.0 == first.0 && second.1 == first.1
  {
    var level := s.state.fields["level"];
    var first := ShutterValue(s);
    assert PyEq(first.0.levels.value.current, level);
  }

  /** A shutter that moves down: after a read at one level, a push of a
      lower integer level while MOVING reads CLOSING. */
  lemma ShutterClosing(s: Service, rec: Json, lower: int)
    requires s.levels.Some? && Has(s.state, "level") && s.state.fields["level"].JInt?
    requires Accepts(s, rec) && Has(rec, "state")
    requires rec.fields["state"].JObj?
    requires rec.fields["state"].fields == s.state.fields["level" := JInt(lower)]["operationState" := JStr("MOVING")]
    requires lower < s.state.fields["level"].i
    ensures var read := ShutterValue(s).0;
            ShutterValue(ProcessPush(read, rec).state).1 == Ok("CLOSING")
  {
    var read := ShutterValue(s).0;
    var pushed := ProcessPush(read, rec).state;
    assert PyEq(read.levels.value.current, s.state.fields["level"]);
    assert pushed.levels == read.levels;
    assert pushed.state == rec.fields["state"];
  }

  /** `RoomClimateControlService.OperationMode`. */
  datatype OperationMode = Automatic | Manual

  function ModeName(m: OperationMode): string {
    match m
    case Automatic => "AUTOMATIC"
    case Manual => "MANUAL"
  }

  /** The settable properties of the room-climate service and the value
      each setter sends. */
  datatype ClimateSetting =
    | SetOperationMode(mode: OperationMode)
    | SetSetpointTemperature(temperature: Json)
    | SetLow(low: bool)
    | SetBoostMode(boost: bool)
    | SetSummerMode(summer: bool)

  function SettingKey(c: ClimateSetting): string {
    match c
    case SetOperationMode(_) => "operationMode"
    case SetSetpointTemperature(_) => "setpointTemperature"
    case SetLow(_) => "low"
    case SetBoostMode(_) => "boostMode"
    case SetSummerMode(_) => "summerMode"
  }

  function SettingValue(c: ClimateSetting): Json {
    match c
    case SetOperationMode(m) => JStr(ModeName(m))
    case SetSetpointTemperature(t) => t
    case SetLow(b) => JBool(b)
    case SetBoostMode(b) => JBool(b)
    case SetSummerMode(b) => JBool(b)
  }

  /** A room-climate setter: `put_state_element(key, value)`. */
  function Climate(s: Service, c: ClimateSetting): (r: Result<Request>)
    ensures r.Ok? <==> Has(s.raw, "deviceId") && Has(s.raw, "id") && Has(s.state, "@type")
    ensures r.Ok? ==> r.value.PutServiceState? && r.value.body.JObj?
                      && r.value.body.fields.Keys == {"@type", SettingKey(c)}
                      && r.value.body.fields[SettingKey(c)] == SettingValue(c)
  {
    PutStateElement(s, SettingKey(c), SettingValue(c))
  }

  /** The getter matching a setter: the operation mode through its
      enumeration, the other settings as the state holds them. */
  function ReadSetting(state: Json, c: ClimateSetting): (r: Result<Json>)
    ensures r.Ok? ==> Has(state, SettingKey(c))
  {
    match c
    case SetOperationMode(_) =>
      var name :- ReadEnum(state, EnumPropertyOf("RoomClimateControl", "operation_mode").value);
      Ok(JStr(name))
    case _ => Field(state, SettingKey(c))
  }

  /** The record the controller pushes once it has applied a PUT: the
      service's record with the request body as its state. */
  function Echo(s: Service, body: Json): Json
    requires s.raw.JObj?
  {
    JObj(s.raw.fields["state" := body])
  }

  /** Setting and reading back agree: once the controller echoes a setter's
      body, the matching getter returns the value that was set. */
  lemma ClimateSetThenRead(s: Service, c: ClimateSetting)
    requires Field(s.raw, "@type") == Ok(JStr("DeviceServiceData"))
    requires Climate(s, c).Ok?
    ensures var body := Climate(s, c).value.body;
            var pushed := ProcessPush(s, Echo(s, body));
            pushed.error.None? && ReadSetting(pushed.state.state, c) == Ok(SettingValue(c))
  {
    var body := Climate(s, c).value.body;
    assert body.fields["@type"] == s.state.fields["@type"];
    assert Accepts(s, Echo(s, body));
  }
}
