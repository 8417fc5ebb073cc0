/** The device models (boschshcpy/models_impl.py): which PUT request each
    setter of a model sends to which of the device's services, the
    intrusion-detection system's instant-arm sequence, and the table of
    supported models. */
module ModelsImpl {
  import opened PyJson
  import opened Effects
  import DeviceServices
  import opened ServicesImpl
  import Devices

  /** The keys of `MODEL_MAPPING`, in declaration order. */
  const ModelTags: seq<string> := ["SWD", "BBL", "PSM", "BSM", "SD", "CAMERA_EYES", "INTRUSION_DETECTION_SYSTEM", "TRV", "WRC2", "MD"]

  /** `SUPPORTED_MODELS`. */
  const SupportedModels: set<string> := set m | m in ModelTags

  /** Ten models are supported; the climate control, presence simulation,
      camera 360 and twinguard entries are commented out of the table. */
  lemma SupportedModelsFacts()
    ensures |ModelTags| == 10
    ensures "ROOM_CLIMATE_CONTROL" !in SupportedModels && "PRESENCE_SIMULATION_SERVICE" !in SupportedModels
    ensures "CAMERA_360" !in SupportedModels && "TWINGUARD" !in SupportedModels
  {
  }

  /** `SHCSmokeDetector.AlarmState`: the requests the alarm setter sends. */
  datatype SmokeAlarmRequest = IntrusionAlarmOnRequested | IntrusionAlarmOffRequested | MuteSecondaryAlarmRequested

  function SmokeAlarmName(a: SmokeAlarmRequest): string {
    match a
    case IntrusionAlarmOnRequested => "INTRUSION_ALARM_ON_REQUESTED"
    case IntrusionAlarmOffRequested => "INTRUSION_ALARM_OFF_REQUESTED"
    case MuteSecondaryAlarmRequested => "MUTE_SECONDARY_ALARM_REQUESTED"
  }

  /** The intrusion-detection control states the system's setter sends. */
  datatype IdsState = SystemDisarmed | SystemArmed | MuteAlarm

  function IdsStateName(s: IdsState): string {
    match s
    case SystemDisarmed => "SYSTEM_DISARMED"
    case SystemArmed => "SYSTEM_ARMED"
    case MuteAlarm => "MUTE_ALARM"
  }

  /** One setter call of a device model. */
  datatype Command =
    | SmokeAlarm(alarm: SmokeAlarmRequest)
    | PlugState(on: bool)
    | ShutterLevel(level: Json)
    | ShutterStop
    | CameraPrivacy(privacyOn: bool)
    | CameraNotification(notificationOn: bool)
    | CameraLight(lightOn: bool)
    | IdsAlarmState(idsState: IdsState)
    | IdsArmDelay(seconds: Json)

  /** The service of the device a command is sent to. */
  function CommandService(c: Command): string {
    match c
    case SmokeAlarm(_) => "Alarm"
    case PlugState(_) => "PowerSwitch"
    case ShutterLevel(_) => "ShutterControl"
    case ShutterStop => "ShutterControl"
    case CameraPrivacy(_) => "PrivacyMode"
    case CameraNotification(_) => "CameraNotification"
    case CameraLight(_) => "CameraLight"
    case IdsAlarmState(_) => "IntrusionDetectionControl"
    case IdsArmDelay(_) => "IntrusionDetectionControl"
  }

  /** The state member a command sets. */
  function CommandKey(c: Command): string {
    match c
    case SmokeAlarm(_) => "state"
    case PlugState(_) => "switchState"
    case ShutterLevel(_) => "level"
    case ShutterStop => "operationState"
    case CameraPrivacy(_) => "value"
    case CameraNotification(_) => "value"
    case CameraLight(_) => "value"
    case IdsAlarmState(_) => "value"
    case IdsArmDelay(_) => "armActivationDelayTime"
  }

  function Switch(on: bool, yes: string, no: string): string { if on then yes else no }

  /** The value a command sets. */
  function CommandValue(c: Command): Json {
    match c
    case SmokeAlarm(a) => JStr(SmokeAlarmName(a))
    case PlugState(on) => JStr(Switch(on, "ON", "OFF"))
    case ShutterLevel(level) => level
    case ShutterStop => JStr("STOPPED")
    case CameraPrivacy(on) => JStr(Switch(on, "ENABLED", "DISABLED"))
    case CameraNotification(on) => JStr(Switch(on, "ENABLED", "DISABLED"))
    case CameraLight(on) => JStr(Switch(on, "ON", "OFF"))
    case IdsAlarmState(s) => JStr(IdsStateName(s))
    case IdsArmDelay(seconds) => seconds
  }

  /** `service.put_state_element(key, value)` on a service the model looked
      up at construction: a service the device lacks is `None`, and calling
      a method on it raises. */
  function PutOn(svc: Option<DeviceServices.Service>, key: string, value: Json): (r: Result<Request>)
    ensures svc.None? ==> r.Fail? && r.error.AttributeError?
    ensures svc.Some? ==> r == DeviceServices.PutStateElement(svc.value, key, value)
  {
    match svc
    case None => Fail(AttributeError("'NoneType' object has no attribute 'put_state_element'"))
    case Some(s) => DeviceServices.PutStateElement(s, key, value)
  }

  /** A model's setter: the request it sends. */
  function Encode(d: Devices.Device, c: Command): (r: Result<Request>)
    ensures CommandService(c) !in Devices.ServiceIds(d) ==> r.Fail? && r.error.AttributeError?
    ensures r.Ok? ==> CommandService(c) in Devices.ServiceIds(d)
                      && var s := Devices.DeviceService(d, CommandService(c)).value;
                      r.value.PutServiceState?
                      && Field(s.raw, "deviceId") == Ok(r.value.deviceId)
                      && Field(s.raw, "id") == Ok(r.value.serviceId)
                      && r.value.body.JObj? && r.value.body.fields.Keys == {"@type", CommandKey(c)}
                      && r.value.body.fields[CommandKey(c)] == CommandValue(c)
                      && Field(s.state, "@type") == Ok(r.value.body.fields["@type"])
  {
    PutOn(Devices.DeviceService(d, CommandService(c)), CommandKey(c), CommandValue(c))
  }

  /** The smart-plug and camera setters set the state member their
      service's enumerated `value` reads, to one of its members. (The smoke
      alarm setter does not: it sets `state`, while the alarm service reads
      `value`.) */
  lemma CommandKeyIsValueKey(c: Command)
    requires c.PlugState? || c.CameraPrivacy? || c.CameraNotification? || c.CameraLight?
    ensures EnumPropertyOf(CommandService(c), "value").Some?
    ensures EnumPropertyOf(CommandService(c), "value").value.key == CommandKey(c)
    ensures CommandValue(c).JStr? && CommandValue(c).s in EnumPropertyOf(CommandService(c), "value").value.members
  {
  }

  /** Setting and reading back agree: once the controller echoes the body
      of a smart-plug or camera setter, the service's `value` reads the
      state that was set. */
  lemma CommandThenRead(d: Devices.Device, c: Command)
    requires c.PlugState? || c.CameraPrivacy? || c.CameraNotification? || c.CameraLight?
    requires Encode(d, c).Ok?
    requires Field(Devices.DeviceService(d, CommandService(c)).value.raw, "@type") == Ok(JStr("DeviceServiceData"))
    ensures EnumPropertyOf(CommandService(c), "value").Some?
    ensures var s := Devices.DeviceService(d, CommandService(c)).value;
            var echo := Echo(s, Encode(d, c).value.body);
            var pushed := DeviceServices.ProcessPush(s, echo);
            pushed.error.None?
            && ReadEnum(pushed.state.state, EnumPropertyOf(CommandService(c), "value").value) == Ok(CommandValue(c).s)
  {
    var s := Devices.DeviceService(d, CommandService(c)).value;
    var body := Encode(d, c).value.body;
    CommandKeyIsValueKey(c);
    assert DeviceServices.Accepts(s, Echo(s, body));
  }

  /** `SHCShutterContact.device_class`: the device's profile as a
      `DeviceClass`. */
  function DeviceClass(d: Devices.Device): (r: Result<string>)
    ensures r.Ok? <==> Devices.Profile(d).JStr? && Devices.Profile(d).s in {"GENERIC", "ENTRANCE_DOOR", "REGULAR_WINDOW", "FRENCH_WINDOW"}
  {
    EnumMember(Devices.Profile(d), {"GENERIC", "ENTRANCE_DOOR", "REGULAR_WINDOW", "FRENCH_WINDOW"})
  }

  /** The requests a sequence of setter calls sent, and the exception that
      ended it, if any. */
  datatype Issued = Issued(requests: seq<Request>, error: Option<Error>)

  /** `arm_activation_delay(seconds)`: nothing while the system is arming,
      otherwise the delay is set. `alarmState` is what the system's
      `alarmstate` reads, and `reply` the controller's answer to the PUT: a
      failed write raises once the request is sent. */
  function ArmActivationDelay(svc: Option<DeviceServices.Service>, alarmState: Result<string>, seconds: Json,
                              reply: Result<Json>): (r: Issued)
    ensures alarmState == Ok("SYSTEM_ARMING") ==> r == Issued([], None)
    ensures alarmState.Fail? ==> r == Issued([], Some(alarmState.error))
    ensures alarmState.Ok? && alarmState.value != "SYSTEM_ARMING" && PutOn(svc, "armActivationDelayTime", seconds).Ok? ==>
              r == Issued([PutOn(svc, "armActivationDelayTime", seconds).value],
                          if reply.Fail? then Some(reply.error) else None)
    ensures alarmState.Ok? && alarmState.value != "SYSTEM_ARMING" && PutOn(svc, "armActivationDelayTime", seconds).Fail? ==>
              r == Issued([], Some(PutOn(svc, "armActivationDelayTime", seconds).error))
  {
    match alarmState
    case Fail(e) => Issued([], Some(e))
    case Ok(state) =>
      if state == "SYSTEM_ARMING" then Issued([], None)
      else
        match PutOn(svc, "armActivationDelayTime", seconds)
        case Fail(e) => Issued([], Some(e))
        case Ok(req) => Issued([req], if reply.Fail? then Some(reply.error) else None)
  }

  /** The controller's answers to the three writes of an instant arm: the
      shortened delay, the arm request and the restored delay. */
  datatype ArmReplies = ArmReplies(shorten: Result<Json>, arm: Result<Json>, restore: Result<Json>)

  /** The writes of an instant arm can be formed: there is a service and it
      carries a device id, an id and a state type. */
  predicate CanWrite(svc: Option<DeviceServices.Service>) {
    svc.Some? && Has(svc.value.raw, "deviceId") && Has(svc.value.raw, "id") && Has(svc.value.state, "@type")
  }

  /** `arm_instant`: unless the system is arming, the activation delay is
      read, set to one second, the system is armed, and the original delay
      is restored, in that order. The setters do not change the local
      state, so the alarm state read before each step is the same.
      `delayTime` is what the service reports as its activation delay. A
      write the controller refuses raises and ends the sequence there. */
  function ArmInstant(svc: Option<DeviceServices.Service>, alarmState: Result<string>, delayTime: Result<Json>,
                      replies: ArmReplies): (r: Issued)
    ensures alarmState == Ok("SYSTEM_ARMING") ==> r == Issued([], None)
    ensures r.error.None? && alarmState != Ok("SYSTEM_ARMING") ==>
              CanWrite(svc) && delayTime.Ok? && |r.requests| == 3
              && replies.shorten.Ok? && replies.arm.Ok? && replies.restore.Ok?
              && Ok(r.requests[0]) == DeviceServices.PutStateElement(svc.value, "armActivationDelayTime", JInt(1))
              && Ok(r.requests[1]) == DeviceServices.PutStateElement(svc.value, "value", JStr("SYSTEM_ARMED"))
              && Ok(r.requests[2]) == DeviceServices.PutStateElement(svc.value, "armActivationDelayTime", delayTime.value)
    ensures (alarmState.Ok? && CanWrite(svc) && delayTime.Ok?
             && replies.shorten.Ok? && replies.arm.Ok? && replies.restore.Ok?) ==> r.error.None?
    ensures alarmState.Ok? && alarmState.value != "SYSTEM_ARMING" && CanWrite(svc) && delayTime.Ok? && replies.shorten.Fail? ==>
              r.error == Some(replies.shorten.error) && |r.requests| == 1
              && Ok(r.requests[0]) == DeviceServices.PutStateElement(svc.value, "armActivationDelayTime", JInt(1))
    ensures alarmState.Ok? && alarmState.value != "SYSTEM_ARMING" && CanWrite(svc) && delayTime.Ok?
            && replies.shorten.Ok? && replies.arm.Fail? ==>
              r.error == Some(replies.arm.error) && |r.requests| == 2
              && Ok(r.requests[0]) == DeviceServices.PutStateElement(svc.value, "armActivationDelayTime", JInt(1))
              && Ok(r.requests[1]) == DeviceServices.PutStateElement(svc.value, "value", JStr("SYSTEM_ARMED"))
    ensures alarmState.Ok? && alarmState.value != "SYSTEM_ARMING" && CanWrite(svc) && delayTime.Ok?
            && replies.shorten.Ok? && replies.arm.Ok? && replies.restore.Fail? ==>
              r.error == Some(replies.restore.error) && |r.requests| == 3
    ensures alarmState != Ok("SYSTEM_ARMING") && !(alarmState.Ok? && CanWrite(svc) && delayTime.Ok?) ==>
              r.error.Some? && r.requests == []
  {
    match alarmState
    case Fail(e) => Issued([], Some(e))
    case Ok(state) =>
      if state == "SYSTEM_ARMING" then Issued([], None)
      else
        match delayTime
        case Fail(e) => Issued([], Some(e))
        case Ok(delay) =>
          var shorten := ArmActivationDelay(svc, alarmState, JInt(1), replies.shorten);
          if shorten.error.Some? then shorten
          else
            match PutOn(svc, "value", JStr(IdsStateName(SystemArmed)))
            case Fail(e) => Issued(shorten.requests, Some(e))
            case Ok(arm) =>
              if replies.arm.Fail? then Issued(shorten.requests + [arm], Some(replies.arm.error))
              else
                var restore := ArmActivationDelay(svc, alarmState, delay, replies.restore);
                Issued(shorten.requests + [arm] + restore.requests, restore.error)
  }

  /** The instant-arm sequence sets the delay back to what it was: its
      first and last requests differ only in the delay value. */
  lemma ArmInstantRestoresDelay(svc: Option<DeviceServices.Service>, alarmState: Result<string>, delayTime: Result<Json>,
                                replies: ArmReplies)
    requires ArmInstant(svc, alarmState, delayTime, replies).error.None? && alarmState != Ok("SYSTEM_ARMING")
    ensures var rs := ArmInstant(svc, alarmState, delayTime, replies).requests;
            |rs| == 3 && rs[0].body.fields["armActivationDelayTime"] == JInt(1)
            && rs[2].body.fields["armActivationDelayTime"] == delayTime.value
            && rs[1].body.fields["value"] == JStr("SYSTEM_ARMED")
            && rs[0].deviceId == rs[2].deviceId && rs[0].serviceId == rs[2].serviceId
  {
  }

  /** A refused arm request leaves the delay shortened: the sequence stops
      after the shortening and the arm request, so every delay the
      controller was sent is one second. */
  lemma ArmRefusedLeavesShortDelay(svc: Option<DeviceServices.Service>, alarmState: Result<string>, delayTime: Result<Json>,
                                   replies: ArmReplies)
    requires alarmState.Ok? && alarmState.value != "SYSTEM_ARMING" && CanWrite(svc) && delayTime.Ok?
    requires replies.shorten.Ok? && replies.arm.Fail?
    ensures var r := ArmInstant(svc, alarmState, delayTime, replies);
            r.error == Some(replies.arm.error) && |r.requests| == 2
            && forall i | 0 <= i < |r.requests| && "armActivationDelayTime" in r.requests[i].body.fields ::
                 r.requests[i].body.fields["armActivationDelayTime"] == JInt(1)
  {
    var r := ArmInstant(svc, alarmState, delayTime, replies);
    assert r.requests[1].body.fields.Keys == {"@type", "value"};
  }

  /** `SHCMotionDetector.latestmotion` as written: it asks the service for
      `latestMotion`, an attribute the latest-motion service does not have,
      so the read always raises. */
  function LatestMotionAsWritten(svc: Option<DeviceServices.Service>): (r: Result<Json>)
    ensures r.Fail? && r.error.AttributeError?
  {
    Fail(AttributeError("'LatestMotionService' object has no attribute 'latestMotion'"))
  }

  /** The read the property evidently means: the service's
      `latestMotionDetected`, which falls back on "n/a". */
  function LatestMotion(svc: Option<DeviceServices.Service>): (r: Result<Json>)
    ensures svc.None? ==> r.Fail? && r.error.AttributeError?
    ensures svc.Some? && svc.value.state.JObj? ==>
              r == Ok(FieldOr(svc.value.state, "latestMotionDetected", JStr("n/a")))
  {
    match svc
    case None => Fail(AttributeError("'NoneType' object has no attribute 'latestMotionDetected'"))
    case Some(s) => LatestMotionDetected(s)
  }

  /** The difference: for a motion detector whose service state is an
      object, the corrected read succeeds where the written one raises. */
  lemma LatestMotionDiscrepancy(s: DeviceServices.Service)
    requires s.state.JObj?
    ensures LatestMotion(Some(s)).Ok? && LatestMotionAsWritten(Some(s)).Fail?
  {
  }
}
