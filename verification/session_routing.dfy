/** The router of the session (boschshcpy/session.py): every record a
    long poll delivers is handed to the entity it concerns. Also the
    device queries (`devices`, `device(id)`, `intrusion_system`). */
module SessionRouting {
  import opened PyJson
  import opened PyDicts
  import opened Effects
  import Devices
  import DeviceServices
  import DeviceHelper
  import IntrusionDomain
  import Api
  import ServicesImpl
  import opened Session
  import opened SessionServices
  import opened SessionDevices

  /** A `DeviceServiceData` record goes to the device it names; a record
      for a device the session does not hold changes nothing. */
  function RouteServiceData(r: Registry, rec: Json): (st: Step<Registry>)
    requires Valid(r)
    ensures Quiet(st.effects)
    ensures Valid(st.state) && st.state == r.(heap := st.state.heap) && st.state.heap.Keys == r.heap.Keys
    ensures Has(rec, "deviceId") && Hashable(rec.fields["deviceId"]) && rec.fields["deviceId"] !in Keys(r.devicesById) ==>
              st == Step(r, [], None)
    ensures Has(rec, "deviceId") && Hashable(rec.fields["deviceId"]) && rec.fields["deviceId"] in Keys(r.devicesById) ==>
              var ref := Get(r.devicesById, rec.fields["deviceId"]).value;
              var p := Devices.ProcessPush(r.heap[ref], rec);
              st == Step(r.(heap := r.heap[ref := p.state]), p.effects, p.error)
  {
    match Field(rec, "deviceId")
    case Fail(e) => Step(r, [], Some(e))
    case Ok(did) =>
      if !Hashable(did) then Step(r, [], Some(TypeError("unhashable type")))
      else
        match Get(r.devicesById, did)
        case None => Step(r, [], None)
        case Some(ref) =>
          var i := IndexOf(r.devicesById, did);
          assert r.devicesById[i].1 == ref;
          var p := Devices.ProcessPush(r.heap[ref], rec);
          Step(r.(heap := r.heap[ref := p.state]), p.effects, p.error)
  }

  /** A `scenarioTriggered` record calls the scenario callback with the
      scenario's id, name and trigger time, if a callback is set. */
  function RouteScenario(r: Registry, rec: Json): (st: Step<Registry>)
    ensures Quiet(st.effects)
    ensures st.state == r
    ensures r.scenarioCallback.None? ==> st.effects == [] && st.error.None?
    ensures r.scenarioCallback.Some? && Has(rec, "id") && Has(rec, "name") && Has(rec, "lastTimeTriggered") ==>
              st.error.None?
              && st.effects == [ScenarioNotified(r.scenarioCallback.value, rec.fields["id"], rec.fields["name"], rec.fields["lastTimeTriggered"])]
    ensures st.error.Some? ==> st.effects == []
  {
    match r.scenarioCallback
    case None => Step(r, [], None)
    case Some(cb) =>
      match Field(rec, "id")
      case Fail(e) => Step(r, [], Some(e))
      case Ok(id) =>
        match Field(rec, "name")
        case Fail(e) => Step(r, [], Some(e))
        case Ok(name) =>
          match Field(rec, "lastTimeTriggered")
          case Fail(e) => Step(r, [], Some(e))
          case Ok(last) => Step(r, [ScenarioNotified(cb, id, name, last)], None)
  }

  /** `deleted` as the session tests it on a pushed device record. */
  predicate MarksDeleted(rec: Json) {
    Has(rec, "deleted") && PyEq(rec.fields["deleted"], JBool(true))
  }

  /** A `device` record: a stored device takes the new raw record and is
      dropped from the id map if the record says it was deleted; a device
      not stored goes through `_add_device`. */
  function RouteDevice(r: Registry, rec: Json, env: Env): (st: Step<Registry>)
    requires Valid(r)
    ensures Quiet(st.effects)
    ensures Valid(st.state) && SameSession(r, st.state) && st.state.domains == r.domains && HeapGrows(r, st.state)
    ensures forall k | !(Has(rec, "id") && k == rec.fields["id"]) :: Get(st.state.devicesById, k) == Get(r.devicesById, k)
    ensures Has(rec, "id") && Hashable(rec.fields["id"]) && rec.fields["id"] !in Keys(r.devicesById) ==>
              st == AddDevice(r, rec, env)
    ensures Has(rec, "id") && Hashable(rec.fields["id"]) && rec.fields["id"] in Keys(r.devicesById) ==>
              var ref := Get(r.devicesById, rec.fields["id"]).value;
              var u := Devices.UpdateRawInformation(r.heap[ref], rec);
              st.effects == u.effects && st.error == u.error
              && st.state.heap == r.heap[ref := u.state]
              && (u.error.None? && MarksDeleted(rec) ==> rec.fields["id"] !in Keys(st.state.devicesById))
              && (!(u.error.None? && MarksDeleted(rec)) ==> Get(st.state.devicesById, rec.fields["id"]) == Some(ref))
  {
    match Field(rec, "id")
    case Fail(e) => Step(r, [], Some(e))
    case Ok(id) =>
      if !Hashable(id) then Step(r, [], Some(TypeError("unhashable type")))
      else if id in Keys(r.devicesById) then
        var u := UpdateDevice(r, rec);
        if u.error.None? && MarksDeleted(rec) then
          PopKeepsRefs(u.state.devicesById, id, u.state.heap);
          Step(u.state.(devicesById := Pop(u.state.devicesById, id)), u.effects, None)
        else u
      else AddDevice(r, rec, env)
  }

  /** A domain-state record goes to the domain filed under `"IDS"`; without
      one the lookup raises `KeyError`. */
  function RouteDomain(r: Registry, rec: Json): (st: Step<Registry>)
    requires Valid(r)
    ensures Quiet(st.effects)
    ensures Valid(st.state) && st.state == r.(domains := st.state.domains)
    ensures Keys(st.state.domains) == Keys(r.domains)
    ensures "IDS" !in Keys(r.domains) ==> st == Step(r, [], Some(KeyError("IDS")))
    ensures "IDS" in Keys(r.domains) ==>
              var p := IntrusionDomain.ProcessPush(Get(r.domains, "IDS").value, rec);
              Get(st.state.domains, "IDS") == Some(p.state) && st.effects == p.effects && st.error == p.error
  {
    match Get(r.domains, "IDS")
    case None => Step(r, [], Some(KeyError("IDS")))
    case Some(d) =>
      var p := IntrusionDomain.ProcessPush(d, rec);
      Step(r.(domains := Put(r.domains, "IDS", p.state)), p.effects, p.error)
  }

  /** The `@type` tags the router acts on besides the domain states. */
  const RoutedTags: set<string> := {"DeviceServiceData", "message", "scenarioTriggered", "device"}

  /** The `@type` of a record, when it is a string. */
  function TagOf(rec: Json): (t: Option<string>)
    ensures t.Some? <==> Field(rec, "@type").Ok? && Field(rec, "@type").value.JStr?
    ensures t.Some? ==> Field(rec, "@type") == Ok(JStr(t.value))
  {
    match Field(rec, "@type")
    case Ok(JStr(t)) => Some(t)
    case _ => None
  }

  /** No tag is routed twice: the routed tags are distinct, and none of
      them is a domain state. */
  lemma RoutedTagsApart()
    ensures forall t | t in IntrusionDomain.DomainStates :: t !in RoutedTags
    ensures "DeviceServiceData" != "scenarioTriggered" && "message" != "device"
  {
    assert "DeviceServiceData"[0] != "scenarioTriggered"[0];
    assert "message"[0] != "device"[0];
  }

  /** `_process_long_polling_poll_result`: the record is routed by its
      `@type`; a tag the session does not know changes nothing. */
  function Dispatch(r: Registry, rec: Json, env: Env, fuel: nat): (st: Step<Registry>)
    requires Valid(r)
    ensures Valid(st.state) && SameSession(r, st.state) && HeapGrows(r, st.state) && Quiet(st.effects)
    ensures Field(rec, "@type").Fail? ==> st == Step(r, [], Some(Field(rec, "@type").error))
    ensures TagOf(rec) == Some("DeviceServiceData") ==> st == RouteServiceData(r, rec)
    ensures TagOf(rec) == Some("message") ==> st == RouteMessage(r, rec, env, fuel)
    ensures TagOf(rec) == Some("scenarioTriggered") ==> st == RouteScenario(r, rec)
    ensures TagOf(rec) == Some("device") ==> st == RouteDevice(r, rec, env)
    ensures TagOf(rec).Some? && TagOf(rec).value in IntrusionDomain.DomainStates ==> st == RouteDomain(r, rec)
    ensures TagOf(rec).Some? && TagOf(rec).value !in RoutedTags && TagOf(rec).value !in IntrusionDomain.DomainStates ==>
              st == Step(r, [], None)
    decreases fuel, 1
  {
    RoutedTagsApart();
    match Field(rec, "@type")
    case Fail(e) => Step(r, [], Some(e))
    case Ok(tag) =>
      if tag == JStr("DeviceServiceData") then RouteServiceData(r, rec)
      else if tag == JStr("message") then RouteMessage(r, rec, env, fuel)
      else if tag == JStr("scenarioTriggered") then RouteScenario(r, rec)
      else if tag == JStr("device") then RouteDevice(r, rec, env)
      else if !Hashable(tag) then Step(r, [], Some(TypeError("unhashable type")))
      else if tag.JStr? && tag.s in IntrusionDomain.DomainStates then RouteDomain(r, rec)
      else Step(r, [], None)
  }

  /** A `message` record must carry `arguments`. When these hold a
      `deviceServiceDataModel`, it is decoded and routed in turn; `fuel`
      bounds that nesting, and running out of it is Python's
      `RecursionError`. Any other message changes nothing. */
  function RouteMessage(r: Registry, rec: Json, env: Env, fuel: nat): (st: Step<Registry>)
    requires Valid(r)
    ensures Valid(st.state) && SameSession(r, st.state) && HeapGrows(r, st.state) && Quiet(st.effects)
    ensures !Has(rec, "arguments") ==> st.state == r && st.error.Some? && st.error.value.AssertionError?
    ensures Has(rec, "arguments") && rec.fields["arguments"].JObj? && "deviceServiceDataModel" !in rec.fields["arguments"].fields ==>
              st == Step(r, [], None)
    ensures Has(rec, "arguments") && Has(rec.fields["arguments"], "deviceServiceDataModel") ==>
              var decoded := env.loads(rec.fields["arguments"].fields["deviceServiceDataModel"]);
              (decoded.Fail? ==> st == Step(r, [], Some(decoded.error)))
              && (decoded.Ok? && fuel == 0 ==> st == Step(r, [], Some(RecursionError)))
              && (decoded.Ok? && fuel > 0 ==> st == Dispatch(r, decoded.value, env, fuel - 1))
    decreases fuel, 0
  {
    if !Has(rec, "arguments") then Step(r, [], Some(AssertionError("'arguments' in raw_result")))
    else
      var args := rec.fields["arguments"];
      match PyIn("deviceServiceDataModel", args)
      case Fail(e) => Step(r, [], Some(e))
      case Ok(present) =>
        if !present then Step(r, [], None)
        else
          match Field(args, "deviceServiceDataModel")
          case Fail(e) => Step(r, [], Some(e))
          case Ok(model) =>
            match env.loads(model)
            case Fail(e) => Step(r, [], Some(e))
            case Ok(inner) =>
              if fuel == 0 then Step(r, [], Some(RecursionError))
              else Dispatch(r, inner, env, fuel - 1)
  }

  /** The records of one poll result, routed in the order received; the
      first that raises stops the rest. */
  function ProcessAll(r: Registry, recs: seq<Json>, env: Env, fuel: nat): (st: Step<Registry>)
    requires Valid(r)
    ensures Quiet(st.effects)
    ensures Valid(st.state) && SameSession(r, st.state) && HeapGrows(r, st.state)
    decreases |recs|
  {
    if |recs| == 0 then Step(r, [], None)
    else
      var first := Dispatch(r, recs[0], env, fuel);
      if first.error.Some? then first
      else
        var rest := ProcessAll(first.state, recs[1..], env, fuel);
        Step(rest.state, first.effects + rest.effects, rest.error)
  }

  /** A batch routes its first record, and then the rest unless that
      first one raised. */
  lemma ProcessAllCons(r: Registry, recs: seq<Json>, env: Env, fuel: nat)
    requires Valid(r) && |recs| > 0
    ensures var first := Dispatch(r, recs[0], env, fuel);
            ProcessAll(r, recs, env, fuel)
            == if first.error.Some? then first
               else var rest := ProcessAll(first.state, recs[1..], env, fuel);
                    Step(rest.state, first.effects + rest.effects, rest.error)
  {
  }

  /** Routing a batch in two parts is routing it in one: the second part
      starts from the state the first reached, unless the first raised. */
  lemma {:induction false} ProcessAllAppend(r: Registry, a: seq<Json>, b: seq<Json>, env: Env, fuel: nat)
    requires Valid(r)
    ensures var sa := ProcessAll(r, a, env, fuel);
            ProcessAll(r, a + b, env, fuel)
            == if sa.error.Some? then sa
               else var sb := ProcessAll(sa.state, b, env, fuel);
                    Step(sb.state, sa.effects + sb.effects, sb.error)
    decreases |a|
  {
    if |a| == 0 {
      assert a + b == b;
    } else {
      assert (a + b)[0] == a[0];
      assert (a + b)[1..] == a[1..] + b;
      ProcessAllCons(r, a, env, fuel);
      ProcessAllCons(r, a + b, env, fuel);
      var first := Dispatch(r, a[0], env, fuel);
      if first.error.None? {
        ProcessAllAppend(first.state, a[1..], b, env, fuel);
        var sa' := ProcessAll(first.state, a[1..], env, fuel);
        if sa'.error.None? {
          var sb := ProcessAll(sa'.state, b, env, fuel);
          SeqAssoc(first.effects, sa'.effects, sb.effects);
        }
      }
    }
  }

  /** A device reported deleted is no longer found, and every other device
      is found as before. */
  lemma DeletedDeviceIsGone(r: Registry, rec: Json, env: Env, fuel: nat, other: Json)
    requires Valid(r) && Field(rec, "@type") == Ok(JStr("device")) && MarksDeleted(rec)
    requires Has(rec, "id") && rec.fields["id"] in Keys(r.devicesById)
    requires Devices.UpdateRawInformation(r.heap[Get(r.devicesById, rec.fields["id"]).value], rec).error.None?
    requires other != rec.fields["id"]
    ensures var st := Dispatch(r, rec, env, fuel);
            DeviceById(st.state, rec.fields["id"]).Fail?
            && Get(st.state.devicesById, other) == Get(r.devicesById, other)
  {
  }

  /** A `device` record for an id without supported services never adds
      the device. */
  lemma NoServicesNoDevice(r: Registry, rec: Json, env: Env, fuel: nat)
    requires Valid(r) && Field(rec, "@type") == Ok(JStr("device"))
    requires Has(rec, "id") && Hashable(rec.fields["id"]) && rec.fields["id"] !in Keys(r.devicesById)
    requires ServicesOf(r.servicesByDevice, rec.fields["id"]) == []
    ensures var st := Dispatch(r, rec, env, fuel);
            st.error.None? && st.state.devicesById == r.devicesById && st.state.heap == r.heap
  {
  }

  /** A record for a device the session does not hold changes nothing. */
  lemma UnknownDeviceIgnored(r: Registry, rec: Json, env: Env, fuel: nat)
    requires Valid(r) && Field(rec, "@type") == Ok(JStr("DeviceServiceData"))
    requires Has(rec, "deviceId") && Hashable(rec.fields["deviceId"]) && rec.fields["deviceId"] !in Keys(r.devicesById)
    ensures Dispatch(r, rec, env, fuel) == Step(r, [], None)
  {
  }

  /** `devices`: the stored devices in insertion order. */
  function DeviceList(r: Registry): (ds: seq<Devices.Device>)
    requires Valid(r)
    ensures |ds| == |r.devicesById|
    ensures forall i | 0 <= i < |ds| :: ds[i] == r.heap[r.devicesById[i].1]
  {
    seq(|r.devicesById|, i requires 0 <= i < |r.devicesById| && RefsIn(r.devicesById, r.heap) => r.heap[r.devicesById[i].1])
  }

  /** `device(id)`: `KeyError` for an id not stored. */
  function DeviceById(r: Registry, id: Json): (d: Result<Devices.Device>)
    requires Valid(r)
    ensures d.Ok? <==> Hashable(id) && id in Keys(r.devicesById)
    ensures d.Ok? ==> d.value == r.heap[Get(r.devicesById, id).value]
  {
    if !Hashable(id) then Fail(TypeError("unhashable type"))
    else
      match Get(r.devicesById, id)
      case None => Fail(KeyError("device id"))
      case Some(ref) =>
        var i := IndexOf(r.devicesById, id);
        assert r.devicesById[i].1 == ref;
        Ok(r.heap[ref])
  }

  /** `intrusion_system`: the domain filed under `"IDS"`, `KeyError`
      without one. */
  function IntrusionSystem(r: Registry): (d: Result<IntrusionDomain.Intrusion>)
    ensures d.Ok? <==> "IDS" in Keys(r.domains)
    ensures d.Ok? ==> Get(r.domains, "IDS") == Some(d.value)
  {
    match Get(r.domains, "IDS")
    case None => Fail(KeyError("IDS"))
    case Some(d) => Ok(d)
  }
}
