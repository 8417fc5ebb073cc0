/** The start-up enumeration of the session (boschshcpy/session.py):
    rooms, scenarios, the intrusion domain, and everything in the order
    the session reads it. Also the room and scenario queries
    (`scenario_names`, `room(id)`, `scenario(id)`). */
module SessionEnumerate {
  import opened PyJson
  import opened PyDicts
  import opened Effects
  import Devices
  import DeviceServices
  import DeviceHelper
  import IntrusionDomain
  import Api
  import ServicesImpl
  import opened Session
  import opened SessionServices
  import opened SessionDevices
  import opened SessionRecords

  /** `_async_enumerate_rooms` as written: the room is constructed without
      the `api` argument its constructor requires, so the first room that
      has an id raises `TypeError`, and no room is ever stored. */
  function EnumerateRoomsAsWritten(r: Registry, fetched: Result<Json>): (st: Step<Registry>)
    ensures st.state == r && st.effects == []
  {
    match fetched
    case Fail(e) => Step(r, [], Some(e))
    case Ok(raw) =>
      match Elements(raw)
      case Fail(e) => Step(r, [], Some(e))
      case Ok(items) =>
        if |items| == 0 then Step(r, [], None)
        else
          match Field(items[0], "id")
          case Fail(e) => Step(r, [], Some(e))
          case Ok(_) => Step(r, [], Some(TypeError("missing required argument: 'api'")))
  }

  /** `_async_enumerate_rooms` as intended: every room is filed under its
      id. */
  function EnumerateRooms(r: Registry, fetched: Result<Json>): (st: Step<Registry>)
    ensures st.state == r.(rooms := st.state.rooms) && st.effects == []
    ensures Keys(r.rooms) <= Keys(st.state.rooms)
    ensures fetched.Ok? && st.error.None? ==>
              fetched.value.JArr?
              && forall i | 0 <= i < |fetched.value.items| :: Has(fetched.value.items[i], "id") && fetched.value.items[i].fields["id"] in Keys(st.state.rooms)
  {
    match fetched
    case Fail(e) => Step(r, [], Some(e))
    case Ok(raw) =>
      match Elements(raw)
      case Fail(e) => Step(r, [], Some(e))
      case Ok(items) =>
        var s := StoreById(r.rooms, items);
        StoreByIdCompletes(r.rooms, items);
        Step(r.(rooms := s.0), [], s.1)
  }

  /** The discrepancy: any room list with a first room that has an id makes
      the written enumeration fail and store nothing, while the intended one
      files that room. */
  lemma RoomsDiscrepancy(r: Registry, room: Json, rest: seq<Json>)
    requires Has(room, "id") && Hashable(room.fields["id"])
    ensures var fetched := Ok(JArr([room] + rest));
            EnumerateRoomsAsWritten(r, fetched).error.Some?
            && EnumerateRoomsAsWritten(r, fetched).state.rooms == r.rooms
            && room.fields["id"] in Keys(EnumerateRooms(r, Ok(JArr([room]))).state.rooms)
            && EnumerateRooms(r, Ok(JArr([room]))).error.None?
  {
    assert ([room] + rest)[0] == room;
    assert [room][0] == room;
    assert Identified([room]);
    StoreByIdCompletes(r.rooms, [room]);
  }

  /** `_async_enumerate_scenarios`. */
  function EnumerateScenarios(r: Registry, fetched: Result<Json>): (st: Step<Registry>)
    ensures st.state == r.(scenarios := st.state.scenarios) && st.effects == []
    ensures Keys(r.scenarios) <= Keys(st.state.scenarios)
    ensures fetched.Ok? && st.error.None? ==>
              fetched.value.JArr?
              && forall i | 0 <= i < |fetched.value.items| :: Has(fetched.value.items[i], "id") && fetched.value.items[i].fields["id"] in Keys(st.state.scenarios)
  {
    match fetched
    case Fail(e) => Step(r, [], Some(e))
    case Ok(raw) =>
      match Elements(raw)
      case Fail(e) => Step(r, [], Some(e))
      case Ok(items) =>
        var s := StoreById(r.scenarios, items);
        StoreByIdCompletes(r.scenarios, items);
        Step(r.(scenarios := s.0), [], s.1)
  }

  /** `_async_initialize_domains`: the domain object built from the fetched
      snapshot is filed under `"IDS"`. */
  function InitializeDomains(r: Registry, fetched: Result<Json>): (st: Step<Registry>)
    ensures st.state == r.(domains := st.state.domains) && st.effects == []
    ensures st.error.None? <==> fetched.Ok? && IntrusionDomain.New(fetched.value).Ok?
    ensures st.error.None? ==> Get(st.state.domains, "IDS") == Some(IntrusionDomain.New(fetched.value).value)
    ensures st.error.Some? ==> st.state == r
    ensures Keys(st.state.domains) == Keys(r.domains) + (if st.error.None? then {"IDS"} else {})
  {
    match fetched
    case Fail(e) => Step(r, [], Some(e))
    case Ok(raw) =>
      match IntrusionDomain.New(raw)
      case Fail(e) => Step(r, [], Some(e))
      case Ok(d) => Step(r.(domains := Put(r.domains, "IDS", d)), [], None)
  }

  /** What the controller answers to the five enumeration calls. */
  datatype Snapshot = Snapshot(services: Result<Json>, devices: Result<Json>, rooms: Result<Json>,
                               scenarios: Result<Json>, domain: Result<Json>)

  /** `_async_enumerate_all` as written: services, devices, rooms,
      scenarios, domain, in that order; the first failure stops it. The
      rooms step is the written one, so a listing with a room raises
      `TypeError` before scenarios and the domain are read. Nothing is
      cleared first, so entries from an earlier enumeration survive. */
  function EnumerateAllAsWritten(r: Registry, snap: Snapshot, env: Env): (st: Step<Registry>)
    requires Valid(r)
    ensures Valid(st.state) && st.effects == []
    ensures st.state.pollId == r.pollId && st.state.scenarioCallback == r.scenarioCallback
    ensures st.state.polling == r.polling && st.state.stopFlag == r.stopFlag
    ensures Keys(r.devicesById) <= Keys(st.state.devicesById)
    ensures Keys(r.servicesByDevice) <= Keys(st.state.servicesByDevice)
    ensures st.state.rooms == r.rooms
    ensures Keys(r.scenarios) <= Keys(st.state.scenarios) && Keys(r.domains) <= Keys(st.state.domains)
    ensures st.error.None? ==> snap.rooms == Ok(JArr([]))
    ensures snap.rooms.Ok? && snap.rooms.value.JArr? && |snap.rooms.value.items| > 0 ==>
              st.error.Some? && st.state.scenarios == r.scenarios && st.state.domains == r.domains
  {
    var s1 := EnumerateServices(r, snap.services);
    CollectKeepsKeys(r, snap.services);
    if s1.error.Some? then s1
    else
      var s2 := EnumerateDevices(s1.state, snap.devices, env);
      if s2.error.Some? then s2
      else
        var s3 := EnumerateRoomsAsWritten(s2.state, snap.rooms);
        if s3.error.Some? then s3
        else
          var s4 := EnumerateScenarios(s3.state, snap.scenarios);
          if s4.error.Some? then s4
          else InitializeDomains(s4.state, snap.domain)
  }

  /** `_async_enumerate_all` as intended: the same five steps with the
      intended rooms step. */
  function EnumerateAll(r: Registry, snap: Snapshot, env: Env): (st: Step<Registry>)
    requires Valid(r)
    ensures Valid(st.state) && st.effects == []
    ensures st.state.pollId == r.pollId && st.state.scenarioCallback == r.scenarioCallback
    ensures st.state.polling == r.polling && st.state.stopFlag == r.stopFlag
    ensures Keys(r.devicesById) <= Keys(st.state.devicesById)
    ensures Keys(r.servicesByDevice) <= Keys(st.state.servicesByDevice)
    ensures Keys(r.rooms) <= Keys(st.state.rooms) && Keys(r.scenarios) <= Keys(st.state.scenarios)
    ensures Keys(r.domains) <= Keys(st.state.domains)
  {
    var s1 := EnumerateServices(r, snap.services);
    CollectKeepsKeys(r, snap.services);
    if s1.error.Some? then s1
    else
      var s2 := EnumerateDevices(s1.state, snap.devices, env);
      if s2.error.Some? then s2
      else
        var s3 := EnumerateRooms(s2.state, snap.rooms);
        if s3.error.Some? then s3
        else
          var s4 := EnumerateScenarios(s3.state, snap.scenarios);
          if s4.error.Some? then s4
          else InitializeDomains(s4.state, snap.domain)
  }

  /** The records a fetched listing holds: none when the fetch failed or
      did not answer a list. */
  function Listed(fetched: Result<Json>): (items: seq<Json>)
    ensures fetched.Ok? && fetched.value.JArr? ==> items == fetched.value.items
    ensures !(fetched.Ok? && fetched.value.JArr?) ==> items == []
  {
    if fetched.Ok? && fetched.value.JArr? then fetched.value.items else []
  }

  /** What a completed enumeration holds: each device id's service records
      extended by the supported records listed for it, every listed room
      and scenario under its id, and the domain built from the fetched
      state under `"IDS"`. */
  lemma EnumerateAllStores(r: Registry, snap: Snapshot, env: Env, k: Json)
    requires Valid(r)
    ensures var st := EnumerateAll(r, snap, env);
            st.error.None? ==>
              snap.services.Ok? && snap.services.value.JArr? && snap.devices.Ok? && snap.devices.value.JArr?
              && snap.rooms.Ok? && snap.rooms.value.JArr? && snap.scenarios.Ok? && snap.scenarios.value.JArr?
              && snap.domain.Ok? && IntrusionDomain.New(snap.domain.value).Ok?
    ensures var st := EnumerateAll(r, snap, env);
            st.error.None? ==>
              ServicesOf(st.state.servicesByDevice, k) == ServicesOf(r.servicesByDevice, k) + KeptFor(snap.services.value.items, k)
    ensures var st := EnumerateAll(r, snap, env);
            st.error.None? ==>
              (forall i | 0 <= i < |snap.rooms.value.items| ::
                 Has(snap.rooms.value.items[i], "id") && snap.rooms.value.items[i].fields["id"] in Keys(st.state.rooms))
              && (forall i | 0 <= i < |snap.scenarios.value.items| ::
                    Has(snap.scenarios.value.items[i], "id") && snap.scenarios.value.items[i].fields["id"] in Keys(st.state.scenarios))
              && Get(st.state.domains, "IDS") == Some(IntrusionDomain.New(snap.domain.value).value)
  {
    var st := EnumerateAll(r, snap, env);
    if st.error.None? {
      var s1 := EnumerateServices(r, snap.services);
      var s2 := EnumerateDevices(s1.state, snap.devices, env);
      var s3 := EnumerateRooms(s2.state, snap.rooms);
      var s4 := EnumerateScenarios(s3.state, snap.scenarios);
      assert s1.error.None? && s2.error.None? && s3.error.None? && s4.error.None?;
      assert st == InitializeDomains(s4.state, snap.domain);
      EnumerateDevicesStores(s1.state, snap.devices, env, k);
      AddDevicesKeepsServices(s1.state, snap.devices.value.items, env, k);
    }
  }

  /** The devices a completed enumeration holds: under an id with service
      records and a listed device, a device; under any other id, the device
      stored before. */
  lemma EnumerateAllStoresDevices(r: Registry, snap: Snapshot, env: Env, k: Json)
    requires Valid(r)
    ensures var st := EnumerateAll(r, snap, env);
            var devices := Listed(snap.devices);
            st.error.None? && ServicesOf(st.state.servicesByDevice, k) != []
            && (exists i | 0 <= i < |devices| :: Has(devices[i], "id") && devices[i].fields["id"] == k) ==>
              Get(st.state.devicesById, k).Some?
    ensures var st := EnumerateAll(r, snap, env);
            var devices := Listed(snap.devices);
            st.error.None?
            && (ServicesOf(st.state.servicesByDevice, k) == []
                || forall i | 0 <= i < |devices| :: !(Has(devices[i], "id") && devices[i].fields["id"] == k)) ==>
              Get(st.state.devicesById, k) == Get(r.devicesById, k)
  {
    var st := EnumerateAll(r, snap, env);
    if st.error.None? {
      var s1 := EnumerateServices(r, snap.services);
      var s2 := EnumerateDevices(s1.state, snap.devices, env);
      var s3 := EnumerateRooms(s2.state, snap.rooms);
      var s4 := EnumerateScenarios(s3.state, snap.scenarios);
      assert s1.error.None? && s2.error.None? && s3.error.None? && s4.error.None?;
      assert st == InitializeDomains(s4.state, snap.domain);
      EnumerateDevicesStores(s1.state, snap.devices, env, k);
      AddDevicesKeepsServices(s1.state, snap.devices.value.items, env, k);
      assert st.state.servicesByDevice == s2.state.servicesByDevice && st.state.devicesById == s2.state.devicesById;
    }
  }

  /** With no rooms listed, the written enumeration and the intended one
      agree. */
  lemma EnumerateAllWithoutRooms(r: Registry, snap: Snapshot, env: Env)
    requires Valid(r) && snap.rooms == Ok(JArr([]))
    ensures EnumerateAllAsWritten(r, snap, env) == EnumerateAll(r, snap, env)
  {
    var s1 := EnumerateServices(r, snap.services);
    if s1.error.None? {
      var s2 := EnumerateDevices(s1.state, snap.devices, env);
      if s2.error.None? {
        StoreByIdCompletes(s2.state.rooms, []);
        assert EnumerateRooms(s2.state, snap.rooms) == EnumerateRoomsAsWritten(s2.state, snap.rooms);
      }
    }
  }

  /** The discrepancy over the whole enumeration: once services and devices
      are read, a listing whose first room has an id makes the written
      enumeration raise without reading scenarios or the domain, while the
      intended one files the room. */
  lemma EnumerateAllDiscrepancy(r: Registry, snap: Snapshot, env: Env, room: Json)
    requires Valid(r)
    requires EnumerateServices(r, snap.services).error.None?
    requires EnumerateDevices(EnumerateServices(r, snap.services).state, snap.devices, env).error.None?
    requires Has(room, "id") && Hashable(room.fields["id"]) && snap.rooms == Ok(JArr([room]))
    ensures EnumerateAllAsWritten(r, snap, env).error == Some(TypeError("missing required argument: 'api'"))
    ensures EnumerateAllAsWritten(r, snap, env).state.scenarios == r.scenarios
    ensures room.fields["id"] in Keys(EnumerateAll(r, snap, env).state.rooms)
  {
    var s2 := EnumerateDevices(EnumerateServices(r, snap.services).state, snap.devices, env);
    RoomsDiscrepancy(s2.state, room, []);
    assert [room] + [] == [room];
  }

  lemma CollectKeepsKeys(r: Registry, fetched: Result<Json>)
    ensures Keys(r.servicesByDevice) <= Keys(EnumerateServices(r, fetched).state.servicesByDevice)
  {
  }

  /** `scenario_names`: the names in insertion order; a scenario without a
      name raises. */
  function NamesOf(scenarios: seq<Json>): (names: Result<seq<Json>>)
    ensures names.Ok? <==> forall i | 0 <= i < |scenarios| :: Has(scenarios[i], "name")
    ensures names.Ok? ==> |names.value| == |scenarios|
                          && forall i | 0 <= i < |scenarios| :: names.value[i] == scenarios[i].fields["name"]
  {
    if |scenarios| == 0 then Ok([])
    else
      assert forall i | 0 <= i < |scenarios| - 1 :: scenarios[1..][i] == scenarios[i + 1];
      var name :- Field(scenarios[0], "name");
      var rest :- NamesOf(scenarios[1..]);
      Ok([name] + rest)
  }

  function ScenarioNames(r: Registry): Result<seq<Json>> {
    NamesOf(Values(r.scenarios))
  }

  /** The room shown for a device without a room. */
  const NoRoom := JObj(map["id" := JStr("n/a"), "name" := JStr("n/a"), "iconId" := JStr("0")])

  /** `room(id)`: `None` gives the placeholder room; any other id must be
      stored. */
  function Room(r: Registry, id: Json): (room: Result<Json>)
    ensures id == JNull ==> room == Ok(NoRoom)
    ensures id != JNull ==> (room.Ok? <==> Hashable(id) && id in Keys(r.rooms))
    ensures id != JNull && room.Ok? ==> Get(r.rooms, id) == Some(room.value)
  {
    if id == JNull then Ok(NoRoom)
    else if !Hashable(id) then Fail(TypeError("unhashable type"))
    else
      match Get(r.rooms, id)
      case None => Fail(KeyError("room id"))
      case Some(room) => Ok(room)
  }

  /** `scenario(id)`. */
  function Scenario(r: Registry, id: Json): (s: Result<Json>)
    ensures s.Ok? <==> Hashable(id) && id in Keys(r.scenarios)
    ensures s.Ok? ==> Get(r.scenarios, id) == Some(s.value)
  {
    if !Hashable(id) then Fail(TypeError("unhashable type"))
    else
      match Get(r.scenarios, id)
      case None => Fail(KeyError("scenario id"))
      case Some(s) => Ok(s)
  }
}
