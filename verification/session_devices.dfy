/** The device enumeration of the session (boschshcpy/session.py): a
    device is built from its record and its filed service records, and
    stored under its id and in its model's bucket. */
module SessionDevices {
  import opened PyJson
  import opened PyDicts
  import opened Effects
  import Devices
  import DeviceServices
  import DeviceHelper
  import IntrusionDomain
  import Api
  import ServicesImpl
  import opened Session
  import opened SessionServices

  /** A device record `_add_device` and `device_init` read without
      raising. */
  predicate WellFormedDevice(raw: Json) {
    Has(raw, "id") && Hashable(raw.fields["id"]) && Has(raw, "deviceModel") && Hashable(raw.fields["deviceModel"])
  }

  /** `_add_device`: a device whose id has no supported service record is
      skipped (the lookup still leaves an empty list behind); any other is
      built by the helper, which may file it in its model's bucket, and is
      stored under its id, replacing a device stored there before. */
  function AddDevice(r: Registry, raw: Json, env: Env): (st: Step<Registry>)
    requires Valid(r)
    ensures Valid(st.state) && SameSession(r, st.state) && st.effects == []
    ensures st.state.domains == r.domains && HeapGrows(r, st.state)
    ensures Keys(r.servicesByDevice) <= Keys(st.state.servicesByDevice) && Keys(r.devicesById) <= Keys(st.state.devicesById)
    ensures forall ref | ref in r.heap :: st.state.heap[ref] == r.heap[ref]
    ensures forall k :: ServicesOf(st.state.servicesByDevice, k) == ServicesOf(r.servicesByDevice, k)
    ensures forall k | !(Has(raw, "id") && k == raw.fields["id"]) :: Get(st.state.devicesById, k) == Get(r.devicesById, k)
    ensures Has(raw, "id") && Hashable(raw.fields["id"]) && ServicesOf(r.servicesByDevice, raw.fields["id"]) == [] ==>
              st.error.None? && st.state.devicesById == r.devicesById && st.state.heap == r.heap
              && st.state.helper == r.helper
    ensures Has(raw, "id") && ServicesOf(r.servicesByDevice, raw.fields["id"]) == [] ==>
              st.state.devicesById == r.devicesById && st.state.heap == r.heap
    ensures st.error.None? && Has(raw, "id") && ServicesOf(r.servicesByDevice, raw.fields["id"]) != [] ==>
              var services := ServicesOf(r.servicesByDevice, raw.fields["id"]);
              env.makeDevice(raw, services).Ok?
              && Get(st.state.devicesById, raw.fields["id"]) == Some(r.next)
              && st.state.heap == r.heap[r.next := env.makeDevice(raw, services).value]
    ensures WellFormedDevice(raw) && env.makeDevice(raw, ServicesOf(r.servicesByDevice, raw.fields["id"])).Ok? ==>
              st.error.None?
  {
    match Field(raw, "id")
    case Fail(e) => Step(r, [], Some(e))
    case Ok(id) =>
      if !Hashable(id) then Step(r, [], Some(TypeError("unhashable type")))
      else
        var services := ServicesOf(r.servicesByDevice, id);
        var r1 := r.(servicesByDevice := Touch(r.servicesByDevice, id));
        if services == [] then Step(r1, [], None)
        else AddBuilt(r1, raw, services, env)
  }

  /** The building half of `_add_device`: the helper builds the device
      from its record and service records, possibly filing it in its
      model's bucket; once built it takes the next reference and is stored
      under its id. */
  function AddBuilt(r: Registry, raw: Json, services: seq<Json>, env: Env): (st: Step<Registry>)
    requires Valid(r) && Has(raw, "id") && Hashable(raw.fields["id"])
    ensures Valid(st.state) && SameSession(r, st.state) && st.effects == []
    ensures st.state.domains == r.domains && st.state.servicesByDevice == r.servicesByDevice && HeapGrows(r, st.state)
    ensures Keys(r.devicesById) <= Keys(st.state.devicesById)
    ensures forall ref | ref in r.heap :: st.state.heap[ref] == r.heap[ref]
    ensures forall k | k != raw.fields["id"] :: Get(st.state.devicesById, k) == Get(r.devicesById, k)
    ensures st.error.None? ==>
              env.makeDevice(raw, services).Ok?
              && Get(st.state.devicesById, raw.fields["id"]) == Some(r.next)
              && st.state.heap == r.heap[r.next := env.makeDevice(raw, services).value]
    ensures WellFormedDevice(raw) && env.makeDevice(raw, services).Ok? ==> st.error.None?
  {
    var id := raw.fields["id"];
    var mk := (x: Json) => if env.makeDevice(x, services).Ok? then Ok(r.next) else Fail(env.makeDevice(x, services).error);
    var init := DeviceHelper.DeviceInit(r.helper, raw, mk, mk);
    assert init.1.Ok? ==> init.1 == mk(raw);
    match init.1
    case Fail(e) => Step(r, [], Some(e))
    case Ok(ref) =>
      assert r.next !in r.heap;
      var heap := r.heap[r.next := env.makeDevice(raw, services).value];
      RefsInBigger(r.devicesById, r.heap, heap);
      PutKeepsRefs(r.devicesById, id, r.next, heap);
      assert forall m | m in init.0.buckets :: RefsIn(init.0.buckets[m], heap) by {
        forall m | m in init.0.buckets
          ensures RefsIn(init.0.buckets[m], heap)
        {
          RefsInBigger(r.helper.buckets[m], r.heap, heap);
          if init.0 != r.helper && m == raw.fields["deviceModel"].s {
            PutKeepsRefs(r.helper.buckets[m], id, r.next, heap);
          }
        }
      }
      Step(r.(heap := heap, next := r.next + 1, devicesById := Put(r.devicesById, id, r.next), helper := init.0), [], None)
  }

  /** `_update_device`: the stored device takes the new raw record; an id
      never stored raises `KeyError`. */
  function UpdateDevice(r: Registry, raw: Json): (st: Step<Registry>)
    requires Valid(r)
    ensures Quiet(st.effects)
    ensures Valid(st.state) && st.state == r.(heap := st.state.heap) && st.state.heap.Keys == r.heap.Keys
    ensures Has(raw, "id") && Hashable(raw.fields["id"]) && raw.fields["id"] !in Keys(r.devicesById) ==>
              st.state == r && st.error.Some? && st.error.value.KeyError?
    ensures Has(raw, "id") && Hashable(raw.fields["id"]) && raw.fields["id"] in Keys(r.devicesById) ==>
              var ref := Get(r.devicesById, raw.fields["id"]).value;
              var u := Devices.UpdateRawInformation(r.heap[ref], raw);
              st == Step(r.(heap := r.heap[ref := u.state]), u.effects, u.error)
  {
    match Field(raw, "id")
    case Fail(e) => Step(r, [], Some(e))
    case Ok(id) =>
      if !Hashable(id) then Step(r, [], Some(TypeError("unhashable type")))
      else
        match Get(r.devicesById, id)
        case None => Step(r, [], Some(KeyError("device id")))
        case Some(ref) =>
          var i := IndexOf(r.devicesById, id);
          assert r.devicesById[i].1 == ref;
          var u := Devices.UpdateRawInformation(r.heap[ref], raw);
          Step(r.(heap := r.heap[ref := u.state]), u.effects, u.error)
  }

  /** `_async_enumerate_devices`'s loop: the devices in order; the first
      that raises stops it. */
  function AddDevices(r: Registry, items: seq<Json>, env: Env): (st: Step<Registry>)
    requires Valid(r)
    ensures Valid(st.state) && SameSession(r, st.state) && st.effects == []
    ensures st.state.domains == r.domains && HeapGrows(r, st.state)
    ensures Keys(r.servicesByDevice) <= Keys(st.state.servicesByDevice)
    ensures Keys(r.devicesById) <= Keys(st.state.devicesById)
    decreases |items|
  {
    if |items| == 0 then Step(r, [], None)
    else
      var first := AddDevice(r, items[0], env);
      if first.error.Some? then first
      else AddDevices(first.state, items[1..], env)
  }

  /** A device the loop reaches whose id has no supported service record,
      or that comes before a later record with the same id, leaves the
      device stored under an id no record of a device with services
      names untouched. */
  lemma {:induction false} AddDevicesFrame(r: Registry, items: seq<Json>, env: Env, k: Json)
    requires Valid(r)
    requires forall i | 0 <= i < |items| :: !(Has(items[i], "id") && items[i].fields["id"] == k && ServicesOf(r.servicesByDevice, k) != [])
    ensures Get(AddDevices(r, items, env).state.devicesById, k) == Get(r.devicesById, k)
    ensures var st := AddDevices(r, items, env);
            Get(r.devicesById, k).Some? ==> st.state.heap[Get(r.devicesById, k).value] == r.heap[Get(r.devicesById, k).value]
    decreases |items|
  {
    if |items| > 0 {
      var first := AddDevice(r, items[0], env);
      if first.error.None? {
        assert forall i | 0 <= i < |items| - 1 :: items[1..][i] == items[i + 1];
        AddDevicesFrame(first.state, items[1..], env, k);
        if Get(r.devicesById, k).Some? {
          var i := IndexOf(r.devicesById, k);
          assert r.devicesById[i].1 in r.heap;
        }
      }
    }
  }

  /** Adding devices never changes the service records of any id. */
  lemma {:induction false} AddDevicesKeepsServices(r: Registry, items: seq<Json>, env: Env, k: Json)
    requires Valid(r)
    ensures ServicesOf(AddDevices(r, items, env).state.servicesByDevice, k) == ServicesOf(r.servicesByDevice, k)
    decreases |items|
  {
    if |items| > 0 {
      var first := AddDevice(r, items[0], env);
      if first.error.None? {
        AddDevicesKeepsServices(first.state, items[1..], env, k);
      }
    }
  }

  /** Every device record with a supported service whose id no later
      record repeats ends up stored under its id, as the device built from
      that record and its service records: the last record for an id
      wins. */
  lemma {:induction false} AddDevicesStores(r: Registry, items: seq<Json>, env: Env, i: nat)
    requires Valid(r)
    requires i < |items| && Has(items[i], "id") && ServicesOf(r.servicesByDevice, items[i].fields["id"]) != []
    requires forall j | i < j < |items| :: !(Has(items[j], "id") && items[j].fields["id"] == items[i].fields["id"])
    ensures var st := AddDevices(r, items, env);
            var id := items[i].fields["id"];
            st.error.None? ==>
              Get(st.state.devicesById, id).Some?
              && Get(st.state.devicesById, id).value in st.state.heap
              && env.makeDevice(items[i], ServicesOf(r.servicesByDevice, id)).Ok?
              && st.state.heap[Get(st.state.devicesById, id).value] == env.makeDevice(items[i], ServicesOf(r.servicesByDevice, id)).value
    decreases |items|
  {
    var first := AddDevice(r, items[0], env);
    var id := items[i].fields["id"];
    assert forall j | 0 <= j < |items| - 1 :: items[1..][j] == items[j + 1];
    if first.error.None? {
      if i == 0 {
        AddDevicesFrame(first.state, items[1..], env, id);
        var st := AddDevices(r, items, env);
        assert Get(st.state.devicesById, id) == Some(r.next);
        assert st.state.heap[r.next] == first.state.heap[r.next];
      } else {
        AddDevicesStores(first.state, items[1..], env, i - 1);
      }
    }
  }

  /** The loop completes when every record names a hashable id and model
      and the helper builds every device that has service records. */
  lemma {:induction false} AddDevicesCompletes(r: Registry, items: seq<Json>, env: Env)
    requires Valid(r)
    requires forall i | 0 <= i < |items| ::
               WellFormedDevice(items[i]) && env.makeDevice(items[i], ServicesOf(r.servicesByDevice, items[i].fields["id"])).Ok?
    ensures AddDevices(r, items, env).error.None?
    decreases |items|
  {
    if |items| > 0 {
      var first := AddDevice(r, items[0], env);
      assert forall j | 0 <= j < |items| - 1 :: items[1..][j] == items[j + 1];
      AddDevicesCompletes(first.state, items[1..], env);
    }
  }

  /** `_async_enumerate_devices`: the device list is fetched and each device
      is added in order. */
  function EnumerateDevices(r: Registry, fetched: Result<Json>, env: Env): (st: Step<Registry>)
    requires Valid(r)
    ensures Valid(st.state) && SameSession(r, st.state) && st.effects == []
    ensures st.state.domains == r.domains && Keys(r.devicesById) <= Keys(st.state.devicesById)
    ensures Keys(r.servicesByDevice) <= Keys(st.state.servicesByDevice)
    ensures !(fetched.Ok? && fetched.value.JArr?) ==> st.state == r && st.error.Some?
    ensures fetched.Ok? && fetched.value.JArr? ==> st == AddDevices(r, fetched.value.items, env)
  {
    match fetched
    case Fail(e) => Step(r, [], Some(e))
    case Ok(raw) =>
      match Elements(raw)
      case Fail(e) => Step(r, [], Some(e))
      case Ok(items) => AddDevices(r, items, env)
  }

  /** What a completed device enumeration stores: the device built from the
      last record of each id that has service records, and under every
      other id exactly what was stored before. */
  lemma EnumerateDevicesStores(r: Registry, fetched: Result<Json>, env: Env, k: Json)
    requires Valid(r)
    ensures var st := EnumerateDevices(r, fetched, env);
            st.error.None? ==> fetched.Ok? && fetched.value.JArr?
    ensures var st := EnumerateDevices(r, fetched, env);
            st.error.None? && ServicesOf(r.servicesByDevice, k) != []
            && (exists i | 0 <= i < |fetched.value.items| :: Has(fetched.value.items[i], "id") && fetched.value.items[i].fields["id"] == k) ==>
              Get(st.state.devicesById, k).Some?
    ensures var st := EnumerateDevices(r, fetched, env);
            (ServicesOf(r.servicesByDevice, k) == []
             || (fetched.Ok? && fetched.value.JArr?
                 && forall i | 0 <= i < |fetched.value.items| :: !(Has(fetched.value.items[i], "id") && fetched.value.items[i].fields["id"] == k))) ==>
              Get(st.state.devicesById, k) == Get(r.devicesById, k)
  {
    if fetched.Ok? && fetched.value.JArr? {
      var items := fetched.value.items;
      if ServicesOf(r.servicesByDevice, k) == [] || forall i | 0 <= i < |items| :: !(Has(items[i], "id") && items[i].fields["id"] == k) {
        AddDevicesFrame(r, items, env, k);
      }
      if AddDevices(r, items, env).error.None? && ServicesOf(r.servicesByDevice, k) != []
         && exists i | 0 <= i < |items| :: Has(items[i], "id") && items[i].fields["id"] == k {
        var i :| 0 <= i < |items| && Has(items[i], "id") && items[i].fields["id"] == k;
        i := LastWithId(items, i);
        AddDevicesStores(r, items, env, i);
      }
    }
  }

  /** The last position at or after `i` whose record has `i`'s id. */
  function LastWithId(items: seq<Json>, i: nat): (j: nat)
    requires i < |items| && Has(items[i], "id")
    ensures i <= j < |items| && Has(items[j], "id") && items[j].fields["id"] == items[i].fields["id"]
    ensures forall l | j < l < |items| :: !(Has(items[l], "id") && items[l].fields["id"] == items[i].fields["id"])
    decreases |items| - i
  {
    if exists l | i < l < |items| :: Has(items[l], "id") && items[l].fields["id"] == items[i].fields["id"] then
      var l :| i < l < |items| && Has(items[l], "id") && items[l].fields["id"] == items[i].fields["id"];
      LastWithId(items, l)
    else i
  }
}
