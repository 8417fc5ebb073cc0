/** The session (boschshcpy/session.py): the registry of services, devices,
    rooms, scenarios and the intrusion domain, its invariant, and the
    freshly constructed session. Routing, enumeration, polling and the
    queries live in the SessionServices, SessionDevices, SessionRecords,
    SessionRouting, SessionEnumerate and SessionPolling modules.

    The network is abstracted: every call to the controller is replaced by
    its decoded outcome, passed in as a parameter, and the request itself
    appears as a `Sent` effect. */
module Session {
  import opened PyJson
  import opened PyDicts
  import opened Effects
  import Devices
  import DeviceServices
  import DeviceHelper
  import IntrusionDomain
  import Api
  import ServicesImpl

  /** A reference to a device object. The session's id map and the helper's
      model buckets hold the same objects, so an update made through one is
      seen through the other; the heap makes that sharing explicit. */
  type Ref = nat

  /** The collaborators the session calls besides the controller: the device
      constructor the helper applies to a raw device and its service
      records, and `json.loads`. */
  datatype Env = Env(makeDevice: (Json, seq<Json>) -> Result<Devices.Device>, loads: Json -> Result<Json>)

  /** `services_by_device_id`: each device id's service records. */
  type ServiceLists = PyDict<Json, seq<Json>>

  /** The rooms and the scenarios, each stored under its id. */
  type RecordsById = PyDict<Json, Json>

  datatype Registry = Registry(
    heap: map<Ref, Devices.Device>,
    next: Ref,
    servicesByDevice: ServiceLists,
    devicesById: PyDict<Json, Ref>,
    helper: DeviceHelper.Helper<Ref>,
    rooms: RecordsById,
    scenarios: RecordsById,
    domains: PyDict<string, IntrusionDomain.Intrusion>,
    pollId: Json,
    scenarioCallback: Option<Callback>,
    polling: bool,
    stopFlag: bool)

  predicate RefsIn<K(==, !new)>(d: PyDict<K, Ref>, heap: map<Ref, Devices.Device>) {
    forall i | 0 <= i < |d| :: d[i].1 in heap
  }

  /** Every reference the registry holds points into the heap, and `next`
      is fresh. */
  predicate Valid(r: Registry) {
    DeviceHelper.Valid(r.helper)
    && RefsIn(r.devicesById, r.heap)
    && (forall m | m in r.helper.buckets :: RefsIn(r.helper.buckets[m], r.heap))
    && (forall ref | ref in r.heap :: ref < r.next)
  }

  /** The parts of the session that record routing never touches. */
  predicate SameSession(a: Registry, b: Registry) {
    a.rooms == b.rooms && a.scenarios == b.scenarios && a.pollId == b.pollId
    && a.scenarioCallback == b.scenarioCallback && a.polling == b.polling && a.stopFlag == b.stopFlag
  }

  /** Effects that send nothing to the controller: routing a record only
      runs callbacks. */
  predicate Quiet(fx: seq<Effect>) {
    forall e | e in fx :: !e.Sent?
  }

  /** No device object disappears and none is changed behind the registry's
      back. */
  predicate HeapGrows(a: Registry, b: Registry) {
    forall ref | ref in a.heap :: ref in b.heap
  }

  lemma PutKeepsRefs<K(!new)>(d: PyDict<K, Ref>, k: K, v: Ref, heap: map<Ref, Devices.Device>)
    requires RefsIn(d, heap) && v in heap
    ensures RefsIn(Put(d, k, v), heap)
  {
    var p := Put(d, k, v);
    forall i | 0 <= i < |p|
      ensures p[i].1 in heap
    {
      var key := p[i].0;
      assert Get(p, key) == Some(p[i].1);
      if key != k {
        var j := IndexOf(d, key);
        assert Get(d, key) == Some(d[j].1);
      }
    }
  }

  lemma PopKeepsRefs<K(!new)>(d: PyDict<K, Ref>, k: K, heap: map<Ref, Devices.Device>)
    requires RefsIn(d, heap)
    ensures RefsIn(Pop(d, k), heap)
  {
    var p := Pop(d, k);
    forall i | 0 <= i < |p|
      ensures p[i].1 in heap
    {
      var key := p[i].0;
      assert Get(p, key) == Some(p[i].1);
      var j := IndexOf(d, key);
      assert Get(d, key) == Some(d[j].1);
    }
  }

  lemma RefsInBigger<K(!new)>(d: PyDict<K, Ref>, heap: map<Ref, Devices.Device>, heap': map<Ref, Devices.Device>)
    requires RefsIn(d, heap) && heap.Keys <= heap'.Keys
    ensures RefsIn(d, heap')
  {
  }

  /** `SHCSession(...)`: empty maps, a helper with an empty bucket per
      supported model, no poll id, no callback, no polling thread. */
  function New(supported: set<string>): (r: Registry)
    ensures Valid(r) && r.helper.supported == supported
    ensures r.devicesById == [] && r.servicesByDevice == [] && r.rooms == [] && r.scenarios == [] && r.domains == []
    ensures r.pollId == JNull && r.scenarioCallback.None? && !r.polling && !r.stopFlag
  {
    Registry(map[], 0, [], [], DeviceHelper.Init(supported), [], [], [], JNull, None, false, false)
  }
}
