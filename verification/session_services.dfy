/** The service enumeration of the session (boschshcpy/session.py):
    every service record the controller lists is filed under the device
    it names, in the order listed. */
module SessionServices {
  import opened PyJson
  import opened PyDicts
  import opened Effects
  import Devices
  import DeviceServices
  import DeviceHelper
  import IntrusionDomain
  import Api
  import ServicesImpl
  import opened Session

  /** `services_by_device_id[id]` read through the `defaultdict`: an id
      never seen reads as the empty list. */
  function ServicesOf(m: ServiceLists, id: Json): (l: seq<Json>)
    ensures id !in Keys(m) ==> l == []
    ensures Get(m, id).Some? ==> l == Get(m, id).value
  {
    match Get(m, id)
    case None => []
    case Some(l) => l
  }

  /** The same lookup as a statement: it inserts the empty list under an
      id never seen, and what every id reads as does not change. */
  function Touch(m: ServiceLists, id: Json): (r: ServiceLists)
    ensures Keys(r) == Keys(m) + {id}
    ensures forall k :: ServicesOf(r, k) == ServicesOf(m, k)
  {
    if id in Keys(m) then m else Put(m, id, [])
  }

  /** `services_by_device_id[id].append(svc)`. */
  function Append(m: ServiceLists, id: Json, svc: Json): (r: ServiceLists)
    ensures Keys(r) == Keys(m) + {id}
    ensures forall k :: ServicesOf(r, k) == ServicesOf(m, k) + (if k == id then [svc] else [])
  {
    Put(m, id, ServicesOf(m, id) + [svc])
  }

  /** A service record the enumeration keeps: its id is supported and it
      names its device. */
  predicate Kept(svc: Json) {
    Has(svc, "id") && svc.fields["id"].JStr? && svc.fields["id"].s in ServicesImpl.SupportedServiceIds
    && Has(svc, "deviceId")
  }

  /** A service record the enumeration reads without raising. */
  predicate WellFormedService(svc: Json) {
    Has(svc, "id") && Hashable(svc.fields["id"])
    && (svc.fields["id"].JStr? && svc.fields["id"].s in ServicesImpl.SupportedServiceIds ==>
          Has(svc, "deviceId") && Hashable(svc.fields["deviceId"]))
  }

  /** Reference definition: the kept records of device `id`, in input
      order. */
  function KeptFor(items: seq<Json>, id: Json): seq<Json> {
    if |items| == 0 then []
    else (if Kept(items[0]) && items[0].fields["deviceId"] == id then [items[0]] else []) + KeptFor(items[1..], id)
  }

  /** The loop of `_async_enumerate_services`: a record with an unsupported
      id is skipped; a supported one is appended to the list of its device.
      A record that raises stops the loop, keeping what was appended. */
  function CollectServices(m: ServiceLists, items: seq<Json>): (r: (ServiceLists, Option<Error>))
    ensures Keys(m) <= Keys(r.0)
    decreases |items|
  {
    if |items| == 0 then (m, None)
    else
      var svc := items[0];
      match Field(svc, "id")
      case Fail(e) => (m, Some(e))
      case Ok(sid) =>
        if !Hashable(sid) then (m, Some(TypeError("unhashable type")))
        else if !(sid.JStr? && sid.s in ServicesImpl.SupportedServiceIds) then CollectServices(m, items[1..])
        else
          match Field(svc, "deviceId")
          case Fail(e) => (m, Some(e))
          case Ok(did) =>
            if !Hashable(did) then (m, Some(TypeError("unhashable type")))
            else CollectServices(Append(m, did, svc), items[1..])
  }

  /** The service loop completes iff every record can be read: it has a
      hashable id, and a supported one names a hashable device id. */
  lemma {:induction false} CollectServicesCompletes(m: ServiceLists, items: seq<Json>)
    ensures CollectServices(m, items).1.None? <==> forall i | 0 <= i < |items| :: WellFormedService(items[i])
    decreases |items|
  {
    if |items| > 0 {
      var svc := items[0];
      assert forall i | 0 <= i < |items| - 1 :: items[1..][i] == items[i + 1];
      if WellFormedService(svc) {
        var next := if Kept(svc) then Append(m, svc.fields["deviceId"], svc) else m;
        assert CollectServices(m, items) == CollectServices(next, items[1..]);
        CollectServicesCompletes(next, items[1..]);
      }
    }
  }

  lemma SeqAssoc<T>(a: seq<T>, b: seq<T>, c: seq<T>)
    ensures a + b + c == a + (b + c)
  {
  }

  /** What one kept or skipped record leaves of the lists. */
  function Collected(m: ServiceLists, svc: Json): ServiceLists {
    if Kept(svc) then Append(m, svc.fields["deviceId"], svc) else m
  }

  /** One step of a complete enumeration: a kept record is appended under
      its device, any other is skipped. */
  lemma CollectServicesStep(m: ServiceLists, items: seq<Json>)
    requires |items| > 0 && WellFormedService(items[0])
    ensures CollectServices(m, items) == CollectServices(Collected(m, items[0]), items[1..])
  {
  }

  /** One step of the reference: the first record moves from the kept
      records still to come onto the device's list. */
  lemma {:induction false} KeptForStep(m: ServiceLists, items: seq<Json>, id: Json)
    requires |items| > 0
    ensures ServicesOf(Collected(m, items[0]), id) + KeptFor(items[1..], id) == ServicesOf(m, id) + KeptFor(items, id)
  {
    var svc := items[0];
    var mine: seq<Json> := if Kept(svc) && svc.fields["deviceId"] == id then [svc] else [];
    assert ServicesOf(Collected(m, svc), id) == ServicesOf(m, id) + mine;
    assert KeptFor(items, id) == mine + KeptFor(items[1..], id);
    SeqAssoc(ServicesOf(m, id), mine, KeptFor(items[1..], id));
  }

  /** After a complete enumeration every device's list is what it was,
      followed by its kept records in input order. */
  lemma {:induction false} CollectServicesMatchesReference(m: ServiceLists, items: seq<Json>, id: Json)
    requires forall i | 0 <= i < |items| :: WellFormedService(items[i])
    ensures ServicesOf(CollectServices(m, items).0, id) == ServicesOf(m, id) + KeptFor(items, id)
    decreases |items|
  {
    if |items| > 0 {
      CollectServicesStep(m, items);
      assert forall i | 0 <= i < |items| - 1 :: items[1..][i] == items[i + 1];
      CollectServicesMatchesReference(Collected(m, items[0]), items[1..], id);
      KeptForStep(m, items, id);
    }
  }

  /** `_async_enumerate_services`. */
  function EnumerateServices(r: Registry, fetched: Result<Json>): (st: Step<Registry>)
    ensures st.state == r.(servicesByDevice := st.state.servicesByDevice) && st.effects == []
    ensures fetched.Ok? && fetched.value.JArr? ==>
              (st.error.None? <==> forall i | 0 <= i < |fetched.value.items| :: WellFormedService(fetched.value.items[i]))
    ensures fetched.Ok? && st.error.None? ==>
              fetched.value.JArr?
              && forall id :: ServicesOf(st.state.servicesByDevice, id) == ServicesOf(r.servicesByDevice, id) + KeptFor(fetched.value.items, id)
  {
    match fetched
    case Fail(e) => Step(r, [], Some(e))
    case Ok(raw) =>
      match Elements(raw)
      case Fail(e) => Step(r, [], Some(e))
      case Ok(items) =>
        var c := CollectServices(r.servicesByDevice, items);
        CollectServicesCompletes(r.servicesByDevice, items);
        if c.1.None? then
          forall id ensures ServicesOf(c.0, id) == ServicesOf(r.servicesByDevice, id) + KeptFor(items, id) {
            CollectServicesMatchesReference(r.servicesByDevice, items, id);
          }
          Step(r.(servicesByDevice := c.0), [], None)
        else Step(r.(servicesByDevice := c.0), [], c.1)
  }
}
