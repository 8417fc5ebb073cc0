/** The legacy push router (BoschShcPy/subscribe.py): entities register
    under their device id, and every record the long poll delivers goes
    to each entity registered under the record's device id, followed by
    that entity's callbacks. The polling thread is modelled one loop pass
    at a time; the request replies are inputs. */
module LegacySubscribe {
  import opened PyJson
  import opened PyDicts
  import opened Effects
  import opened LegacyBase
  import LegacyShutterControl
  import LegacyShutterContact
  import LegacySmokeDetector
  import LegacyCameraEyes
  import LegacyIntrusionDetection
  import LegacySmartPlug
  import LegacyShcInformation

  /** The entity classes of the legacy package. */
  datatype Kind =
    | ShutterControl | ShutterContact | SmokeDetector | CameraEyes
    | IntrusionDetection | SmartPlug | ShcInformation | Device

  datatype Entity = Entity(kind: Kind, attrs: Obj)

  function AttributesOf(k: Kind): set<string> {
    match k
    case ShutterControl => LegacyShutterControl.Attributes
    case ShutterContact => LegacyShutterContact.Attributes
    case SmokeDetector => LegacySmokeDetector.Attributes
    case CameraEyes => LegacyCameraEyes.Attributes
    case IntrusionDetection => LegacyIntrusionDetection.Attributes
    case SmartPlug => LegacySmartPlug.Attributes
    case ShcInformation => LegacyShcInformation.Attributes
    case Device => DeviceAttributes
  }

  /** An entity holds exactly the attributes its class gives it. */
  predicate ValidEntity(e: Entity) {
    e.attrs.Keys == AttributesOf(e.kind)
  }

  /** `entity.update_from_query(record)` for each class; the classes that
      do not override it inherit the base class's, which raises. */
  function UpdateFromQuery(e: Entity, q: Json): (out: Outcome)
    requires ValidEntity(e)
    ensures out.effects == [] && out.obj.Keys == e.attrs.Keys
    ensures e.kind in {IntrusionDetection, SmartPlug, Device} ==> out == Outcome(e.attrs, [], Fail(NotImplemented))
  {
    match e.kind
    case ShutterControl => LegacyShutterControl.UpdateFromQuery(e.attrs, q)
    case ShutterContact => LegacyShutterContact.UpdateFromQuery(e.attrs, q)
    case SmokeDetector => LegacySmokeDetector.UpdateFromQuery(e.attrs, q)
    case CameraEyes => LegacyCameraEyes.UpdateFromQuery(e.attrs, q)
    case ShcInformation => LegacyShcInformation.UpdateFromQuery(e.attrs, q)
    case _ => Outcome(e.attrs, [], Fail(NotImplemented))
  }

  /** The entities by reference: the object identity the callback table is
      keyed by. */
  type Ref = Token

  /** The router: the entities it reaches, the entities registered under
      each device id and the callbacks of each entity, both in registration
      order, the exit flag of the polling loop and the subscription the
      controller granted, if any. */
  datatype Subscription = Subscription(
    heap: map<Ref, Entity>,
    devices: PyDict<Json, seq<Ref>>,
    callbacks: PyDict<Ref, seq<Callback>>,
    exiting: bool,
    pollingService: Option<Obj>)

  predicate Valid(s: Subscription) {
    && (forall r | r in s.heap :: ValidEntity(s.heap[r]))
    && (forall id | id in Keys(s.devices) :: forall r | r in RefsOf(s, id) :: r in s.heap)
  }

  /** `Subscription(client)` over the given entities: nothing registered,
      not exiting, not subscribed. */
  function New(heap: map<Ref, Entity>): (s: Subscription)
    requires forall r | r in heap :: ValidEntity(heap[r])
    ensures Valid(s) && s.heap == heap && Keys(s.devices) == {} && Keys(s.callbacks) == {}
    ensures !s.exiting && s.pollingService.None?
  {
    Subscription(heap, [], [], false, None)
  }

  /** `registered_devices.get(id, ())`. */
  function RefsOf(s: Subscription, id: Json): seq<Ref> {
    match Get(s.devices, id)
    case None => []
    case Some(refs) => refs
  }

  /** `registered_callbacks.get(entity, ())`. */
  function CallbacksIn(callbacks: PyDict<Ref, seq<Callback>>, r: Ref): seq<Callback> {
    match Get(callbacks, r)
    case None => []
    case Some(cbs) => cbs
  }

  function CallbacksOf(s: Subscription, r: Ref): seq<Callback> {
    CallbacksIn(s.callbacks, r)
  }

  /** `register(entity, callback)`: the entity is appended under its id
      and the callback under the entity, so registering twice delivers
      twice. An entity without an `id` attribute, or whose id cannot be a
      dict key, raises before anything is recorded. */
  function Register(s: Subscription, r: Ref, cb: Callback): (res: Result<Subscription>)
    requires Valid(s) && r in s.heap
    ensures res.Ok? <==> "id" in s.heap[r].attrs && Hashable(s.heap[r].attrs["id"])
    ensures res.Ok? ==> var id := s.heap[r].attrs["id"];
              && Valid(res.value) && res.value.heap == s.heap
              && res.value.exiting == s.exiting && res.value.pollingService == s.pollingService
              && RefsOf(res.value, id) == RefsOf(s, id) + [r]
              && (forall id' | id' != id :: RefsOf(res.value, id') == RefsOf(s, id'))
              && CallbacksOf(res.value, r) == CallbacksOf(s, r) + [cb]
              && (forall r' | r' != r :: CallbacksOf(res.value, r') == CallbacksOf(s, r'))
  {
    var e := s.heap[r];
    if "id" !in e.attrs then Fail(AttributeError("object has no attribute 'id'"))
    else if !Hashable(e.attrs["id"]) then Fail(TypeError("unhashable type"))
    else
      var id := e.attrs["id"];
      var devices := Put(s.devices, id, RefsOf(s, id) + [r]);
      var callbacks := Put(s.callbacks, r, CallbacksOf(s, r) + [cb]);
      var s' := s.(devices := devices, callbacks := callbacks);
      assert forall id' | id' != id :: Get(devices, id') == Get(s.devices, id');
      Ok(s')
  }

  /** Registering an entity twice lists it twice, with both callbacks. */
  lemma RegisterTwice(s: Subscription, r: Ref, cb1: Callback, cb2: Callback)
    requires Valid(s) && r in s.heap && "id" in s.heap[r].attrs && Hashable(s.heap[r].attrs["id"])
    ensures var s2 := Register(Register(s, r, cb1).value, r, cb2).value;
            var id := s.heap[r].attrs["id"];
            RefsOf(s2, id) == RefsOf(s, id) + [r, r] && CallbacksOf(s2, r) == CallbacksOf(s, r) + [cb1, cb2]
  {
    var id := s.heap[r].attrs["id"];
    assert RefsOf(s, id) + [r] + [r] == RefsOf(s, id) + [r, r];
    assert CallbacksOf(s, r) + [cb1] + [cb2] == CallbacksOf(s, r) + [cb1, cb2];
  }

  /** Running each callback of an entity once, in registration order; a
      raising callback is swallowed, so every one of them runs. */
  function CallbackEffects(r: Ref, cbs: seq<Callback>): (fx: seq<Effect>)
    ensures |fx| == |cbs|
    ensures forall i | 0 <= i < |cbs| :: fx[i] == Notified(r, cbs[i])
  {
    seq(|cbs|, i requires 0 <= i < |cbs| => Notified(r, cbs[i]))
  }

  /** `event_device(entity, record)`: the entity takes the record first; if
      that raises, the exception escapes and no callback runs. Otherwise
      every callback of the entity runs. */
  function EventDevice(s: Subscription, r: Ref, q: Json): (st: Step<Subscription>)
    requires Valid(s) && r in s.heap
    ensures Valid(st.state)
    ensures st.state == s.(heap := s.heap[r := Entity(s.heap[r].kind, UpdateFromQuery(s.heap[r], q).obj)])
    ensures UpdateFromQuery(s.heap[r], q).result.Fail? ==> st.effects == [] && st.error == Some(UpdateFromQuery(s.heap[r], q).result.error)
    ensures UpdateFromQuery(s.heap[r], q).result.Ok? ==> st.effects == CallbackEffects(r, CallbacksOf(s, r)) && st.error.None?
  {
    var e := s.heap[r];
    var out := UpdateFromQuery(e, q);
    var s' := s.(heap := s.heap[r := Entity(e.kind, out.obj)]);
    if out.result.Fail? then Step(s', [], Some(out.result.error))
    else Step(s', CallbackEffects(r, CallbacksOf(s, r)), None)
  }

  /** `event_device` for each registered entity in turn; the first
      exception stops the run. */
  function EventDevices(s: Subscription, refs: seq<Ref>, q: Json): (st: Step<Subscription>)
    requires Valid(s) && forall r | r in refs :: r in s.heap
    ensures Valid(st.state) && st.state.heap.Keys == s.heap.Keys
    ensures st.state.devices == s.devices && st.state.callbacks == s.callbacks
    ensures st.state.exiting == s.exiting && st.state.pollingService == s.pollingService
    ensures forall r | r in s.heap && r !in refs :: st.state.heap[r] == s.heap[r]
    decreases |refs|
  {
    if |refs| == 0 then Step(s, [], None)
    else
      var first := EventDevice(s, refs[0], q);
      if first.error.Some? then first
      else
        assert forall r | r in refs[1..] :: r in refs;
        var rest := EventDevices(first.state, refs[1..], q);
        Step(rest.state, first.effects + rest.effects, rest.error)
  }

  /** The callbacks a delivery to `refs` runs, entity by entity. */
  function Delivered(callbacks: PyDict<Ref, seq<Callback>>, refs: seq<Ref>): seq<Effect>
    decreases |refs|
  {
    if |refs| == 0 then [] else CallbackEffects(refs[0], CallbacksIn(callbacks, refs[0])) + Delivered(callbacks, refs[1..])
  }

  /** Distinct entities that each take the record without raising: every
      one of them is updated and runs its callbacks, in registration
      order. */
  lemma {:induction false} EventDevicesNotifies(s: Subscription, refs: seq<Ref>, q: Json)
    requires Valid(s) && forall r | r in refs :: r in s.heap
    requires forall i, j | 0 <= i < j < |refs| :: refs[i] != refs[j]
    requires forall r | r in refs :: UpdateFromQuery(s.heap[r], q).result.Ok?
    ensures EventDevices(s, refs, q).error.None?
    ensures EventDevices(s, refs, q).effects == Delivered(s.callbacks, refs)
    ensures forall r | r in refs :: EventDevices(s, refs, q).state.heap[r] == Entity(s.heap[r].kind, UpdateFromQuery(s.heap[r], q).obj)
    decreases |refs|
  {
    if |refs| > 0 {
      var first := EventDevice(s, refs[0], q);
      var s1 := first.state;
      var rest := refs[1..];
      assert forall r | r in rest :: r in refs && r != refs[0] by {
        forall r | r in rest ensures r in refs && r != refs[0] {
          var j :| 0 <= j < |rest| && rest[j] == r;
          assert refs[j + 1] == r;
        }
      }
      assert forall i, j | 0 <= i < j < |rest| :: rest[i] != rest[j] by {
        forall i, j | 0 <= i < j < |rest| ensures rest[i] != rest[j] {
          assert rest[i] == refs[i + 1] && rest[j] == refs[j + 1];
        }
      }
      EventDevicesNotifies(s1, rest, q);
      var tail := EventDevices(s1, rest, q);
      assert EventDevices(s, refs, q) == Step(tail.state, first.effects + tail.effects, tail.error);
      assert Delivered(s.callbacks, refs) == first.effects + Delivered(s1.callbacks, rest);
      forall r | r in refs
        ensures tail.state.heap[r] == Entity(s.heap[r].kind, UpdateFromQuery(s.heap[r], q).obj)
      {
        if r == refs[0] {
          assert r !in rest;
        } else {
          assert r in rest && s1.heap[r] == s.heap[r];
        }
      }
    }
  }

  /** The device id a pushed record is for: a service record names it in
      `deviceId`, a device record in `id`; any other record, or one
      without a type, is for no one. */
  function Target(q: Json): (r: Result<Option<Json>>)
    ensures Has(q, "@type") && q.fields["@type"] == JStr("DeviceServiceData") ==>
              r == (if Has(q, "deviceId") then Ok(Some(q.fields["deviceId"])) else Fail(KeyError("deviceId")))
    ensures Has(q, "@type") && q.fields["@type"] == JStr("device") ==>
              r == (if Has(q, "id") then Ok(Some(q.fields["id"])) else Fail(KeyError("id")))
    ensures q.JObj? && !(Has(q, "@type") && q.fields["@type"] in {JStr("DeviceServiceData"), JStr("device")}) ==> r == Ok(None)
  {
    var typed :- PyIn("@type", q);
    if typed && q.JObj? && q.fields["@type"] == JStr("DeviceServiceData") then
      var id :- Field(q, "deviceId");
      Ok(Some(id))
    else if typed && q.JObj? && q.fields["@type"] == JStr("device") then
      var id :- Field(q, "id");
      Ok(Some(id))
    else if typed && !q.JObj? then Fail(TypeError("indices must be integers"))
    else Ok(None)
  }

  /** `event(record)`: delivered to every entity registered under the
      record's device id, in registration order. */
  function Event(s: Subscription, q: Json): (st: Step<Subscription>)
    requires Valid(s)
    ensures Valid(st.state) && st.state.heap.Keys == s.heap.Keys
    ensures st.state.devices == s.devices && st.state.callbacks == s.callbacks
    ensures st.state.exiting == s.exiting && st.state.pollingService == s.pollingService
    ensures Target(q) == Ok(None) ==> st == Step(s, [], None)
    ensures Target(q).Ok? && Target(q).value.Some? && Hashable(Target(q).value.value) ==>
              st == EventDevices(s, RefsOf(s, Target(q).value.value), q)
    ensures Target(q).Ok? && Target(q).value.Some? ==>
              forall r | r in s.heap && r !in RefsOf(s, Target(q).value.value) :: st.state.heap[r] == s.heap[r]
  {
    match Target(q)
    case Fail(e) => Step(s, [], Some(e))
    case Ok(None) => Step(s, [], None)
    case Ok(Some(id)) =>
      if !Hashable(id) then Step(s, [], Some(TypeError("unhashable type")))
      else EventDevices(s, RefsOf(s, id), q)
  }

  /** A record for a device id nobody registered changes nothing, unless
      the id cannot be looked up at all. */
  lemma UnregisteredIgnored(s: Subscription, q: Json)
    requires Valid(s) && Target(q).Ok? && Target(q).value.Some?
    requires Target(q).value.value !in Keys(s.devices)
    ensures Hashable(Target(q).value.value) ==> Event(s, q) == Step(s, [], None)
    ensures !Hashable(Target(q).value.value) ==> Event(s, q).state == s && Event(s, q).error.Some?
  {
  }

  /** The JSON-RPC envelope of the legacy client's requests. */
  function Envelope(rpc: string, params: seq<Json>): Json {
    JArr([JObj(map["jsonrpc" := JStr("2.0"), "method" := JStr(rpc), "id" := JStr("boschshcpy"), "params" := JArr(params)])])
  }

  const RpcPath := "remote/json-rpc"

  /** The attributes of the polling service record. */
  const PollingAttributes: set<string> := {"id", "result", "jsonrpc"}

  function NewPollingService(): (o: Obj)
    ensures o.Keys == PollingAttributes && forall n | n in o :: o[n] == JNull
  {
    map["id" := JNull, "result" := JNull, "jsonrpc" := JNull]
  }

  /** `subscribe_polling()`: the controller's answer is loaded into a
      fresh polling service record. */
  function SubscribePolling(s: Subscription, reply: Result<Json>): (st: Step<Subscription>)
    ensures st.effects == [Sent(ClientCall("POST", RpcPath, Envelope("RE/subscribe", [JStr("com/bosch/sh/remote/*"), JNull])))]
    ensures st.error.None? <==> reply.Ok? && Load(NewPollingService(), reply.value).error.None?
    ensures st.error.None? ==> st.state == s.(pollingService := Some(Load(NewPollingService(), reply.value).state))
    ensures st.error.Some? ==> st.state == s
  {
    var sent := [Sent(ClientCall("POST", RpcPath, Envelope("RE/subscribe", [JStr("com/bosch/sh/remote/*"), JNull])))];
    match reply
    case Fail(e) => Step(s, sent, Some(e))
    case Ok(answer) =>
      var loaded := Load(NewPollingService(), answer);
      if loaded.error.Some? then Step(s, sent, loaded.error)
      else Step(s.(pollingService := Some(loaded.state)), sent, None)
  }

  /** `start()`: subscribes only when there is no subscription yet; the
      polling thread it then starts is not modelled. */
  function Start(s: Subscription, reply: Result<Json>): (st: Step<Subscription>)
    ensures s.pollingService.Some? ==> st == Step(s, [], None)
    ensures s.pollingService.None? ==> st == SubscribePolling(s, reply)
    ensures st.state.heap == s.heap && st.state.devices == s.devices && st.state.callbacks == s.callbacks
  {
    if s.pollingService.Some? then Step(s, [], None) else SubscribePolling(s, reply)
  }

  /** `unsubscribe_polling()`: the subscription id goes back to the
      controller and the subscription is dropped; without a subscription
      there is no id to send. */
  function UnsubscribePolling(s: Subscription, reply: Result<Json>): (st: Step<Subscription>)
    ensures s.pollingService.None? ==> st == Step(s, [], Some(AttributeError("'NoneType' object has no attribute 'result'")))
    ensures s.pollingService.Some? && "result" in s.pollingService.value ==>
              st.effects == [Sent(ClientCall("POST", RpcPath, Envelope("RE/unsubscribe", [s.pollingService.value["result"]])))]
    ensures st.error.None? <==> s.pollingService.Some? && "result" in s.pollingService.value && reply.Ok?
    ensures st.error.None? ==> st.state == s.(pollingService := None)
    ensures st.error.Some? ==> st.state == s
  {
    if s.pollingService.None? || "result" !in s.pollingService.value then
      Step(s, [], Some(AttributeError("'NoneType' object has no attribute 'result'")))
    else
      var sent := [Sent(ClientCall("POST", RpcPath, Envelope("RE/unsubscribe", [s.pollingService.value["result"]])))];
      if reply.Fail? then Step(s, sent, Some(reply.error))
      else Step(s.(pollingService := None), sent, None)
  }

  /** `stop()`: the exit flag is set before unsubscribing, so it stays set
      even when unsubscribing raises; joining the thread is not modelled. */
  function Stop(s: Subscription, reply: Result<Json>): (st: Step<Subscription>)
    ensures st.state.exiting
    ensures st == UnsubscribePolling(s.(exiting := true), reply)
  {
    UnsubscribePolling(s.(exiting := true), reply)
  }

  /** After start and stop with the controller answering, the router is
      unsubscribed and exiting. */
  lemma StartThenStop(s: Subscription, subscribed: Json, unsubscribed: Json)
    requires s.pollingService.None?
    requires Load(NewPollingService(), subscribed).error.None?
    ensures var started := Start(s, Ok(subscribed));
            var stopped := Stop(started.state, Ok(unsubscribed));
            && started.error.None? && started.state.pollingService.Some?
            && stopped.error.None? && stopped.state.pollingService.None? && stopped.state.exiting
  {
    var loaded := Load(NewPollingService(), subscribed);
    assert "result" in loaded.state;
  }

  /** What a `for` loop visits in a string: its characters, as strings. */
  function Chars(s: string): (r: seq<Json>)
    ensures |r| == |s| && forall i | 0 <= i < |s| :: r[i] == JStr([s[i]])
  {
    seq(|s|, i requires 0 <= i < |s| => JStr([s[i]]))
  }

  /** What `for result in elem['result']` visits: the items of a list or
      the characters of a string; anything else but a dict cannot be
      iterated. */
  function Iterated(j: Json): (r: Result<seq<Json>>)
    ensures j.JArr? ==> r == Ok(j.items)
    ensures j.JStr? ==> r == Ok(Chars(j.s))
    ensures !j.JArr? && !j.JStr? ==> r.Fail?
  {
    match j
    case JArr(items) => Ok(items)
    case JStr(s) => Ok(Chars(s))
    case JObj(_) => Fail(NotImplemented)
    case _ => Fail(TypeError("object is not iterable"))
  }

  /** The records a long-poll answer carries: what the `result` of each
      element that has one iterates over, in order. An element that is not
      a dict has no `keys`; the records gathered before a bad element come
      with its error. */
  function Records(elements: seq<Json>): (r: (seq<Json>, Option<Error>))
    ensures (forall i | 0 <= i < |elements| :: elements[i].JObj?
               && (Has(elements[i], "result") ==> elements[i].fields["result"].JArr?)) ==> r.1.None?
    ensures (exists i | 0 <= i < |elements| :: !elements[i].JObj?) ==> r.1.Some?
    decreases |elements|
  {
    if |elements| == 0 then ([], None)
    else
      var e := elements[0];
      assert forall i | 1 <= i < |elements| :: elements[i] == elements[1..][i - 1];
      if !e.JObj? then ([], Some(AttributeError("object has no attribute 'keys'")))
      else if "result" !in e.fields then Records(elements[1..])
      else match Iterated(e.fields["result"])
        case Fail(err) => ([], Some(err))
        case Ok(records) =>
          var rest := Records(elements[1..]);
          (records + rest.0, rest.1)
  }

  /** Elements without a `result` contribute nothing, and the `result`
      lists of the others are concatenated in order. */
  lemma RecordsConcatenated(e: Json, rest: seq<Json>)
    requires e.JObj?
    ensures "result" !in e.fields ==> Records([e] + rest) == Records(rest)
    ensures Has(e, "result") && e.fields["result"].JArr? ==>
              Records([e] + rest) == (e.fields["result"].items + Records(rest).0, Records(rest).1)
  {
    assert ([e] + rest)[1..] == rest;
  }

  /** What `list(answer)` yields: the items of a list, the characters of a
      string, the keys of a dict; the keys are strings, so a non-empty
      dict stops at its first key, whichever that is. */
  function Answer(answer: Json): (r: (seq<Json>, Option<Error>))
    ensures answer.JArr? ==> r == Records(answer.items)
    ensures answer.JObj? ==> r.0 == [] && (r.1.None? <==> answer.fields == map[])
  {
    match answer
    case JArr(items) => Records(items)
    case JStr(s) => Records(Chars(s))
    case JObj(fields) => ([], if fields == map[] then None else Some(AttributeError("'str' object has no attribute 'keys'")))
    case _ => ([], Some(TypeError("object is not iterable")))
  }

  /** The pause after each delivered record: 0.2 s. */
  const RecordPause := Slept(200)

  /** Delivering the records of one pass. The flag is checked before each
      record, and each record delivered without raising is followed by a
      pause; `exitAfter` is how many records are delivered before the
      other thread's `stop()` sets it, if it does during this pass. */
  function Dispatch(s: Subscription, records: seq<Json>, exitAfter: Option<nat>): (st: Step<Subscription>)
    requires Valid(s)
    ensures Valid(st.state) && st.state.heap.Keys == s.heap.Keys
    ensures st.state.devices == s.devices && st.state.callbacks == s.callbacks
    ensures s.exiting ==> st == Step(s, [], None)
    ensures exitAfter == Some(0) && |records| > 0 ==> st.effects == [] && st.state.heap == s.heap
    decreases |records|
  {
    if |records| == 0 || s.exiting then Step(s, [], None)
    else if exitAfter == Some(0) then Step(s.(exiting := true), [], None)
    else
      var first := Event(s, records[0]);
      if first.error.Some? then first
      else
        var rest := Dispatch(first.state, records[1..], if exitAfter.Some? then Some(exitAfter.value - 1) else None);
        Step(rest.state, first.effects + [RecordPause] + rest.effects, rest.error)
  }

  /** A pass that is not stopped delivers its first record, and then the
      rest unless that one raised. */
  lemma DispatchCons(s: Subscription, records: seq<Json>, exitAfter: Option<nat>)
    requires Valid(s) && |records| > 0 && !s.exiting && exitAfter != Some(0)
    ensures var first := Event(s, records[0]);
            Dispatch(s, records, exitAfter)
            == if first.error.Some? then first
               else var rest := Dispatch(first.state, records[1..], if exitAfter.Some? then Some(exitAfter.value - 1) else None);
                    Step(rest.state, first.effects + [RecordPause] + rest.effects, rest.error)
  {
  }

  /** Once the flag is set after `k` records, the pass delivers exactly
      what delivering only the first `k` records delivers. */
  lemma {:induction false} DispatchStopsAt(s: Subscription, records: seq<Json>, k: nat)
    requires Valid(s) && k <= |records|
    ensures Dispatch(s, records, Some(k)).effects == Dispatch(s, records[..k], None).effects
    ensures Dispatch(s, records, Some(k)).error == Dispatch(s, records[..k], None).error
    ensures Dispatch(s, records, Some(k)).state.heap == Dispatch(s, records[..k], None).state.heap
    decreases k
  {
    if k == 0 || s.exiting {
    } else {
      assert records[..k][0] == records[0];
      assert records[..k][1..] == records[1..][..k - 1];
      DispatchCons(s, records, Some(k));
      DispatchCons(s, records[..k], None);
      var first := Event(s, records[0]);
      if first.error.None? {
        DispatchStopsAt(first.state, records[1..], k - 1);
      }
    }
  }

  /** Delivering a record to registered entities runs callbacks and
      nothing else. */
  lemma {:induction false} EventDevicesNoPause(s: Subscription, refs: seq<Ref>, q: Json)
    requires Valid(s) && forall r | r in refs :: r in s.heap
    ensures Pauses(EventDevices(s, refs, q).effects) == 0
    decreases |refs|
  {
    if |refs| > 0 {
      var first := EventDevice(s, refs[0], q);
      NoPauses(first.effects);
      if first.error.None? {
        assert forall r | r in refs[1..] :: r in refs;
        EventDevicesNoPause(first.state, refs[1..], q);
        PausesAppend(first.effects, EventDevices(first.state, refs[1..], q).effects);
      }
    }
  }

  /** A pass that is not stopped and in which no record raises pauses once
      per record, after it. */
  lemma {:induction false} DispatchPauses(s: Subscription, records: seq<Json>)
    requires Valid(s) && !s.exiting
    ensures Dispatch(s, records, None).error.None? ==> Pauses(Dispatch(s, records, None).effects) == |records|
    decreases |records|
  {
    if |records| > 0 {
      var first := Event(s, records[0]);
      if first.error.None? {
        if Target(records[0]) == Ok(None) {
          assert first.effects == [];
        } else {
          EventDevicesNoPause(s, RefsOf(s, Target(records[0]).value.value), records[0]);
        }
        DispatchPauses(first.state, records[1..]);
        var rest := Dispatch(first.state, records[1..], None);
        PausesAppend(first.effects, [RecordPause]);
        PausesAppend(first.effects + [RecordPause], rest.effects);
      }
    }
  }

  /** One pass of `polling(duration)`: ask for the records, then deliver
      them while the flag is clear. A pass does nothing once the flag is
      set, and a missing subscription has no id to poll with. */
  function PollOnce(s: Subscription, duration: Json, reply: Result<Json>, exitAfter: Option<nat>): (st: Step<Subscription>)
    requires Valid(s)
    ensures Valid(st.state) && st.state.heap.Keys == s.heap.Keys
    ensures s.exiting ==> st == Step(s, [], None)
    ensures !s.exiting && s.pollingService.None? ==> st.effects == [] && st.error.Some?
    ensures !s.exiting && s.pollingService.Some? && "result" in s.pollingService.value ==>
              |st.effects| > 0 && st.effects[0] == Sent(ClientCall("POST", RpcPath, Envelope("RE/longPoll", [s.pollingService.value["result"], duration])))
    ensures !s.exiting && reply.Fail? ==> st.state == s && st.error.Some?
  {
    if s.exiting then Step(s, [], None)
    else if s.pollingService.None? || "result" !in s.pollingService.value then
      Step(s, [], Some(AttributeError("'NoneType' object has no attribute 'result'")))
    else
      var sent := [Sent(ClientCall("POST", RpcPath, Envelope("RE/longPoll", [s.pollingService.value["result"], duration])))];
      match reply
      case Fail(e) => Step(s, sent, Some(e))
      case Ok(answer) =>
        var (records, malformed) := Answer(answer);
        var delivered := Dispatch(s, records, exitAfter);
        Step(delivered.state, sent + delivered.effects, if delivered.error.Some? then delivered.error else malformed)
  }

  /** The one-entity router of `AsyncUpdate`: the entity and callback last
      registered, and its exit flag. */
  datatype AsyncUpdate = AsyncUpdate(exiting: bool, device: Option<(Ref, Entity)>, callback: Option<Callback>)

  /** `AsyncUpdate.register(entity, callback)` replaces both. */
  function AsyncRegister(a: AsyncUpdate, r: Ref, e: Entity, cb: Callback): (a': AsyncUpdate)
    ensures a'.device == Some((r, e)) && a'.callback == Some(cb) && a'.exiting == a.exiting
  {
    a.(device := Some((r, e)), callback := Some(cb))
  }

  /** `AsyncUpdate.event_device(record)`: the record is loaded into the
      entity, then its callback runs; an exception of the callback,
      including calling the missing callback, is swallowed. */
  function AsyncEventDevice(a: AsyncUpdate, q: Json): (st: Step<AsyncUpdate>)
    ensures a.device.None? ==> st == Step(a, [], Some(AttributeError("'NoneType' object has no attribute 'load'")))
    ensures a.device.Some? ==>
              var loaded := Load(a.device.value.1.attrs, q);
              && st.state == a.(device := Some((a.device.value.0, Entity(a.device.value.1.kind, loaded.state))))
              && (loaded.error.Some? ==> st.effects == [] && st.error == loaded.error)
              && (loaded.error.None? && a.callback.Some? ==> st.effects == [Notified(a.device.value.0, a.callback.value)] && st.error.None?)
              && (loaded.error.None? && a.callback.None? ==> st.effects == [] && st.error.None?)
  {
    match a.device
    case None => Step(a, [], Some(AttributeError("'NoneType' object has no attribute 'load'")))
    case Some((r, e)) =>
      var loaded := Load(e.attrs, q);
      var a' := a.(device := Some((r, Entity(e.kind, loaded.state))));
      if loaded.error.Some? then Step(a', [], loaded.error)
      else Step(a', if a.callback.Some? then [Notified(r, a.callback.value)] else [], None)
  }

  /** `AsyncUpdate.update(path, method, params)`: one request and one
      delivery, unless the flag is already set; a delivery that does not
      raise is followed by a pause of 0.2 s. */
  function AsyncUpdateOnce(a: AsyncUpdate, path: string, verb: string, params: Json, reply: Result<Json>): (st: Step<AsyncUpdate>)
    ensures a.exiting ==> st == Step(a, [], None)
    ensures !a.exiting ==> |st.effects| > 0 && st.effects[0] == Sent(ClientCall(verb, path, params))
    ensures !a.exiting && reply.Fail? ==> st == Step(a, [Sent(ClientCall(verb, path, params))], Some(reply.error))
    ensures !a.exiting && reply.Ok? ==>
              var delivered := AsyncEventDevice(a, reply.value);
              st.state == delivered.state && st.error == delivered.error
              && st.effects == [Sent(ClientCall(verb, path, params))] + delivered.effects + (if delivered.error.None? then [RecordPause] else [])
  {
    if a.exiting then Step(a, [], None)
    else
      var sent := [Sent(ClientCall(verb, path, params))];
      match reply
      case Fail(e) => Step(a, sent, Some(e))
      case Ok(q) =>
        var delivered := AsyncEventDevice(a, q);
        Step(delivered.state, sent + delivered.effects + (if delivered.error.None? then [RecordPause] else []), delivered.error)
  }
}
