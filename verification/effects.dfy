/** What an operation does besides computing its result: the callbacks it
    runs, the requests it sends to the controller and the pauses of the
    polling loop. An operation that can fail part-way returns the state it
    reached together with the error, because the Python code keeps every
    assignment made before an exception. */
module Effects {
  import opened PyJson
  import opened PyDicts

  /** The key under which a listener registered its callback (the entity
      object in the library). */
  type Token = nat

  /** An opaque callable. */
  type Callback = nat

  /** A request to the controller. Paths and envelopes are built by the
      functions of the `Api` module. */
  datatype Request =
    | GetDeviceService(deviceId: Json, serviceId: Json)
    | PutServiceState(deviceId: Json, serviceId: Json, body: Json)
    | PostDomainAction(path: string, body: Json)
    | RpcCall(body: Json, timeout: int)
    | PostRegistration(body: Json)
    | ClientCall(verb: string, path: string, body: Json)

  datatype Effect =
    | Notified(token: Token, callback: Callback)
    | ScenarioNotified(callback: Callback, id: Json, name: Json, lastTimeTriggered: Json)
    | Sent(request: Request)
    | Slept(millis: nat)

  /** The outcome of an operation that may raise: the state reached, the
      effects performed in order, and the exception that escaped, if any. */
  datatype Step<S> = Step(state: S, effects: seq<Effect>, error: Option<Error>)

  /** A callback table: `dict[entity, callback]`. */
  type Observers = PyDict<Token, Callback>

  /** Running every callback of a table once, in insertion order. */
  function Notify(o: Observers): (fx: seq<Effect>)
    ensures |fx| == |o|
    ensures forall i | 0 <= i < |fx| :: fx[i].Notified? && Get(o, fx[i].token) == Some(fx[i].callback)
    ensures forall i, j | 0 <= i < j < |fx| :: fx[i].token != fx[j].token
    ensures forall t | t in Keys(o) :: exists i | 0 <= i < |fx| :: fx[i].token == t
  {
    var fx := seq(|o|, i requires 0 <= i < |o| => Notified(o[i].0, o[i].1));
    assert forall t | t in Keys(o) :: exists i | 0 <= i < |fx| :: fx[i].token == t by {
      forall t | t in Keys(o)
        ensures exists i | 0 <= i < |fx| :: fx[i].token == t
      {
        var i :| 0 <= i < |o| && o[i].0 == t;
        assert fx[i].token == t;
      }
    }
    fx
  }

  /** Only the `Notified` effects, in order. */
  function Notifications(fx: seq<Effect>): (r: seq<Effect>)
    ensures forall e | e in r :: e.Notified? && e in fx
  {
    if |fx| == 0 then []
    else (if fx[0].Notified? then [fx[0]] else []) + Notifications(fx[1..])
  }

  /** How many pauses `fx` holds. */
  function Pauses(fx: seq<Effect>): nat
    decreases |fx|
  {
    if |fx| == 0 then 0 else (if fx[0].Slept? then 1 else 0) + Pauses(fx[1..])
  }

  lemma {:induction false} PausesAppend(a: seq<Effect>, b: seq<Effect>)
    ensures Pauses(a + b) == Pauses(a) + Pauses(b)
    decreases |a|
  {
    if |a| == 0 {
      assert a + b == b;
    } else {
      assert (a + b)[0] == a[0];
      assert (a + b)[1..] == a[1..] + b;
      PausesAppend(a[1..], b);
    }
  }

  /** Effects that are all callback runs hold no pause. */
  lemma {:induction false} NoPauses(fx: seq<Effect>)
    requires forall i | 0 <= i < |fx| :: fx[i].Notified?
    ensures Pauses(fx) == 0
    decreases |fx|
  {
    if |fx| > 0 {
      assert forall i | 0 <= i < |fx| - 1 :: fx[1..][i] == fx[i + 1];
      NoPauses(fx[1..]);
    }
  }
}
