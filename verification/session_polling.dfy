/** The polling loop of the session (boschshcpy/session.py): one long
    poll and its delivery, one iteration of the loop, and the start/stop
    guards of the loop. */
module SessionPolling {
  import opened PyJson
  import opened PyDicts
  import opened Effects
  import Devices
  import DeviceServices
  import DeviceHelper
  import IntrusionDomain
  import Api
  import ServicesImpl
  import opened Session
  import opened SessionRouting

  /** How long the controller is asked to hold a long poll. */
  const WaitSeconds := 10

  /** The JSON-RPC error code with which the controller reports a poll id it
      does not know (an implementation-defined server error, section 5.1 of
      the JSON-RPC 2.0 Specification). */
  const UnknownPollIdCode := -32001

  predicate UnknownPollId(e: Error) {
    e.JsonRpcError? && PyEq(e.code, JInt(UnknownPollIdCode))
  }

  /** What the controller answers in one iteration of the polling loop: the
      decoded results of the subscribe, long-poll and unsubscribe calls. A
      call the iteration does not make ignores its answer. */
  datatype Replies = Replies(subscribed: Result<Json>, polled: Result<Json>, unsubscribed: Result<Json>)

  datatype Polled = Polled(state: Registry, effects: seq<Effect>, outcome: Result<bool>)

  /** The body of the `try` in `_long_poll`: the records of the poll result
      are routed in order. */
  function Deliver(r: Registry, polled: Result<Json>, env: Env, fuel: nat): (st: Step<Registry>)
    requires Valid(r)
    ensures Quiet(st.effects)
    ensures Valid(st.state) && SameSession(r, st.state) && HeapGrows(r, st.state)
    ensures polled.Fail? ==> st == Step(r, [], Some(polled.error))
    ensures polled.Ok? && polled.value.JArr? ==> st == ProcessAll(r, polled.value.items, env, fuel)
  {
    match polled
    case Fail(e) => Step(r, [], Some(e))
    case Ok(raw) =>
      match Elements(raw)
      case Fail(e) => Step(r, [], Some(e))
      case Ok(items) => ProcessAll(r, items, env, fuel)
  }

  /** The subscription call, with the default timeout. */
  function SubscribeRequest(): (e: Effect)
    ensures e.Sent? && e.request.RpcCall? && e.request.timeout == Api.DefaultTimeout
    ensures Api.ParseCall(e.request.body) == Some(("RE/subscribe", [JStr(Api.SubscribeTopic), JNull]))
  {
    Sent(RpcCall(Api.SubscribeBody(), Api.DefaultTimeout))
  }

  /** The poll call: the controller holds it for `WaitSeconds`, and the
      client waits five seconds longer. */
  function PollRequest(pollId: Json): (e: Effect)
    ensures e.Sent? && e.request.RpcCall?
    ensures Api.ParseCall(e.request.body) == Some(("RE/longPoll", [pollId, JInt(WaitSeconds)]))
    ensures e.request.timeout == WaitSeconds + 5
  {
    Sent(RpcCall(Api.PollBody(pollId, WaitSeconds), Api.PollTimeout(WaitSeconds)))
  }

  /** The unsubscription call, with the default timeout. */
  function UnsubscribeRequest(pollId: Json): (e: Effect)
    ensures e.Sent? && e.request.RpcCall? && e.request.timeout == Api.DefaultTimeout
    ensures Api.ParseCall(e.request.body) == Some(("RE/unsubscribe", [pollId]))
  {
    Sent(RpcCall(Api.UnsubscribeBody(pollId), Api.DefaultTimeout))
  }

  /** The poll id plays no part in the registry's validity. */
  lemma ValidPollId(r: Registry, id: Json)
    requires Valid(r)
    ensures Valid(r.(pollId := id)) && HeapGrows(r, r.(pollId := id))
  {
  }

  /** `_long_poll`: subscribe first if there is no poll id (outside the
      `try`, so its failure escapes), then poll with the id and route what
      comes back. An unknown-poll-id error forgets the id and answers
      false; any other error escapes with the id kept. */
  function LongPoll(r: Registry, replies: Replies, env: Env, fuel: nat): (p: Polled)
    requires Valid(r)
    ensures Valid(p.state) && HeapGrows(r, p.state)
    ensures p.state.rooms == r.rooms && p.state.scenarios == r.scenarios && p.state.scenarioCallback == r.scenarioCallback
    ensures p.state.polling == r.polling && p.state.stopFlag == r.stopFlag
    ensures r.pollId == JNull && replies.subscribed.Fail? ==>
              p == Polled(r, [SubscribeRequest()], Fail(replies.subscribed.error))
    ensures r.pollId != JNull ==> |p.effects| >= 1 && p.effects[0] == PollRequest(r.pollId)
    ensures r.pollId == JNull && replies.subscribed.Ok? ==>
              |p.effects| >= 2 && p.effects[0] == SubscribeRequest() && p.effects[1] == PollRequest(replies.subscribed.value)
  {
    if r.pollId == JNull && replies.subscribed.Fail? then
      Polled(r, [SubscribeRequest()], Fail(replies.subscribed.error))
    else
      var id := if r.pollId == JNull then replies.subscribed.value else r.pollId;
      var sent := (if r.pollId == JNull then [SubscribeRequest()] else []) + [PollRequest(id)];
      ValidPollId(r, id);
      var body := Deliver(r.(pollId := id), replies.polled, env, fuel);
      ValidPollId(body.state, JNull);
      var fx := sent + body.effects;
      match body.error
      case None => Polled(body.state, fx, Ok(true))
      case Some(e) =>
        if UnknownPollId(e) then Polled(body.state.(pollId := JNull), fx, Ok(false))
        else Polled(body.state, fx, Fail(e))
  }

  /** How a long poll with an id ends: it answers true after routing every
      record, forgets the id and answers false when the controller reports
      the id unknown, and lets any other error escape keeping the id. */
  lemma LongPollOutcomes(r: Registry, replies: Replies, env: Env, fuel: nat)
    requires Valid(r) && !(r.pollId == JNull && replies.subscribed.Fail?)
    ensures var p := LongPoll(r, replies, env, fuel);
            var id := if r.pollId == JNull then replies.subscribed.value else r.pollId;
            (replies.polled.Fail? && UnknownPollId(replies.polled.error) ==> p.outcome == Ok(false) && p.state.pollId == JNull)
            && (replies.polled.Fail? && !UnknownPollId(replies.polled.error) ==>
                  p.outcome == Fail(replies.polled.error) && p.state.pollId == id)
            && (p.outcome == Ok(true) ==> p.state.pollId == id && replies.polled.Ok?)
            && (replies.polled.Ok? && replies.polled.value.JArr? ==>
                  var s := ProcessAll(r.(pollId := id), replies.polled.value.items, env, fuel);
                  (s.error.None? ==> p.outcome == Ok(true) && p.state == s.state))
  {
    var id := if r.pollId == JNull then replies.subscribed.value else r.pollId;
    var body := Deliver(r.(pollId := id), replies.polled, env, fuel);
    var p := LongPoll(r, replies, env, fuel);
    assert body.state.pollId == id;
    if body.error.None? {
      assert p.outcome == Ok(true) && p.state == body.state;
    } else if UnknownPollId(body.error.value) {
      assert p.outcome == Ok(false) && p.state.pollId == JNull;
    } else {
      assert p.outcome == Fail(body.error.value) && p.state == body.state;
    }
  }

  /** The effects of `_long_poll` once a poll id is known: the poll
      request, then what routing the answer runs. */
  lemma LongPollWithId(r: Registry, replies: Replies, env: Env, fuel: nat)
    requires Valid(r) && r.pollId != JNull
    ensures LongPoll(r, replies, env, fuel).effects == [PollRequest(r.pollId)] + Deliver(r, replies.polled, env, fuel).effects
  {
    assert r.(pollId := r.pollId) == r;
    var sent: seq<Effect> := [];
    assert sent + [PollRequest(r.pollId)] == [PollRequest(r.pollId)];
  }

  /** The subscribe and long-poll requests call different methods. */
  lemma SubscribeIsNotPoll(pollId: Json)
    ensures SubscribeRequest() != PollRequest(pollId)
  {
    assert Api.ParseCall(Api.SubscribeBody()).value.0 == "RE/subscribe";
    assert Api.ParseCall(Api.PollBody(pollId, WaitSeconds)).value.0 == "RE/longPoll";
    assert |"RE/subscribe"| != |"RE/longPoll"|;
  }

  /** With a poll id, `_long_poll` reuses it and never subscribes. */
  lemma {:induction false} LongPollReusesId(r: Registry, replies: Replies, env: Env, fuel: nat)
    requires Valid(r) && r.pollId != JNull
    ensures SubscribeRequest() !in LongPoll(r, replies, env, fuel).effects
  {
    LongPollWithId(r, replies, env, fuel);
    SubscribeIsNotPoll(r.pollId);
  }

  /** `_maybe_unsubscribe`: nothing without a poll id; otherwise the id is
      unsubscribed and forgotten, unless the call raises. */
  function MaybeUnsubscribe(r: Registry, unsubscribed: Result<Json>): (st: Step<Registry>)
    ensures st.state == r.(pollId := st.state.pollId)
    ensures r.pollId == JNull ==> st == Step(r, [], None)
    ensures r.pollId != JNull ==> st.effects == [UnsubscribeRequest(r.pollId)]
    ensures r.pollId != JNull && unsubscribed.Ok? ==> st.state.pollId == JNull && st.error.None?
    ensures r.pollId != JNull && unsubscribed.Fail? ==> st.state == r && st.error == Some(unsubscribed.error)
  {
    if r.pollId == JNull then Step(r, [], None)
    else
      var fx := [UnsubscribeRequest(r.pollId)];
      match unsubscribed
      case Fail(e) => Step(r, fx, Some(e))
      case Ok(_) => Step(r.(pollId := JNull), fx, None)
  }

  /** One iteration of the polling thread: the loop condition, then one
      `_long_poll` and its handlers. */
  datatype Iteration = Iteration(state: Registry, effects: seq<Effect>, exited: bool)

  /** `polling_thread_main`, one pass of its loop. The stop flag ends the
      loop. A false result waits one second. A `RuntimeError` (or a
      subclass) sets the stop flag and tries to unsubscribe, swallowing any
      failure of that; any other error waits fifteen seconds. */
  function LoopStep(r: Registry, replies: Replies, env: Env, fuel: nat): (it: Iteration)
    requires Valid(r)
    ensures Valid(it.state) && it.state.polling == r.polling
    ensures it.exited <==> r.stopFlag
    ensures r.stopFlag ==> it == Iteration(r, [], true)
    ensures !r.stopFlag ==>
              var p := LongPoll(r, replies, env, fuel);
              (p.outcome == Ok(true) ==> it.state == p.state && it.effects == p.effects)
              && (p.outcome == Ok(false) ==> it.state == p.state && it.effects == p.effects + [Slept(1000)])
              && (p.outcome.Fail? && !IsRuntimeError(p.outcome.error) ==>
                    it.state == p.state && it.effects == p.effects + [Slept(15000)])
              && (p.outcome.Fail? && IsRuntimeError(p.outcome.error) ==>
                    it.state.stopFlag && it.state.rooms == p.state.rooms && it.state.devicesById == p.state.devicesById
                    && it.effects == p.effects + MaybeUnsubscribe(p.state, replies.unsubscribed).effects
                    && (replies.unsubscribed.Ok? ==> it.state.pollId == JNull)
                    && (replies.unsubscribed.Fail? ==> it.state.pollId == p.state.pollId))
    ensures !r.stopFlag ==> (it.state.stopFlag <==> LongPoll(r, replies, env, fuel).outcome.Fail? && IsRuntimeError(LongPoll(r, replies, env, fuel).outcome.error))
  {
    if r.stopFlag then Iteration(r, [], true)
    else
      var p := LongPoll(r, replies, env, fuel);
      match p.outcome
      case Ok(true) => Iteration(p.state, p.effects, false)
      case Ok(false) => Iteration(p.state, p.effects + [Slept(1000)], false)
      case Fail(e) =>
        if IsRuntimeError(e) then
          var u := MaybeUnsubscribe(p.state.(stopFlag := true), replies.unsubscribed);
          Iteration(u.state, p.effects + u.effects, false)
        else Iteration(p.state, p.effects + [Slept(15000)], false)
  }

  /** `start_polling` as written: a second start raises; otherwise a thread
      is started, and the stop flag is left as it was. */
  function StartPollingAsWritten(r: Registry): (st: Step<Registry>)
    ensures r.polling ==> st == Step(r, [], Some(SessionError("Already polling!")))
    ensures !r.polling ==> st == Step(r.(polling := true), [], None)
  {
    if r.polling then Step(r, [], Some(SessionError("Already polling!")))
    else Step(r.(polling := true), [], None)
  }

  /** `start_polling` as intended: the new thread starts with the stop flag
      cleared, so it polls until it is stopped. */
  function StartPolling(r: Registry): (st: Step<Registry>)
    ensures r.polling ==> st == Step(r, [], Some(SessionError("Already polling!")))
    ensures !r.polling ==> st.error.None? && st.state.polling && !st.state.stopFlag
    ensures st.state == r.(polling := st.state.polling, stopFlag := st.state.stopFlag) && st.effects == []
  {
    if r.polling then Step(r, [], Some(SessionError("Already polling!")))
    else Step(r.(polling := true, stopFlag := false), [], None)
  }

  /** `stop_polling`: stopping a session that is not polling raises.
      Otherwise the stop flag is set, the thread is joined, the session
      unsubscribes (a failure of that escapes, leaving the thread recorded)
      and ends with no thread and no poll id. */
  function StopPolling(r: Registry, unsubscribed: Result<Json>): (st: Step<Registry>)
    ensures !r.polling ==> st == Step(r, [], Some(SessionError("Not polling!")))
    ensures r.polling && st.error.None? ==> !st.state.polling && st.state.pollId == JNull && st.state.stopFlag
    ensures r.polling ==> (st.error.None? <==> r.pollId == JNull || unsubscribed.Ok?)
    ensures r.polling ==> st.state.stopFlag && st.effects == MaybeUnsubscribe(r, unsubscribed).effects
    ensures st.state.devicesById == r.devicesById && st.state.heap == r.heap && st.state.domains == r.domains
  {
    if !r.polling then Step(r, [], Some(SessionError("Not polling!")))
    else
      var u := MaybeUnsubscribe(r.(stopFlag := true), unsubscribed);
      if u.error.Some? then u
      else Step(u.state.(polling := false, pollId := JNull), u.effects, None)
  }

  /** The discrepancy: once stopped, a session restarted with the written
      `start_polling` has a thread whose first iteration exits at once;
      with the intended one the first iteration polls. */
  lemma RestartDiscrepancy(r: Registry, unsubscribed: Result<Json>, replies: Replies, env: Env, fuel: nat)
    requires Valid(r) && r.polling && (r.pollId == JNull || unsubscribed.Ok?)
    ensures var stopped := StopPolling(r, unsubscribed).state;
            StartPollingAsWritten(stopped).error.None?
            && LoopStep(StartPollingAsWritten(stopped).state, replies, env, fuel).exited
            && StartPolling(stopped).error.None?
            && !LoopStep(StartPolling(stopped).state, replies, env, fuel).exited
  {
  }

  /** A stop after a successful start leaves no poll id, whatever state the
      loop was in. */
  lemma StartStop(r: Registry, unsubscribed: Result<Json>)
    requires !r.polling && (r.pollId == JNull || unsubscribed.Ok?)
    ensures var started := StartPolling(r).state;
            var stopped := StopPolling(started, unsubscribed);
            stopped.error.None? && stopped.state.pollId == JNull && !stopped.state.polling
  {
  }

  /** `subscribe_scenario_callback`. */
  function SubscribeScenarioCallback(r: Registry, cb: Callback): Registry {
    r.(scenarioCallback := Some(cb))
  }

  /** `unsubscribe_scenario_callback`. */
  function UnsubscribeScenarioCallback(r: Registry): Registry {
    r.(scenarioCallback := None)
  }

  /** After unsubscribing the scenario callback a scenario record has no
      effect. */
  lemma UnsubscribedScenarioIsSilent(r: Registry, rec: Json, env: Env, fuel: nat)
    requires Valid(r) && Field(rec, "@type") == Ok(JStr("scenarioTriggered"))
    ensures Dispatch(UnsubscribeScenarioCallback(r), rec, env, fuel) == Step(UnsubscribeScenarioCallback(r), [], None)
  {
    var r' := UnsubscribeScenarioCallback(r);
    assert Valid(r');
  }
}
