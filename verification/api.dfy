/** The controller's HTTP and JSON-RPC interface as the session uses it
    (boschshcpy/api.py): endpoint URLs, the expected-type checks on GET
    results, the JSON-RPC 2.0 batch envelopes for the long-polling calls
    (section 6 of the JSON-RPC 2.0 Specification) and the decoding of their
    replies (section 5). The transport itself is a parameter: an HTTP reply
    is given as `Reply(ok, body)`. */
module Api {
  import opened PyJson
  import opened PyStrings

  /** An HTTP reply: whether its status was a success, and the decoded
      body. */
  datatype Reply = Reply(ok: bool, body: Json)

  function ApiRoot(ip: string): string { "https://" + ip + ":8444/smarthome" }
  function PublicRoot(ip: string): string { "https://" + ip + ":8446/smarthome/public" }
  function RpcRoot(ip: string): string { "https://" + ip + ":8444/remote/json-rpc" }

  /** The REST resources the library reads or writes. */
  datatype Endpoint =
    | Information
    | PublicInformation
    | Rooms
    | Scenarios
    | Devices
    | Services
    | DeviceService(deviceId: string, serviceId: string)
    | ServiceState(deviceId: string, serviceId: string)
    | IntrusionSystemState
    | DomainAction(path: string)

  function DeviceServicePath(deviceId: string, serviceId: string): string {
    "devices/" + (deviceId + ("/" + ("services/" + serviceId)))
  }

  function Url(ip: string, e: Endpoint): string {
    match e
    case Information => ApiRoot(ip) + "/information"
    case PublicInformation => PublicRoot(ip) + "/information"
    case Rooms => ApiRoot(ip) + "/rooms"
    case Scenarios => ApiRoot(ip) + "/scenarios"
    case Devices => ApiRoot(ip) + "/devices"
    case Services => ApiRoot(ip) + "/services"
    case DeviceService(d, s) => ApiRoot(ip) + "/" + DeviceServicePath(d, s)
    case ServiceState(d, s) => ApiRoot(ip) + "/" + DeviceServicePath(d, s) + "/state"
    case IntrusionSystemState => ApiRoot(ip) + "/intrusion/states/system"
    case DomainAction(path) => ApiRoot(ip) + "/" + path
  }

  /** The `@type` a GET result must carry itself. */
  function ExpectedType(e: Endpoint): Option<string> {
    match e
    case DeviceService(_, _) => Some("DeviceServiceData")
    case IntrusionSystemState => Some("systemState")
    case _ => None
  }

  /** The `@type` every element of a GET result must carry. */
  function ExpectedElementType(e: Endpoint): Option<string> {
    match e
    case Rooms => Some("room")
    case Scenarios => Some("scenario")
    case Devices => Some("device")
    case Services => Some("DeviceServiceData")
    case _ => None
  }

  /** Two slash-free device and service ids are recovered from the
      device-service path they produce, so no two services share a URL. */
  lemma {:induction false} DeviceServicePathInjective(d: string, s: string, d': string, s': string)
    requires '/' !in d && '/' !in d'
    requires DeviceServicePath(d, s) == DeviceServicePath(d', s')
    ensures d == d' && s == s'
  {
    var tail := "/" + ("services/" + s);
    var tail' := "/" + ("services/" + s');
    SplitEqual("devices/", d + tail, "devices/", d' + tail');
    FirstSlash(d, "services/" + s);
    FirstSlash(d', "services/" + s');
    SplitEqual(d, tail, d', tail');
    SplitEqual("/", "services/" + s, "/", "services/" + s');
    SplitEqual("services/", s, "services/", s');
  }

  /** Equal concatenations with equally long first parts have equal
      parts. */
  lemma SplitEqual(a: string, b: string, a': string, b': string)
    requires a + b == a' + b' && |a| == |a'|
    ensures a == a' && b == b'
  {
    assert a == (a + b)[..|a|];
    assert a' == (a' + b')[..|a'|];
    assert b == (a + b)[|a|..];
    assert b' == (a' + b')[|a'|..];
  }

  /** The first slash of `d + "/" + rest` is the one right after a
      slash-free `d`. */
  lemma FirstSlash(d: string, rest: string)
    requires '/' !in d
    ensures Find(d + ("/" + rest), "/") == |d|
  {
    var x := d + ("/" + rest);
    assert x[|d|..|d| + 1] == "/";
    assert OccursAt(x, "/", |d|);
    forall i | 0 <= i < |d|
      ensures !OccursAt(x, "/", i)
    {
      assert x[i..i + 1] == [d[i]];
    }
  }

  /** `_get_api_result_or_fail`: a non-success status raises
      `SHCSessionError`; otherwise the body must carry the expected `@type`,
      and so must each of its elements when an element type is expected. */
  function CheckedGet(reply: Reply, expectedType: Option<string>, expectedElementType: Option<string>): (r: Result<Json>)
    ensures r.Ok? ==> reply.ok && r.value == reply.body
    ensures r.Ok? && expectedType.Some? ==> Field(reply.body, "@type") == Ok(JStr(expectedType.value))
    ensures r.Ok? && expectedElementType.Some? ==>
              reply.body.JArr? && forall x | x in reply.body.items :: Field(x, "@type") == Ok(JStr(expectedElementType.value))
    ensures reply.ok
            && (expectedType.Some? ==> Field(reply.body, "@type") == Ok(JStr(expectedType.value)))
            && (expectedElementType.Some? ==>
                  (reply.body.JArr? && forall x | x in reply.body.items :: Field(x, "@type") == Ok(JStr(expectedElementType.value))))
            ==> r == Ok(reply.body)
    ensures !reply.ok ==> r.Fail? && r.error.SessionError?
  {
    if !reply.ok then Fail(SessionError("API call returned non-OK result"))
    else
      var _ :- match expectedType
        case None => Ok(JNull)
        case Some(t) =>
          var tag :- Field(reply.body, "@type");
          if tag == JStr(t) then Ok(JNull) else Fail(AssertionError("unexpected @type"));
      var _ :- match expectedElementType
        case None => Ok(JNull)
        case Some(t) =>
          var items :- Elements(reply.body);
          AllTagged(items, t);
      Ok(reply.body)
  }

  /** Checks, in order, that every element carries `@type == t`; the first
      element that does not raises. */
  function AllTagged(items: seq<Json>, t: string): (r: Result<Json>)
    ensures r.Ok? <==> forall x | x in items :: Field(x, "@type") == Ok(JStr(t))
  {
    if |items| == 0 then Ok(JNull)
    else
      var tag :- Field(items[0], "@type");
      if tag != JStr(t) then Fail(AssertionError("unexpected element @type"))
      else
        var r := AllTagged(items[1..], t);
        assert forall x | x in items :: x == items[0] || x in items[1..];
        r
  }

  /** `_async_put_api_or_fail` and `_async_post_api_or_fail`. */
  function CheckedWrite(reply: Reply): (r: Result<Json>)
    ensures r.Ok? <==> reply.ok
    ensures r.Ok? ==> r.value == reply.body
    ensures r.Fail? ==> r.error.SessionError?
  {
    if reply.ok then Ok(reply.body) else Fail(SessionError("API call returned non-OK result"))
  }

  /** `async_get_information` and `async_get_public_information`: whatever
      goes wrong is logged and answered with `None`. */
  function InformationOrNone(r: Result<Json>): (info: Json)
    ensures r.Ok? ==> info == r.value
    ensures r.Fail? ==> info == JNull
  {
    if r.Ok? then r.value else JNull
  }

  /** A JSON-RPC batch holding one call. */
  function Call(name: string, params: seq<Json>): Json {
    JArr([JObj(map["jsonrpc" := JStr("2.0"), "method" := JStr(name), "params" := JArr(params)])])
  }

  /** Reads a one-call batch back: its method and parameters. */
  function ParseCall(body: Json): Option<(string, seq<Json>)> {
    if body.JArr? && |body.items| == 1 && Has(body.items[0], "jsonrpc") && body.items[0].fields["jsonrpc"] == JStr("2.0")
       && Has(body.items[0], "method") && body.items[0].fields["method"].JStr?
       && Has(body.items[0], "params") && body.items[0].fields["params"].JArr?
    then Some((body.items[0].fields["method"].s, body.items[0].fields["params"].items))
    else None
  }

  lemma CallRoundTrip(name: string, params: seq<Json>)
    ensures ParseCall(Call(name, params)) == Some((name, params))
  {
  }

  const SubscribeTopic := "com/bosch/sh/remote/*"

  function SubscribeBody(): (b: Json)
    ensures ParseCall(b) == Some(("RE/subscribe", [JStr(SubscribeTopic), JNull]))
  {
    Call("RE/subscribe", [JStr(SubscribeTopic), JNull])
  }

  function PollBody(pollId: Json, waitSeconds: int): (b: Json)
    ensures ParseCall(b) == Some(("RE/longPoll", [pollId, JInt(waitSeconds)]))
  {
    Call("RE/longPoll", [pollId, JInt(waitSeconds)])
  }

  /** The HTTP timeout, in seconds, of every POST but a long poll. */
  const DefaultTimeout := 30

  /** The HTTP timeout of a long poll: five seconds more than the server
      is asked to wait, so the server answers before the client gives up. */
  function PollTimeout(waitSeconds: int): (t: int)
    ensures t == waitSeconds + 5 && t > waitSeconds
  {
    waitSeconds + 5
  }

  function UnsubscribeBody(pollId: Json): (b: Json)
    ensures ParseCall(b) == Some(("RE/unsubscribe", [pollId]))
  {
    Call("RE/unsubscribe", [pollId])
  }

  /** Decoding the reply to a one-call batch: the first response must say
      `"jsonrpc": "2.0"`; an `error` member raises `JSONRPCError(code,
      message)`; otherwise its `result` is returned. */
  function RpcResult(reply: Json): (r: Result<Json>)
    ensures r.Ok? ==> reply.JArr? && |reply.items| > 0
                      && Field(reply.items[0], "jsonrpc") == Ok(JStr("2.0"))
                      && !Has(reply.items[0], "error")
                      && Field(reply.items[0], "result") == Ok(r.value)
    ensures r.Fail? && r.error.JsonRpcError? ==>
              reply.JArr? && |reply.items| > 0 && Has(reply.items[0], "error")
              && Field(reply.items[0].fields["error"], "code") == Ok(r.error.code)
              && Field(reply.items[0].fields["error"], "message") == Ok(r.error.message)
  {
    var first :- Item0(reply);
    var version :- Field(first, "jsonrpc");
    if version != JStr("2.0") then Fail(AssertionError("jsonrpc version"))
    else if Has(first, "error") then
      var code :- Field(first.fields["error"], "code");
      var message :- Field(first.fields["error"], "message");
      Fail(JsonRpcError(code, message))
    else
      Field(first, "result")
  }

  /** A successful reply carrying `x`. */
  function ResultReply(x: Json): Json {
    JArr([JObj(map["jsonrpc" := JStr("2.0"), "result" := x])])
  }

  /** An error reply (section 5.1 of the JSON-RPC 2.0 Specification). */
  function ErrorReply(code: Json, message: Json): Json {
    JArr([JObj(map["jsonrpc" := JStr("2.0"), "error" := JObj(map["code" := code, "message" := message])])])
  }

  lemma ResultReplyDecodes(x: Json)
    ensures RpcResult(ResultReply(x)) == Ok(x)
  {
  }

  lemma ErrorReplyDecodes(code: Json, message: Json)
    ensures RpcResult(ErrorReply(code, message)) == Fail(JsonRpcError(code, message))
  {
  }

  /** A JSON-RPC call as the session makes it: the POST must succeed, then
      its reply is decoded. */
  function RpcOutcome(reply: Reply): (r: Result<Json>)
    ensures !reply.ok ==> r.Fail? && r.error.SessionError?
    ensures reply.ok ==> r == RpcResult(reply.body)
  {
    var body :- CheckedWrite(reply);
    RpcResult(body)
  }
}
