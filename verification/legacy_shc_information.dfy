/** The legacy controller information (BoschShcPy/shc_information.py): the
    software version and the state of a pending update. */
module LegacyShcInformation {
  import opened PyJson
  import opened Effects
  import opened LegacyBase
  import Information

  datatype UpdateState = NoUpdateAvailable | Downloading | UpdateInProgress | UpdateAvailable

  /** The four names are those the newer package accepts as well. */
  const StateNames: set<string> := Information.UpdateStates

  /** `state_tx`. */
  function Tx(s: UpdateState): (r: string)
    ensures r in StateNames
  {
    match s
    case NoUpdateAvailable => "NO_UPDATE_AVAILABLE"
    case Downloading => "DOWNLOADING"
    case UpdateInProgress => "UPDATE_IN_PROGRESS"
    case UpdateAvailable => "UPDATE_AVAILABLE"
  }

  /** `state_rx`: defined exactly on the four names, and the inverse of
      `Tx` there. */
  function Rx(v: Json): (r: Result<UpdateState>)
    ensures r.Ok? <==> v.JStr? && v.s in StateNames
    ensures r.Ok? ==> Tx(r.value) == v.s
    ensures r.Fail? ==> r.error.KeyError? || r.error.TypeError?
  {
    var name :- TableKey(v, StateNames);
    Ok(if name == "NO_UPDATE_AVAILABLE" then NoUpdateAvailable
       else if name == "DOWNLOADING" then Downloading
       else if name == "UPDATE_IN_PROGRESS" then UpdateInProgress
       else UpdateAvailable)
  }

  lemma RxTx(s: UpdateState)
    ensures Rx(JStr(Tx(s))) == Ok(s)
  {
  }

  const Attributes: set<string> := {"version", "updateState"}

  /** `ShcInformation(client)`: nothing known yet. */
  function New(): (o: Obj)
    ensures o.Keys == Attributes && o["version"] == JNull && o["updateState"] == JNull
  {
    map["version" := JNull, "updateState" := JNull]
  }

  /** `get_state`: the update state by name; before the first update the
      name is `None`, which the table does not hold. */
  function GetState(o: Obj): (r: Result<UpdateState>)
    requires o.Keys == Attributes
    ensures r.Ok? <==> o["updateState"].JStr? && o["updateState"].s in StateNames
    ensures r.Ok? ==> JStr(Tx(r.value)) == o["updateState"]
  {
    Rx(o["updateState"])
  }

  lemma NewHasNoState()
    ensures GetState(New()).Fail? && GetState(New()).error.KeyError?
  {
  }

  /** `update_from_query(record)`: only a record typed `shc_device` is
      loaded. */
  function UpdateFromQuery(o: Obj, q: Json): (out: Outcome)
    ensures out.effects == [] && out.obj.Keys == o.Keys
    ensures out.result.Ok? <==> Has(q, "@type")
    ensures out.result.Ok? ==> out.result.value == JNull
    ensures Has(q, "@type") && q.fields["@type"] == JStr("shc_device") ==> out.obj == LoadDict(o, q).value
    ensures !(Has(q, "@type") && q.fields["@type"] == JStr("shc_device")) ==> out.obj == o
  {
    match Field(q, "@type")
    case Fail(e) => Outcome(o, [], Fail(e))
    case Ok(t) =>
      if t == JStr("shc_device") then Outcome(Load(o, q).state, [], Ok(JNull))
      else Outcome(o, [], Ok(JNull))
  }

  /** `update()`: the controller's information is loaded; True, or False on
      a client error. */
  function Update(o: Obj, reply: Result<Json>): (out: Outcome)
    ensures out.effects == [Sent(ClientCall("GET", "smarthome/information", JNull))]
    ensures out.obj.Keys == o.Keys
    ensures reply.Fail? ==> out.obj == o && out.result == Swallowed(reply.error)
    ensures reply.Ok? && reply.value.JObj? ==> out.obj == LoadDict(o, reply.value).value && out.result == Ok(JBool(true))
  {
    LegacyBase.Update(o, "smarthome/information", reply)
  }

  /** An information record reporting update state `s` is read back by the
      getter; its other keys are ignored. */
  lemma UpdateThenGetState(o: Obj, s: UpdateState, rest: map<string, Json>)
    requires o.Keys == Attributes
    ensures var out := Update(o, Ok(JObj(rest["updateState" := JStr(Tx(s))])));
            out.result == Ok(JBool(true)) && GetState(out.obj) == Ok(s)
  {
    RxTx(s);
  }
}
