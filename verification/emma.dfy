/** The EMMA energy manager (boschshcpy/emma.py): a device record that the
    library synthesises itself from the controller's MAC address, and
    whose power reading arrives as a text such as "1200 W". */
module Emma {
  import opened PyJson
  import opened PyStrings
  import opened PyDicts
  import opened Effects

  const EmmaId := "com.bosch.tt.emma.applink"

  /** What EMMA reads from `SHCInformation`: the MAC address, which stays
      unset when discovery found no controller. */
  datatype Info = Info(macAddress: Option<string>)

  /** The synthesised raw device, the information it was built from, the
      latest raw result and the callback table inherited from the device
      base class. */
  datatype Emma = Emma(raw: map<string, Json>, shcInfo: Option<Info>, result: Json, callbacks: Observers)

  /** The raw result used until the first update: no version, no title and
      a reading of zero watts. */
  const DefaultResult: Json :=
    JObj(map[
      "version" := JStr(""),
      "localizedTitles" := JObj(map["en" := JStr("")]),
      "localizedInformation" := JObj(map["en" := JStr("0 W")])])

  /** The fields of the synthesised device. */
  const RawKeys: set<string> :=
    {"rootDeviceId", "id", "manufacturer", "roomId", "deviceModel", "serial", "name", "status", "deviceServiceIds"}

  /** The status of the synthesised device. */
  function Status(shcInfo: Option<Info>, rawResult: Json): (r: string)
    ensures r == "AVAILABLE" <==> Truthy(rawResult)
    ensures r == "UNAVAILABLE" <==> !Truthy(rawResult) && shcInfo.Some?
    ensures r == "UNDEFINED" <==> !Truthy(rawResult) && shcInfo.None?
  {
    if Truthy(rawResult) then "AVAILABLE"
    else if shcInfo.Some? then "UNAVAILABLE"
    else "UNDEFINED"
  }

  /** `SHCEmma(api, shc_info, raw_result)` as intended, with the base class
      given the synthesised record. The serial concatenates the MAC
      address, so an information object whose MAC is unset makes the
      constructor raise; without any information both the serial and the
      root device id are empty. */
  function New(shcInfo: Option<Info>, rawResult: Json): (r: Result<Emma>)
    ensures r.Ok? <==> shcInfo.None? || shcInfo.value.macAddress.Some?
    ensures r.Fail? ==> r.error.TypeError?
    ensures r.Ok? ==> r.value.raw.Keys == RawKeys
    ensures r.Ok? ==>
              && r.value.raw["id"] == JStr(EmmaId)
              && r.value.raw["deviceModel"] == JStr("EMMA")
              && r.value.raw["name"] == JStr("EMMA")
              && r.value.raw["deviceServiceIds"] == JArr([])
              && r.value.raw["status"] == JStr(Status(shcInfo, rawResult))
              && r.value.shcInfo == shcInfo
              && r.value.callbacks == []
    ensures r.Ok? && shcInfo.None? ==> r.value.raw["serial"] == JStr("") && r.value.raw["rootDeviceId"] == JStr("")
    ensures r.Ok? && shcInfo.Some? ==>
              && r.value.raw["rootDeviceId"] == JStr(shcInfo.value.macAddress.value)
              && r.value.raw["serial"] == JStr(shcInfo.value.macAddress.value + "_" + EmmaId)
    ensures r.Ok? && Truthy(rawResult) ==> r.value.result == rawResult
    ensures r.Ok? && !Truthy(rawResult) ==> r.value.result == DefaultResult
  {
    var serial :-
      match shcInfo
      case None => Ok("")
      case Some(Info(None)) => Fail(TypeError("unsupported operand type(s) for +: 'NoneType' and 'str'"))
      case Some(Info(Some(mac))) => Ok(mac + "_" + EmmaId);
    var root :=
      match shcInfo
      case None => ""
      case Some(info) => info.macAddress.value;
    var raw := map[
      "rootDeviceId" := JStr(root),
      "id" := JStr(EmmaId),
      "manufacturer" := JStr("BOSCH"),
      "roomId" := JStr(""),
      "deviceModel" := JStr("EMMA"),
      "serial" := JStr(serial),
      "name" := JStr("EMMA"),
      "status" := JStr(Status(shcInfo, rawResult)),
      "deviceServiceIds" := JArr([])];
    Ok(Emma(raw, shcInfo, if Truthy(rawResult) then rawResult else DefaultResult, []))
  }

  /** `SHCEmma(api, shc_info, raw_result)` as written: the base-class
      constructor is called with a `raw_device_services` keyword that
      `SHCDevice.__init__(api, raw_device)` does not accept, so every
      construction raises `TypeError`, once the serial has been built. */
  function NewAsWritten(shcInfo: Option<Info>, rawResult: Json): (r: Result<Emma>)
    ensures r.Fail? && r.error.TypeError?
    ensures r == Fail(TypeError("unexpected keyword argument 'raw_device_services'")) <==> New(shcInfo, rawResult).Ok?
  {
    var built :- New(shcInfo, rawResult);
    Fail(TypeError("unexpected keyword argument 'raw_device_services'"))
  }

  /** The discrepancy: the written constructor never yields an EMMA, while
      the intended one does for any information whose MAC is known. */
  lemma NewDiscrepancy(mac: Option<string>, rawResult: Json)
    ensures NewAsWritten(Some(Info(mac)), rawResult).Fail?
    ensures mac.Some? ==> New(Some(Info(mac)), rawResult).Ok?
  {
  }

  /** The MAC address can be read back from the serial. */
  lemma SerialRoundTrip(mac: string, rawResult: Json)
    ensures var e := New(Some(Info(Some(mac))), rawResult);
            && e.Ok?
            && e.value.raw["serial"].JStr?
            && var serial := e.value.raw["serial"].s;
            && |serial| == |mac| + 1 + |EmmaId|
            && serial[..|mac|] == mac
            && serial[|mac|..] == "_" + EmmaId
  {
    var serial := mac + "_" + EmmaId;
    assert serial[..|mac|] == mac;
    assert serial[|mac|..] == "_" + EmmaId;
  }

  /** `version`. */
  function Version(e: Emma): (r: Result<Json>)
    ensures r.Ok? <==> Has(e.result, "version")
    ensures r.Ok? ==> r.value == e.result.fields["version"]
  {
    Field(e.result, "version")
  }

  /** `localizedTitles`: the English title. */
  function LocalizedTitles(e: Emma): (r: Result<Json>)
    ensures r.Ok? <==> Has(e.result, "localizedTitles") && Has(e.result.fields["localizedTitles"], "en")
    ensures r.Ok? ==> r.value == e.result.fields["localizedTitles"].fields["en"]
  {
    var titles :- Field(e.result, "localizedTitles");
    Field(titles, "en")
  }

  /** `localizedInformation`: the English power reading. */
  function LocalizedInformation(e: Emma): (r: Result<Json>)
    ensures r.Ok? <==> Has(e.result, "localizedInformation") && Has(e.result.fields["localizedInformation"], "en")
    ensures r.Ok? ==> r.value == e.result.fields["localizedInformation"].fields["en"]
  {
    var info :- Field(e.result, "localizedInformation");
    Field(info, "en")
  }

  const Watts := " W"

  /** `parsedInformation`: the reading up to its first " W"; a reading that
      is not a text has no `split`. */
  function ParsedInformation(e: Emma): (r: Result<string>)
    ensures r.Ok? <==> LocalizedInformation(e).Ok? && LocalizedInformation(e).value.JStr?
    ensures r.Ok? ==> r.value <= LocalizedInformation(e).value.s
    ensures r.Ok? ==> forall i :: 0 <= i ==> !OccursAt(r.value, Watts, i)
  {
    var info :- LocalizedInformation(e);
    if !info.JStr? then Fail(AttributeError("object has no attribute 'split'"))
    else Ok(SplitFirst(info.s, Watts))
  }

  /** A reading `p + " W" + rest` parses back to `p` whenever `p` itself
      holds no " W". */
  lemma PowerRoundTrip(p: string, rest: string)
    requires forall i :: 0 <= i ==> !OccursAt(p, Watts, i)
    ensures SplitFirst(p + Watts + rest, Watts) == p
  {
    var s := p + Watts + rest;
    forall i | 0 <= i < |p|
      ensures !OccursAt(s, Watts, i)
    {
      if i + 1 < |p| {
        assert s[i..i + 2] == p[i..i + 2];
        assert !OccursAt(p, Watts, i);
      } else {
        assert s[i + 1] == ' ';
        assert s[i..i + 2][1] == s[i + 1];
      }
    }
    SplitFirstAfterPrefix(p, Watts, rest);
  }

  /** A device built without a raw result reports zero watts. */
  lemma DefaultReadsZero(shcInfo: Option<Info>)
    requires shcInfo.None? || shcInfo.value.macAddress.Some?
    ensures var e := New(shcInfo, JNull).value;
            Version(e) == Ok(JStr("")) && LocalizedTitles(e) == Ok(JStr("")) && ParsedInformation(e) == Ok("0")
  {
    ZeroWatts();
  }

  /** The reading "0 W" parses to "0". */
  lemma ZeroWatts()
    ensures SplitFirst("0 W", Watts) == "0"
  {
    assert forall i :: 0 <= i ==> !OccursAt("0", Watts, i);
    PowerRoundTrip("0", "");
    assert "0" + Watts + "" == "0 W";
  }

  /** `update_emma_data(raw_result)`: refused without information;
      otherwise the result is replaced, the status becomes AVAILABLE and
      every callback runs once. */
  function UpdateEmmaData(e: Emma, rawResult: Json): (st: Step<Emma>)
    ensures st.error.Some? <==> e.shcInfo.None?
    ensures st.error.Some? ==> st.error.value.ShcException? && st.state == e && st.effects == []
    ensures st.error.None? ==>
              && st.state.result == rawResult
              && "status" in st.state.raw && st.state.raw["status"] == JStr("AVAILABLE")
              && (forall k | k in e.raw && k != "status" :: k in st.state.raw && st.state.raw[k] == e.raw[k])
              && st.state.raw.Keys == e.raw.Keys + {"status"}
              && st.state.shcInfo == e.shcInfo && st.state.callbacks == e.callbacks
              && |st.effects| == |e.callbacks|
              && forall t | t in Keys(e.callbacks) :: exists i | 0 <= i < |st.effects| :: st.effects[i].Notified? && st.effects[i].token == t
  {
    if e.shcInfo.None? then Step(e, [], Some(ShcException("Error due to missing initialization!")))
    else Step(e.(result := rawResult, raw := e.raw["status" := JStr("AVAILABLE")]), Notify(e.callbacks), None)
  }

  /** After an update carrying the reading `p + " W"`, the parsed reading is
      `p`. */
  lemma UpdateThenParse(e: Emma, p: string, version: Json)
    requires e.shcInfo.Some?
    requires forall i :: 0 <= i ==> !OccursAt(p, Watts, i)
    ensures var raw := JObj(map["version" := version, "localizedInformation" := JObj(map["en" := JStr(p + Watts)])]);
            var st := UpdateEmmaData(e, raw);
            ParsedInformation(st.state) == Ok(p) && Version(st.state) == Ok(version)
  {
    PowerRoundTrip(p, "");
    assert p + Watts + "" == p + Watts;
  }
}
