/** The intrusion-detection domain (boschshcpy/domain_impl.py): five raw
    sub-states taken from one system-state snapshot and replaced one at a
    time by pushed records, a callback table, and the arm, disarm and mute
    actions. */
module IntrusionDomain {
  import opened PyJson
  import opened PyDicts
  import opened Effects

  datatype Intrusion = Intrusion(availability: Json, arming: Json, alarm: Json, profile: Json, gaps: Json,
                                 observers: Observers)

  /** `DOMAIN_STATES`: the `@type` tags the session forwards to the domain. */
  const DomainStates: set<string> := {"armingState", "alarmState", "securityGapState", "activeConfigurationProfile", "systemAvailability"}

  const ArmingStates: set<string> := {"SYSTEM_DISARMED", "SYSTEM_ARMED", "SYSTEM_ARMING"}
  const AlarmStates: set<string> := {"ALARM_OFF", "ALARM_ON", "ALARM_MUTED"}

  /** The fixed identity of the domain object. */
  const DomainId := "/intrusion"
  const DomainManufacturer := "BOSCH"
  const DomainName := "Intrusion Detection System"
  const DomainModel := "IDS"

  /** `MODEL_MAPPING` / `SUPPORTED_DOMAINS`. */
  const SupportedDomains: set<string> := {DomainModel}

  /** `SHCIntrusionSystem(api, snapshot)`: the five sub-states of the
      snapshot; a missing one raises and no object is made. */
  function New(snapshot: Json): (r: Result<Intrusion>)
    ensures r.Ok? <==> Has(snapshot, "systemAvailability") && Has(snapshot, "armingState") && Has(snapshot, "alarmState")
                       && Has(snapshot, "activeConfigurationProfile") && Has(snapshot, "securityGapState")
    ensures r.Ok? ==> r.value.availability == snapshot.fields["systemAvailability"]
                      && r.value.arming == snapshot.fields["armingState"]
                      && r.value.alarm == snapshot.fields["alarmState"]
                      && r.value.profile == snapshot.fields["activeConfigurationProfile"]
                      && r.value.gaps == snapshot.fields["securityGapState"]
                      && Keys(r.value.observers) == {}
  {
    var availability :- Field(snapshot, "systemAvailability");
    var arming :- Field(snapshot, "armingState");
    var alarm :- Field(snapshot, "alarmState");
    var profile :- Field(snapshot, "activeConfigurationProfile");
    var gaps :- Field(snapshot, "securityGapState");
    Ok(Intrusion(availability, arming, alarm, profile, gaps, []))
  }

  /** `build(api, model, snapshot)`: only the `IDS` model is supported. */
  function Build(model: string, snapshot: Json): (r: Result<Intrusion>)
    ensures model !in SupportedDomains ==> r == Fail(AssertionError("Domain model is supported"))
    ensures model in SupportedDomains ==> r == New(snapshot)
  {
    if model !in SupportedDomains then Fail(AssertionError("Domain model is supported")) else New(snapshot)
  }

  /** `short_poll`: the sub-states are replaced one by one, in the order
      availability, arming, alarm, profile, gaps, from a freshly fetched
      snapshot; a missing one raises and leaves the ones before it replaced.
      Callbacks are not run. */
  function ShortPoll(d: Intrusion, fetched: Result<Json>): (st: Step<Intrusion>)
    ensures st.effects == [] && st.state.observers == d.observers
    ensures fetched.Fail? ==> st.state == d && st.error == Some(fetched.error)
    ensures fetched.Ok? ==> (st.error.None? <==> New(fetched.value).Ok?)
    ensures fetched.Ok? && New(fetched.value).Ok? ==> st.state == New(fetched.value).value.(observers := d.observers)
    ensures fetched.Ok? && !Has(fetched.value, "systemAvailability") ==> st.state == d
    ensures fetched.Ok? && Has(fetched.value, "systemAvailability") ==>
              st.state.availability == fetched.value.fields["systemAvailability"]
  {
    match fetched
    case Fail(e) => Step(d, [], Some(e))
    case Ok(snapshot) =>
      match Field(snapshot, "systemAvailability")
      case Fail(e) => Step(d, [], Some(e))
      case Ok(availability) =>
        var d1 := d.(availability := availability);
        match Field(snapshot, "armingState")
        case Fail(e) => Step(d1, [], Some(e))
        case Ok(arming) =>
          var d2 := d1.(arming := arming);
          match Field(snapshot, "alarmState")
          case Fail(e) => Step(d2, [], Some(e))
          case Ok(alarm) =>
            var d3 := d2.(alarm := alarm);
            match Field(snapshot, "activeConfigurationProfile")
            case Fail(e) => Step(d3, [], Some(e))
            case Ok(profile) =>
              var d4 := d3.(profile := profile);
              match Field(snapshot, "securityGapState")
              case Fail(e) => Step(d4, [], Some(e))
              case Ok(gaps) => Step(d4.(gaps := gaps), [], None)
  }

  /** The order in which `short_poll` replaces the sub-states. */
  const PollOrder: seq<string> := ["systemAvailability", "armingState", "alarmState", "activeConfigurationProfile", "securityGapState"]

  /** A snapshot that holds the first `k` sub-states of the order but not
      the next one: the first `k` are replaced, the poll raises, and every
      later sub-state keeps its old value. */
  lemma ShortPollStopsAt(d: Intrusion, snapshot: Json, k: nat)
    requires k < |PollOrder|
    requires forall j | 0 <= j < k :: Has(snapshot, PollOrder[j])
    requires !Has(snapshot, PollOrder[k])
    ensures var st := ShortPoll(d, Ok(snapshot));
            && st.error.Some?
            && (forall j | 0 <= j < k :: Has(snapshot, PollOrder[j]) && SubState(st.state, PollOrder[j]) == snapshot.fields[PollOrder[j]])
            && (forall j | k <= j < |PollOrder| :: SubState(st.state, PollOrder[j]) == SubState(d, PollOrder[j]))
  {
    if k > 0 { assert Has(snapshot, PollOrder[0]); }
    if k > 1 { assert Has(snapshot, PollOrder[1]); }
    if k > 2 { assert Has(snapshot, PollOrder[2]); }
    if k > 3 { assert Has(snapshot, PollOrder[3]); }
  }

  /** The sub-state a tag names. */
  function SubState(d: Intrusion, tag: string): Json
    requires tag in DomainStates
  {
    match tag
    case "armingState" => d.arming
    case "alarmState" => d.alarm
    case "systemAvailability" => d.availability
    case "activeConfigurationProfile" => d.profile
    case "securityGapState" => d.gaps
  }

  /** `process_long_polling_poll_result`: the record replaces the sub-state
      its `@type` names, if any, and then every callback runs once, whatever
      the tag was. A record without `@type` raises before anything
      happens. */
  function ProcessPush(d: Intrusion, rec: Json): (st: Step<Intrusion>)
    ensures st.state.observers == d.observers
    ensures st.error.None? <==> Has(rec, "@type")
    ensures st.error.Some? ==> st.state == d && st.effects == []
    ensures st.error.None? ==> st.effects == Notify(d.observers)
    ensures forall tag | tag in DomainStates ::
              SubState(st.state, tag) == if Field(rec, "@type") == Ok(JStr(tag)) then rec else SubState(d, tag)
  {
    match Field(rec, "@type")
    case Fail(e) => Step(d, [], Some(e))
    case Ok(tag) =>
      var d1 := if tag == JStr("armingState") then d.(arming := rec) else d;
      var d2 := if tag == JStr("alarmState") then d1.(alarm := rec) else d1;
      var d3 := if tag == JStr("systemAvailability") then d2.(availability := rec) else d2;
      var d4 := if tag == JStr("activeConfigurationProfile") then d3.(profile := rec) else d3;
      var d5 := if tag == JStr("securityGapState") then d4.(gaps := rec) else d4;
      Step(d5, Notify(d.observers), None)
  }

  function Subscribe(d: Intrusion, token: Token, callback: Callback): (r: Intrusion)
    ensures Get(r.observers, token) == Some(callback)
    ensures forall t | t != token :: Get(r.observers, t) == Get(d.observers, t)
    ensures r.(observers := d.observers) == d
  {
    d.(observers := Put(d.observers, token, callback))
  }

  function Unsubscribe(d: Intrusion, token: Token): (r: Intrusion)
    ensures Get(r.observers, token) == None
    ensures forall t | t != token :: Get(r.observers, t) == Get(d.observers, t)
    ensures r.(observers := d.observers) == d
  {
    d.(observers := Pop(d.observers, token))
  }

  function SystemAvailability(d: Intrusion): Result<Json> { Field(d.availability, "available") }
  function AlarmStateIncidents(d: Intrusion): Result<Json> { Field(d.alarm, "incidents") }
  function SecurityGaps(d: Intrusion): Result<Json> { Field(d.gaps, "securityGaps") }

  function ArmingState(d: Intrusion): (r: Result<string>)
    ensures r.Ok? <==> Has(d.arming, "state") && d.arming.fields["state"].JStr? && d.arming.fields["state"].s in ArmingStates
    ensures r.Ok? ==> d.arming.fields["state"] == JStr(r.value)
  {
    var v :- Field(d.arming, "state");
    EnumMember(v, ArmingStates)
  }

  function AlarmState(d: Intrusion): (r: Result<string>)
    ensures r.Ok? <==> Has(d.alarm, "value") && d.alarm.fields["value"].JStr? && d.alarm.fields["value"].s in AlarmStates
    ensures r.Ok? ==> d.alarm.fields["value"] == JStr(r.value)
  {
    var v :- Field(d.alarm, "value");
    EnumMember(v, AlarmStates)
  }

  /** `remaining_time_until_armed`: the countdown while arming, 0 in any
      other arming state. */
  function RemainingTimeUntilArmed(d: Intrusion): (r: Result<Json>)
    ensures r.Ok? ==> ArmingState(d).Ok?
    ensures ArmingState(d).Ok? && ArmingState(d).value != "SYSTEM_ARMING" ==> r == Ok(JInt(0))
    ensures ArmingState(d) == Ok("SYSTEM_ARMING") ==> r == Field(d.arming, "remainingTimeUntilArmed")
  {
    var state :- ArmingState(d);
    if state == "SYSTEM_ARMING" then Field(d.arming, "remainingTimeUntilArmed") else Ok(JInt(0))
  }

  /** `Profile`: the configuration profiles and their numbers. */
  datatype Profile = FullProtection | PartialProtection | CustomProtection

  function ProfileNumber(p: Profile): int {
    match p
    case FullProtection => 0
    case PartialProtection => 1
    case CustomProtection => 2
  }

  /** `Profile(n)`: only 0, 1 and 2 name a profile. */
  function ProfileOf(n: int): (r: Result<Profile>)
    ensures r.Ok? <==> 0 <= n <= 2
    ensures r.Ok? ==> ProfileNumber(r.value) == n
  {
    if n == 0 then Ok(FullProtection)
    else if n == 1 then Ok(PartialProtection)
    else if n == 2 then Ok(CustomProtection)
    else Fail(ValueError("is not a valid Profile"))
  }

  lemma ProfileNumberRoundTrip(p: Profile)
    ensures ProfileOf(ProfileNumber(p)) == Ok(p)
  {
  }

  /** `active_configuration_profile`: `Profile(int(profile["profileId"]))`. */
  function ActiveProfile(d: Intrusion): (r: Result<Profile>)
    ensures r.Ok? ==> Has(d.profile, "profileId") && PyInt(d.profile.fields["profileId"]) == Ok(ProfileNumber(r.value))
    ensures r.Ok? <==> Has(d.profile, "profileId") && PyInt(d.profile.fields["profileId"]).Ok?
                       && 0 <= PyInt(d.profile.fields["profileId"]).value <= 2
    ensures Has(d.profile, "profileId") && PyInt(d.profile.fields["profileId"]).Ok? ==>
              (r.Ok? ==> ProfileOf(PyInt(d.profile.fields["profileId"]).value) == r)
    ensures !Has(d.profile, "profileId") ==> r.Fail?
  {
    var id :- Field(d.profile, "profileId");
    var n :- PyInt(id);
    ProfileOf(n)
  }

  const ArmPath := "intrusion/actions/arm"
  const DisarmPath := "intrusion/actions/disarm"
  const MutePath := "intrusion/actions/mute"

  /** The decimal text of a profile number, as the arm requests send it. */
  function ProfileIdText(p: Profile): (t: string)
    ensures ParseInt(t) == Ok(ProfileNumber(p))
  {
    match p
    case FullProtection => "0"
    case PartialProtection => "1"
    case CustomProtection => "2"
  }

  /** `arm()`: a POST without a body. */
  function Arm(): Request { PostDomainAction(ArmPath, JNull) }
  function Disarm(): Request { PostDomainAction(DisarmPath, JNull) }
  function Mute(): Request { PostDomainAction(MutePath, JNull) }

  /** `arm_full_protection`, `arm_partial_protection` and
      `arm_individual_protection`: an `armRequest` naming the profile. */
  function ArmProtection(p: Profile): (r: Request)
    ensures r.PostDomainAction? && r.path == ArmPath
    ensures Field(r.body, "@type") == Ok(JStr("armRequest"))
    ensures Field(r.body, "profileId") == Ok(JStr(ProfileIdText(p)))
  {
    PostDomainAction(ArmPath, JObj(map["@type" := JStr("armRequest"), "profileId" := JStr(ProfileIdText(p))]))
  }

  /** Arming a profile and reading it back: once the controller reports the
      request's profile id as the active configuration profile, the domain
      reads the profile that was requested. */
  lemma ArmThenReadProfile(d: Intrusion, p: Profile)
    ensures var body := ArmProtection(p).body;
            var rec := JObj(map["@type" := JStr("activeConfigurationProfile"), "profileId" := body.fields["profileId"]]);
            ActiveProfile(ProcessPush(d, rec).state) == Ok(p)
  {
    var body := ArmProtection(p).body;
    var rec := JObj(map["@type" := JStr("activeConfigurationProfile"), "profileId" := body.fields["profileId"]]);
    assert SubState(ProcessPush(d, rec).state, "activeConfigurationProfile") == rec;
  }
}
