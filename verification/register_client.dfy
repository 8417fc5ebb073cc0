/** Client registration with the controller, in both packages: the newer
    `SHCRegisterClient.register` (boschshcpy/register_client.py) and the
    legacy `Api.register_client` (BoschShcPy/api.py). Both flatten the
    client certificate into the one-line form the controller expects.
    Certificate generation, the file system and the HTTP exchange are
    inputs. */
module Registration {
  import opened PyJson
  import opened PyStrings
  import opened Effects

  /** The encapsulation boundaries of a PEM certificate (section 2 of
      RFC 7468). */
  const BeginMarker := "-----BEGIN CERTIFICATE-----"
  const EndMarker := "-----END CERTIFICATE-----"

  /** The certificate as sent: every line feed removed, then a carriage
      return put after each BEGIN boundary and before each END boundary. */
  function Normalise(pem: string): (r: string)
    ensures '\n' !in r
  {
    var joined := ReplaceAll(pem, "\n", "");
    var withBegin := ReplaceAll(joined, BeginMarker, BeginMarker + "\r");
    var withEnd := ReplaceAll(withBegin, EndMarker, "\r" + EndMarker);
    ReplaceCharRemoves(pem, '\n', "");
    assert '\n' !in withBegin by {
      if '\n' in withBegin {
        ReplaceAllChars(joined, BeginMarker, BeginMarker + "\r", '\n');
      }
    }
    assert '\n' !in withEnd by {
      if '\n' in withEnd {
        ReplaceAllChars(withBegin, EndMarker, "\r" + EndMarker, '\n');
      }
    }
    withEnd
  }

  /** No END boundary starts inside the BEGIN boundary or the carriage
      return that follows it. */
  lemma NoEndInOpening(rest: string)
    ensures forall i | 0 <= i < |BeginMarker| + 1 :: !OccursAt(BeginMarker + "\r" + rest, EndMarker, i)
  {
    var t := BeginMarker + "\r" + rest;
    assert forall k | 0 <= k < 5 :: EndMarker[k] == '-';
    assert EndMarker[5] == 'E';
    assert forall j | 0 <= j < 5 :: t[j] == '-';
    assert t[5] == 'B';
    assert forall j | 6 <= j < 22 :: t[j] != '-';
    assert forall j | 22 <= j < 27 :: t[j] == '-';
    assert t[27] == '\r';
    forall i | 0 <= i < |BeginMarker| + 1
      ensures !OccursAt(t, EndMarker, i)
    {
      if i + |EndMarker| <= |t| {
        var k := if t[i] != '-' then 0 else if i <= 4 then 5 - i else 27 - i;
        assert t[i..i + |EndMarker|][k] == t[i + k];
        assert t[i + k] != EndMarker[k];
      }
    }
  }

  /** A boundary pattern cannot start inside a text free of '-'. */
  lemma NoBoundaryInBody(a: string, b: string, marker: string)
    requires '-' !in a && |marker| > 0 && marker[0] == '-'
    ensures forall i | 0 <= i < |a| :: !OccursAt(a + b, marker, i)
  {
    forall i | 0 <= i < |a|
      ensures !OccursAt(a + b, marker, i)
    {
      assert (a + b)[i] == a[i];
      if i + |marker| <= |a + b| {
        assert (a + b)[i..i + |marker|][0] == (a + b)[i];
      }
    }
  }

  /** Removing the line feeds from a text between two lines free of them
      keeps those two lines and joins the text. */
  lemma JoinAround(pre: string, body: string, post: string)
    requires '\n' !in pre && '\n' !in post
    ensures ReplaceAll(pre + "\n" + body + post, "\n", "") == pre + ReplaceAll(body, "\n", "") + post
  {
    var p1 := pre + "\n";
    var p2 := p1 + body;
    ReplaceCharAbsent(pre, '\n', "");
    ReplaceCharAbsent(post, '\n', "");
    assert ReplaceAll("\n", "\n", "") == "";
    ReplaceCharAppend(pre, "\n", '\n', "");
    assert ReplaceAll(p1, "\n", "") == pre;
    ReplaceCharAppend(p1, body, '\n', "");
    assert ReplaceAll(p2, "\n", "") == pre + ReplaceAll(body, "\n", "");
    ReplaceCharAppend(p2, post, '\n', "");
  }

  /** Removing the line feeds from a PEM certificate leaves the two
      boundaries around the joined base64 text. */
  lemma JoinLines(body: string)
    requires '-' !in body
    ensures ReplaceAll(BeginMarker + "\n" + body + EndMarker + "\n", "\n", "")
            == BeginMarker + ReplaceAll(body, "\n", "") + EndMarker
    ensures '-' !in ReplaceAll(body, "\n", "")
  {
    var p3 := BeginMarker + "\n" + body + EndMarker;
    JoinAround(BeginMarker, body, EndMarker);
    assert ReplaceAll("\n", "\n", "") == "";
    ReplaceCharAppend(p3, "\n", '\n', "");
    if '-' in ReplaceAll(body, "\n", "") {
      ReplaceAllChars(body, "\n", "", '-');
    }
  }

  /** The BEGIN boundary is found at the start and nowhere after it. */
  lemma InsertAfterBegin(b: string)
    requires '-' !in b
    ensures ReplaceAll(BeginMarker + b + EndMarker, BeginMarker, BeginMarker + "\r")
            == BeginMarker + "\r" + b + EndMarker
  {
    var joined := BeginMarker + b + EndMarker;
    assert joined[..|BeginMarker|] == BeginMarker;
    assert joined[|BeginMarker|..] == b + EndMarker;
    NoBoundaryInBody(b, EndMarker, BeginMarker);
    ReplaceAllSkip(b, EndMarker, BeginMarker, BeginMarker + "\r");
    assert ReplaceAll(EndMarker, BeginMarker, BeginMarker + "\r") == EndMarker;
  }

  /** The END boundary is found only at the end. */
  lemma InsertBeforeEnd(b: string)
    requires '-' !in b
    ensures ReplaceAll(BeginMarker + "\r" + b + EndMarker, EndMarker, "\r" + EndMarker)
            == BeginMarker + "\r" + b + "\r" + EndMarker
  {
    NoEndInOpening(b + EndMarker);
    NoBoundaryInBody(b, EndMarker, EndMarker);
    var a := BeginMarker + "\r" + b;
    assert BeginMarker + "\r" + (b + EndMarker) == a + EndMarker;
    forall i | |BeginMarker| + 1 <= i < |a|
      ensures !OccursAt(a + EndMarker, EndMarker, i)
    {
      var j := i - |BeginMarker| - 1;
      if i + |EndMarker| <= |a + EndMarker| {
        assert (a + EndMarker)[i..i + |EndMarker|] == (b + EndMarker)[j..j + |EndMarker|];
      }
    }
    ReplaceAllSkip(a, EndMarker, EndMarker, "\r" + EndMarker);
    assert EndMarker[..|EndMarker|] == EndMarker;
    assert EndMarker[|EndMarker|..] == "";
    assert ReplaceAll(EndMarker, EndMarker, "\r" + EndMarker) == "\r" + EndMarker;
  }

  /** A certificate laid out as RFC 7468 describes it, the BEGIN line, the
      base64 lines, each ending in a line feed, and the END line, is sent
      as the BEGIN boundary, a carriage return, the base64 text joined into
      one line, a carriage return and the END boundary. */
  lemma NormalisePem(body: string)
    requires '-' !in body
    ensures Normalise(BeginMarker + "\n" + body + EndMarker + "\n")
            == BeginMarker + "\r" + ReplaceAll(body, "\n", "") + "\r" + EndMarker
  {
    JoinLines(body);
    InsertAfterBegin(ReplaceAll(body, "\n", ""));
    InsertBeforeEnd(ReplaceAll(body, "\n", ""));
  }

  /** `https://{ip}:8443/smarthome/clients`. */
  const RegistrationSuffix := ":8443/smarthome/clients"

  function RegistrationUrl(controllerIp: string): (r: string)
    ensures |r| == |"https://"| + |controllerIp| + |RegistrationSuffix|
    ensures r[..8] == "https://" && r[8..8 + |controllerIp|] == controllerIp
    ensures r[8 + |controllerIp|..] == RegistrationSuffix
  {
    var r := "https://" + controllerIp + RegistrationSuffix;
    assert r[8..8 + |controllerIp|] == controllerIp;
    r
  }

  /** The client name the controller shows: `oss_{name}_Binding`. */
  function BindingName(name: string): (r: string)
    ensures |r| == |name| + 12
    ensures r[4..|r| - 8] == name
  {
    var r := "oss_" + name + "_Binding";
    assert r[4..|r| - 8] == name;
    r
  }

  /** The registration body of the newer package. */
  function RegistrationBody(clientId: string, name: string, certificate: string): (r: Json)
    ensures r.JObj? && r.fields.Keys == {"@type", "id", "name", "primaryRole", "certificate"}
    ensures r.fields["@type"] == JStr("client") && r.fields["primaryRole"] == JStr("ROLE_RESTRICTED_CLIENT")
    ensures r.fields["id"] == JStr(clientId) && r.fields["name"] == JStr(BindingName(name))
    ensures r.fields["certificate"] == JStr(certificate)
  {
    JObj(map[
      "@type" := JStr("client"),
      "id" := JStr(clientId),
      "name" := JStr(BindingName(name)),
      "primaryRole" := JStr("ROLE_RESTRICTED_CLIENT"),
      "certificate" := JStr(certificate)])
  }

  /** What `generate_certificate` returns: the certificate and the private
      key, both PEM text. */
  datatype KeyPair = KeyPair(cert: string, key: string)

  /** `register(session, client_id, name, certificate)`. Without a
      certificate path (or with an empty one) a fresh key pair is used;
      a path the file system does not know ends the registration with
      `None` before anything is sent. `readFile` gives the content of an
      existing file, `response` the controller's decoded answer or the
      registration error raised for it. */
  function Register(clientId: string, name: string, certificate: Option<string>, generated: KeyPair,
                    readFile: string -> Option<string>, response: Result<Json>): (r: (seq<Effect>, Result<Json>))
    ensures var useFile := certificate.Some? && certificate.value != "";
            useFile && readFile(certificate.value).None? ==> r == ([], Ok(JNull))
    ensures var useFile := certificate.Some? && certificate.value != "";
            var pem := if useFile then readFile(certificate.value) else Some(generated.cert);
            pem.Some? ==> r.0 == [Sent(PostRegistration(RegistrationBody(clientId, name, Normalise(pem.value))))]
    ensures response.Fail? && r.0 != [] ==> r.1 == Fail(response.error)
    ensures response.Ok? && r.0 != [] && Has(response.value, "token") ==>
              && r.1.Ok? && r.1.value.JObj? && r.1.value.fields.Keys == {"token", "cert", "key"}
              && r.1.value.fields["token"] == response.value.fields["token"]
    ensures response.Ok? && r.0 != [] && response.value.JObj? && !Has(response.value, "token") ==> r.1 == Ok(JNull)
    ensures r.1.Ok? && r.1.value != JNull ==> r.0 != [] && response.Ok? && Has(response.value, "token")
    ensures r.1.Ok? && r.1.value != JNull && certificate.Some? && certificate.value != "" ==>
              r.1.value.fields["cert"] == JNull && r.1.value.fields["key"] == JNull
    ensures r.1.Ok? && r.1.value != JNull && !(certificate.Some? && certificate.value != "") ==>
              r.1.value.fields["cert"] == JStr(generated.cert) && r.1.value.fields["key"] == JStr(generated.key)
  {
    var useFile := certificate.Some? && certificate.value != "";
    var pem := if useFile then readFile(certificate.value) else Some(generated.cert);
    if pem.None? then ([], Ok(JNull))
    else
      var cert := if useFile then JNull else JStr(generated.cert);
      var key := if useFile then JNull else JStr(generated.key);
      var sent := [Sent(PostRegistration(RegistrationBody(clientId, name, Normalise(pem.value))))];
      match response
      case Fail(e) => (sent, Fail(e))
      case Ok(result) =>
        match PyIn("token", result)
        case Fail(e) => (sent, Fail(e))
        case Ok(hasToken) =>
          if !hasToken then (sent, Ok(JNull))
          else
            match Field(result, "token")
            case Fail(e) => (sent, Fail(e))
            case Ok(token) => (sent, Ok(JObj(map["token" := token, "cert" := cert, "key" := key])))
  }

  /** The body of the legacy registration: a fixed client id, operating
      system and notification token, no roles besides the primary one,
      and the name as given. */
  const LegacyClientId := "0123456789:host012345"

  function LegacyBody(name: Json, certificate: string): (r: Json)
    ensures r.JObj? && r.fields.Keys == {"@type", "id", "name", "os", "pushNotificationToken", "primaryRole", "roles", "dynamicRoles", "certificate"}
    ensures r.fields["id"] == JStr(LegacyClientId) && r.fields["os"] == JStr("ANDROID")
    ensures r.fields["primaryRole"] == JStr("ROLE_RESTRICTED_CLIENT")
    ensures r.fields["roles"] == JArr([]) && r.fields["dynamicRoles"] == JArr([])
    ensures r.fields["name"] == name && r.fields["certificate"] == JStr(certificate)
  {
    JObj(map[
      "@type" := JStr("client"),
      "id" := JStr(LegacyClientId),
      "name" := name,
      "os" := JStr("ANDROID"),
      "pushNotificationToken" := JStr("aGcmToken"),
      "primaryRole" := JStr("ROLE_RESTRICTED_CLIENT"),
      "roles" := JArr([]),
      "dynamicRoles" := JArr([]),
      "certificate" := JStr(certificate)])
  }

  /** `Api.register_client(name, password)`. `certificate` is the content
      of the access certificate file, absent when the file does not
      exist; `keyExists` says whether the key file does. A client error
      (`ErrorException`) is reported and the call returns `None`. */
  function LegacyRegister(name: Json, password: Json, certificate: Option<string>, keyExists: bool,
                          response: Result<Json>): (r: (seq<Effect>, Result<Json>))
    ensures certificate.None? || !keyExists || password == JNull ==> r == ([], Ok(JStr("")))
    ensures certificate.Some? && keyExists && password != JNull ==>
              r.0 == [Sent(ClientCall("POST", "smarthome/clients", LegacyBody(name, Normalise(certificate.value))))]
    ensures r.0 != [] && response.Fail? ==>
              r.1 == (if response.error.ClientError? then Ok(JNull) else Fail(response.error))
    ensures r.0 != [] && response.Ok? && response.value.JObj? ==>
              r.1 == Ok(if "token" in response.value.fields then response.value.fields["token"] else JStr(""))
  {
    if certificate.None? || !keyExists then ([], Ok(JStr("")))
    else if password == JNull then ([], Ok(JStr("")))
    else
      var sent := [Sent(ClientCall("POST", "smarthome/clients", LegacyBody(name, Normalise(certificate.value))))];
      match response
      case Fail(e) => (sent, if e.ClientError? then Ok(JNull) else Fail(e))
      case Ok(result) =>
        match PyIn("token", result)
        case Fail(e) => (sent, Fail(e))
        case Ok(hasToken) =>
          if !hasToken then (sent, Ok(JStr("")))
          else (sent, Field(result, "token"))
  }

  /** Both packages send the same certificate text for the same file. */
  lemma SameCertificate(clientId: string, name: string, path: string, pem: string, generated: KeyPair,
                        readFile: string -> Option<string>, response: Result<Json>)
    requires path != "" && readFile(path) == Some(pem)
    ensures var newer := Register(clientId, name, Some(path), generated, readFile, response).0;
            var legacy := LegacyRegister(JStr(name), JStr("secret"), Some(pem), true, response).0;
            newer[0].request.body.fields["certificate"] == legacy[0].request.body.fields["certificate"]
  {
  }
}
