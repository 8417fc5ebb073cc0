/** Controller information (boschshcpy/information.py): the listener that
    collects mDNS announcements, and the filter that picks the
    controller's MAC address and host name out of them. The discovery
    itself is a network service; its outcome, the table of announcements,
    is an input here. */
module Information {
  import opened PyJson
  import opened PyStrings
  import opened PyDicts

  /** What an mDNS announcement carries that the filter reads: the
      service name, the server host name and the IPv4 addresses. */
  datatype ServiceInfo = ServiceInfo(name: string, server: string, addresses: seq<string>)

  /** The listener's table: service name to announcement; `None` marks a
      service that went away, or one whose details could not be fetched. */
  type Announcements = PyDict<string, Option<ServiceInfo>>

  /** `add_service`: the fetched details are stored under the name. */
  function AddService(l: Announcements, name: string, info: Option<ServiceInfo>): (r: Announcements)
    ensures Get(r, name) == Some(info)
    ensures forall n | n != name :: Get(r, n) == Get(l, n)
    ensures Keys(r) == Keys(l) + {name}
  {
    Put(l, name, info)
  }

  /** `remove_service`: the entry stays, set to `None`. */
  function RemoveService(l: Announcements, name: string): (r: Announcements)
    ensures Get(r, name) == Some(None)
    ensures forall n | n != name :: Get(r, n) == Get(l, n)
    ensures Keys(r) == Keys(l) + {name}
  {
    Put(l, name, None)
  }

  /** `update_service` ignores the notification. */
  function UpdateService(l: Announcements): (r: Announcements)
    ensures Keys(r) == Keys(l) && forall n :: Get(r, n) == Get(l, n)
  {
    l
  }

  /** A removed service stays listed, but its details are gone even if it
      was added before. */
  lemma AddThenRemove(l: Announcements, name: string, info: Option<ServiceInfo>)
    ensures RemoveService(AddService(l, name, info), name) == RemoveService(l, name)
  {
    var a := AddService(l, name, info);
    var i := IndexOf(l, name);
    if i < 0 {
      assert a == l + [(name, info)];
      assert IndexOf(a, name) == |l|;
    }
  }

  const Marker := "Bosch SHC"
  const LocalSuffix := ".local."

  /** The MAC address inside a service name: the text between the first
      '[' and the first ']', with Python's `find` and slicing, so a
      missing bracket shifts the bounds rather than failing. */
  function MacOf(name: string): (r: string)
    ensures |r| <= |name|
  {
    PySlice(name, Find(name, "[") + 1, Find(name, "]"))
  }

  /** A name shaped "prefix[mac]rest" yields the text between the
      brackets. */
  lemma MacRoundTrip(p: string, mac: string, rest: string)
    requires '[' !in p && ']' !in p && ']' !in mac
    ensures MacOf(p + "[" + mac + "]" + rest) == mac
  {
    var s := p + "[" + mac + "]" + rest;
    FindCharAfterPrefix(p, '[', mac + "]" + rest);
    assert p + ['['] + (mac + "]" + rest) == s;
    FindCharAfterPrefix(p + "[" + mac, ']', rest);
    assert p + "[" + mac + [']'] + rest == s;
    assert s[|p| + 1..|p| + 1 + |mac|] == mac;
  }

  /** Without any bracket the slice runs from the start to just before the
      last character, as `name[0:-1]` does. */
  lemma MacWithoutBrackets(name: string)
    requires '[' !in name && ']' !in name
    ensures |name| > 0 ==> MacOf(name) == name[..|name| - 1]
    ensures |name| == 0 ==> MacOf(name) == ""
  {
    forall i | 0 <= i < |name|
      ensures !OccursAt(name, "[", i) && !OccursAt(name, "]", i)
    {
      OccursAtChar(name, '[', i);
      OccursAtChar(name, ']', i);
    }
  }

  /** The host name: the server name before the first ".local.", or
      nothing when the marker is absent. */
  function ServerName(server: string): (r: Option<string>)
    ensures r.None? <==> !Contains(server, LocalSuffix)
    ensures r.Some? ==> r.value + LocalSuffix <= server && !Contains(r.value, LocalSuffix)
  {
    var pos := Find(server, LocalSuffix);
    if pos > -1 then
      assert server[..pos] + LocalSuffix == server[..pos + |LocalSuffix|];
      assert !Contains(server[..pos], LocalSuffix) by {
        forall i | 0 <= i && OccursAt(server[..pos], LocalSuffix, i)
          ensures false
        {
          assert server[..pos][i..i + |LocalSuffix|] == server[i..i + |LocalSuffix|];
          assert OccursAt(server, LocalSuffix, i);
        }
      }
      Some(server[..pos])
    else None
  }

  /** A host name without dots is read back from "host.local.". */
  lemma ServerNameRoundTrip(host: string, rest: string)
    requires '.' !in host
    ensures ServerName(host + LocalSuffix + rest) == Some(host)
  {
    var s := host + LocalSuffix + rest;
    forall i | 0 <= i < |host|
      ensures !OccursAt(s, LocalSuffix, i)
    {
      assert s[i] == host[i];
      if i + |LocalSuffix| <= |s| {
        assert s[i..i + |LocalSuffix|][0] == s[i];
      }
    }
    FindAfterPrefix(host, LocalSuffix, rest);
    assert s[..|host|] == host;
  }

  /** The marker at the very start gives an empty host name. */
  lemma ServerNameAtStart(rest: string)
    ensures ServerName(LocalSuffix + rest) == Some("")
  {
    ServerNameRoundTrip("", rest);
    assert "" + LocalSuffix + rest == LocalSuffix + rest;
  }

  /** What the filter has found so far. */
  datatype Found = Found(mac: Option<string>, name: Option<string>)

  /** An announcement is the controller's when its service name mentions
      the product and it lists the controller's address. */
  predicate IsController(info: ServiceInfo, controllerIp: string) {
    Contains(info.name, Marker) && controllerIp in info.addresses
  }

  /** One announcement's contribution: a matching one sets the MAC address,
      and the name too when its server carries the ".local." marker. */
  function Consider(f: Found, info: ServiceInfo, controllerIp: string): (r: Found)
    ensures !IsController(info, controllerIp) ==> r == f
    ensures IsController(info, controllerIp) ==> r.mac == Some(MacOf(info.name))
    ensures IsController(info, controllerIp) && ServerName(info.server).Some? ==> r.name == ServerName(info.server)
    ensures ServerName(info.server).None? ==> r.name == f.name
  {
    if !IsController(info, controllerIp) then f
    else
      var name := ServerName(info.server);
      Found(Some(MacOf(info.name)), if name.Some? then name else f.name)
  }

  /** `filter(devices)` over the announcements in table order. An entry
      set to `None` has no `name`, so it raises. */
  function Filter(infos: seq<Option<ServiceInfo>>, controllerIp: string, f: Found): (r: Result<Found>)
    ensures r.Fail? <==> None in infos
    ensures r.Fail? ==> r.error.AttributeError?
    decreases |infos|
  {
    if |infos| == 0 then Ok(f)
    else if infos[0].None? then Fail(AttributeError("'NoneType' object has no attribute 'name'"))
    else
      assert forall x | x in infos[1..] :: x in infos;
      assert None in infos <==> None in infos[1..];
      Filter(infos[1..], controllerIp, Consider(f, infos[0].value, controllerIp))
  }

  /** When no announcement is the controller's, the filter finds nothing
      beyond what it started from. */
  lemma {:induction false} FilterNoMatch(infos: seq<Option<ServiceInfo>>, controllerIp: string, f: Found)
    requires None !in infos
    requires forall i | 0 <= i < |infos| :: !IsController(infos[i].value, controllerIp)
    ensures Filter(infos, controllerIp, f) == Ok(f)
    decreases |infos|
  {
    if |infos| > 0 {
      assert infos[0] in infos;
      assert forall x | x in infos[1..] :: x in infos;
      FilterNoMatch(infos[1..], controllerIp, f);
    }
  }

  /** Filtering two runs of announcements is filtering the second run from
      where the first left off. */
  lemma {:induction false} FilterAppend(a: seq<Option<ServiceInfo>>, b: seq<Option<ServiceInfo>>, controllerIp: string, f: Found)
    requires None !in a
    ensures Filter(a, controllerIp, f).Ok?
    ensures Filter(a + b, controllerIp, f) == Filter(b, controllerIp, Filter(a, controllerIp, f).value)
    decreases |a|
  {
    if |a| == 0 {
      assert a + b == b;
    } else {
      assert (a + b)[1..] == a[1..] + b;
      assert (a + b)[0] == a[0];
      assert forall x | x in a[1..] :: x in a;
      FilterAppend(a[1..], b, controllerIp, Consider(f, a[0].value, controllerIp));
    }
  }

  /** The last matching announcement decides the MAC address, whatever
      came before it. */
  lemma LastMatchWins(a: seq<Option<ServiceInfo>>, info: ServiceInfo, controllerIp: string, f: Found)
    requires None !in a && IsController(info, controllerIp)
    ensures Filter(a + [Some(info)], controllerIp, f).Ok?
    ensures Filter(a + [Some(info)], controllerIp, f).value.mac == Some(MacOf(info.name))
  {
    FilterAppend(a, [Some(info)], controllerIp, f);
    assert [Some(info)][1..] == [];
  }

  /** The controller's information: the raw record and what the filter
      found. */
  datatype ShcInformation = ShcInformation(raw: Json, found: Found)

  /** `SHCInformation(api, raw)`: nothing is known until the filter has run
      over the discovered announcements; a missing MAC address or name is
      only logged. */
  function New(raw: Json, discovered: Announcements, controllerIp: string): (r: Result<ShcInformation>)
    ensures r.Ok? <==> None !in Values(discovered)
    ensures r.Ok? ==> r.value.raw == raw && Filter(Values(discovered), controllerIp, Found(None, None)) == Ok(r.value.found)
  {
    var found :- Filter(Values(discovered), controllerIp, Found(None, None));
    Ok(ShcInformation(raw, found))
  }

  /** `version` and `connectivityVersion`. */
  function Version(i: ShcInformation): (r: Result<Json>)
    ensures r.Ok? <==> Has(i.raw, "version")
    ensures r.Ok? ==> r.value == i.raw.fields["version"]
  {
    Field(i.raw, "version")
  }

  function ConnectivityVersion(i: ShcInformation): (r: Result<Json>)
    ensures r.Ok? <==> Has(i.raw, "connectivityVersion")
    ensures r.Ok? ==> r.value == i.raw.fields["connectivityVersion"]
  {
    Field(i.raw, "connectivityVersion")
  }

  /** `macAddress`. */
  function MacAddress(i: ShcInformation): Option<string> {
    i.found.mac
  }

  /** The members of `UpdateState`. */
  const UpdateStates: set<string> := {"NO_UPDATE_AVAILABLE", "DOWNLOADING", "UPDATE_IN_PROGRESS", "UPDATE_AVAILABLE"}

  /** `updateState`: the raw value must name one of the four members. */
  function UpdateState(i: ShcInformation): (r: Result<string>)
    ensures r.Ok? <==> Has(i.raw, "updateState") && i.raw.fields["updateState"].JStr? && i.raw.fields["updateState"].s in UpdateStates
    ensures r.Ok? ==> JStr(r.value) == i.raw.fields["updateState"]
    ensures Has(i.raw, "updateState") && r.Fail? ==> r.error.ValueError?
  {
    var v :- Field(i.raw, "updateState");
    EnumMember(v, UpdateStates)
  }
}
