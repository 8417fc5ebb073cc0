# boschshcpy in Dafny

A model of the client library for the Bosch Smart Home Controller (SHC), with proofs about it. The model covers two packages and a local variant.

- **`boschshcpy`** is the current package:
  - the session registry, which holds the services by device id, the devices by id, rooms, scenarios, the intrusion domain, the long-poll id and the scenario callback;
  - the event router, which sends every long-poll record to its device, service or domain;
  - the polling loop, one pass at a time;
  - the device and device-service entities, with their callback tables;
  - the intrusion domain;
  - the JSON-RPC request builders and response classifier (sections 5 and 6 of the JSON-RPC 2.0 Specification);
  - the service interpretations and the `build` table;
  - the device helper's model buckets;
  - the setter encoders of the device models;
  - the EMMA energy-manager entity;
  - mDNS name parsing;
  - client registration, including certificate normalisation between the PEM boundaries of section 2 of RFC 7468.
- **`BoschShcPy`** is the legacy package:
  - the `Base.load_dict` merge, which only touches existing attributes;
  - `BaseList`;
  - the push router `Subscription` and the one-entity `AsyncUpdate`;
  - each entity's rx/tx tables, `update_from_query` guards, commands and `initialize_*` filters;
  - registration.
- **`bosch-shc-py`** is a local variant: its service `build` table and the room-climate setters.

## Representation

- JSON values are the `PyJson.Json` datatype. Python `None` is `JNull`.
- A Python exception is an `Error` value. Operations that may raise return a `Result`.
- Stateful operations return a `Step`. A `Step` holds:
  - the new state, including any partial change made before an exception;
  - the effects performed, in order;
  - the exception, if one escaped.
- Effects cover requests sent, callbacks run and sleeps.
- Python dicts are `PyDicts.PyDict`: sequences of pairs with unique keys. This keeps insertion order, which callback order and bucket order depend on.
- Object identity is modelled with a heap of references. This covers the entities the session's maps and the helper's buckets share, and the entities the legacy router registers.
- Legacy entities are attribute maps. A fixed key set is their class invariant.
- Everything outside the library is a parameter. This includes:
  - the network replies;
  - `json.loads`;
  - date parsing;
  - reading the certificate file;
  - generated key pairs;
  - the device constructor the helper calls.

## Model

| member | source | states |
|---|---|---|
| Api.DeviceServicePathInjective | boschshcpy/api.py:161-169 | two slash-free device ids with their service ids never produce the same device-service URL |
| Api.CheckedGet | boschshcpy/api.py:70-94 | a result is returned only for a success status, and it carries the expected `@type`, or each element does when an element type is expected |
| Api.AllTagged | boschshcpy/api.py:89-91 | the element check passes exactly when every element's `@type` is the expected one |
| Api.CheckedWrite | boschshcpy/api.py:96-118 | a PUT or POST answers its body exactly when the status is a success, and raises SHCSessionError otherwise |
| Api.InformationOrNone | boschshcpy/api.py:121-137 | information reads answer the result, or None when the read failed in any way |
| Api.CallRoundTrip | boschshcpy/api.py:179-224 | the one-call JSON-RPC batch gives back the method and parameters it was built from |
| Api.SubscribeBody | boschshcpy/api.py:179-186 | the subscribe call asks for `RE/subscribe` on `com/bosch/sh/remote/*` with a null second parameter |
| Api.PollBody | boschshcpy/api.py:196-203 | the long-poll call carries the poll id and the wait in seconds |
| Api.PollTimeout | boschshcpy/api.py:204-206 | the HTTP timeout of a long poll is the server-side wait plus five seconds, so it always exceeds the wait |
| Api.UnsubscribeBody | boschshcpy/api.py:215-216 | the unsubscribe call carries just the poll id |
| Api.RpcResult | boschshcpy/api.py:187-194 | the first response must be version 2.0; an `error` member raises JSONRPCError with its code and message, otherwise the `result` is answered |
| Api.ResultReplyDecodes | boschshcpy/api.py:187-194 | a well-formed success reply decodes to its result |
| Api.ErrorReplyDecodes | boschshcpy/api.py:189-192 | a well-formed error reply raises JSONRPCError with exactly its code and message |
| Api.RpcOutcome | boschshcpy/api.py:187-224 | a JSON-RPC call fails with SHCSessionError on a bad status and otherwise decodes the reply |
| DeviceServices.StateOf | boschshcpy/device_service.py:8-12 | the state is the record's `state` member, or an empty object when it has none |
| DeviceServices.New | boschshcpy/device_service.py:5-14 | a new service holds its record and that record's state, and no callbacks |
| DeviceServices.Subscribe | boschshcpy/device_service.py:32-33 | subscribing binds the entity to its callback, replacing an earlier one, and changes no other binding |
| DeviceServices.Unsubscribe | boschshcpy/device_service.py:35-36 | unsubscribing removes the entity's binding, if any, and changes no other binding |
| DeviceServices.PutState | boschshcpy/device_service.py:43-46 | the PUT goes to the service's device and id, with the state's `@type` merged under the given pairs (the pairs win a clash); the local state is untouched |
| DeviceServices.PutStateElement | boschshcpy/device_service.py:48-49 | a single-element PUT body holds exactly `@type` and the key, with the given value |
| DeviceServices.ShortPoll | boschshcpy/device_service.py:51-57 | the record fetched for the service's device and id replaces the record, and its state (or an empty one) the state; callbacks are kept and not run |
| DeviceServices.ProcessPush | boschshcpy/device_service.py:59-68 | a pushed record must be DeviceServiceData and replaces the record before any state check; a state of the held type replaces the state and runs every callback once; a record without a state changes no state and runs none |
| DeviceServices.PushKeepsStateType | boschshcpy/device_service.py:63-65 | an accepted push keeps the `@type` of the state |
| DeviceServices.PushIdempotent | boschshcpy/device_service.py:59-68 | delivering an accepted record a second time leaves the service as the first delivery did and runs the callbacks again |
| Devices.SupportedIdsInCons | boschshcpy/device.py:21-23 | the supported ids of a list are those of its head, if supported, and those of its tail |
| Devices.AddServices | boschshcpy/device.py:20-30 | enumeration succeeds iff every id is hashable and every supported id's service builds; the result adds exactly the supported ids, each bound to the service built from its fetched record, and keeps every other binding |
| Devices.New | boschshcpy/device.py:12-30 | a device is built only from a list of `deviceServiceIds`; it holds its record, no callbacks, and a service for exactly the supported ids in the list, built iff every id is hashable and every supported one builds |
| Devices.NewNeedsList | boschshcpy/device.py:21-22 | a `deviceServiceIds` that is not a list gives TypeError, which Python does not raise for a string or a dict |
| Devices.OptionalMembers | boschshcpy/device.py:44-58 | `room_id`, `serial`, `profile`, `child_device_ids` and `parent_device_id` read the member when present and None when absent |
| Devices.DeletedMeansTrue | boschshcpy/device.py:68-74 | `deleted` holds iff the member is present and equal to true under Python's `==` |
| Devices.DeviceService | boschshcpy/device.py:114-119 | a service is answered iff its id is among `device_service_ids`, and it is the service held under that id |
| Devices.Subscribe | boschshcpy/device.py:100-101 | subscribing binds the entity to its callback, replacing any earlier one, and changes nothing else |
| Devices.Unsubscribe | boschshcpy/device.py:103-104 | unsubscribing an entity removes only its binding; an absent entity changes nothing |
| Devices.UpdateRawInformation | boschshcpy/device.py:106-112 | a record with an equal id replaces the raw record and runs every callback once; another id raises SHCException and changes nothing |
| Devices.UpdateThenRead | boschshcpy/device.py:106-112 | after an update the accessors read the new record and the services are unchanged |
| Devices.ProcessPush | boschshcpy/device.py:135-144 | a pushed record must be DeviceServiceData; it reaches only the service whose id it names, and a record for a service the device does not hold changes nothing |
| Devices.PushIdempotent | boschshcpy/device.py:135-140 | delivering an accepted record twice leaves the device as one delivery did |
| ServicesImpl.SupportedServiceIdsFacts | boschshcpy/services_impl.py:607-641 | the mapping lists 29 service ids, SmokeDetectionControl is not one of them, and ShutterControl and BatteryLevel are |
| ServicesImpl.Build | boschshcpy/services_impl.py:644-651 | a record builds iff its id is a supported id (and a shutter-control state has a level, which its constructor reads); an unhashable id raises TypeError, any other unsupported id fails the assertion; only the shutter-control service remembers its level, starting with current and last both at the state's level |
| ServicesImpl.DefaultsAreMembers | boschshcpy/services_impl.py:341-377 | the defaults NONE and DISABLED are members of their enumerations |
| ServicesImpl.ReadEnum | boschshcpy/services_impl.py:341-377 | an enumerated accessor answers exactly the declared member the state holds under its key (ON or OFF for a power switch, CLOSED or OPEN for a contact, and so on); with a default, an absent key reads the default |
| ServicesImpl.PushThenReadEnum | boschshcpy/services_impl.py:108-115 | after a service accepts a pushed state holding a member under the accessor's key, the accessor reads that member |
| ServicesImpl.ReadInt | boschshcpy/services_impl.py:131-132 | `position` and `powerofftime` are the integer the state holds under the key |
| ServicesImpl.ReadOr | boschshcpy/services_impl.py:393-396 | a keypad or motion member reads its value when present and its default otherwise |
| ServicesImpl.ReadOptionalEnum | boschshcpy/services_impl.py:397-408 | `keyName` and `eventType` are None when absent and otherwise must be a declared member |
| ServicesImpl.ShowSetpointTemperature | boschshcpy/services_impl.py:87-92 | the member when present, false when absent |
| ServicesImpl.BatteryWarningLevel | boschshcpy/services_impl.py:516-527 | OK when `faults` is absent or empty; otherwise faults must hold exactly one entry, and the level is its `type`, a declared battery state |
| ServicesImpl.BatteryWarningLevelRoundTrip | boschshcpy/services_impl.py:516-527 | a single fault entry of a battery type reads back as that type |
| ServicesImpl.ShutterValue | boschshcpy/services_impl.py:314-324 | a changed level shifts the remembered level into the last one; while MOVING, a level below the last one reads CLOSING and one above it OPENING; otherwise the reported operation state |
| ServicesImpl.ShutterDirection | boschshcpy/services_impl.py:318-324 | CLOSING exactly for MOVING with a lower level, OPENING for MOVING with a higher one, the reported state otherwise |
| ServicesImpl.ShutterValueStable | boschshcpy/services_impl.py:314-324 | reading the value twice answers the same and leaves the levels as the first read did |
| ServicesImpl.ShutterClosing | boschshcpy/services_impl.py:314-319 | after a read, a pushed lower level while MOVING reads CLOSING |
| ServicesImpl.Climate | boschshcpy/services_impl.py:35-81 | each room-climate setter issues one PUT whose body holds exactly `@type` and its own key with the value set |
| ServicesImpl.ReadSetting | boschshcpy/services_impl.py:31-78 | a room-climate getter answers only when the state holds the setter's key |
| ServicesImpl.ClimateSetThenRead | boschshcpy/services_impl.py:31-81 | once the controller echoes a setter's body as the new state, the matching getter reads the value that was set |
| IntrusionDomain.New | boschshcpy/domain_impl.py:30-40 | a snapshot builds iff it holds all five sub-states, which become the domain's, with no callbacks |
| IntrusionDomain.Build | boschshcpy/domain_impl.py:147-154 | only the IDS model builds; any other model fails the assertion |
| IntrusionDomain.ShortPoll | boschshcpy/domain_impl.py:121-129 | the fetched snapshot replaces the sub-states one by one, so a snapshot missing one keeps the earlier replacements and raises; callbacks are kept and not run |
| IntrusionDomain.ShortPollStopsAt | boschshcpy/domain_impl.py:121-129 | a snapshot missing the k-th sub-state raises after replacing exactly the k sub-states before it, leaving the later ones as they were |
| IntrusionDomain.ProcessPush | boschshcpy/domain_impl.py:131-144 | a pushed record replaces only the sub-state its `@type` names, leaves the other four unchanged, and runs every callback once whatever its tag |
| IntrusionDomain.Subscribe | boschshcpy/domain_impl.py:88-89 | subscribing binds the entity to its callback and changes nothing else |
| IntrusionDomain.Unsubscribe | boschshcpy/domain_impl.py:91-92 | unsubscribing removes only the entity's binding |
| IntrusionDomain.ArmingState | boschshcpy/domain_impl.py:62-64 | the arming state is the declared member the arming sub-state holds |
| IntrusionDomain.AlarmState | boschshcpy/domain_impl.py:72-74 | the alarm state is the declared member the alarm sub-state holds |
| IntrusionDomain.RemainingTimeUntilArmed | boschshcpy/domain_impl.py:66-70 | the countdown while arming, and 0 in any other arming state |
| IntrusionDomain.ProfileOf | boschshcpy/domain_impl.py:25-28 | only 0, 1 and 2 name a profile, each its own number |
| IntrusionDomain.ProfileNumberRoundTrip | boschshcpy/domain_impl.py:25-28 | a profile's number names that profile |
| IntrusionDomain.ActiveProfile | boschshcpy/domain_impl.py:80-82 | the active profile exists iff `profileId` is present and parses to 0, 1 or 2, and it is the profile with that number; a missing `profileId` raises |
| IntrusionDomain.ProfileIdText | boschshcpy/domain_impl.py:103-113 | the profile id text sent parses back to the profile's number |
| IntrusionDomain.ArmProtection | boschshcpy/domain_impl.py:103-113 | the full, partial and individual arm requests POST an armRequest with the profile's id to the arm action |
| IntrusionDomain.ArmThenReadProfile | boschshcpy/domain_impl.py:80-113 | once the controller reports the profile an arm request asked for, the active profile reads as that profile |
| ModelsImpl.SupportedModelsFacts | boschshcpy/models_impl.py:315-332 | ten models are supported; the climate control, presence simulation, 360 camera and Twinguard are not |
| ModelsImpl.PutOn | boschshcpy/models_impl.py:19-24 | a setter on a service the device lacks raises AttributeError, otherwise it is that service's `put_state_element` |
| ModelsImpl.Encode | boschshcpy/models_impl.py:31-176 | each model setter sends one PUT to its own service, with exactly `@type` and its key set to its value |
| ModelsImpl.CommandKeyIsValueKey | boschshcpy/models_impl.py:57-176 | the smart-plug and camera setters write the member their service's `value` reads, to a declared member |
| ModelsImpl.CommandThenRead | boschshcpy/models_impl.py:57-176 | once the controller echoes a smart-plug or camera setter's body, the service's `value` reads the state that was set |
| ModelsImpl.DeviceClass | boschshcpy/models_impl.py:115-127 | a shutter contact's device class is its profile, which must be one of the four declared classes |
| ModelsImpl.ArmActivationDelay | boschshcpy/models_impl.py:205-209 | nothing is sent while the system is arming; otherwise one PUT sets the delay, and a refused PUT raises after it is sent |
| ModelsImpl.ArmInstant | boschshcpy/models_impl.py:211-218 | unless arming, the delay is set to 1, the system armed, and the old delay restored, in that order; the sequence completes iff every write is accepted, and a refused write raises and ends it right after that write |
| ModelsImpl.ArmInstantRestoresDelay | boschshcpy/models_impl.py:211-218 | the first and last requests of an instant arm go to the same service and differ only in the delay, which ends at its old value |
| ModelsImpl.ArmRefusedLeavesShortDelay | boschshcpy/models_impl.py:211-218 | when the arm request is refused, only the shortening and the arm request were sent, so the delay the controller last received is one second |
| ModelsImpl.LatestMotionAsWritten | boschshcpy/models_impl.py:303-305 | the motion detector's `latestmotion` always raises AttributeError |
| ModelsImpl.LatestMotion | boschshcpy/services_impl.py:423-430 | the corrected read answers the service's `latestMotionDetected`, or "n/a" when absent |
| ModelsImpl.LatestMotionDiscrepancy | boschshcpy/models_impl.py:303-305 | for any motion service whose state is an object, the corrected read succeeds where the written one raises |
| DeviceHelper.Init | boschshcpy/device_helper.py:45-49 | a new helper has an empty bucket for exactly the supported models |
| DeviceHelper.DeviceInit | boschshcpy/device_helper.py:51-69 | a missing id or model raises; a supported model's device is built and stored in its bucket under its id, replacing any earlier one; any other model is built generically and nothing is stored; only a supported model changes the helper |
| DeviceHelper.DeviceInitTwice | boschshcpy/device_helper.py:56-61 | initialising a device twice leaves one entry under its id, holding the last build, in the position of the first |
| DeviceHelper.Collect | boschshcpy/device_helper.py:72-230 | a getter lists every device of each of its supported models and nothing else, and lists nothing when none of its models is supported |
| DeviceHelper.Devices | boschshcpy/device_helper.py:72-262 | every device a getter lists belongs to a bucket of one of that getter's models |
| DeviceHelper.UnionOrder | boschshcpy/device_helper.py:79-86 | a two-model getter lists the first model's devices in insertion order, then the second's |
| DeviceHelper.RelaysOfType | boschshcpy/device_helper.py:115-135 | the relay getters list exactly the relays of the wanted type, and succeed iff every relay's type can be read |
| DeviceHelper.RelayKindsDisjoint | boschshcpy/device_helper.py:115-135 | no relay is listed both as a switch relay and as an impulse relay |
| DeviceHelper.InitThenSingleton | boschshcpy/device_helper.py:280-288 | the smoke detection system getter is empty on a new helper and returns the device once it is initialised under its fixed id |
| DeviceHelper.InitThenList | boschshcpy/device_helper.py:51-262 | a device initialised with a supported model is listed by every getter of that model |
| Session.New | boschshcpy/session.py:23-50 | a new session holds no services, devices, rooms, scenarios or domains, an empty bucket per supported model, no poll id, no callback and no polling thread |
| SessionServices.Touch | boschshcpy/session.py:79 | reading the services of an unseen device id leaves an empty list behind without changing what any id reads as |
| SessionServices.Append | boschshcpy/session.py:99 | appending a service record extends exactly that device's list by the record and no other |
| SessionServices.CollectServices | boschshcpy/session.py:95-99 | the service loop never drops a device's list, whether it completes or raises |
| SessionServices.CollectServicesCompletes | boschshcpy/session.py:95-99 | the service loop completes iff every record has a hashable id and every supported record a hashable device id |
| SessionServices.CollectServicesMatchesReference | boschshcpy/session.py:95-99 | after a complete enumeration each device's list is its old list followed by its records with a supported id, in input order |
| SessionServices.EnumerateServices | boschshcpy/session.py:93-99 | services enumeration changes only the per-device lists, succeeds on a list iff every record is well formed, and then files exactly the supported records by device |
| SessionDevices.AddDevice | boschshcpy/session.py:76-87 | a device without supported services is skipped; any other is built from its record and its services and stored under its id as a new object; no other id's entry and no existing object changes |
| SessionDevices.AddBuilt | boschshcpy/session.py:85-87 | a device the helper builds takes a fresh object stored under its id; a well-formed record whose constructor succeeds is always stored; no other id's entry and no existing object changes |
| SessionDevices.UpdateDevice | boschshcpy/session.py:89-91 | the stored device takes the new raw record and nothing else changes; an id never stored raises KeyError |
| SessionDevices.AddDevices | boschshcpy/session.py:104-105 | adding devices in turn keeps every known device id, every service list and every device object |
| SessionDevices.AddDevicesKeepsServices | boschshcpy/session.py:76-105 | adding devices never changes any service list |
| SessionDevices.AddDevicesFrame | boschshcpy/session.py:76-105 | an id that no added record with supported services carries keeps its stored device and that device's object |
| SessionDevices.AddDevicesStores | boschshcpy/session.py:76-105 | when adding completes, a record with supported services and no later record of its id leaves that id stored, as the device built from that record and its services |
| SessionDevices.AddDevicesCompletes | boschshcpy/session.py:76-105 | adding completes whenever every record is well formed and every device builds |
| SessionDevices.EnumerateDevices | boschshcpy/session.py:101-105 | a fetch that fails or is not a list raises with the session unchanged; a list is added device by device; the session stays valid and loses no device id or service list |
| SessionDevices.EnumerateDevicesStores | boschshcpy/session.py:76-105 | a completed enumeration fetched a list; every id with supported services that a listed record carries is then stored as built from its last such record; every other id keeps its device |
| SessionRecords.StoreById | boschshcpy/session.py:109-112 | filing records by id never drops an id already filed |
| SessionRecords.StoreByIdCompletes | boschshcpy/session.py:109-112 | filing records by id completes iff every record has a hashable id, and then every record's id is filed |
| SessionRecords.StoreByIdUntouched | boschshcpy/session.py:109-112 | an id that no record carries keeps its entry |
| SessionRecords.StoreByIdLatest | boschshcpy/session.py:109-112 | each id holds the last record that carried it |
| SessionEnumerate.EnumerateRoomsAsWritten | boschshcpy/session.py:107-112 | as written, room enumeration never files a room |
| SessionEnumerate.EnumerateRooms | boschshcpy/session.py:107-112 | room enumeration as intended changes only the rooms, keeps earlier rooms and, when it completes, files every listed room under its id |
| SessionEnumerate.RoomsDiscrepancy | boschshcpy/session.py:107-112 | a room list whose first room has an id makes the written enumeration fail with nothing filed, while the intended one files the room |
| SessionEnumerate.EnumerateAllAsWritten | boschshcpy/session.py:68-74 | as written, a full enumeration never files a room, completes only when the room list is empty, and with a room raises before scenarios and domains are touched |
| SessionEnumerate.EnumerateScenarios | boschshcpy/session.py:114-119 | scenario enumeration changes only the scenarios and, when it completes, files every listed scenario under its id |
| SessionEnumerate.InitializeDomains | boschshcpy/session.py:121-123 | the domain built from the fetched state is filed under IDS, and nothing changes when fetching or building fails |
| SessionEnumerate.EnumerateAll | boschshcpy/session.py:68-74 | the five enumerations, with rooms enumerated as intended, keep the session valid, leave the polling state alone and never drop an entry of an earlier enumeration |
| SessionEnumerate.EnumerateAllStores | boschshcpy/session.py:68-123 | a completed full enumeration fetched lists throughout, extended every service list by the fetched supported services of its device, filed every listed room and scenario, and filed the built domain under IDS |
| SessionEnumerate.EnumerateAllStoresDevices | boschshcpy/session.py:68-105 | after a completed full enumeration, an id with supported services that a listed device carries holds a device, and every other id keeps the device stored before |
| SessionEnumerate.EnumerateAllWithoutRooms | boschshcpy/session.py:68-112 | with an empty room list the written and the intended full enumerations agree |
| SessionEnumerate.EnumerateAllDiscrepancy | boschshcpy/session.py:68-112 | with one room the written full enumeration raises the missing-argument TypeError with no scenario filed, while the intended one files the room |
| SessionRouting.RouteServiceData | boschshcpy/session.py:153-162 | a service record goes to the device it names, touching only that device object; a record for an unknown device changes nothing |
| SessionRouting.RouteScenario | boschshcpy/session.py:172-179 | a scenario record calls the callback, when one is set, with the record's id, name and trigger time, and changes no state |
| SessionRouting.RouteDevice | boschshcpy/session.py:180-193 | a device record updates a stored device, dropping it from the id map iff the record marks it deleted; an unknown device is added as on enumeration; no other id changes |
| SessionRouting.RouteDomain | boschshcpy/session.py:194-197 | a domain-state record goes to the domain filed under IDS; with none filed the lookup raises KeyError |
| SessionRouting.Dispatch | boschshcpy/session.py:151-198 | a record is routed by its `@type` to exactly one handler; an unknown tag changes nothing; routing only runs callbacks and keeps rooms, scenarios and polling state |
| SessionRouting.RouteMessage | boschshcpy/session.py:163-171 | a message without arguments fails its assertion; one carrying a data model routes the decoded record in turn; any other message changes nothing |
| SessionRouting.ProcessAll | boschshcpy/session.py:131-132 | routing a poll result's records keeps the session valid and only runs callbacks |
| SessionRouting.ProcessAllAppend | boschshcpy/session.py:131-132 | routing a batch in two parts equals routing it at once, stopping at the first record that raises |
| SessionPolling.Deliver | boschshcpy/session.py:130-132 | a failed poll reports its error with nothing changed; a list result routes its records in order |
| SessionPolling.SubscribeRequest | boschshcpy/api.py:179-187 | the subscribe request is one JSON-RPC call of `RE/subscribe` on the remote topic with a null second parameter, sent with the default 30 s timeout |
| SessionPolling.PollRequest | boschshcpy/api.py:196-206 | the poll request is one `RE/longPoll` call with the poll id and the session's wait, sent with a timeout of the wait plus five seconds |
| SessionPolling.UnsubscribeRequest | boschshcpy/api.py:215-217 | the unsubscribe request is one `RE/unsubscribe` call carrying just the poll id, sent with the default 30 s timeout |
| SessionPolling.LongPoll | boschshcpy/session.py:125-143 | a long poll subscribes first when it has no poll id and gives up if that fails, then polls with the id; it keeps the session valid and leaves rooms, scenarios, the callback and the loop flags alone |
| SessionPolling.LongPollOutcomes | boschshcpy/session.py:129-143 | a long poll answers true after routing every record, forgets the id and answers false when the controller reports error -32001, and lets any other error escape keeping the id |
| SessionPolling.LongPollWithId | boschshcpy/session.py:125-132 | with a poll id a long poll sends only the poll request before what routing the answer runs |
| SessionPolling.LongPollReusesId | boschshcpy/session.py:126-128 | with a poll id a long poll never subscribes |
| SessionPolling.MaybeUnsubscribe | boschshcpy/session.py:145-149 | with a poll id the session unsubscribes it and forgets it, unless the call raises; without one nothing happens |
| SessionPolling.LoopStep | boschshcpy/session.py:203-228 | a loop pass exits iff the stop flag is set; false waits one second; a runtime error sets the stop flag and tries to unsubscribe; any other error waits fifteen seconds |
| SessionPolling.StartPollingAsWritten | boschshcpy/session.py:200-235 | as written, starting twice raises and a start leaves the stop flag as it was |
| SessionPolling.StartPolling | boschshcpy/session.py:200-235 | starting twice raises; a start records a thread with the stop flag cleared and changes nothing else |
| SessionPolling.StopPolling | boschshcpy/session.py:237-247 | stopping a session that is not polling raises; otherwise it sets the stop flag and ends with no thread and no poll id, unless unsubscribing raises; devices are untouched |
| SessionPolling.RestartDiscrepancy | boschshcpy/session.py:200-247 | after a stop, the written start gives a thread whose first pass exits at once, while the intended start polls |
| SessionPolling.StartStop | boschshcpy/session.py:200-247 | a stop after a start succeeds and leaves no thread and no poll id |
| SessionPolling.UnsubscribedScenarioIsSilent | boschshcpy/session.py:249-253 | once the scenario callback is unsubscribed a scenario record has no effect |
| SessionRouting.DeviceList | boschshcpy/session.py:255-257 | `devices` lists one device per stored id, in insertion order |
| SessionRouting.DeviceById | boschshcpy/session.py:259-260 | `device(id)` succeeds iff the id is stored, giving the device stored under it |
| SessionRouting.DeletedDeviceIsGone | boschshcpy/session.py:180-189 | a device reported deleted is no longer found while every other id keeps its device |
| SessionRouting.NoServicesNoDevice | boschshcpy/session.py:76-83 | a new device without supported services is never added |
| SessionRouting.UnknownDeviceIgnored | boschshcpy/session.py:153-162 | a service record for a device the session does not hold changes nothing |
| SessionEnumerate.Room | boschshcpy/session.py:266-270 | `room(None)` is the placeholder room; any other id succeeds iff stored, giving the room stored under it |
| SessionEnumerate.Scenario | boschshcpy/session.py:283-284 | `scenario(id)` succeeds iff the id is stored, giving the scenario stored under it |
| SessionEnumerate.NamesOf | boschshcpy/session.py:276-281 | the scenario names are each scenario's name in order, and reading them fails iff a scenario has no name |
| SessionRouting.IntrusionSystem | boschshcpy/session.py:298-300 | the intrusion system is the domain filed under IDS; without one the lookup raises KeyError |
| Emma.Status | boschshcpy/emma.py:24-28 | the synthesised device is AVAILABLE iff it was given a result, else UNAVAILABLE with controller information and UNDEFINED without |
| Emma.New | boschshcpy/emma.py:11-42 | as intended (a device made from the synthesised record alone): the device has the fixed id, model, name and no services; its serial and root id come from the MAC address, or are empty without information; an unset MAC raises TypeError |
| Emma.NewAsWritten | boschshcpy/emma.py:39 | as written, making an EMMA device always raises TypeError, because `SHCDevice.__init__` takes no `raw_device_services`; it raises exactly when the intended construction would have succeeded or failed with that error |
| Emma.NewDiscrepancy | boschshcpy/emma.py:39 | for a MAC address with information, the written constructor raises while the intended one builds the device |
| Emma.SerialRoundTrip | boschshcpy/emma.py:18-22 | the MAC address is the serial's prefix, followed by `_` and the EMMA id |
| Emma.ParsedInformation | boschshcpy/emma.py:56-58 | the parsed reading is a prefix of the English reading holding no " W", and exists iff the reading is a text |
| Emma.PowerRoundTrip | boschshcpy/emma.py:56-58 | a reading `p W rest` parses back to `p` whenever `p` holds no " W" |
| Emma.DefaultReadsZero | boschshcpy/emma.py:32-58 | a device built without a result reports an empty version and title and a reading of 0 |
| Emma.UpdateEmmaData | boschshcpy/emma.py:60-68 | an update without controller information raises; otherwise the result is replaced, only the status changes, to AVAILABLE, and every callback runs once |
| Emma.UpdateThenParse | boschshcpy/emma.py:46-68 | after an update carrying `p W`, the version is the update's and the parsed reading is `p` |
| Information.AddService | boschshcpy/information.py:20-22 | an announcement's details are stored under its name, and no other name changes |
| Information.RemoveService | boschshcpy/information.py:17-18 | a removed service stays listed with no details, and no other name changes |
| Information.UpdateService | boschshcpy/information.py:14-15 | an update notification changes no entry |
| Information.AddThenRemove | boschshcpy/information.py:17-22 | removing a service just added leaves the table as removing it alone would |
| Information.MacOf | boschshcpy/information.py:73 | the MAC address is a slice of the service name, never longer than it |
| Information.MacRoundTrip | boschshcpy/information.py:73 | a name shaped `prefix[mac]rest` yields exactly the text between the brackets |
| Information.MacWithoutBrackets | boschshcpy/information.py:73 | a name without brackets yields all of it but the last character |
| Information.ServerName | boschshcpy/information.py:74-76 | the host name exists iff the server holds ".local.", and is the part before its first occurrence |
| Information.ServerNameRoundTrip | boschshcpy/information.py:74-76 | a host without dots is read back from `host.local.` |
| Information.ServerNameAtStart | boschshcpy/information.py:74-76 | ".local." at the start gives an empty host name |
| Information.Consider | boschshcpy/information.py:71-76 | an announcement naming the product and listing the controller's address sets the MAC address, and the host name when the server carries one; any other leaves both alone |
| Information.Filter | boschshcpy/information.py:68-76 | the filter fails with AttributeError iff some entry is unset |
| Information.FilterNoMatch | boschshcpy/information.py:68-76 | when no announcement is the controller's, the filter finds nothing beyond what it started from |
| Information.FilterAppend | boschshcpy/information.py:68-76 | filtering two runs of announcements continues the second from where the first left off |
| Information.LastMatchWins | boschshcpy/information.py:68-76 | the last matching announcement decides the MAC address |
| Information.New | boschshcpy/information.py:41-50 | the information holds the raw record and what the filter found over the discovered table, and fails iff an entry is unset |
| Information.UpdateState | boschshcpy/information.py:56-58 | the update state succeeds iff the raw value names one of the four members, which it returns; any other value raises ValueError |
| Registration.Normalise | boschshcpy/register_client.py:66-71 | the certificate as sent holds no line feed |
| Registration.NormalisePem | boschshcpy/register_client.py:66-87 | an RFC 7468 certificate is sent as the BEGIN boundary, a carriage return, its base64 text joined into one line, a carriage return and the END boundary |
| Registration.RegistrationUrl | boschshcpy/register_client.py:23 | the registration URL is `https://`, the controller's address and `:8443/smarthome/clients`, and the address can be read back from it |
| Registration.BindingName | boschshcpy/register_client.py:92 | the client name is `oss_`, the given name and `_Binding`, and the given name can be read back from it |
| Registration.RegistrationBody | boschshcpy/register_client.py:89-95 | the body has exactly the five members: type client, the client id, the binding name, the restricted role and the certificate |
| Registration.Register | boschshcpy/register_client.py:48-102 | a missing certificate file ends the call with None and sends nothing; otherwise one POST carries the normalised certificate; the answer's token comes back with the generated pair, or no pair when a file was used; an answer without a token gives None |
| Registration.LegacyBody | BoschShcPy/api.py:32-41 | the legacy body has the fixed id, operating system and push token, no roles, the name as given and the certificate |
| Registration.LegacyRegister | BoschShcPy/api.py:16-54 | without both files or a password the call returns "" and sends nothing; otherwise one POST to `smarthome/clients`; a client error gives None; an answer gives its token, or "" without one |
| Registration.SameCertificate | BoschShcPy/api.py:24-25 | both packages send the same certificate text for the same file |
| LegacyBase.LoadDict | BoschShcPy/base.py:33-38 | loading a dict overwrites exactly the existing attributes it names and never adds one; anything but a dict raises AttributeError |
| LegacyBase.LoadDictIdempotent | BoschShcPy/base.py:33-38 | loading the same dict twice is loading it once |
| LegacyBase.LoadDictTwice | BoschShcPy/base.py:33-38 | loading two dicts in turn is loading their union, the second winning on shared keys |
| LegacyBase.LoadAll | BoschShcPy/base.py:40-43 | loading a list never adds an attribute, and an element that is not a dict raises AttributeError |
| LegacyBase.LoadAllSucceeds | BoschShcPy/base.py:40-43 | loading a list completes iff every element is a dict |
| LegacyBase.LoadAllAppend | BoschShcPy/base.py:40-43 | loading a list in two runs is loading the second run into what the first produced |
| LegacyBase.LoadLastWins | BoschShcPy/base.py:40-43 | the attributes the last element names take its values, whatever came before |
| LegacyBase.Load | BoschShcPy/base.py:40-47 | a list is loaded element by element and anything else as one dict |
| LegacyBase.ValueToTime | BoschShcPy/base.py:58-61 | None stays None, a text goes to the date parser, and anything else raises |
| LegacyBase.LoadItems | BoschShcPy/base_list.py:51-57 | a list loads one fresh item per element, each loaded from its element, and fails iff one element does |
| LegacyBase.LoadList | BoschShcPy/base_list.py:51-70 | the items are replaced only when every element loads, and then by exactly the loaded items |
| LegacyBase.LoadListCount | BoschShcPy/base_list.py:51-74 | loading a list of dicts yields as many items as it had elements |
| LegacyBase.InitializeAll | BoschShcPy/shutter_control.py:135-141 | an `initialize_*` helper makes exactly one entity per listed device of its model, from that device's id and name; an unloaded list is not iterable |
| LegacyBase.SelectTotal | BoschShcPy/shutter_control.py:135-141 | the helpers cannot fail when every listed device has a `deviceModel`, an `id` and a `name` |
| LegacyBase.SelectSoundComplete | BoschShcPy/shutter_control.py:135-141 | every entity made comes from a listed device of the model, and every such device gives one |
| LegacyBase.SelectAppend | BoschShcPy/shutter_control.py:135-141 | the helpers keep list order: a longer list's entities start with those of its first part |
| LegacyBase.Swallowed | BoschShcPy/shutter_control.py:56-63 | a client error is reported as False and any other error escapes |
| LegacyBase.Update | BoschShcPy/shutter_control.py:56-63 | an entity's refresh sends one GET, loads the answer into its attributes and answers True; a client error answers False with nothing changed |
| LegacyBase.CheckQuery | BoschShcPy/shutter_control.py:69-71 | a pushed record is accepted iff it names this device and its state has the expected type, and reading it raises iff a member is missing |
| LegacyBase.TableKey | BoschShcPy/shutter_control.py:13 | a table lookup succeeds iff the value is a listed name; otherwise KeyError, or TypeError for a value that cannot be a key |
| LegacyBase.UpdateValue | BoschShcPy/camera_eyes.py:80-108 | an accepted record with a value sets exactly the one attribute to it and answers True; a rejected record changes nothing |
| LegacyBase.ServiceQuery | BoschShcPy/smoke_detector.py:92-104 | a record of another service is refused unchanged before anything else is read; the service's own record goes through the value update |
| LegacyBase.Command | BoschShcPy/shutter_control.py:80-89 | a setter sends its request whatever happens, takes the new attributes and answers True on success, and answers False untouched on a client error |
| LegacyBase.NewDevice | BoschShcPy/device.py:27-34 | a listed device starts with the eight attributes, all None |
| LegacyBase.DeviceListSelectable | BoschShcPy/device.py:4-34 | a device list loaded from dicts holds only devices that every `initialize_*` helper can read |
| LegacyBase.ImportEntityModule | BoschShcPy/smoke_detector.py:7 | importing an entity module succeeds iff the device module defines both `Device` and `status_rx`, and otherwise raises ImportError |
| LegacyBase.ImportDiscrepancy | BoschShcPy/device.py:1-34 | as written the device module lacks `status_rx`, so importing an entity module raises ImportError; once it defines the table, the import succeeds |
| LegacyBase.GetAvailability | BoschShcPy/smoke_detector.py:68-71 | with a status table, availability succeeds iff the device is an object whose `status` is a listed name, and is that name's entry |
| LegacyBase.AvailabilityOfLoadedDevice | BoschShcPy/smoke_detector.py:68-71 | a device loaded from a dict whose status is listed reads that status's availability |
| LegacyShutterControl.Rx | BoschShcPy/shutter_control.py:13-14 | the receive table is defined exactly on the three state names and inverts the send table there |
| LegacyShutterControl.RxTx | BoschShcPy/shutter_control.py:13-14 | a state sent by name is received as the same state |
| LegacyShutterControl.New | BoschShcPy/shutter_control.py:17-24 | a new shutter control holds its device, id and name, is STOPPED and has no level or type |
| LegacyShutterControl.GetState | BoschShcPy/shutter_control.py:27-30 | the state getter succeeds iff the operation state is a listed name, and names that state |
| LegacyShutterControl.NewIsStopped | BoschShcPy/shutter_control.py:17-30 | a new shutter control reports STOPPED |
| LegacyShutterControl.Update | BoschShcPy/shutter_control.py:56-63 | a refresh reads the device's ShutterControl state path; a non-text id raises TypeError before anything is sent |
| LegacyShutterControl.UpdateFromQuery | BoschShcPy/shutter_control.py:65-78 | only this device's ShutterControl record with a shutterControlState is taken; it always sets the operation state and sets the level only when STOPPED; nothing else changes |
| LegacyShutterControl.RecordReadBack | BoschShcPy/shutter_control.py:65-78 | a pushed record is read back as its state, with its level once stopped and the old level otherwise |
| LegacyShutterControl.UpdateFromQueryIdempotent | BoschShcPy/shutter_control.py:65-78 | taking the same record twice leaves what taking it once left |
| LegacyShutterControl.SetLevel | BoschShcPy/shutter_control.py:80-89 | setting a level sends one PUT with the new level and records it only when the request went through; a client error answers False |
| LegacyShutterControl.Stop | BoschShcPy/shutter_control.py:91-99 | stop sends one bodiless PUT to the shading endpoint and changes nothing local |
| LegacyShutterControl.InitializeShutterControls | BoschShcPy/shutter_control.py:135-141 | exactly one shutter control per listed BBL device, made from that device |
| LegacyShutterContact.Rx | BoschShcPy/shutter_contact.py:12-13 | the receive table is defined exactly on CLOSED and OPEN and inverts the send table there |
| LegacyShutterContact.RxTx | BoschShcPy/shutter_contact.py:12-13 | a state sent by name is received as the same state |
| LegacyShutterContact.New | BoschShcPy/shutter_contact.py:16-23 | a new contact holds its device, id and name, is CLOSED and has no battery level |
| LegacyShutterContact.GetStateAsWritten | BoschShcPy/shutter_contact.py:25-28 | as written, the getter reads an attribute a contact never has and raises AttributeError |
| LegacyShutterContact.GetState | BoschShcPy/shutter_contact.py:25-28 | as intended, the getter succeeds iff the value is CLOSED or OPEN, and names that state |
| LegacyShutterContact.GetStateDiscrepancy | BoschShcPy/shutter_contact.py:16-28 | on every contact the written getter raises, while on a new contact the intended one reads CLOSED |
| LegacyShutterContact.Update | BoschShcPy/shutter_contact.py:54-61 | a refresh reads the device's ShutterContact state path; a non-text id raises TypeError before anything is sent |
| LegacyShutterContact.UpdateFromQuery | BoschShcPy/shutter_contact.py:63-74 | only this device's ShutterContact record with a shutterContactState sets the value; anything else is refused unchanged |
| LegacyShutterContact.RecordReadBack | BoschShcPy/shutter_contact.py:63-74 | a pushed record is accepted and its state read back by the intended getter |
| LegacyShutterContact.InitializeShutterContacts | BoschShcPy/shutter_contact.py:86-92 | exactly one contact per listed SWD device, made from that device |
| LegacySmokeDetector.Rx | BoschShcPy/smoke_detector.py:24-32 | the receive table is defined exactly on the four state names |
| LegacySmokeDetector.RxStateName | BoschShcPy/smoke_detector.py:24-32 | a reported state name is received as that state |
| LegacySmokeDetector.Tx | BoschShcPy/smoke_detector.py:24-32 | every request has a request name, and no request name is a state name |
| LegacySmokeDetector.TxBijective | BoschShcPy/smoke_detector.py:24-32 | distinct requests send distinct names, and every listed request name is sent by some request |
| LegacySmokeDetector.New | BoschShcPy/smoke_detector.py:35-41 | a new detector holds its device, id and name, is IDLE_OFF and has no battery level |
| LegacySmokeDetector.GetState | BoschShcPy/smoke_detector.py:43-46 | the getter succeeds iff the value is a state name, and names that state |
| LegacySmokeDetector.SetState | BoschShcPy/smoke_detector.py:73-82 | an `alarm` member sends one PUT of its name to the Alarm service and leaves the reported state for the controller |
| LegacySmokeDetector.SetStateWith | BoschShcPy/smoke_detector.py:73-82 | any argument other than an `alarm` member raises in the table lookup, KeyError or TypeError for an unhashable value, before anything is sent; a member sends a request iff the id is a text |
| LegacySmokeDetector.Update | BoschShcPy/smoke_detector.py:84-90 | a refresh reads the device's Alarm state path; a non-text id raises TypeError before anything is sent |
| LegacySmokeDetector.UpdateFromQuery | BoschShcPy/smoke_detector.py:92-104 | only this device's SmokeDetector record with an alarmState sets the value; anything else is refused unchanged |
| LegacySmokeDetector.RecordReadBack | BoschShcPy/smoke_detector.py:92-104 | a pushed record is accepted and its state read back |
| LegacySmokeDetector.RequestThenRecord | BoschShcPy/smoke_detector.py:73-104 | a request alone does not change the reported state; the controller's record does |
| LegacySmokeDetector.InitializeSmokeDetectors | BoschShcPy/smoke_detector.py:116-122 | exactly one detector per listed SD device, made from that device |
| LegacyIntrusionDetection.Rx | BoschShcPy/intrusion_detection.py:14-21 | the receive table is defined exactly on the four operation-state names and inverts the send table there |
| LegacyIntrusionDetection.RxTx | BoschShcPy/intrusion_detection.py:14-21 | a state sent by name is received as the same state |
| LegacyIntrusionDetection.New | BoschShcPy/intrusion_detection.py:43-52 | the system starts disarmed, with its fixed id and name, no actuators or triggers and no delays |
| LegacyIntrusionDetection.GetState | BoschShcPy/intrusion_detection.py:55-58 | the getter succeeds iff the value is a listed name, and names that state |
| LegacyIntrusionDetection.NewIsDisarmed | BoschShcPy/intrusion_detection.py:43-58 | a new system reports SYSTEM_DISARMED |
| LegacyIntrusionDetection.Update | BoschShcPy/intrusion_detection.py:84-91 | a refresh sends one GET of the control state, loads the answer and answers True; a client error answers False unchanged |
| LegacyIntrusionDetection.SetOperationState | BoschShcPy/intrusion_detection.py:109-123 | arming is refused with False and nothing sent; any other state is sent as one PUT, answering True, or False on a client error; the local state waits for the controller |
| LegacyIntrusionDetection.Disarm | BoschShcPy/intrusion_detection.py:125-127 | disarming requests SYSTEM_DISARMED |
| LegacyIntrusionDetection.Arm | BoschShcPy/intrusion_detection.py:129-131 | arming requests SYSTEM_ARMED |
| LegacyIntrusionDetection.MuteAlarmRequest | BoschShcPy/intrusion_detection.py:133-135 | muting requests MUTE_ALARM |
| LegacyIntrusionDetection.RequestThenUpdate | BoschShcPy/intrusion_detection.py:84-123 | after a request and a refresh that reports the requested state, the getter reads it |
| LegacyCameraEyes.LightRx | BoschShcPy/camera_eyes.py:10 | the light's receive table is defined exactly on ON and OFF and inverts its send table there |
| LegacyCameraEyes.SwitchRx | BoschShcPy/camera_eyes.py:12 | the switches' receive table is defined exactly on ENABLED and DISABLED and inverts its send table there |
| LegacyCameraEyes.LightTx | BoschShcPy/camera_eyes.py:11 | the light's send table accepts exactly the values equal to True or False, 1 and 0 included, and raises KeyError, or TypeError for an unhashable value, otherwise |
| LegacyCameraEyes.TablesRoundTrip | BoschShcPy/camera_eyes.py:10-13 | the send and receive tables are inverse to each other in both directions |
| LegacyCameraEyes.New | BoschShcPy/camera_eyes.py:16-25 | a new camera holds its device, id and name, with the light OFF and notifications and privacy mode DISABLED |
| LegacyCameraEyes.GetLightState | BoschShcPy/camera_eyes.py:27-30 | the light getter succeeds iff the light holds a listed name, and names it |
| LegacyCameraEyes.GetNotificationState | BoschShcPy/camera_eyes.py:47-49 | the notification getter succeeds iff the switch holds a listed name, and names it |
| LegacyCameraEyes.GetPrivacyState | BoschShcPy/camera_eyes.py:51-53 | the privacy getter succeeds iff the switch holds a listed name, and names it |
| LegacyCameraEyes.NewIsOff | BoschShcPy/camera_eyes.py:16-53 | a new camera reads all three switches as off |
| LegacyCameraEyes.UpdatePrivacyMode | BoschShcPy/camera_eyes.py:80-88 | only this device's privacyModeState record sets the privacy mode; anything else changes nothing |
| LegacyCameraEyes.UpdateCameraNotification | BoschShcPy/camera_eyes.py:90-98 | only this device's cameraNotificationState record sets the notification switch; anything else changes nothing |
| LegacyCameraEyes.UpdateCameraLight | BoschShcPy/camera_eyes.py:100-108 | only this device's cameraLightState record sets the light; anything else changes nothing |
| LegacyCameraEyes.UpdateFromQuery | BoschShcPy/camera_eyes.py:110-116 | a record is routed by its service id to one updater, whose verdict is dropped; a record of another service changes nothing |
| LegacyCameraEyes.UpdateAll | BoschShcPy/camera_eyes.py:66-67 | running a listing's records never adds an attribute, and a completed run answers None |
| LegacyCameraEyes.Update | BoschShcPy/camera_eyes.py:59-71 | a refresh sends one GET of the services and runs every listed record; a client error answers False unchanged; an answer that is not a list succeeds only when empty |
| LegacyCameraEyes.RecordTaken | BoschShcPy/camera_eyes.py:80-116 | a switch's record for this device sets exactly that switch |
| LegacyCameraEyes.UpdateAllCons | BoschShcPy/camera_eyes.py:66-67 | running a listing is running its records one by one |
| LegacyCameraEyes.RecordThenRest | BoschShcPy/camera_eyes.py:66-67 | a switch's record at the head of a listing sets that switch's attribute before the rest are taken |
| LegacyCameraEyes.UpdateReadsListing | BoschShcPy/camera_eyes.py:59-116 | a listing with the three switches' records sets all three getters to the listed values |
| LegacyCameraEyes.SetLightState | BoschShcPy/camera_eyes.py:118-128 | a light request sends one PUT with the light's name and records it only when the request went through; a value the table lacks raises before anything is sent |
| LegacyCameraEyes.SetThenGet | BoschShcPy/camera_eyes.py:118-128 | after a successful request the light getter reads the value set |
| LegacyCameraEyes.AsyncUpdateCall | BoschShcPy/camera_eyes.py:73-78 | `async_update` raises NameError for the never-imported `AsyncUpdate`, before anything is registered or sent, and leaves the camera unchanged |
| LegacyCameraEyes.GetServices | BoschShcPy/camera_eyes.py:130-132 | one GET of the camera's services, loaded into a fresh list of service entries; the list is answered iff the answer is a list whose every element loads; a client error escapes |
| LegacyCameraEyes.GetServicesReadsListing | BoschShcPy/camera_eyes.py:130-161 | a listing of records gives one entry per record, holding its id, device id and state, or None for any it lacks |
| LegacyCameraEyes.GetServicesRaisesClientError | BoschShcPy/camera_eyes.py:59-132 | a client error that the refresh answers as False escapes from reading the services |
| LegacyCameraEyes.InitializeCameraEyes | BoschShcPy/camera_eyes.py:163-169 | exactly one camera per listed CAMERA_EYES device, made from that device |
| LegacyShcInformation.Rx | BoschShcPy/shc_information.py:12-13 | the receive table is defined exactly on the four update-state names, those the newer package accepts, and inverts the send table there |
| LegacyShcInformation.RxTx | BoschShcPy/shc_information.py:12-13 | a state sent by name is received as the same state |
| LegacyShcInformation.New | BoschShcPy/shc_information.py:16-19 | new information has no version and no update state |
| LegacyShcInformation.GetState | BoschShcPy/shc_information.py:21-22 | the getter succeeds iff the update state is a listed name, and names that state |
| LegacyShcInformation.NewHasNoState | BoschShcPy/shc_information.py:16-22 | before the first update the getter raises KeyError |
| LegacyShcInformation.UpdateFromQuery | BoschShcPy/shc_information.py:24-27 | only a record typed shc_device is loaded; any other typed record changes nothing; a record without a type raises |
| LegacyShcInformation.Update | BoschShcPy/shc_information.py:29-34 | a refresh sends one GET of the information, loads it and answers True; a client error answers False unchanged |
| LegacyShcInformation.UpdateThenGetState | BoschShcPy/shc_information.py:21-34 | information reporting an update state is read back by the getter, whatever else it holds |
| LegacySmartPlug.New | BoschShcPy/smart_plug.py:5-11 | a new plug holds its id and name, with no type, switch state or power-off time |
| LegacySmartPlug.Update | BoschShcPy/smart_plug.py:13-26 | a refresh sends one GET of the PowerSwitch state and loads it; with no handler, a client error escapes; an answer naming `state` or `name` raises AttributeError, because both are read-only properties, and leaves the plug unchanged |
| LegacySmartPlug.LoadPlug | BoschShcPy/smart_plug.py:13-26 | loading a dict that names `state` or `name` into a plug raises AttributeError with the plug unchanged; a list loads element by element; anything else loads as into any entity |
| LegacySmartPlug.LoadPlugAllAgrees | BoschShcPy/smart_plug.py:13-26 | a list none of whose dicts names a read-only property loads into a plug as into any entity |
| LegacySmartPlug.LoadPlugAllSucceeds | BoschShcPy/smart_plug.py:13-26 | a list loads into a plug iff every element is a dict naming neither read-only property |
| LegacySmartPlug.UpdateReadOnlyRaises | BoschShcPy/smart_plug.py:13-26 | a refresh whose answer carries `name` or `state`, as a device record does, raises AttributeError and changes nothing |
| LegacySmartPlug.UpdateThenState | BoschShcPy/smart_plug.py:13-26 | after a refresh whose answer names neither read-only property, the state is the reported switch state, and the id and name are those the plug was made with |
| LegacySmartPlug.InitializeSmartPlugs | BoschShcPy/smart_plug.py:41-46 | exactly one plug per listed PSM device, carrying its id and name |
| LegacySubscribe.UpdateFromQuery | BoschShcPy/subscribe.py:33 | an entity takes a pushed record without sending anything and keeps its attributes; the classes without their own handler refuse every record |
| LegacySubscribe.New | BoschShcPy/subscribe.py:9-16 | a new router has nothing registered, is not exiting and holds no subscription |
| LegacySubscribe.Register | BoschShcPy/subscribe.py:41-43 | registering succeeds iff the entity has a hashable id; it appends the entity under that id and the callback under the entity, and no other id or entity changes |
| LegacySubscribe.RegisterTwice | BoschShcPy/subscribe.py:41-43 | registering twice lists the entity twice, with both callbacks in order |
| LegacySubscribe.CallbackEffects | BoschShcPy/subscribe.py:34-38 | every callback of an entity runs once, in registration order, whatever the others do |
| LegacySubscribe.EventDevice | BoschShcPy/subscribe.py:32-39 | the entity takes the record first; if that raises no callback runs and the error escapes, otherwise all its callbacks run |
| LegacySubscribe.EventDevices | BoschShcPy/subscribe.py:28-29 | a delivery changes only the entities it reaches and leaves the registries, flag and subscription alone |
| LegacySubscribe.EventDevicesNotifies | BoschShcPy/subscribe.py:28-39 | distinct entities that each accept the record are all updated and run their callbacks entity by entity in registration order |
| LegacySubscribe.Target | BoschShcPy/subscribe.py:20-26 | a service record is for its deviceId, a device record for its id, and any other record for no one; a missing id raises KeyError |
| LegacySubscribe.Event | BoschShcPy/subscribe.py:18-30 | a record for no one changes nothing; a record for a device id goes to exactly the entities registered under it |
| LegacySubscribe.UnregisteredIgnored | BoschShcPy/subscribe.py:18-30 | a record for a device id nobody registered changes nothing |
| LegacySubscribe.NewPollingService | BoschShcPy/subscribe.py:49 | a fresh polling record has exactly the id, result and jsonrpc attributes, all None |
| LegacySubscribe.SubscribePolling | BoschShcPy/subscribe.py:45-50 | one RE/subscribe request for every topic; the subscription is kept iff the answer loads |
| LegacySubscribe.Start | BoschShcPy/subscribe.py:80-86 | start subscribes only when there is no subscription yet and never touches the registries |
| LegacySubscribe.UnsubscribePolling | BoschShcPy/subscribe.py:52-58 | the subscription's id goes back in one RE/unsubscribe request, and the subscription is dropped iff the request succeeds; without one there is nothing to send |
| LegacySubscribe.Stop | BoschShcPy/subscribe.py:88-91 | stop leaves the exit flag set even when unsubscribing raises |
| LegacySubscribe.StartThenStop | BoschShcPy/subscribe.py:80-91 | start followed by stop, with the controller answering, leaves the router unsubscribed and exiting |
| LegacySubscribe.Chars | BoschShcPy/subscribe.py:70 | iterating a string visits each of its characters once, in order |
| LegacySubscribe.Iterated | BoschShcPy/subscribe.py:70 | a result is iterated by its items when a list and by its characters when a string; anything else but a dict cannot be iterated |
| LegacySubscribe.Records | BoschShcPy/subscribe.py:68-73 | an answer whose elements are dicts with list results yields its records without error; an element that is not a dict is an error |
| LegacySubscribe.RecordsConcatenated | BoschShcPy/subscribe.py:68-73 | elements without a result add nothing, and the results of the others are concatenated in order |
| LegacySubscribe.Answer | BoschShcPy/subscribe.py:68 | a list answer yields its elements' records; a dict answer yields none, and is an error unless empty |
| LegacySubscribe.Dispatch | BoschShcPy/subscribe.py:70-73 | delivering records never changes the registries; each delivered record is followed by a 0.2 s pause; once the flag is set nothing more is delivered |
| LegacySubscribe.EventDevicesNoPause | BoschShcPy/subscribe.py:28-39 | delivering one record to its entities never pauses |
| LegacySubscribe.DispatchPauses | BoschShcPy/subscribe.py:70-73 | a pass that delivers every record without the flag being set pauses once per record |
| LegacySubscribe.DispatchStopsAt | BoschShcPy/subscribe.py:63-73 | when the flag is set after k records, a pass delivers exactly what delivering the first k records delivers |
| LegacySubscribe.PollOnce | BoschShcPy/subscribe.py:60-75 | a pass asks once with the subscription's id and the duration, then delivers; with the flag set it does nothing, and a failed request changes nothing |
| LegacySubscribe.AsyncRegister | BoschShcPy/subscribe.py:110-112 | registering replaces the one entity and callback and keeps the flag |
| LegacySubscribe.AsyncEventDevice | BoschShcPy/subscribe.py:102-108 | the record is loaded into the entity, then its callback runs once if there is one; a failed load escapes before the callback |
| LegacySubscribe.AsyncUpdateOnce | BoschShcPy/subscribe.py:114-122 | unless exiting, one request is sent and its answer delivered to the entity, followed by a 0.2 s pause when the delivery went through; a failed request changes nothing |
| LocalServicesImpl.KindName | boschshcpy/bosch-shc-py/services_impl.py:117-120 | each service class is listed under a supported id |
| LocalServicesImpl.LocalServiceIdsFacts | boschshcpy/bosch-shc-py/services_impl.py:117-122 | the supported ids are exactly the mapping's keys, one class each, and all of them are supported by the main package too |
| LocalServicesImpl.KindOf | boschshcpy/bosch-shc-py/services_impl.py:117-122 | the mapping gives a class iff the id is supported, and the class is listed under that id |
| LocalServicesImpl.Build | boschshcpy/bosch-shc-py/services_impl.py:125-128 | building succeeds iff the record's id is one of the four, with the mapped class over the record; a missing id raises KeyError, an unhashable one TypeError, any other the assertion |
| LocalServicesImpl.BuildKind | boschshcpy/bosch-shc-py/services_impl.py:117-128 | a record of each class builds to that class, with the same service the main package builds |
| LocalServicesImpl.ShowSetpointTemperature | boschshcpy/bosch-shc-py/services_impl.py:72-77 | the flag is the state's member when present and false when absent |
| LocalServicesImpl.AsClimate | boschshcpy/bosch-shc-py/services_impl.py:24-62 | this variant writes only the operation mode, setpoint temperature, low and boost mode settings |
| LocalServicesImpl.Climate | boschshcpy/bosch-shc-py/services_impl.py:24-62 | each setter is one state write carrying exactly the state's type and the setting's key and value |
| LocalServicesImpl.ClimateSetThenRead | boschshcpy/bosch-shc-py/services_impl.py:20-62 | what a setter writes, the matching getter reads once the controller pushes it back |
| LocalServicesImpl.ContactValue | boschshcpy/bosch-shc-py/services_impl.py:98-100 | the contact reads a value iff the state holds CLOSED or OPEN, and reads that one |
| LocalServicesImpl.ContactPushThenRead | boschshcpy/bosch-shc-py/services_impl.py:93-100 | a contact reads the state the controller last pushed |

## Behaviour kept as the code has it

Where the code's behaviour differs from what its names or docstrings suggest, the model follows the code.

- `_async_enumerate_all` re-enumerates into the existing maps and never clears them. `SessionEnumerate.EnumerateAllAsWritten` and `SessionEnumerate.EnumerateAll` keep entries from earlier enumerations.
- `SmartPlug.state` and `SmartPlug.name` are read-only properties, and `load_dict` sets every key it finds an attribute for. An answer naming either one therefore raises `AttributeError` in `LegacySmartPlug.Update`.
- A pushed service record whose state has the wrong `@type` fails an assertion. By then the raw record has already been replaced. `DeviceServices.ProcessPush` returns the replaced record together with the `AssertionError`.
- `Subscription.exiting` starts as `None`. `None` is falsy, so it is modelled as `false`.

## Left out

- HTTP, TLS, sockets and timeouts are left out. Every reply the library reads is an input, either a `Result<Json>` or a `Replies` record. A transport failure is `ClientError` or `SessionError`.
- Most state writes and domain actions answer with the request they send, not with its reply. This covers `DeviceServices.PutState`, `DeviceServices.PutStateElement`, `ModelsImpl.Encode`, `ModelsImpl.PutOn` and the intrusion actions (`IntrusionDomain.ArmProtection`, `IntrusionDomain.Arm`, `IntrusionDomain.Disarm`, `IntrusionDomain.Mute`). The code discards their answers, and a refused write raises `SHCSessionError` as `Api.CheckedWrite` states. `ModelsImpl.ArmActivationDelay` and `ModelsImpl.ArmInstant` take the replies, because there a refusal decides which later writes are sent.
- Threads are modelled one pass at a time. This covers the session's polling thread, the legacy `Subscription` polling thread and `AsyncUpdate`'s thread.
  - `join` is not modelled.
  - Every `time.sleep` of the session and the legacy router is a `Slept` effect, in milliseconds. This covers the session loop's 1 s and 15 s pauses and the legacy 0.2 s pauses after each delivered record (`LegacySubscribe.Dispatch`, `LegacySubscribe.AsyncUpdateOnce`). The 3 s wait inside `discover_shc_devices` (`boschshcpy/information.py:28`) belongs to discovery, which is an input.
  - Another thread's `stop()` is the `exitAfter` input of `LegacySubscribe.Dispatch`.
- Logging is left out, and so is every `print`. This includes the `summary` printers, the print at the end of `_async_enumerate_all`, the camera's `update`, the mismatch prints in the legacy shutter control's and shutter contact's `update_from_query`, and the legacy intrusion system's `trigger`. None of them changes state.
- `json.loads` is the `loads` parameter of `Session.Env`. `dateutil` parsing is the `parse` parameter of `LegacyBase.ValueToTime`. `base64`, zeroconf discovery and certificate generation are inputs. The certificate file is the `readFile` parameter.
- JSON floats are not modelled. Numbers are integers. Accessors that call `float()` are therefore left out: temperatures, humidity and the EMMA power value beyond its text.
- `int()` accepts only optionally signed ASCII decimal digits (`PyJson.ParseInt`). Python's `int()` also accepts surrounding whitespace, underscores and other Unicode digits.
- Python's hash-equality of `1` and `True` as dict keys is not modelled. Ids are JSON values and are compared structurally.
- PyJson.PyEq: only a bool and an int compared directly are equal by number. Lists and dicts holding such mixed scalars are compared structurally, so `[1] == [True]` is false in the model and true in Python.
- `PyJson.Elements` rejects any non-list value with `TypeError` wherever a loop runs over decoded JSON. The legacy poll loop does not use it: `LegacySubscribe.Answer` and `LegacySubscribe.Iterated` model that loop exactly, except for a dict `result` (see `LegacySubscribe.Iterated` below).
  - Most of these loops subscript each element (the api's `@type` check, the session's enumerations and poll results). For them, Python would iterate a dict's keys or a string's characters and then fail on subscripting a key or character.
  - An empty dict or an empty string is the exception: Python iterates nothing and succeeds, while the model fails.
- Devices.New: a `deviceServiceIds` that is a string or a dict raises `TypeError` in the model. `boschshcpy/device.py:21-22` only tests each element for membership in the supported ids, so Python accepts both. A string gives a device with no services, because no single character is a supported id. A dict builds the services of its supported keys, in an order `Json` objects do not keep. `Devices.NewNeedsList` states the model's behaviour.
- LegacySubscribe.Iterated: a `result` that is a dict is reported as `NotImplemented` instead of being iterated. `Json` objects are maps and keep no key order.
- LegacyBase.LoadList: loading a dict or a string into a `BaseList` is a failure. Python would iterate the keys or characters and fail when loading each one. An empty dict or empty string is the exception: Python loads an empty list, while the model fails.
- SessionRouting.Dispatch: the nesting of `message` records that carry further records is bounded by `fuel`. Exhausting it gives `RecursionError`, where Python would stop at its interpreter limit.
- SessionDevices.AddDevice: a device is constructed by the `makeDevice` parameter of `Session.Env`. The device helper calls an `SHCDevice` constructor whose signature `device.py` does not define.
- The legacy entities' `client` attribute is left out of their attribute sets. A pushed or loaded record whose key is `client` therefore never replaces it.
- The password header of the legacy registration request is left out. The password matters only as the guard that `Registration.LegacyRegister` models.
- Registration.Register: the `Systempassword` header (the base64 password) and the `api-version` header of `boschshcpy/register_client.py:55-61` are left out. Its `PostRegistration` request carries only the body.
- LegacyIntrusionDetection.SetOperationState: the parameter in the source shadows the state enum. The model takes the enum value directly.
- `IntrusionDetectionControlService` is missing from `boschshcpy/services_impl.py`. The intrusion model's alarm state and activation delay are therefore inputs to `ModelsImpl.ArmActivationDelay` and `ModelsImpl.ArmInstant`.
- `boschshcpy/bosch-shc-py/device_service.py` is not part of this model. Its `BSHLocalDeviceService` is taken to behave like `boschshcpy/device_service.py`.
- Effects.Notify: a callback is a `Notified` effect that always returns. The code runs callbacks without a guard in `boschshcpy/device.py:111-112`, `boschshcpy/device_service.py:67-68`, `boschshcpy/domain_impl.py:143-144` and `boschshcpy/emma.py:67-68`. A raising callback would therefore end the delivery there and reach the polling loop's 15 s retry (`boschshcpy/session.py:223-227`). Callbacks are outside the library, so the model does not say what they do.
- SessionPolling.LongPoll: the session calls `api.long_polling_subscribe`, `long_polling_poll` and `long_polling_unsubscribe`, but `boschshcpy/api.py` defines only their `async_` coroutines. The model takes each call to be the coroutine's request and answer, via `SessionPolling.SubscribeRequest`, `SessionPolling.PollRequest` and `SessionPolling.UnsubscribeRequest`.
- The entities make the same kind of call. `boschshcpy/api.py:121-175` defines only the `async_` form of each, so as written each call would raise `AttributeError`. The model takes each call to be the coroutine's request and answer:
  - `get_device_service`, in `boschshcpy/device.py:25` (`Devices.New`, `Devices.AddServices`) and `boschshcpy/device_service.py:52` (`DeviceServices.ShortPoll`);
  - `put_device_service_state`, in `boschshcpy/device_service.py:44` (`DeviceServices.PutState`, `DeviceServices.PutStateElement`, and so `ModelsImpl.Encode`, `ModelsImpl.ArmActivationDelay` and `ModelsImpl.ArmInstant`);
  - `post_domain_action`, in `boschshcpy/domain_impl.py:101-119` (`IntrusionDomain.ArmProtection`, `IntrusionDomain.Arm`, `IntrusionDomain.Disarm`, `IntrusionDomain.Mute`);
  - `get_domain_intrusion_detection`, in `boschshcpy/domain_impl.py:122` (`IntrusionDomain.ShortPoll`).
- LegacySmartPlug.LoadPlug: when a dict names `state` or `name`, the keys `load_dict` sets before reaching it are not kept. `Json` objects keep no key order, so the model keeps the plug unchanged.
- LegacySmokeDetector.SetState takes an `alarm` member. `LegacySmokeDetector.SetStateWith` covers any other argument, which raises in the `state_tx` lookup.
- LegacyCameraEyes.AsyncUpdateCall: the polling that `async_update` evidently intends is not modelled, because the written method raises on its first line. `LegacySubscribe.AsyncUpdateOnce` models `AsyncUpdate` itself.
- `IntrusionDomain.Arm`, `IntrusionDomain.Disarm` and `IntrusionDomain.Mute` build a body-less POST to their fixed action path. They need no row, because nothing about them goes beyond the path.

## Findings

| source | as written | input that shows it | evidently intended | confidence | as-written member | corrected member |
|---|---|---|---|---|---|---|
| BoschShcPy/shutter_contact.py:25-28 | `get_state` reads `self.operationState`, an attribute a shutter contact never has, so it always raises `AttributeError` | any shutter contact, e.g. a new one, which holds `value` CLOSED | read `self.value` through `state_rx` | high, not executed | LegacyShutterContact.GetStateAsWritten | LegacyShutterContact.GetState (lemma LegacyShutterContact.GetStateDiscrepancy) |
| boschshcpy/session.py:200-247 | `stop_polling` sets `_stop_polling_thread` and `start_polling` never clears it, so a restarted loop exits before its first poll | start, stop, start: the second loop runs no iteration | `start_polling` clears the flag before starting the loop | high, not executed | SessionPolling.StartPollingAsWritten | SessionPolling.StartPolling (lemma SessionPolling.RestartDiscrepancy) |
| boschshcpy/models_impl.py:303-305 | `latestmotion` reads `latestMotion`, which `LatestMotionService` does not define, so it always raises `AttributeError` | any motion detector | read the service's `latestMotionDetected` | high, not executed | ModelsImpl.LatestMotionAsWritten | ModelsImpl.LatestMotion (lemma ModelsImpl.LatestMotionDiscrepancy) |
| boschshcpy/session.py:107-112 | `SHCRoom(raw_room=raw_room)` omits the required `api` argument, so room enumeration raises `TypeError` at the first room | a room listing with one room | pass the session's api as well | high, not executed | SessionEnumerate.EnumerateRoomsAsWritten, SessionEnumerate.EnumerateAllAsWritten | SessionEnumerate.EnumerateRooms, SessionEnumerate.EnumerateAll (lemmas SessionEnumerate.RoomsDiscrepancy, SessionEnumerate.EnumerateAllDiscrepancy) |
| boschshcpy/emma.py:39 | `SHCEMMA.__init__` passes `raw_device_services=None` to `SHCDevice.__init__(self, api, raw_device)` (`boschshcpy/device.py:12`), which takes no such argument, so making an EMMA device always raises `TypeError` | any controller information and result | pass only `api` and `raw_device` | high, not executed | Emma.NewAsWritten (lemma Emma.NewDiscrepancy) | Emma.New |
| BoschShcPy/smoke_detector.py:7 | every legacy entity module imports `status_rx` from `BoschShcPy/device.py`, which defines no such table, so importing the module raises `ImportError`, and `get_availability` could never run | importing `BoschShcPy.smoke_detector` (likewise `shutter_control.py:6`, `shutter_contact.py:6`, `camera_eyes.py:6`, `intrusion_detection.py:6`) | the device module defines `status_rx`, from a status name to availability | high, not executed | LegacyBase.ImportEntityModule (lemma LegacyBase.ImportDiscrepancy) | LegacyBase.GetAvailability (lemma LegacyBase.AvailabilityOfLoadedDevice) |
