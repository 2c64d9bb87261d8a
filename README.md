# MyHOME gateway integration — a verified model

This project models the core of the bticino MyHOME integration for Home
Assistant. The integration talks OpenWebNet to a MyHOME gateway. It has these
parts:

- **The gateway handler** (`custom_components/myhome/gateway.py`).
  - A listening loop receives bus frames. It records discovered endpoints,
    routes each frame to the configured entities or to Home Assistant bus
    events, and rate-limits its diagnostics.
  - A pool of sending workers drains a queue of commands and retries failures.
  - A discovery scan probes a grid of point-to-point addresses with status
    requests.
- **The web API** (`custom_components/myhome/web.py`).
  - Key sanitising and payload validation for the configuration panel.
  - Merging and partitioning of discovery lists.
  - YAML-snippet rendering.
  - The dictionary edits behind the upsert, delete and import endpoints.
  - Counting how many config entries use the shared panel.
- **The persistent configuration store**
  (`custom_components/bticino_myhome/config_store.py`). It keeps gateway
  payloads and activation-discovery snapshots.
- **The climate entity** (`custom_components/myhome/climate.py`):
  thermostat-state decoders and the HVAC mode/action state machine.
- **Entry setup** (`custom_components/myhome/__init__.py`): worker count,
  discovery suggestion lines, and pruning of stale registry entities and
  devices.
- **The discovery panel** (`custom_components/myhome/frontend/myhome-discovery-panel.js`):
  HTML escaping, candidate drafts, and the import requests it posts.

One Dafny module per concern:

- `Wrappers` (wrappers.dfy): `Option` and `Result`
- `Strings` (strings.dfy): ASCII digits, `str.strip`, splitting, code-point order, sorting with duplicates removed
- `PyValue` (pyvalue.dfy): Python/JSON values (`None`, bool, int, float, str, list, dict) and `str()` of scalars
- `OwnWhere` (where.dfy): WHERE helpers: zone/channel split, point-to-point formatting, climate and energy filters
- `Messages` (messages.dfy): message kinds the loop distinguishes, status-request commands, queue items
- `Discovery` (discovery.dfy): the four endpoint sets, both collectors, scan clamping, probe enumeration
- `Frames` (frames.dfy): the two regular expressions (dimension-20 valve frames, unsupported-frame signature)
- `Dispatch` (dispatch.dfy): the routing chain of the listening loop, as a list of effects
- `Retry` (retry.dfy): listener and sender retry policies, one loop turn at a time
- `Gateway` (gateway.dfy): class `GatewayHandler`, which holds queue, counters, flags and endpoint sets, plus class `SendingWorker`
- `Web` (web.dfy): web helpers, class `GatewayConfigDraft` (the payload the views edit), class `WebRuntime` (`entry_count`)
- `ConfigStore` (config_store.dfy): load normalisation, the accessors as read/write functions, class `Store`
- `Climate` (climate.dfy): decoders, mode list, class `ClimateZone` and its event handlers
- `Integration` (integration.dfy): suggestion lines, expected unique ids, class `Registries` and its pruning
- `Panel` (panel.dfy): `_esc` and its inverse, default candidates, draft refresh, class `DiscoveryPanel`

Source state that changes in place is modelled as classes whose fields are
reassigned. This covers the handler's `send_buffer`, `_message_count`, flags
and endpoint sets; the climate entity's attributes; the payload a view edits;
the web runtime counters; the store; the registries; and the panel's drafts
and notices. Loops in the source are methods with `while` loops. Each such
method is proved equal to a specification function, and the properties are
lemmas about those functions.

Two behaviours of the code deserve a note. The model follows the code in both:

- Rate limiting. One could expect a key seen `N` times to be logged
  `1 + (N-1)/60` times: once at first sight, then once per further 60. The
  code logs when the new count is 1 or a multiple of 60, which is `1 + N/60`
  times: at `N = 60` it has logged twice. See `Gateway.LogsUpToFormula`.
- Climate defaults. The climate flags of a device posted to the upsert endpoint
  default to `true` (`_device_from_payload`). The listing returned to the panel
  (`_devices_for_ui`) shows a missing `cool`, `fan` or `standalone` as `false`
  and only `heat` as `true`. Both are modelled as written (`Web.ReadDeviceFields`,
  `Web.UiEntry`).

## Model

| member | source | states |
|---|---|---|
| `Strings.DigitValue` | custom_components/myhome/gateway.py:223 | `int()` of a digit character is its value, below 10 |
| `Strings.DigitChar` | custom_components/myhome/gateway.py:236-238 | the digit character of d < 10 reads back as d |
| `Strings.NatToString` | custom_components/myhome/gateway.py:236 | decimal rendering is all digits; exactly one digit below 10, two digits for 10..99 |
| `Strings.NatToStringValue` | custom_components/myhome/gateway.py:236 | reading the rendered digits back gives the number (decimal round trip) |
| `Strings.ZeroPad2` | custom_components/myhome/gateway.py:238 | `{:02d}` yields digits, exactly two of them below 100 |
| `Strings.Split` | custom_components/myhome/gateway.py:219 | `str.split` yields at least one part, and no part contains the separator |
| `Strings.SplitJoin` | custom_components/myhome/gateway.py:219 | joining the parts with the separator gives the string back |
| `Strings.NonEmptyParts` | custom_components/myhome/gateway.py:219 | the filter keeps exactly the non-empty parts |
| `Strings.IndexOf` | custom_components/myhome/gateway.py:307-309 | first occurrence: the character is at the index and nowhere before it, or the index is the length when it is absent |
| `Strings.BeforeFirst` | custom_components/myhome/gateway.py:307-309 | `split(c, 1)[0]` is the prefix of the text up to the first `c`, or all of it when there is none |
| `Strings.Lower` | custom_components/myhome/web.py:90 | lower-casing keeps the length, maps each character on its own and leaves no upper-case letter |
| `Strings.TrimStart` | custom_components/myhome/web.py:90-91 | the removed prefix consists of dropped characters only, and the result starts with a kept one |
| `Strings.TrimEnd` | custom_components/myhome/web.py:90-91 | the removed suffix consists of dropped characters only, and the result ends with a kept one |
| `Strings.StripChar` | custom_components/myhome/web.py:91 | `strip("_")` leaves no `_` at either end |
| `Strings.StripNoSpace` | custom_components/myhome/web.py:90 | `strip()` is the identity on text without blanks |
| `Strings.StripCharNoop` | custom_components/myhome/web.py:91 | `strip(c)` is the identity when neither end is `c` |
| `Strings.TrimSlice` | custom_components/myhome/web.py:90-91 | stripping yields a contiguous slice of the input |
| `Strings.LessIrreflexive` | custom_components/myhome/web.py:247 | Python string order is irreflexive |
| `Strings.LessAsymmetric` | custom_components/myhome/web.py:247 | Python string order is asymmetric |
| `Strings.LessTransitive` | custom_components/myhome/web.py:247 | Python string order is transitive |
| `Strings.LessTotal` | custom_components/myhome/web.py:247 | Python string order is total |
| `Strings.StrictlySortedNoDuplicates` | custom_components/myhome/web.py:247 | a strictly sorted list has no duplicates |
| `Strings.Insert` | custom_components/myhome/web.py:247 | inserting into a strictly sorted list keeps it strictly sorted; its elements are the old ones plus the new one |
| `Strings.SortDedup` | custom_components/myhome/web.py:245-247 | `sorted(set(xs))` is strictly sorted and has exactly the elements of `xs` |
| `Strings.SortedUnique` | custom_components/myhome/web.py:247 | two strictly sorted lists with the same elements are equal, so the sorted form is unique |
| `Strings.SortDedupOfSorted` | custom_components/bticino_myhome/config_store.py:80 | sorting an already sorted duplicate-free list changes nothing |
| `Strings.SortedFromSet` | custom_components/myhome/gateway.py:167-172 | the loop that sorts a set yields a strictly sorted list with exactly the set's elements |
| `OwnWhere.WhereParts` | custom_components/myhome/gateway.py:219 | the `#`-parts are non-empty and free of `#` |
| `OwnWhere.ExtractZoneAndChannel` | custom_components/myhome/gateway.py:216-231 | no parts gives `(None, None)`; the selected part is the second after a leading `0` and at least two parts, else the first; the zone is that part, present iff it is all digits; the channel is the part after it, present iff there is one |
| `OwnWhere.PartsOfPlain` | custom_components/myhome/gateway.py:219 | a bare zone is its own only part |
| `OwnWhere.PartsOfPair` | custom_components/myhome/gateway.py:219 | `z#c` splits into `[z, c]` |
| `OwnWhere.PartsOfCentral` | custom_components/myhome/gateway.py:219 | `#0#z#c` splits into `["0", z, c]` |
| `OwnWhere.PartsOfCentralZone` | custom_components/myhome/gateway.py:219 | `#0#z` splits into `["0", z]` |
| `OwnWhere.PartsOfTriple` | custom_components/myhome/gateway.py:219 | `a#b#c` splits into `[a, b, c]` |
| `OwnWhere.ZoneChannelOfComposedWhere` | custom_components/myhome/gateway.py:216-231 | `z`, `z#c` and the central forms `#0#z` and `#0#z#c` all yield zone `z`, with channel `c` exactly where it is present |
| `OwnWhere.ZoneChannelOfPlainParts` | custom_components/myhome/gateway.py:228-231 | outside the central style the first part is the zone and the second the channel, even with a third part; a non-digit zone is dropped while its channel is still reported |
| `OwnWhere.TwoDigitValue` | custom_components/myhome/gateway.py:238 | two-digit padding below 100 keeps the value |
| `OwnWhere.FormatPointToPoint` | custom_components/myhome/gateway.py:233-238 | the address is all digits: 2 characters when area and point are both at most 9, else 4 (below 100) |
| `OwnWhere.PointToPointRoundTrip` | custom_components/myhome/gateway.py:233-238 | the formatted address parses back to `(area, point)` |
| `OwnWhere.PointToPointInjective` | custom_components/myhome/gateway.py:233-238 | distinct (area, point) pairs below 100 get distinct addresses |
| `OwnWhere.ExtractDiscoveryClimateWhere` | custom_components/myhome/gateway.py:312-326 | returns the input unchanged iff it is not `""`/`"*"` and has a digit zone of value > 0; otherwise None |
| `OwnWhere.DigitsValueZero` | custom_components/myhome/gateway.py:323 | `int(zone) <= 0` holds exactly for all-zero digit strings |
| `OwnWhere.ClimateZoneFilter` | custom_components/myhome/gateway.py:312-326 | `0` and `#0` are rejected; `z`, `z#c` and `#0#z#c` with a non-zero zone pass unchanged |
| `OwnWhere.CentralZoneIgnored` | custom_components/myhome/gateway.py:323-324 | the central zone (`0` or `#0`) is never a climate discovery endpoint |
| `OwnWhere.ExtractEnergyWhere` | custom_components/myhome/gateway.py:296-310 | a non-empty `where` wins; otherwise the result is None iff the entity is empty and never contains `#`; it is exactly the text before the first `#` of what follows `18-`, or of the whole entity when it has no `18-` prefix |
| `OwnWhere.EnergyWhereFromEntity` | custom_components/myhome/gateway.py:305-307 | entity `18-w#x` with no usable `where` yields `w` |
| `Messages.StatusTasks` | custom_components/myhome/gateway.py:997-998 | every command becomes a queue item flagged as a status request, in order |
| `Messages.StatusTasksAppend` | custom_components/myhome/gateway.py:997-998 | queueing two batches one after the other equals queueing their concatenation |
| `Discovery.Snapshot.Add` | custom_components/myhome/gateway.py:248-266 | adding to one set adds exactly that string and leaves the other three sets unchanged |
| `Discovery.ReportIsUnique` | custom_components/myhome/gateway.py:167-172 | two sorted snapshots of the same sets are equal |
| `Discovery.Candidate` | custom_components/myhome/gateway.py:244-266 | general/area/group events give nothing and every other lighting or automation event gives a light or cover at its own `where`; a heating event gives a climate candidate exactly when its zone filter yields one, an energy event a power candidate exactly when its address extraction does; any other kind gives nothing |
| `Discovery.Record` | custom_components/myhome/gateway.py:240-294 | a collector never removes anything and adds at most one string to one set; broadcast events add nothing |
| `Discovery.CentralClimateZoneNeverRecorded` | custom_components/myhome/gateway.py:257-261 | heating events from zone `0`/`#0` are not recorded, while zone `3` is |
| `Discovery.RecordHeating` | custom_components/myhome/gateway.py:257-261 | a heating event is recorded iff its WHERE passes the climate filter, and then as the filtered value |
| `Discovery.NormalizeScan` | custom_components/myhome/gateway.py:344-353 | clamps area to 0..10, point to 0..15 and duration to 2..30, then orders each bound pair; an in-range ordered input is kept as is |
| `Discovery.PointProbes` | custom_components/myhome/gateway.py:366-372 | one probe per enabled grid category |
| `Discovery.PowerProbes` | custom_components/myhome/gateway.py:373-377 | one total-consumption request per power endpoint, in order |
| `Discovery.RowProbesLength` | custom_components/myhome/gateway.py:365-372 | a row yields points × categories probes |
| `Discovery.GridProbesLength` | custom_components/myhome/gateway.py:364-372 | the grid yields areas × points × categories probes |
| `Discovery.ProbePlanCount` | custom_components/myhome/gateway.py:364-377 | a scan enqueues exactly areas × points × enabled categories probes, plus one per power endpoint when power is scanned |
| `Discovery.RowProbesPrefix` | custom_components/myhome/gateway.py:365 | the probes of earlier points are a prefix of the row |
| `Discovery.GridProbesPrefix` | custom_components/myhome/gateway.py:364 | the probes of earlier areas are a prefix of the grid |
| `Discovery.GridProbesAt` | custom_components/myhome/gateway.py:364-372 | area-major order: probe j of (a, p) sits right after all probes of earlier areas and of earlier points of area a |
| `Frames.DropFinalNewline` | custom_components/myhome/gateway.py:69-71 | `$` tolerates one trailing newline: the input is the result, possibly followed by `\n` |
| `Frames.Dim20Body` | custom_components/myhome/gateway.py:70 | a value group is 1-3 digits followed by `##` and an optional final newline |
| `Frames.Dim20Tail` | custom_components/myhome/gateway.py:70 | the text after the WHERE is `#20*`, the digits, `##` and an optional newline |
| `Frames.Dim20Parts` | custom_components/myhome/gateway.py:69-71 | a match splits as `*#4*`, a WHERE without `*`, `*` and the tail |
| `Frames.ParseDim20` | custom_components/myhome/gateway.py:69-71 | a parsed frame has a valid WHERE and 1-3 digits |
| `Frames.Dim20Value` | custom_components/myhome/gateway.py:408 | a value of at most three digits is at most 999 |
| `Frames.ParseDim20Sound` | custom_components/myhome/gateway.py:69-71 | anything parsed is exactly the dimension-20 frame of its parts, with an optional newline |
| `Frames.ParseDim20Complete` | custom_components/myhome/gateway.py:69-71 | every such frame parses back to its parts, so the pattern matches iff the text has this shape |
| `Frames.DigitRunEnd` | custom_components/myhome/gateway.py:73 | `\d+` is greedy: the run is digits and the next character is not |
| `Frames.AddressRunEnd` | custom_components/myhome/gateway.py:73 | `[^*#]+` is greedy: the run has neither `*` nor `#`, and the next character is one of them |
| `Frames.DimensionAt` | custom_components/myhome/gateway.py:73 | the optional dimension group is digits |
| `Frames.ParseSignature` | custom_components/myhome/gateway.py:72-74 | a signature has a digit WHO, a non-empty WHERE without `*`/`#`, and a digit dimension when present |
| `Frames.UnsupportedKey` | custom_components/myhome/gateway.py:455-466 | every key starts with `unsupported_` |
| `Frames.UnsupportedKeyFallback` | custom_components/myhome/gateway.py:460-461 | when the signature does not parse, the key is `unsupported_` plus the first 30 characters, so frames agreeing there share a key |
| `Frames.UnsupportedKeyOfText` | custom_components/myhome/gateway.py:460-461 | short text that is not a `*`-frame is keyed by itself |
| `Frames.SignatureParsed` | custom_components/myhome/gateway.py:72-74 | a frame built from WHO, WHERE and an optional dimension parses back to exactly those parts, whatever payload follows |
| `Frames.UnsupportedKeyIgnoresPayload` | custom_components/myhome/gateway.py:455-466 | the key is `unsupported_who<who>_where<where>_dim<dim or na>`, independent of the payload |
| `Dispatch.EventTargets` | custom_components/myhome/gateway.py:651-669 | a target is exactly an entity under the message's device key, on any platform but `button`, whose kind handles events (a plain or climate entity) |
| `Dispatch.SensorTargets` | custom_components/myhome/gateway.py:546-553 | energy events reach exactly the integration entities of the sensor device |
| `Dispatch.ZoneDevices` | custom_components/myhome/gateway.py:422-435 | a climate device receives the valve position iff its configured zone is the frame's zone and it has a climate entity |
| `Dispatch.MotionOf` | custom_components/myhome/gateway.py:602-607 | "open" iff opening and not closing, "close" iff closing and not opening, "stop" otherwise |
| `Dispatch.CenPlusPress` | custom_components/myhome/gateway.py:685-694 | a short press wins; otherwise held or still held gives a long press; otherwise released gives a long release; CEN+ never reports a short release; None iff no flag is set |
| `Dispatch.CenPress` | custom_components/myhome/gateway.py:708-719 | checked in the order pressed (short press), released after a short press (short release), held (long press), released after a long press (long release); None iff no flag is set |
| `Dispatch.DropLeadingHash` | custom_components/myhome/gateway.py:678 | exactly one leading `#` is removed, nothing else |
| `Dispatch.Dim20Actions` | custom_components/myhome/gateway.py:397-416 | a forwarded valve position never exceeds 100 |
| `Dispatch.StatusRequests` | custom_components/myhome/gateway.py:565-684 | exactly the status requests among the effects, never more than there are effects |
| `Dispatch.Route` | custom_components/myhome/gateway.py:528-774 | `myhome_message_event` is fired, and fired first, iff event generation is on |
| `Dispatch.HandleNeverMessageEvent` | custom_components/myhome/gateway.py:540-774 | routing proper never fires `myhome_message_event` |
| `Dispatch.HandleFallsBack` | custom_components/myhome/gateway.py:733-774 | kinds with no branch of their own reach the dimension-20 check and then the rate limiter |
| `Dispatch.FallbackEffects` | custom_components/myhome/gateway.py:733-774 | the fallback only forwards valve positions (at most 100, from a matching frame, to configured climate devices), logs or counts |
| `Dispatch.Dim20ActionsEffects` | custom_components/myhome/gateway.py:397-453 | a matching frame is consumed: it forwards to configured climate devices or logs, nothing else |
| `Dispatch.PointToPointEffects` | custom_components/myhome/gateway.py:644-669 | a point-to-point event delivers to its target set, refreshes the preset light, or fails the lookup |
| `Dispatch.Handle` | custom_components/myhome/gateway.py:540-774 | a non-message is logged as such; an energy event produces effects exactly when the sensor platform knows its entity; a CEN+ event fires exactly one `myhome_cenplus_event` notice and a CEN event one `myhome_cen_event` notice, each with the object, the push button and the decoded press; a dimension-14 heating command asks for the zone's status |
| `Dispatch.TranslationIsOnlyLogged` | custom_components/myhome/gateway.py:563-676 | a translation message reaches no handler and only logs |
| `Dispatch.BroadcastLightingQueries` | custom_components/myhome/gateway.py:565-598 | general lighting queries `"0"`, area lighting queries the area, group and point-to-point lighting query nothing |
| `Dispatch.AutomationEventIff` | custom_components/myhome/gateway.py:599-643 | an automation notice is fired iff the message is a non-translation general, area or group automation event |
| `Dispatch.DeliveryNeverReachesButtons` | custom_components/myhome/gateway.py:651-669 | deliveries go only to existing entities, never on the button platform, never to a command button (energy aside) and never to a foreign object |
| `Dispatch.HandleDeliveries` | custom_components/myhome/gateway.py:546-669 | every delivery is the point-to-point target set of the message's entity, or the sensor set for an energy event; general, area and group events reach no handler |
| `Dispatch.FallbackNeverDelivers` | custom_components/myhome/gateway.py:733-774 | the fallback never calls `handle_event` |
| `Dispatch.DeliveryIsComplete` | custom_components/myhome/gateway.py:651-669 | every eligible entity under the message's device key receives the event |
| `Dispatch.ValvePositionsAreInRange` | custom_components/myhome/gateway.py:409-435 | any forwarded valve position is at most 100, comes from a matching frame and goes to configured climate devices |
| `Dispatch.ValvePositionForwarded` | custom_components/myhome/gateway.py:390-453 | for a message no other branch handles, a well-formed frame with a value of at most 100 forwards exactly (the zone's devices, value, channel) |
| `Dispatch.UnrecognisedAreCounted` | custom_components/myhome/gateway.py:735-774 | a gateway message is counted under its type name, anything else under its unsupported key |
| `Dispatch.HeatingCommandQueriesZone` | custom_components/myhome/gateway.py:677-684 | a dimension-14 heating command queries its zone with one leading `#` removed |
| `Retry.Pow2` | custom_components/myhome/gateway.py:483 | powers of two are positive |
| `Retry.ListenerDelay` | custom_components/myhome/gateway.py:482-491 | no wait before the first attempt; `2·2^(k−1) = 2^k` seconds before retry k |
| `Retry.SenderDelay` | custom_components/myhome/gateway.py:840-848 | no wait before the first connect; otherwise `min(2^k, 60)`, so never above 60 |
| `Retry.ListenerAttempt` | custom_components/myhome/gateway.py:478-520 | a connect resets the counter, a connect failure adds one, and the listener gives up iff the count reaches 5 |
| `Retry.RunListener` | custom_components/myhome/gateway.py:478-520 | the listener uses no more attempts than offered, and all of them unless it stops |
| `Retry.Failures` | custom_components/myhome/gateway.py:499-513 | n consecutive connect failures |
| `Retry.FiveFailuresStopListener` | custom_components/myhome/gateway.py:478-513 | five failures from a fresh start stop the listener after waits of 2, 4, 8 and 16 seconds |
| `Retry.ExhaustedAfterConsecutiveFailures` | custom_components/myhome/gateway.py:478-513 | the listener stops only after as many trailing consecutive failures as the remaining budget |
| `Retry.ExhaustedOnlyAfterFiveFailures` | custom_components/myhome/gateway.py:478-513 | the listener stops only after five consecutive connect failures |
| `Retry.SessionErrorsNeverStopListener` | custom_components/myhome/gateway.py:776-816 | read failures, lookup errors and handler crashes never stop the listener, keep the counter at 0 and pause 1 or 5 seconds |
| `Retry.ConnectionResetsBackoff` | custom_components/myhome/gateway.py:493-816 | after a successful connect, the next failure backs off from zero again |
| `Retry.SenderStep` | custom_components/myhome/gateway.py:836-955 | a finished worker does nothing; a turn sends at most the queue head, and only a task; it waits at most 60 seconds and only when it has no session; a send resets the counter and dequeues the head |
| `Retry.SenderNeverGivesUp` | custom_components/myhome/gateway.py:862-879 | a failed connect adds one to the counter, keeps the queue, never ends the worker and waits `min(2^k, 60)` seconds (none on the first try) before connecting; the session object stays bound |
| `Retry.ConnectFailureRun` | custom_components/myhome/gateway.py:836-955 | a run of n turns records n waits |
| `Retry.FailedConnectStopsReconnecting` | custom_components/myhome/gateway.py:850-879 | as written, an idle worker whose first connect fails keeps the unconnected session, counter 1, and never waits or connects again |
| `Retry.StaleSessionIdles` | custom_components/myhome/gateway.py:850-888 | an idle worker holding a session never connects and never waits |
| `Retry.FailedConnectSkipsBackoff` | custom_components/myhome/gateway.py:850-911 | as written, the turn after a failed connect neither waits nor reconnects and hands the next task to the unconnected session |
| `Retry.ReconnectAfterFailedConnect` | custom_components/myhome/gateway.py:840-879 | with the intended policy, consecutive connect failures wait `min(2^k, 60)` seconds each and connect again every turn |
| `Retry.FailedTaskRequeued` | custom_components/myhome/gateway.py:916-952 | a failed send puts the same item at the tail (same multiset), drops the session (so the next turn reconnects) and sends nothing; with terminate set the item is dropped |
| `Retry.SuccessfulSendDequeues` | custom_components/myhome/gateway.py:898-911 | a successful send removes the head, sends it and resets the counter; a fresh connect leaves the session live, an existing one is kept |
| `Retry.ShutdownEndsWorker` | custom_components/myhome/gateway.py:889-896 | the `None` sentinel is consumed and ends the worker |
| `Retry.NoTaskLost` | custom_components/myhome/gateway.py:881-952 | without termination, queue plus sent items equals the old queue as a multiset |
| `Gateway.LogsUpToFormula` | custom_components/myhome/gateway.py:740-754 | a key seen n ≥ 1 times has been logged `1 + n/60` times |
| `Gateway.CountAllOthersUnchanged` | custom_components/myhome/gateway.py:737-758 | counting leaves every other key's count unchanged |
| `Gateway.WorkerCount` | custom_components/myhome/__init__.py:130-134 | one worker when the option is absent, else the option's value |
| `Gateway.Shutdowns` | custom_components/myhome/gateway.py:981-982 | one sentinel per worker |
| `Gateway.ReportOf` | custom_components/myhome/gateway.py:167-172 | the loop that builds the report yields the sorted snapshot |
| `Gateway.GatewayHandler.constructor` | custom_components/myhome/gateway.py:107-157 | flags cleared, empty queue and counters, four empty endpoint sets |
| `Gateway.GatewayHandler.SetDiscoveryByActivation` | custom_components/myhome/gateway.py:163-164 | sets the activation flag |
| `Gateway.GatewayHandler.Send` | custom_components/myhome/gateway.py:989-990 | appends one non-status task |
| `Gateway.GatewayHandler.SendStatusRequest` | custom_components/myhome/gateway.py:997-998 | appends one status-request task |
| `Gateway.GatewayHandler.ClearActivationDiscoveryResults` | custom_components/myhome/gateway.py:177-183 | empties the four activation sets |
| `Gateway.GatewayHandler.GetActivationDiscoveryResults` | custom_components/myhome/gateway.py:166-175 | returns the sorted pre-clear snapshot; `clear` empties the sets, otherwise they are kept |
| `Gateway.GatewayHandler.CollectDiscoveryResult` | custom_components/myhome/gateway.py:240-266 | records the event only while a scan is in progress |
| `Gateway.GatewayHandler.CollectActivationDiscoveryResult` | custom_components/myhome/gateway.py:268-294 | records the event only while activation discovery is on |
| `Gateway.GatewayHandler.StartDiscovery` | custom_components/myhome/gateway.py:341-377 | a running scan is refused and nothing changes; otherwise the parameters are normalised, the sets emptied, the flag set and exactly the probe plan enqueued |
| `Gateway.GatewayHandler.ProbeGrid` | custom_components/myhome/gateway.py:364-372 | the nested loops enqueue exactly the grid probes in area-major order |
| `Gateway.GatewayHandler.ProbeRow` | custom_components/myhome/gateway.py:365-372 | the inner loop enqueues one row's probes |
| `Gateway.GatewayHandler.ProbePower` | custom_components/myhome/gateway.py:373-377 | enqueues one request per power endpoint |
| `Gateway.GatewayHandler.ProbePoint` | custom_components/myhome/gateway.py:366-372 | enqueues the enabled categories for one address |
| `Gateway.GatewayHandler.FinishDiscovery` | custom_components/myhome/gateway.py:379-388 | returns the sorted scan snapshot and clears the in-progress flag |
| `Gateway.GatewayHandler.RecordOccurrence` | custom_components/myhome/gateway.py:737-754 | increments exactly that key by one and logs iff the new count is 1 or a multiple of 60 |
| `Gateway.GatewayHandler.HandleMessage` | custom_components/myhome/gateway.py:528-774 | performs the routed effects: both collectors under their flags, the status requests queued in order, the counters updated |
| `Gateway.GatewayHandler.ApplyActions` | custom_components/myhome/gateway.py:540-774 | the loop over the effects queues exactly their status requests and counts exactly their occurrences |
| `Gateway.GatewayHandler.ApplyAction` | custom_components/myhome/gateway.py:540-774 | one effect: its status request queued or its key counted |
| `Gateway.GatewayHandler.CloseListener` | custom_components/myhome/gateway.py:974-987 | sets both terminate flags and enqueues one sentinel per worker |
| `Gateway.GatewayHandler.StartSendingWorkers` | custom_components/myhome/__init__.py:160-165 | starts exactly `count` workers (none for a non-positive count) |
| `Gateway.GatewayHandler.ListenerTurn` | custom_components/myhome/gateway.py:478-816 | one outer-loop turn agrees with the listener policy, leaves the handler disconnected, and sets the terminate flag iff the turn ends with termination |
| `Gateway.GatewayHandler.ListeningLoop` | custom_components/myhome/gateway.py:468-816 | the loop's waits, counter and exit equal the listener policy over the attempts |
| `Gateway.SendingWorker.constructor` | custom_components/myhome/gateway.py:826-829 | a worker starts disconnected with counter 0 |
| `Gateway.SendingWorker.Start` | custom_components/myhome/gateway.py:824 | starting a worker clears the sender terminate flag |
| `Gateway.SendingWorker.Step` | custom_components/myhome/gateway.py:837-955 | one loop turn equals the as-written sender step on the shared queue, a failed connect leaving its session bound |
| `Web.ToBool` | custom_components/myhome/web.py:70-78 | bools pass through; strings are true iff stripped and lower-cased they are 1/true/yes/on; numbers iff non-zero; anything else gives the default |
| `Web.ReplaceUnsafe` | custom_components/myhome/web.py:90 | after replacement every character is in `[a-z0-9_]` |
| `Web.CollapseUnderscores` | custom_components/myhome/web.py:91 | no `__` remains, and safe input stays safe |
| `Web.StripUnderscoresKeepsClean` | custom_components/myhome/web.py:91 | stripping `_` keeps a collapsed key collapsed |
| `Web.SanitizeKey` | custom_components/myhome/web.py:89-92 | the key is non-empty, over `[a-z0-9_]`, without `__` and without `_` at either end |
| `Web.ReplaceUnsafeOfSafe` | custom_components/myhome/web.py:90 | replacement is the identity on safe text |
| `Web.CollapseOfCollapsed` | custom_components/myhome/web.py:91 | collapsing is the identity on text without `__` |
| `Web.SanitizeKeyOfClean` | custom_components/myhome/web.py:89-92 | a clean key sanitises to itself |
| `Web.LowerOfSafe` | custom_components/myhome/web.py:90 | lower-casing is the identity on safe text |
| `Web.SanitizeKeyIdempotent` | custom_components/myhome/web.py:89-92 | sanitising twice equals sanitising once |
| `Web.SanitizeKeyFallback` | custom_components/myhome/web.py:92 | text with no safe character becomes `device` |
| `Web.DiscoveredKey` | custom_components/myhome/web.py:521 | the key of a discovered item is clean |
| `Web.DiscoveredKeyOfDigits` | custom_components/myhome/web.py:515-564 | for a digit address the key is literally `discovered_<kind>_<address>` |
| `Web.Capitalize` | custom_components/myhome/web.py:129 | `str.capitalize` keeps the length, upper-cases the first character and lower-cases the rest |
| `Web.CapitalizeIdempotent` | custom_components/myhome/web.py:129 | capitalising twice is capitalising once |
| `Web.SensorClassOf` | custom_components/myhome/web.py:139 | the sensor class defaults to `power` and has no upper-case letter |
| `Web.DefaultName` | custom_components/myhome/web.py:127-146 | the default name ends with a space and the address; `Climate <zone>` for a thermostat, otherwise the capitalised platform |
| `Web.ClimateFlag` | custom_components/myhome/web.py:151-154 | a missing flag is true, and a boolean one is taken as given |
| `Web.ReadDeviceFields` | custom_components/myhome/web.py:123-154 | reads the text fields; a missing `dimmable` is false and missing climate flags are true |
| `Web.DeviceFromPayload` | custom_components/myhome/web.py:122-155 | a success has a non-empty address |
| `Web.DeviceFromFields` | custom_components/myhome/web.py:122-155 | a success has a non-empty address |
| `Web.DeviceFromPayloadErrors` | custom_components/myhome/web.py:124-145 | fails iff `where` is blank (light, cover, sensor) or the sensor class is not allowed, or `zone` is blank (climate) |
| `Web.DeviceFromPayloadNaming` | custom_components/myhome/web.py:123-147 | the address is `where` or `zone`, and the name is the given one or `<Platform> <address>` |
| `Web.DeviceFromPayloadFields` | custom_components/myhome/web.py:130-155 | the exact keys and values stored for each platform |
| `Web.MappedItems` | custom_components/myhome/web.py:234 | mapped items are configured, and every configured item is mapped |
| `Web.NewItems` | custom_components/myhome/web.py:235 | new items are unconfigured, and every unconfigured item is new |
| `Web.MappedResults` | custom_components/myhome/web.py:232-236 | the pair is (mapped items, new items) |
| `Web.MappedResultsPartition` | custom_components/myhome/web.py:232-236 | mapped and new together hold the items exactly once (as multisets) |
| `Web.MappedResultsKeepOrder` | custom_components/myhome/web.py:232-236 | both lists keep the input order |
| `Web.MergeKind` | custom_components/myhome/web.py:245-247 | one kind: the strictly sorted union of both sides |
| `Web.MergeDiscoveryResults` | custom_components/myhome/web.py:239-248 | each of the four kinds is the strictly sorted union of both inputs |
| `Web.MergeCommutative` | custom_components/myhome/web.py:239-248 | merging is symmetric |
| `Web.MergeAbsorbs` | custom_components/myhome/web.py:239-248 | merging the merge with the right side again changes nothing |
| `Web.IsValidDiscoveryClimate` | custom_components/myhome/web.py:251-265 | valid iff the gateway's climate filter accepts the WHERE |
| `Web.ItemLines` | custom_components/myhome/web.py:281-314 | each item yields 4, 3, 6 or 4 lines, the first being its key line, all of them indented |
| `Web.ItemsLinesLength` | custom_components/myhome/web.py:279-314 | a section body has lines-per-item × items lines |
| `Web.ItemsLinesPrefix` | custom_components/myhome/web.py:279-314 | the lines of earlier items are a prefix |
| `Web.ItemKeyLine` | custom_components/myhome/web.py:279-314 | the key line of item i sits at lines-per-item × i |
| `Web.KeyLineMarked` | custom_components/myhome/web.py:282-283 | the `already_configured` suffix appears iff the item is mapped |
| `Web.SnippetEmptyIff` | custom_components/myhome/web.py:316-317 | the snippet is only the no-devices line iff all four lists are empty |
| `Web.SnippetSectionOrder` | custom_components/myhome/web.py:279-314 | for any lists, the snippet opens exactly the sections of the non-empty kinds, in the order light, cover, climate, sensor |
| `Web.SectionLines` | custom_components/myhome/web.py:279-314 | the per-section loop builds exactly the section's lines |
| `Web.BuildDiscoverySnippet` | custom_components/myhome/web.py:268-319 | the snippet is the lines joined by newlines |
| `Web.FieldValues` | custom_components/myhome/web.py:200-214 | exactly the `str()` of the non-None values of the field over the platform's devices, at most one per device |
| `Web.PowerWheres` | custom_components/myhome/web.py:215-222 | exactly the WHEREs of sensors whose class suffix is power or energy: a subset of all sensor WHEREs, at most one per device |
| `Web.ConfiguredDiscoveryEndpoints` | custom_components/myhome/web.py:195-229 | exactly the configured light and cover WHEREs and climate zones, and exactly the WHEREs of power or energy sensors |
| `Web.ConfiguredLightIsMapped` | custom_components/myhome/web.py:200-236 | a configured light's WHERE is reported as mapped, never as new |
| `Web.CopiedEntry` | custom_components/myhome/web.py:172-180 | the shared part of a row has the key and the copied fields, absent ones null, and nothing else |
| `Web.PlatformEntry` | custom_components/myhome/web.py:180-190 | the platform part of a row has exactly the platform's fields: `dimmable` (default false), the sensor `class`, or `heat` (default true), `cool`, `fan` and `standalone` (default false) |
| `Web.UiEntry` | custom_components/myhome/web.py:172-190 | the row has exactly its key, the copied name/where/zone/who/interface/manufacturer/model (absent ones null) and its platform's fields; `dimmable`, `cool`, `fan` and `standalone` default to false, `heat` to true; a sensor row carries its `class` |
| `Web.PlatformRows` | custom_components/myhome/web.py:169-191 | one row per dictionary device of the platform, sorted by key, with no other rows |
| `Web.DistinctCard` | custom_components/myhome/web.py:169 | a duplicate-free list has as many entries as its set |
| `Web.DevicesForUi` | custom_components/myhome/web.py:158-192 | exactly the four platforms, each listing its dictionary devices |
| `Web.UpsertKey` | custom_components/myhome/web.py:411-417 | the key is clean; without a provided key it is `manual_<platform>_<address>` sanitised |
| `Web.UpsertKeyKeepsCleanKey` | custom_components/myhome/web.py:411-417 | a clean provided key is kept as is |
| `Web.DeleteRequest` | custom_components/myhome/web.py:469-475 | accepted iff the lower-cased platform is configurable and the key is non-blank |
| `Web.DeleteDevice` | custom_components/myhome/web.py:477-482 | removes only that key; other entries and platforms are kept; the platform goes iff it becomes empty; a section that is not a dictionary leaves the payload unchanged |
| `Web.AddMissing` | custom_components/myhome/web.py:522-524 | insertion never overwrites an existing entry |
| `Web.AddMissingKeys` | custom_components/myhome/web.py:515-564 | afterwards the keys are the old keys plus every offered key |
| `Web.AddMissingFirstWins` | custom_components/myhome/web.py:522-524 | a new key gets the first value offered for it |
| `Web.AddMissingOfPresent` | custom_components/myhome/web.py:522 | offering only present keys changes nothing |
| `Web.AddMissingIdempotent` | custom_components/myhome/web.py:515-564 | importing the same list twice equals importing it once |
| `Web.DiscoveredPairs` | custom_components/myhome/web.py:515-564 | one entry per discovered item |
| `Web.ImportedKeys` | custom_components/myhome/web.py:515-564 | the imported keys are the old keys plus the sanitised `discovered_<kind>_<addr>` keys |
| `Web.ImportIdempotent` | custom_components/myhome/web.py:515-564 | re-importing the same results adds nothing |
| `Web.ImportCount` | custom_components/myhome/web.py:515-564 | the number of devices an import adds is the growth in keys, at most one per address |
| `Web.ApplyImportOtherSection` | custom_components/myhome/web.py:511-564 | importing one kind leaves every other section as it was |
| `Web.ImportInto` | custom_components/myhome/web.py:515-564 | the loop equals the import function, and the count it returns is the number of devices added |
| `Web.PruneSections` | custom_components/myhome/web.py:567-570 | removes exactly the listed platforms whose section is empty |
| `Web.PruneEmpty` | custom_components/myhome/web.py:566-570 | removes exactly the empty configurable sections; the rest is unchanged |
| `Web.ApplyImportKeeps` | custom_components/myhome/web.py:515-564 | importing one kind never changes an existing entry |
| `Web.ImportKeepsExisting` | custom_components/myhome/web.py:511-570 | the whole import never overwrites an existing entry |
| `Web.GatewayConfigDraft.constructor` | custom_components/myhome/web.py:419-511 | the stored payload when there is a non-empty one, else `{mac: gateway}` |
| `Web.GatewayConfigDraft.Upsert` | custom_components/myhome/web.py:419-424 | sets the device under its key in a dictionary platform section |
| `Web.GatewayConfigDraft.Delete` | custom_components/myhome/web.py:477-482 | the payload after a delete |
| `Web.GatewayConfigDraft.ImportKind` | custom_components/myhome/web.py:515-564 | imports one kind and returns the number of devices it added to its section as it was before the step |
| `Web.GatewayConfigDraft.PruneEmptyPlatforms` | custom_components/myhome/web.py:566-570 | the loop removes the empty sections |
| `Web.GatewayConfigDraft.ImportDiscovery` | custom_components/myhome/web.py:511-570 | the four imports in order, then pruning; each returned count is the number of devices that kind added to its section of the original payload |
| `Web.WebRuntime.constructor` | custom_components/myhome/web.py:60-67 | nothing registered, count 0 |
| `Web.WebRuntime.SetupWeb` | custom_components/myhome/web.py:899-931 | both registered and one more entry |
| `Web.WebRuntime.UnloadWeb` | custom_components/myhome/web.py:934-947 | the count drops by one but not below 0; the panel goes only when the count reaches 0 |
| `ConfigStore.LoadData` | custom_components/bticino_myhome/config_store.py:21-32 | a non-dict gives `{"gateways": {}}`; otherwise both sections are dictionaries and every other key is kept |
| `ConfigStore.LoadDataIdempotent` | custom_components/bticino_myhome/config_store.py:21-32 | loading loaded data changes nothing |
| `ConfigStore.NormalizeGatewayPayload` | custom_components/bticino_myhome/config_store.py:40-43 | `mac` is forced to the gateway; the other keys are those of a dictionary payload, unchanged |
| `ConfigStore.NormalizeBareGateway` | custom_components/bticino_myhome/config_store.py:40-43 | `{mac: gateway}` is already normal |
| `ConfigStore.NormalizeGatewayPayloadIdempotent` | custom_components/bticino_myhome/config_store.py:40-43 | normalising twice equals normalising once |
| `ConfigStore.Texts` | custom_components/bticino_myhome/config_store.py:80 | exactly the non-empty `str()` of the values |
| `ConfigStore.NormalizeSnapshot` | custom_components/bticino_myhome/config_store.py:72-82 | four kinds, each strictly sorted without empty strings and holding exactly the non-empty texts; non-dictionary input gives four empty lists |
| `ConfigStore.NormalizedKind` | custom_components/bticino_myhome/config_store.py:77-81 | one kind of the snapshot: strictly sorted, without empty strings, exactly the non-empty texts |
| `ConfigStore.StrValues` | custom_components/bticino_myhome/config_store.py:104 | a stored list holds the strings in order |
| `ConfigStore.TextsOfStrings` | custom_components/bticino_myhome/config_store.py:80 | reading stored strings back returns them |
| `ConfigStore.SnapshotKindRoundTrip` | custom_components/bticino_myhome/config_store.py:72-82 | a normal kind list survives storing and normalising |
| `ConfigStore.NormalizeSnapshotIdempotent` | custom_components/bticino_myhome/config_store.py:72-82 | normalising a normalised snapshot returns it unchanged |
| `ConfigStore.SnapshotRoundTrip` | custom_components/bticino_myhome/config_store.py:72-82 | a normal snapshot survives storing and normalising |
| `ConfigStore.GetAfterSetGateway` | custom_components/bticino_myhome/config_store.py:46-59 | get after set returns the payload with `mac` forced; other gateways and the activation results are unchanged |
| `ConfigStore.GetAfterRemoveGateway` | custom_components/bticino_myhome/config_store.py:62-70 | after removal there is no config and the empty snapshot; other gateways keep both |
| `ConfigStore.GetAfterSetActivation` | custom_components/bticino_myhome/config_store.py:85-105 | get after set returns the normalised snapshot; everything else is unchanged |
| `ConfigStore.SetActivationReadsBack` | custom_components/bticino_myhome/config_store.py:85-105 | the stored snapshot reads back normalised |
| `ConfigStore.SetActivationKeepsOthers` | custom_components/bticino_myhome/config_store.py:93-105 | other gateways' snapshots and all configurations are untouched |
| `ConfigStore.GetAfterClearActivation` | custom_components/bticino_myhome/config_store.py:108-114 | clear gives the empty snapshot for that gateway only |
| `ConfigStore.Store.constructor` | custom_components/bticino_myhome/config_store.py:17-18 | the store holds the given content |
| `ConfigStore.Store.GetGatewayConfig` | custom_components/bticino_myhome/config_store.py:46-52 | the read function's value, with `mac` equal to the gateway |
| `ConfigStore.Store.SetGatewayConfig` | custom_components/bticino_myhome/config_store.py:55-59 | saves the upserted content |
| `ConfigStore.Store.RemoveGatewayConfig` | custom_components/bticino_myhome/config_store.py:62-70 | saves the content without the gateway |
| `ConfigStore.Store.GetActivationDiscoveryResults` | custom_components/bticino_myhome/config_store.py:85-90 | the normalised snapshot: sorted, without empty strings |
| `ConfigStore.Store.SetActivationDiscoveryResults` | custom_components/bticino_myhome/config_store.py:93-105 | saves the normalised snapshot |
| `ConfigStore.Store.ClearActivationDiscoveryResults` | custom_components/bticino_myhome/config_store.py:108-114 | drops the gateway's snapshot |
| `ConfigStore.Store.GetOrInitGatewayConfig` | custom_components/bticino_myhome/config_store.py:117-124 | a stored config is returned unchanged; otherwise `{mac: gateway}` is stored and returned; either way get then returns it |
| `Climate.DecodeThermoState` | custom_components/myhome/climate.py:115-138 | 0..5 → off/on/opened/closed/stopped/fan_off, 6..8 → fan_speed_1..3, 9 and above → fan_auto; negative or non-integer → None |
| `Climate.DecodeThermoStateDistinct` | custom_components/myhome/climate.py:115-138 | codes 0..9 decode to distinct states |
| `Climate.FanModeFromSpeed` | custom_components/myhome/climate.py:141-152 | off for `False`, None for a non-bool; for `True`, low/medium/high iff the speed is 1/2/3, otherwise auto |
| `Climate.SupportedModes` | custom_components/myhome/climate.py:192-202 | starts with OFF; AUTO iff (heating or cooling) and not central; HEAT iff heating; COOL iff cooling; no repeats |
| `Climate.ValveStatus` | custom_components/myhome/climate.py:280-286 | "closed" iff 0, "open" iff 100, "partial" otherwise |
| `Climate.ClimateZone.constructor` | custom_components/myhome/climate.py:154-232 | WHERE `#0` forces central; the mode and fan lists; every state attribute unset |
| `Climate.ClimateZone.HandleValvePosition` | custom_components/myhome/climate.py:291-303 | stores position and channel; in HEAT the action is heating iff > 0, else idle; in COOL cooling iff > 0, else idle; other modes keep the action |
| `Climate.ClimateZone.ApplyMode` | custom_components/myhome/climate.py:437-534 | OFF sets mode, function and action to off; a supported mode is entered and turns an off action into idle; an unsupported mode changes nothing |
| `Climate.ClimateZone.ApplyFan` | custom_components/myhome/climate.py:545-561 | fan telemetry is updated where present; the fan mode comes from the main fan, else the cooling fan, else it is kept |
| `Climate.ClimateZone.ApplyDimensions` | custom_components/myhome/climate.py:563-572 | two values set the cooling (0) and heating (1) valve states; one value with an actuator sets only that actuator |
| `Climate.ClimateZone.ApplyActivity` | custom_components/myhome/climate.py:574-592 | an active zone heats or cools by its capabilities, and a dual zone by what the event reports; an inactive one is off when the mode is off, idle otherwise |
| `Climate.ClimateZone.HandleEvent` | custom_components/myhome/climate.py:382-594 | the mode lists are kept and the mode stays supported; only ACTION events touch fan and valve states; measurement events leave mode and action alone |
| `Integration.SuggestionItems` | custom_components/myhome/__init__.py:304-328 | one line per item naming `discovered_<kind>_<addr>` |
| `Integration.HeadersAppend` | custom_components/myhome/__init__.py:301-328 | the headers of concatenated lines are the concatenated headers |
| `Integration.HeadersOfItems` | custom_components/myhome/__init__.py:304-307 | item lines are never headers |
| `Integration.HeadersOfSection` | custom_components/myhome/__init__.py:302-307 | a section has its header iff it has items |
| `Integration.SuggestionHeaders` | custom_components/myhome/__init__.py:295-330 | headers appear in the order Light, Cover, Climate, Power sensor, each iff its list is non-empty |
| `Integration.SuggestionCount` | custom_components/myhome/__init__.py:295-330 | one line per header and per item; no lines iff all four inputs are empty |
| `Integration.SectionMentions` | custom_components/myhome/__init__.py:302-307 | every item of a section gets its line |
| `Integration.SuggestionMentionsEveryResult` | custom_components/myhome/__init__.py:295-330 | every result is suggested under its own kind |
| `Integration.AppendSuggestions` | custom_components/myhome/__init__.py:302-307 | the loop appends one section |
| `Integration.BuildSuggestionLines` | custom_components/myhome/__init__.py:295-330 | the builder yields the suggestion lines |
| `Integration.UniqueId` | custom_components/myhome/__init__.py:186-193 | an id starts with `<mac>-<device>`; it ends there exactly when the entity is named like its platform, and otherwise with `-<entity>` |
| `Integration.DeviceIds` | custom_components/myhome/__init__.py:183-193 | one unique id per entity: `mac-device` when the entity is named after the platform, `mac-device-entity` otherwise |
| `Integration.DeviceIdsMembers` | custom_components/myhome/__init__.py:183-193 | an id belongs to a device iff one of its entities yields it |
| `Integration.PlatformIdsMembers` | custom_components/myhome/__init__.py:180-193 | an id belongs to a platform iff one of its devices yields it |
| `Integration.ExpectedIdsMembers` | custom_components/myhome/__init__.py:177-193 | the expected ids are exactly the ids of configured entities |
| `Integration.AppendDeviceIds` | custom_components/myhome/__init__.py:183-193 | the innermost loop appends the device's ids |
| `Integration.ConfiguredEntities` | custom_components/myhome/__init__.py:177-193 | the nested loops build exactly the expected ids |
| `Integration.RemoveFirst` | custom_components/myhome/__init__.py:198 | `list.remove` keeps all other elements and removes nothing that is absent |
| `Integration.RemoveFirstDistinct` | custom_components/myhome/__init__.py:198 | on a duplicate-free list the element is gone and no duplicates appear |
| `Integration.SplitEntries` | custom_components/myhome/__init__.py:168-200 | an entity is removed iff its unique id is not configured; a device is a candidate iff it is the entry's and hosts no kept entity; no duplicates |
| `Integration.Registries.constructor` | custom_components/myhome/__init__.py:136-137 | the registries as given |
| `Integration.Registries.Prune` | custom_components/myhome/__init__.py:167-217 | exactly the unconfigured entities go; a device goes iff it belongs to the entry, is not the gateway, hosts no kept entity and has no entities left |
| `Integration.ResolveGateway` | custom_components/myhome/__init__.py:289-293 | no argument gives the first configured gateway (an error when there is none); otherwise `format_mac` of the argument |
| `Panel.ReplaceAllAppend` | custom_components/myhome/frontend/myhome-discovery-panel.js:46-50 | global replacement distributes over concatenation |
| `Panel.ChainIsPerCharacter` | custom_components/myhome/frontend/myhome-discovery-panel.js:45-50 | the five chained replacements equal escaping each character on its own, because `&` goes first |
| `Panel.EscapeEachEscaped` | custom_components/myhome/frontend/myhome-discovery-panel.js:45-50 | the output has no raw `<`, `>`, `"` or `'`, and every `&` starts one of the five entities |
| `Panel.Esc` | custom_components/myhome/frontend/myhome-discovery-panel.js:44-51 | `_esc` output is escaped, and null or undefined gives `""` |
| `Panel.UnescapeEsc` | custom_components/myhome/frontend/myhome-discovery-panel.js:44-51 | unescaping recovers the input, so `_esc` loses nothing |
| `Panel.UnescapeEscapeEach` | custom_components/myhome/frontend/myhome-discovery-panel.js:45-50 | per-character escaping is undone by unescaping |
| `Panel.DefaultCandidate` | custom_components/myhome/frontend/myhome-discovery-panel.js:184-229 | id `platform:address`, selected; per-platform key, name and flags; any other platform gets the power key and class |
| `Panel.AppendDraftsSpec` | custom_components/myhome/frontend/myhome-discovery-panel.js:238-243 | appending adds exactly the offered ids, each taken from the previous drafts when present, else the default |
| `Panel.RefreshedDraftsSpec` | custom_components/myhome/frontend/myhome-discovery-panel.js:231-250 | the new draft ids are exactly the offered light/cover/climate/sensor ids; surviving drafts keep the user's edits |
| `Panel.AppendCandidates` | custom_components/myhome/frontend/myhome-discovery-panel.js:238-243 | the `forEach` loop equals the append function |
| `Panel.ImportBody` | custom_components/myhome/frontend/myhome-discovery-panel.js:307-329 | climate sends the zone and four booleans, the others send `where`; light adds dimmable; sensor adds a non-empty class: the given one, or `power` when it is missing or empty |
| `Panel.Selected` | custom_components/myhome/frontend/myhome-discovery-panel.js:290 | exactly the selected entries |
| `Panel.Bodies` | custom_components/myhome/frontend/myhome-discovery-panel.js:306-329 | one body per selected candidate, in order |
| `Panel.OutcomesAddUp` | custom_components/myhome/frontend/myhome-discovery-panel.js:303-337 | imported plus failures equals the number posted |
| `Panel.AllAcceptedNoFailures` | custom_components/myhome/frontend/myhome-discovery-panel.js:331-336 | no failure lines iff every post succeeded |
| `Panel.PostAll` | custom_components/myhome/frontend/myhome-discovery-panel.js:303-337 | the loop posts the bodies and counts successes and failures |
| `Panel.SelectEntries` | custom_components/myhome/frontend/myhome-discovery-panel.js:290 | the filter loop yields the selected entries |
| `Panel.DiscoveryPanel.constructor` | custom_components/myhome/frontend/myhome-discovery-panel.js:2-14 | no result, no drafts, no notice or error |
| `Panel.DiscoveryPanel.RefreshCandidateDrafts` | custom_components/myhome/frontend/myhome-discovery-panel.js:231-250 | no result empties the drafts; otherwise they become the refreshed drafts |
| `Panel.DiscoveryPanel.ImportSelectedCandidates` | custom_components/myhome/frontend/myhome-discovery-panel.js:285-351 | no gateway does nothing; nothing selected sets the notice; otherwise it posts one body per selected entry and reports the count and the failures |

## Left out

- asyncio scheduling is out: task creation, `asyncio.sleep`, `wait_for` timeouts, cancellation, and the interleaving of the listener with the workers. The loops are single deterministic steps; waits are computed, not slept.
- The OWNd library is not part of this model. A received frame is a `Messages.Kind` carrying the flags and fields the code reads, plus its raw text.
- Home Assistant's bus, `hass.data`, and the entity and device registries are plain maps and sets. Firing a bus event is an effect in the routing result.
- `DiscoverySendErrorDowngradeFilter` is out, because it only changes the severity of log records.
- Log text and severity are out. The model keeps only whether a rate-limited line is emitted.
- HTTP request and response plumbing, static-path and panel registration, `_resolve_gateway_from_payload` (web.py:95-107) and `_reload_gateway_entry` are out. Each view is modelled from the point where it has its gateway and its decoded payload.
- `config_schema` is not part of this model. It lives in validate.py, which is not shown.
- `format_mac` is not part of this model. `Integration.ResolveGateway` takes it as a parameter.
- `_to_int` is out, because it relies on Python `int()` of arbitrary objects.
- Store I/O is out. The store is an in-memory `Value`, and every accessor reads and saves it in one step.
- const.py is not part of this model. The constants used are the discovery bounds (area 0-10, point 0-15, duration 2-30), the sensor classes `power`, `temperature`, `energy` and `illuminance`, and the platform names `light`, `cover`, `climate` and `sensor`. The configuration keys are taken to be `mac` (`CONF_MAC`), `where` (`CONF_WHERE`), `zone` (`CONF_ZONE`), `class` (`CONF_DEVICE_CLASS`), `who` (`CONF_WHO`), `interface` (`CONF_BUS_INTERFACE`), `manufacturer` (`CONF_MANUFACTURER`) and `model` (`CONF_DEVICE_MODEL`). A platform section is keyed by the platform name. The nesting under `CONF_PLATFORMS` and `CONF_ENTITIES` is structure (`Web.RuntimePlatforms`, `Integration.PlatformConfig`, `Integration.DeviceConfig`), not keys.
- The sending worker does not tell apart a failure of `connect()` from a failure of the `OWNCommandSession` constructor itself (which would leave the session unset). Whether OWNd's `send` succeeds on a session whose connect failed is the `SendOutcome` parameter of the turn.
- Temperatures, offsets and humidity in climate.py are floating point and are left out. `Climate.ClimateZone.HandleEvent` therefore does not follow the measurement and set-point branches (384-436, 535-538).
- Climate set-point and mode commands (305-380) are out.
- Unicode handling is ASCII-only. `str.isdigit`, `\d`, `lower()` and `strip()` are modelled over ASCII; other Unicode digits, case folding and blanks are out.
- `str()` of a container or a float is an opaque text. Only strings, integers, booleans and `None` are rendered exactly.
- Python `set` and `tuple` values in a stored snapshot are read as lists.
- `int()` of the thermostat state is an `Option<int>`. None stands for a value that does not convert.
- The `localeCompare` sort in `_candidateEntries` is out, because it is locale-dependent. `Panel.DiscoveryPanel.ImportSelectedCandidates` takes the entries in the order it is given.
- The panel's reload after an import (`_loadConfiguration`, `_showActivationResults`), rendering, DOM binding and `callApi` are out. A POST is a function parameter returning the error text or none.
- JavaScript values are modelled as strings and `Option`s. `!!x` is `Truthy`; `x || "power"` treats only a missing or empty class as falsy.
- `Web.DeviceFromPayload`: `str(payload.get(f) or "")` is modelled for missing, `None`, boolean, integer and string values. Other falsy containers count as empty, and other values render opaquely.
- `Climate.ClimateZone.HandleEvent`: the contract states what the handler keeps; the exact new values are stated per branch by `ApplyMode`, `ApplyFan`, `ApplyDimensions` and `ApplyActivity`.

## Findings

| source | as written | input that shows it | evidently intended | confidence | as-written member | corrected member |
|---|---|---|---|---|---|---|
| custom_components/myhome/gateway.py:850-879 | `command_session` is bound before `connect()` is awaited and is not reset when the connect raises, so the next turn skips both the backoff and the reconnect | the first connect of a worker fails with an empty queue: the worker then idles forever with retry 1 and never connects again; with a task queued, the next turn hands it straight to the unconnected session | a failed connect leaves no session, so each turn waits `min(2^k, 60)` seconds and connects again, as the retry logging says | medium, not executed | `Retry.FailedConnectStopsReconnecting` | `Retry.ReconnectAfterFailedConnect` |

Both policies are one definition, `Retry.SenderTurnFor`, with a flag for
keeping the failed session: `Retry.SenderStep` follows the code and
`Retry.ReconnectingSenderStep` the intended policy. The worker class
`Gateway.SendingWorker` follows the code as written.
