# Technicolor CGA gateway integration — a verified model

This project models the core of a Home Assistant integration for Technicolor CGA cable
gateways, in three parts.

- **The gateway client** (`TechnicolorCGA`).
  - It builds the REST URIs of the gateway.
  - It answers the PBKDF2 salt challenge, runs the two-POST login that installs an
    `X-CSRF-TOKEN` header, and queries the system, modem, DHCP and host categories or
    reboots the box.
  - The client is a class over a session state: headers, cookie jar, a log of the requests
    issued, and the `logged` flag.
  - Login is specified by a function of the session and the gateway's three replies. The
    imperative method is proved equal to that function.
- **The device-presence delta tracker** (`TechnicolorCGAHostDeltaSensor`).
  - Each update reads the host table into `current_devices`, keyed by MAC.
  - It then upserts `current_devices` into the ever-growing `_known_devices`, an
    insertion-ordered dict modelled as a key order plus a map.
  - Finally it rebuilds `_missing_devices`: every known MAC that is absent from the table
    (status `missing`) or whose `active` value is `"false"` (status `inactive`).
  - The attributes are both lists stably sorted by `_ip_sort_key`.
  - Both loops are imperative methods, proved to compute closed-form specification
    functions. Their properties are proved as lemmas:
    - the last duplicate MAC wins, and nothing is ever forgotten;
    - the `missing` and `inactive` entries are exactly the flagged known MACs;
    - entries follow insertion order with no MAC twice, and the state is the number of
      flagged MACs;
    - a repeated update is idempotent;
    - a failed read changes nothing;
    - the attribute lists are permutations, sorted and stable.
- **The polling sensors of both sensor revisions.**
  - The system status sensor, which also learns model and firmware, the per-field DHCP
    sensors and the host-count sensor.
  - They are classes whose updates keep their previous state when the fetch raises.
  - They share pure rules: the unique id, the device-registry record, the `CMStatus` split,
    and the DHCP and host-count values. The older revision
    (`custom_components/sensor.py`) differs only in lacking the host, the registry record
    and the model/firmware fields.

Modules:
- `Wrappers` holds `Option` and `Result`.
- `Values` holds decoded JSON values, Python's `get`, `[]`, `or` and truthiness, and the
  exception classes.
- `Strings` holds `split`, `join`, decimal rendering, `replace` and `lower`.
- `Encoding` holds UTF-8 and `bytes.hex()`.
- `Gateway` is the client.
- `IpOrder` holds `_ip_sort_key`, tuple order and the stable `sorted`.
- `SensorRules` holds the shared sensor rules.
- `HostDelta` is the delta tracker.
- `Sensors` and `LegacySensors` are the two sensor revisions.

External effects are parameters:
- a fetch is its outcome, `Result<Value, Error>`;
- an HTTP exchange is a `Reply` value, and the request is appended to the session log;
- the clock is a `now: nat` argument, one reading per `endpoint` call (`login` takes three);
- PBKDF2-HMAC-SHA256 is a function-typed parameter returning 32 bytes.

The code has no re-login, no retry after session expiry, no session-expiry error and no
login lock; neither does the model. Login raises on the first missing key or non-`"ok"`
verdict, and the model does exactly that.

## Model

| member | source | states |
|---|---|---|
| Values.GetOr | custom_components/technicolor_cga/sensor.py:177 | `d.get(k, default)`: the stored value when the key is present, the default otherwise |
| Values.Index | custom_components/technicolor_cga.py:29 | `v[key]` succeeds exactly on a dict holding the key; a dict without it raises KeyError, anything else TypeError |
| Values.Truthy | custom_components/technicolor_cga/sensor.py:158-161 | Python truthiness: None, False, 0, `""`, `[]` and `{}` are falsy, every other value truthy |
| Values.Get | custom_components/technicolor_cga/sensor.py:179 | `d.get(key)`: the stored value, None when the key is absent |
| Values.Or | custom_components/technicolor_cga/sensor.py:179 | `x or y`: the left operand when it is truthy, otherwise the right one |
| Values.FirstTruthy | custom_components/technicolor_cga/sensor.py:180-184 | an `or` chain evaluated left to right; its meaning is proved in FirstTruthyIsFirst |
| Values.FirstTruthyIsFirst | custom_components/technicolor_cga/sensor.py:179-184 | a chain of `or` is truthy iff some operand is; it yields the first truthy operand, else the last operand |
| Strings.Split | custom_components/technicolor_cga/sensor.py:288 | `split` never returns an empty list |
| Strings.Join | custom_components/technicolor_cga.py:18 | `','.join(options)`: the pieces with one separator between neighbours; JoinSplit and SplitJoin relate it to `split` |
| Strings.Decimal | custom_components/technicolor_cga.py:19-24 | the f-string rendering of the integer timestamp, most significant digit first; DecimalRoundTrip reads it back |
| Strings.SplitPartsFree | custom_components/technicolor_cga/sensor.py:288 | no piece of a split contains the separator |
| Strings.JoinSplit | custom_components/technicolor_cga/sensor.py:288 | joining the pieces with the separator gives back the address |
| Strings.SplitJoin | custom_components/technicolor_cga.py:18 | splitting a join of separator-free pieces gives them back in order, duplicates included |
| Strings.DecimalRoundTrip | custom_components/technicolor_cga.py:19-24 | the rendered timestamp is a digit string that reads back as the number |
| Strings.ReplaceChar | custom_components/technicolor_cga/sensor.py:127 | `replace(' ', '_')` keeps the length and changes exactly the spaces |
| Strings.Lower | custom_components/technicolor_cga/sensor.py:127 | `lower()` keeps the length and maps each character to its lowercase form |
| Encoding.Utf8RoundTrip | custom_components/technicolor_cga.py:32-33 | UTF-8 decoding undoes `encode('utf-8')`, so distinct strings have distinct encodings |
| Encoding.Utf8OfAscii | custom_components/technicolor_cga.py:32-33 | ASCII text encodes to one byte per character, equal to its code |
| Encoding.Utf8 | custom_components/technicolor_cga.py:32-33 | `encode('utf-8')`: each character's one- to four-byte encoding, concatenated, never shorter than the text |
| Encoding.Hex | custom_components/technicolor_cga.py:35 | `hex()` gives two lowercase hex digits per byte |
| Encoding.HexRoundTrip | custom_components/technicolor_cga.py:35 | reading the hex digits back gives the bytes |
| Encoding.HexPrefix | custom_components/technicolor_cga.py:35 | the first `2k` hex digits are the hex of the first `k` bytes |
| Gateway.EndpointRoundTrip | custom_components/technicolor_cga.py:17-24 | without options the URI is the server, `/api/v1/`, the target and `?_=now`; otherwise one path segment splits back into the options in order, duplicates kept; the timestamp reads back as `now` |
| Gateway.EndpointUri | custom_components/technicolor_cga.py:17-24 | `endpoint`: server, `/api/v1/`, target, then `/` and the comma-joined options when there are any, then `?_=` and the clock reading |
| Gateway.Challenge | custom_components/technicolor_cga.py:31-35 | 32 lowercase hex characters that decode to the first 16 bytes of PBKDF2-HMAC-SHA256 (1000 rounds) over the UTF-8 password and salt |
| Gateway.Decode | custom_components/technicolor_cga.py:28 | `.json()` succeeds exactly for a reply with a decodable body; an unreachable gateway is a ConnectionError |
| Gateway.TextAt | custom_components/technicolor_cga.py:47-48 | `response[key]` is usable as text exactly when the decoded dict holds a string there |
| Gateway.ErrorIsOk | custom_components/technicolor_cga.py:135-137 | `response['error'] == 'ok'` evaluates exactly when the body is a dict with `error`, and is true exactly when that value is `"ok"` |
| Gateway.DataOf | custom_components/technicolor_cga.py:26-29 | `call` returns the `data` entry; a dict without it raises KeyError('data') |
| Gateway.Transmit | custom_components/technicolor_cga.py:44 | a request is logged with the headers in force, and its reply's cookies are added to the jar |
| Gateway.Salts | custom_components/technicolor_cga.py:45-48 | the first login reply decoded and read as `response['salt']` and `response['saltwebui']`, each of which must be text |
| Gateway.LoginSpec | custom_components/technicolor_cga.py:37-69 | `login` as a function of the session, the three replies and the clock readings of the three `endpoint` calls: salt POST, challenge POST, then Authorize |
| Gateway.Authorize | custom_components/technicolor_cga.py:59-69 | the verdict of the second reply, the `auth` cookie installed as `X-CSRF-TOKEN`, the menu GET and the flag |
| Gateway.LoginStartsWithSaltRequest | custom_components/technicolor_cga.py:37-45 | login only appends one to three requests; the first POSTs the configured username with password `seeksalthash` to `session/login` |
| Gateway.AuthorizeAppends | custom_components/technicolor_cga.py:59-67 | the end of login appends at most the session-menu GET |
| Gateway.LoginAnswersChallenge | custom_components/technicolor_cga.py:47-56 | once both salts arrive, the second request POSTs user `user` with `challenge(challenge(password, salt), saltwebui)` to `session/login` |
| Gateway.LoginSucceedsIff | custom_components/technicolor_cga.py:37-69 | login returns True iff the salts arrive, the verdict is `"ok"`, an `auth` cookie is set and the menu is reachable; then the `auth` cookie is the `X-CSRF-TOKEN` header, the menu GET carried it, exactly three requests were issued and `logged` is set |
| Gateway.LoginFailureKeepsFlag | custom_components/technicolor_cga.py:59-69 | a failed login leaves `logged` unchanged, and installs no CSRF header unless the menu request itself was unreachable |
| Gateway.LoginRejected | custom_components/technicolor_cga.py:59-69 | a verdict other than `"ok"` raises "invalid credentials" after exactly the two POSTs, with headers and flag unchanged |
| Gateway.LoginScriptedSalts | custom_components/technicolor_cga.py:47-56 | with salts `"a"` and `"b"` the second POST carries `challenge(challenge(password, "a"), "b")` |
| Gateway.TechnicolorCga.constructor | custom_components/technicolor_cga.py:6-15 | server is `http://` + router (default 192.168.0.1); not logged in; User-Agent and X-Requested-With headers; empty jar and log |
| Gateway.TechnicolorCga.Endpoint | custom_components/technicolor_cga.py:17-24 | the client's `endpoint` on its own `server` |
| Gateway.TechnicolorCga.Send | custom_components/technicolor_cga.py:44 | one `session.post`/`get`: the new session state is the old one after `Transmit` |
| Gateway.TechnicolorCga.Call | custom_components/technicolor_cga.py:26-29 | issues one GET and returns the `data` projection of its reply |
| Gateway.TechnicolorCga.Login | custom_components/technicolor_cga.py:37-69 | the resulting session and outcome are exactly `LoginSpec` of the session before it, the three replies and the three clock readings |
| Gateway.TechnicolorCga.OpenSession | custom_components/technicolor_cga.py:59-69 | the tail of login (`auth` cookie to header, menu GET, flag) equals `Authorize` |
| Gateway.TechnicolorCga.System | custom_components/technicolor_cga.py:71-97 | one GET of `system` with the 21 listed fields in order (duplicates kept); returns its `data` |
| Gateway.TechnicolorCga.Levels | custom_components/technicolor_cga.py:99-109 | one GET of `modem` with the five level tables; returns its `data` |
| Gateway.TechnicolorCga.Dhcp | custom_components/technicolor_cga.py:111-122 | one GET of `dhcp/v4/1` with the six DHCP fields; returns its `data` |
| Gateway.TechnicolorCga.HostTable | custom_components/technicolor_cga.py:124-128 | one GET of `host` with exactly the four host options; returns its `data` |
| Gateway.TechnicolorCga.Reboot | custom_components/technicolor_cga.py:130-137 | one POST to the option-less `reset` endpoint with `reboot=Router,Wifi,VoIP,Dect,MoCA`; returns `error == "ok"` |
| IpOrder.KeyLe | custom_components/technicolor_cga/sensor.py:263-271 | Python's lexicographic `<=` on the integer tuples that `sorted` compares |
| IpOrder.IpSortKey | custom_components/technicolor_cga/sensor.py:285-291 | `_ip_sort_key`: the integers of the `.`-separated pieces when every piece parses, otherwise `(999, 999, 999, 999)` |
| IpOrder.SortBy | custom_components/technicolor_cga/sensor.py:263-271 | `sorted(xs, key=...)` as an insertion sort; SortByPermutes, SortByStable and StableSortIsUnique show it is the stable sort `sorted` is |
| IpOrder.KeyLeReflexive | custom_components/technicolor_cga/sensor.py:263-271 | tuple `<=` is reflexive |
| IpOrder.KeyLeTotal | custom_components/technicolor_cga/sensor.py:263-271 | tuple `<=` is total |
| IpOrder.KeyLeAntisymmetric | custom_components/technicolor_cga/sensor.py:263-271 | tuple `<=` is antisymmetric |
| IpOrder.KeyLeTransitive | custom_components/technicolor_cga/sensor.py:263-271 | tuple `<=` is transitive |
| IpOrder.PartValues | custom_components/technicolor_cga/sensor.py:288 | one integer per piece, each the piece's decimal value |
| IpOrder.IpSortKeyOfDotted | custom_components/technicolor_cga/sensor.py:285-288 | the key of a dotted rendering of naturals is that tuple, whatever its length |
| IpOrder.NonNumericGetsSentinel | custom_components/technicolor_cga/sensor.py:289-291 | one piece that is not an integer gives `(999, 999, 999, 999)` |
| IpOrder.DottedQuadBeforeUnparsable | custom_components/technicolor_cga/sensor.py:285-291 | a dotted quad sorts strictly before any address that does not parse |
| IpOrder.SortByPermutes | custom_components/technicolor_cga/sensor.py:263-271 | `sorted` is a permutation of its input and is nondecreasing by key |
| IpOrder.SortByStable | custom_components/technicolor_cga/sensor.py:263-271 | `sorted` keeps the relative order of elements with equal keys |
| IpOrder.WithKeyMembers | custom_components/technicolor_cga/sensor.py:263-271 | the equal-key class of `k` holds exactly the elements with key `k` |
| IpOrder.SortedWithSameKeyClassesEqual | custom_components/technicolor_cga/sensor.py:263-271 | two key-sorted sequences with the same equal-key classes are equal |
| IpOrder.StableSortIsUnique | custom_components/technicolor_cga/sensor.py:263-271 | any arrangement that is sorted by key and stable is exactly `sorted`'s result |
| IpOrder.KeyOfTwos | custom_components/technicolor_cga/sensor.py:285-288 | `"2.2.2.2"` has key `(2, 2, 2, 2)` |
| IpOrder.KeyOfTenFive | custom_components/technicolor_cga/sensor.py:285-288 | `"10.0.0.5"` has key `(10, 0, 0, 5)` |
| IpOrder.KeyOfBadIp | custom_components/technicolor_cga/sensor.py:289-291 | `"bad-ip"` has the sentinel key |
| IpOrder.AddressOrderExample | custom_components/technicolor_cga/sensor.py:285-291 | numerically `"2.2.2.2"` sorts before `"10.0.0.5"`, which sorts strictly before `"bad-ip"` |
| SensorRules.Slug | custom_components/technicolor_cga/sensor.py:124-127 | the name with spaces replaced by `_` and then lowercased, position by position |
| SensorRules.UniqueId | custom_components/technicolor_cga/sensor.py:124-127 | `unique_id`: the config entry id, `_`, then the slug of the name; UniqueIdCollision says when two collide |
| SensorRules.UniqueIdCollision | custom_components/sensor.py:93-96 | within one config entry two sensors share a unique id iff their names have the same slug |
| SensorRules.GatewayDeviceInfo | custom_components/technicolor_cga/sensor.py:144-162 | identifiers `{(technicolor_cga, host)}`, fixed name and manufacturer, `http://host/`; model and firmware present iff truthy |
| SensorRules.SystemState | custom_components/technicolor_cga/sensor.py:177 | `CMStatus`, or `"Unknown"` when absent |
| SensorRules.SystemAttributes | custom_components/technicolor_cga/sensor.py:185 | every key except `CMStatus`, values unchanged |
| SensorRules.SystemSplitLossless | custom_components/sensor.py:123-124 | state and attributes together reconstruct the system data |
| SensorRules.ModelOf | custom_components/technicolor_cga/sensor.py:179 | `ModelName` when truthy, otherwise whatever `Model` holds (None when absent) |
| SensorRules.SwVersionOf | custom_components/technicolor_cga/sensor.py:180-184 | the first truthy of `SoftwareVersion`, `SWVersion`, `FirmwareVersion`, else the last; truthy iff one of them is |
| SensorRules.DhcpState | custom_components/technicolor_cga/sensor.py:205 | the DHCP field's value, or `"Unknown"` when absent; a non-dict reply raises |
| SensorRules.Len | custom_components/technicolor_cga/sensor.py:219 | `len` is defined exactly on strings, lists and dicts |
| SensorRules.HostCount | custom_components/technicolor_cga/sensor.py:219 | the host count is the length of `hostTbl`, 0 when absent; it fails on a non-dict reply or an unsized table |
| HostDelta.HostRecord | custom_components/technicolor_cga/sensor.py:299-304 | a host is read iff it is a dict with a string `physaddress`; a missing `physaddress` raises KeyError; ip and hostname default to `"Unknown"`, active to `"false"` |
| HostDelta.HostEntries | custom_components/technicolor_cga/sensor.py:305 | `host_data.get("hostTbl", [])` iterated: `[]` when absent, the items of a list; raises on a non-dict reply |
| HostDelta.Records | custom_components/technicolor_cga/sensor.py:299-306 | all hosts are read iff each one is; the records are index by index those of the hosts |
| HostDelta.Put | custom_components/technicolor_cga/sensor.py:310 | `d[mac] = device` on an insertion-ordered dict: a new key goes last, an existing one keeps its place and takes the new record |
| HostDelta.Collect | custom_components/technicolor_cga/sensor.py:299-306 | the dict comprehension: the records stored one after another in table order |
| HostDelta.CurrentDevices | custom_components/technicolor_cga/sensor.py:298-306 | `current_devices`: the host entries, their records, then the comprehension; the first failure raises |
| HostDelta.PutWellFormed | custom_components/technicolor_cga/sensor.py:310 | a dict store keeps the dict well formed and adds exactly the stored key |
| HostDelta.CollectWellFormed | custom_components/technicolor_cga/sensor.py:299-306 | `current_devices` lists each MAC of the table once, and no other key |
| HostDelta.CollectLastWins | custom_components/technicolor_cga/sensor.py:299-306 | a MAC listed more than once carries the record of its last listing |
| HostDelta.CurrentDevicesOfTable | custom_components/technicolor_cga/sensor.py:298-306 | building `current_devices` succeeds iff every host is a dict with a string `physaddress`, so a host without `physaddress` raises; on success it is the comprehension over the records, well formed, with exactly the table's MACs as keys |
| HostDelta.CurrentDevicesWellFormed | custom_components/technicolor_cga/sensor.py:299-306 | a successfully built `current_devices` is a well-formed dict |
| HostDelta.NewMacsMembers | custom_components/technicolor_cga/sensor.py:309-310 | the keys an upsert appends are exactly the table MACs that were not known |
| HostDelta.NewMacs | custom_components/technicolor_cga/sensor.py:309-310 | the table MACs, in table order, that the known devices do not hold yet |
| HostDelta.UpsertKnown | custom_components/technicolor_cga/sensor.py:309-310 | the records after the store loop: the table's record for a table MAC, the old record for any other known MAC |
| HostDelta.PutAll | custom_components/technicolor_cga/sensor.py:309-310 | the known devices after the first `i` iterations of the store loop |
| HostDelta.Flagged | custom_components/technicolor_cga/sensor.py:315-324 | a known MAC is reported when it is absent from the table or its `active` there is `"false"` |
| HostDelta.EntryFor | custom_components/technicolor_cga/sensor.py:315-332 | the reported entry: `missing` with the last recorded ip and hostname, `inactive` with the table's |
| HostDelta.Delta | custom_components/technicolor_cga/sensor.py:313-332 | the rebuild loop: the entries of the flagged known MACs, walked in insertion order |
| HostDelta.DeltaSound | custom_components/technicolor_cga/sensor.py:313-332 | every reported entry is for a known MAC that is absent or inactive, and carries that MAC's entry |
| HostDelta.DeltaComplete | custom_components/technicolor_cga/sensor.py:313-332 | every known MAC that is absent or inactive is reported |
| HostDelta.DeltaOrdered | custom_components/technicolor_cga/sensor.py:314 | reported entries follow the insertion order of `_known_devices`, so no MAC is reported twice |
| HostDelta.DeltaCount | custom_components/technicolor_cga/sensor.py:254-257 | the number of reported entries is the number of flagged known MACs |
| HostDelta.UpsertOrder | custom_components/technicolor_cga/sensor.py:309-310 | after the upsert a MAC is a key iff it was known or is in the table |
| HostDelta.UpsertKnownSpec | custom_components/technicolor_cga/sensor.py:309-310 | nothing is forgotten: old keys stay, table MACs map to this table's record, the rest keep their last record |
| HostDelta.UpsertKeepsOrder | custom_components/technicolor_cga/sensor.py:309-310 | the upserted key order is duplicate-free and lists exactly the upserted keys |
| HostDelta.UpdatedMissing | custom_components/technicolor_cga/sensor.py:313-323 | after an update the `missing` entries are exactly the known MACs absent from the table, with their last ip and hostname |
| HostDelta.UpdatedInactive | custom_components/technicolor_cga/sensor.py:303 | a table MAC is reported iff its `active` is `"false"` (absent counts), as `inactive` with the table's ip and hostname; never as `missing` |
| HostDelta.UpdateIdempotent | custom_components/technicolor_cga/sensor.py:309-332 | a second upsert of the same table leaves key order and records unchanged, so the missing list is the same |
| HostDelta.NoNewMacs | custom_components/technicolor_cga/sensor.py:309-310 | a table of known MACs appends no key |
| HostDelta.KnownListing | custom_components/technicolor_cga/sensor.py:266-270 | one `{mac, last_ip, hostname}` entry per known MAC, in insertion order |
| HostDelta.Attributes | custom_components/technicolor_cga/sensor.py:259-273 | succeeds iff every recorded address is a string; both lists are then permutations, nondecreasing by `_ip_sort_key`, stable for equal keys |
| HostDelta.UpsertLoop | custom_components/technicolor_cga/sensor.py:309-310 | the loop of dict stores computes the closed-form key order and records |
| HostDelta.StoreAll | custom_components/technicolor_cga/sensor.py:309-310 | the store loop's result is every table record stored in table order |
| HostDelta.FlaggedSubset | custom_components/technicolor_cga/sensor.py:254-257 | the state never exceeds the number of known devices |
| HostDelta.HostDeltaSensor.constructor | custom_components/technicolor_cga/sensor.py:232-242 | starts with no known and no missing devices, satisfying the sensor invariant |
| HostDelta.HostDeltaSensor.State | custom_components/technicolor_cga/sensor.py:254-257 | the state is the number of known MACs absent from or inactive in the latest table, at most the number known |
| HostDelta.HostDeltaSensor.ExtraStateAttributes | custom_components/technicolor_cga/sensor.py:259-273 | `extra_state_attributes`: both sorted lists of `Attributes` for the current fields |
| HostDelta.HostDeltaSensor.UniqueId | custom_components/technicolor_cga/sensor.py:244-247 | the delta sensor's `unique_id` from its entry id and name |
| HostDelta.HostDeltaSensor.DeviceInfo | custom_components/technicolor_cga/sensor.py:275-283 | the delta sensor's record never has a model or firmware version |
| HostDelta.HostDeltaSensor.AsyncUpdate | custom_components/technicolor_cga/sensor.py:293-336 | a failed fetch or unreadable table changes nothing; otherwise known = upsert, key order extended by the new MACs, missing = delta against the table; the invariant is kept |
| HostDelta.HostDeltaSensor.Upsert | custom_components/technicolor_cga/sensor.py:308-310 | the fields become the closed-form upsert and stay duplicate-free |
| HostDelta.HostDeltaSensor.RebuildMissing | custom_components/technicolor_cga/sensor.py:312-332 | `_missing_devices` becomes the delta of the known devices against the table |
| Sensors.SystemSensor.constructor | custom_components/technicolor_cga/sensor.py:172-174 | the setup data is applied: status, attributes, model and firmware |
| Sensors.SystemSensor.Create | custom_components/technicolor_cga/sensor.py:172-177 | construction from the outcome of `system()`: a dict gives a fresh sensor with its data applied, any other value raises and creates none |
| Sensors.SystemSensor.ApplySystemData | custom_components/technicolor_cga/sensor.py:176-185 | state, attributes, model and firmware become the rules' values for the data |
| Sensors.SystemSensor.AsyncUpdate | custom_components/technicolor_cga/sensor.py:187-192 | a dict reply is applied; otherwise all four fields keep their values |
| Sensors.SystemSensor.DeviceInfo | custom_components/technicolor_cga/sensor.py:158-161 | model and firmware are in the record exactly when truthy |
| Sensors.SystemSensor.UniqueId | custom_components/technicolor_cga/sensor.py:124-127 | the inherited `unique_id` from the sensor's entry id and name |
| Sensors.DhcpSensor.constructor | custom_components/technicolor_cga/sensor.py:198-200 | no state yet, empty attributes, the field to follow |
| Sensors.DhcpSensor.AsyncUpdate | custom_components/technicolor_cga/sensor.py:202-207 | a dict reply sets the state to the field's value or `"Unknown"`; otherwise it is kept |
| Sensors.DhcpSensor.DeviceInfo | custom_components/technicolor_cga/sensor.py:144-162 | the gateway record, never with a model or firmware version |
| Sensors.DhcpSensor.UniqueId | custom_components/technicolor_cga/sensor.py:124-127 | the inherited `unique_id` from the sensor's entry id and name |
| Sensors.HostSensor.constructor | custom_components/technicolor_cga/sensor.py:213-214 | no state yet, empty attributes |
| Sensors.HostSensor.AsyncUpdate | custom_components/technicolor_cga/sensor.py:216-222 | when counting succeeds the state is the host count and the attributes the whole reply; otherwise both are kept |
| Sensors.HostSensor.DeviceInfo | custom_components/technicolor_cga/sensor.py:144-162 | the gateway record, never with a model or firmware version |
| Sensors.HostSensor.UniqueId | custom_components/technicolor_cga/sensor.py:124-127 | the inherited `unique_id` from the sensor's entry id and name |
| LegacySensors.SystemSensor.constructor | custom_components/sensor.py:121-124 | state is `CMStatus` or `"Unknown"`, attributes all other keys |
| LegacySensors.SystemSensor.Create | custom_components/sensor.py:121-124 | construction from the outcome of `system()`: a dict gives a fresh sensor, any other value raises at `.get` and creates none |
| LegacySensors.SystemSensor.AsyncUpdate | custom_components/sensor.py:126-132 | a dict reply sets state and attributes as at construction; otherwise both are kept |
| LegacySensors.SystemSensor.UniqueId | custom_components/sensor.py:93-96 | the inherited `unique_id` from the sensor's entry id and name |
| LegacySensors.DhcpSensor.constructor | custom_components/sensor.py:138-140 | no state yet, empty attributes, the field to follow |
| LegacySensors.DhcpSensor.AsyncUpdate | custom_components/sensor.py:142-147 | a dict reply sets the state to the field's value or `"Unknown"`; otherwise it is kept |
| LegacySensors.DhcpSensor.UniqueId | custom_components/sensor.py:93-96 | the inherited `unique_id` from the sensor's entry id and name |
| LegacySensors.HostSensor.constructor | custom_components/sensor.py:153-154 | no state yet, empty attributes |
| LegacySensors.HostSensor.AsyncUpdate | custom_components/sensor.py:156-162 | when counting succeeds the state is the length of `hostTbl` (0 when absent) and the attributes the whole reply; otherwise both are kept |
| LegacySensors.HostSensor.UniqueId | custom_components/sensor.py:93-96 | the inherited `unique_id` from the sensor's entry id and name |

## Left out

- HTTP transport and JSON decoding (`requests.Session`, `.json()`) are not modelled. A reply is an input value: unreachable, or a body that decodes or not plus the cookies it sets. A request is an entry appended to the session log.
- PBKDF2-HMAC-SHA256 is a foreign library call and is a function-typed parameter returning 32 bytes. UTF-8 encoding, hex encoding and the truncation are modelled concretely.
- `time.time()` is a `now` argument. `login` reads the clock once for each of its three `endpoint` calls, so `Login`, `LoginSpec` and the lemmas about them take three readings, `now1`, `now2` and `now3`.
- The Home Assistant setup is not modelled, because it is framework wiring: `async_setup_entry` in both sensor files, its double interval registration and un-awaited lambda, executor jobs, entity registration, `__init__.py` setup and unload, `hass.data` and `config_flow.py`.
- Logging calls are not modelled, because they produce no state.
- The `name` property getters are not modelled, because they only return the constructor's argument.
- Decoded JSON has no floats and no key order, because the sensors neither compare numbers nor depend on the order of reply keys; the host table is the one ordered input and is a list.
- IpOrder.IpSortKey: accepts only ASCII digit pieces as integers. Python's `int()` also accepts surrounding whitespace, a sign, underscores between digits and non-ASCII decimal digits (for example Arabic-Indic or fullwidth digits), so such pieces get a number in the source and the sentinel here.
- Strings.Lower: lowers ASCII letters only; Python's `lower()` also lowers other Unicode letters.
- HostDelta.HostRecord: a `physaddress` that is not a string is a TypeError here, while Python accepts any hashable value as a key.
- Sensors.SystemSensor.constructor: takes the setup data as a dict. A payload that is not a dict, on which `__init__` raises at `.get` so that setup creates no sensor, is modelled by `Sensors.SystemSensor.Create`, which returns the error instead of a sensor.
- LegacySensors.SystemSensor.constructor: takes the setup data as a dict. A payload that is not a dict, on which `__init__` raises at `.get` so that setup creates no sensor, is modelled by `LegacySensors.SystemSensor.Create`, which returns the error instead of a sensor.
- HostDelta.HostDeltaSensor.AsyncUpdate: the body is split into two helper methods, `Upsert` for the store loop and `RebuildMissing` for the rebuild loop. `Upsert` runs the store loop (`StoreAll`) on a local copy of the dict and then assigns the copy to the fields, so the dict is not updated in place one store at a time. `RebuildMissing` resets the `missing` field and appends to it in place, as the source does. The devices of the latest table are kept in a ghost field that the invariant refers to.
- Encoding.Utf8RoundTrip: strings are Dafny `char` sequences (Unicode scalar values), so lone surrogates, which `encode('utf-8')` rejects, do not arise.
- Cookies are a flat name-to-value map. Domains, paths and expiry of the cookie jar are not modelled.
