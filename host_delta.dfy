/**
 * The missing-devices sensor `TechnicolorCGAHostDeltaSensor`: each update reads the
 * gateway's host table, remembers every MAC address it has ever seen with its latest
 * address, hostname and activity flag, and lists the remembered devices that are absent
 * from the table (`missing`) or present but flagged inactive (`inactive`).
 */
module HostDelta {
  import opened Wrappers
  import opened Values
  import opened IpOrder
  import SensorRules

  const Unknown: Value := JStr("Unknown")
  /** The `active` value that marks a host as inactive; also the default when `active` is absent. */
  const InactiveFlag: Value := JStr("false")

  /** The per-device record of `current_devices` and `_known_devices`. */
  datatype Device = Device(ip: Value, hostname: Value, active: Value)

  datatype Status = Missing | Inactive

  /** One element of `_missing_devices`. */
  datatype DeltaEntry = DeltaEntry(mac: string, lastIp: Value, hostname: Value, status: Status)

  /** One element of the `known_devices` attribute. */
  datatype KnownEntry = KnownEntry(mac: string, lastIp: Value, hostname: Value)

  /** A dict keyed by MAC in insertion order: its keys in order, and its entries. */
  datatype Snapshot = Snapshot(order: seq<string>, devices: map<string, Device>)

  predicate Distinct(s: seq<string>) {
    forall i, j :: 0 <= i < j < |s| ==> s[i] != s[j]
  }

  /** The keys in order are exactly the keys of the entries, each once. */
  ghost predicate WellFormed(snap: Snapshot) {
    Distinct(snap.order) && forall m :: m in snap.order <==> m in snap.devices
  }

  // ---- current_devices ----

  /**
   * One `hostTbl` element as the comprehension reads it: `host["physaddress"]` and the
   * three other fields with their defaults.
   */
  function HostRecord(host: Value): (r: Result<(string, Device), Error>)
    ensures r.Success? <==> host.JObject? && "physaddress" in host.fields && host.fields["physaddress"].JStr?
    ensures host.JObject? && "physaddress" !in host.fields ==> r == Failure(KeyError("physaddress"))
    ensures r.Success? ==>
      var f := host.fields;
      && r.value.0 == f["physaddress"].s
      && r.value.1.ip == (if "ipaddress" in f then f["ipaddress"] else Unknown)
      && r.value.1.hostname == (if "hostname" in f then f["hostname"] else Unknown)
      && r.value.1.active == (if "active" in f then f["active"] else InactiveFlag)
  {
    var mac :- Index(host, "physaddress");
    if !mac.JStr? then Failure(TypeError)
    else
      var f := host.fields;
      Success((mac.s, Device(GetOr(f, "ipaddress", Unknown), GetOr(f, "hostname", Unknown),
                             GetOr(f, "active", InactiveFlag))))
  }

  /**
   * The elements `for host in host_data.get("hostTbl", [])` iterates. Iterating a string
   * or a dict yields strings, on which `host["physaddress"]` raises; iterating None, a
   * bool or an int raises at once; so only an empty string or dict iterates harmlessly.
   */
  function HostEntries(hostData: Value): (r: Result<seq<Value>, Error>)
    ensures hostData.JObject? && "hostTbl" !in hostData.fields ==> r == Success([])
    ensures hostData.JObject? && "hostTbl" in hostData.fields && hostData.fields["hostTbl"].JList?
            ==> r == Success(hostData.fields["hostTbl"].items)
    ensures !hostData.JObject? ==> r.Failure?
  {
    if !hostData.JObject? then Failure(TypeError)
    else match GetOr(hostData.fields, "hostTbl", JList([]))
      case JList(items) => Success(items)
      case JStr(s) => if s == "" then Success([]) else Failure(TypeError)
      case JObject(fields) => if fields == map[] then Success([]) else Failure(TypeError)
      case _ => Failure(TypeError)
  }

  /** The records of all hosts; the first host that cannot be read raises. */
  function Records(hosts: seq<Value>): (r: Result<seq<(string, Device)>, Error>)
    ensures r.Success? <==> forall i :: 0 <= i < |hosts| ==> HostRecord(hosts[i]).Success?
    ensures r.Success? ==> |r.value| == |hosts| && forall i :: 0 <= i < |hosts| ==> r.value[i] == HostRecord(hosts[i]).value
    decreases |hosts|
  {
    if hosts == [] then Success([])
    else
      var first :- HostRecord(hosts[0]);
      var rest :- Records(hosts[1..]);
      assert forall i :: 1 <= i < |hosts| ==> hosts[i] == hosts[1..][i - 1];
      Success([first] + rest)
  }

  /** `d[mac] = device` on an insertion-ordered dict: a new key goes last, an old one keeps its place. */
  function Put(snap: Snapshot, mac: string, device: Device): Snapshot {
    Snapshot(if mac in snap.devices then snap.order else snap.order + [mac], snap.devices[mac := device])
  }

  /** Storing into a well-formed dict keeps it well formed and adds exactly the stored key. */
  lemma PutWellFormed(snap: Snapshot, mac: string, device: Device)
    requires WellFormed(snap)
    ensures WellFormed(Put(snap, mac, device))
    ensures Put(snap, mac, device).devices.Keys == snap.devices.Keys + {mac}
  {
    var o := Put(snap, mac, device).order;
    if mac !in snap.devices {
      assert mac !in snap.order;
      forall i, j | 0 <= i < j < |o| ensures o[i] != o[j] {
        if j < |snap.order| {
          assert o[i] == snap.order[i] && o[j] == snap.order[j];
        } else {
          assert o[i] in snap.order;
        }
      }
    }
  }

  /** The dict comprehension over the records, in table order. */
  function Collect(recs: seq<(string, Device)>): Snapshot
    decreases |recs|
  {
    if recs == [] then Snapshot([], map[])
    else Put(Collect(recs[..|recs| - 1]), recs[|recs| - 1].0, recs[|recs| - 1].1)
  }

  /** The MACs of the records, in table order and with repetitions. */
  function Macs(recs: seq<(string, Device)>): (r: seq<string>)
    ensures |r| == |recs| && forall i :: 0 <= i < |recs| ==> r[i] == recs[i].0
  {
    seq(|recs|, i requires 0 <= i < |recs| => recs[i].0)
  }

  /** `current_devices` holds each MAC of the table once, and no other key. */
  lemma {:induction false} CollectWellFormed(recs: seq<(string, Device)>)
    ensures WellFormed(Collect(recs))
    ensures Collect(recs).devices.Keys == set m | m in Macs(recs)
    decreases |recs|
  {
    if recs != [] {
      var n := |recs| - 1;
      CollectWellFormed(recs[..n]);
      PutWellFormed(Collect(recs[..n]), recs[n].0, recs[n].1);
      assert Macs(recs) == Macs(recs[..n]) + [recs[n].0];
    }
  }

  /** A MAC listed more than once carries the record of its last listing. */
  lemma {:induction false} CollectLastWins(recs: seq<(string, Device)>, i: nat)
    requires i < |recs|
    requires forall j :: i < j < |recs| ==> recs[j].0 != recs[i].0
    ensures recs[i].0 in Collect(recs).devices
    ensures Collect(recs).devices[recs[i].0] == recs[i].1
    decreases |recs|
  {
    var n := |recs| - 1;
    if i < n {
      var init := recs[..n];
      assert init[i] == recs[i];
      CollectLastWins(init, i);
    }
  }

  /** `current_devices` for the reply of the host-table query. */
  function CurrentDevices(hostData: Value): Result<Snapshot, Error> {
    var hosts :- HostEntries(hostData);
    var recs :- Records(hosts);
    Success(Collect(recs))
  }

  /**
   * Reading the table fails when some host entry lacks `physaddress`; otherwise the keys
   * are the hosts' MACs, each once, and a MAC maps to the record of its last listing.
   */
  lemma CurrentDevicesOfTable(hostData: Value, hosts: seq<Value>)
    requires HostEntries(hostData) == Success(hosts)
    ensures CurrentDevices(hostData).Success? <==> forall i :: 0 <= i < |hosts| ==> HostRecord(hosts[i]).Success?
    ensures (exists i :: 0 <= i < |hosts| && hosts[i].JObject? && "physaddress" !in hosts[i].fields)
            ==> CurrentDevices(hostData).Failure?
    ensures CurrentDevices(hostData).Success? ==>
      && Records(hosts).Success?
      && CurrentDevices(hostData) == Success(Collect(Records(hosts).value))
      && WellFormed(CurrentDevices(hostData).value)
      && CurrentDevices(hostData).value.devices.Keys == set m | m in Macs(Records(hosts).value)
  {
    var recs := Records(hosts);
    if recs.Success? {
      CollectWellFormed(recs.value);
    }
  }

  lemma CurrentDevicesWellFormed(hostData: Value)
    requires CurrentDevices(hostData).Success?
    ensures WellFormed(CurrentDevices(hostData).value)
  {
    CollectWellFormed(Records(HostEntries(hostData).value).value);
  }

  // ---- _known_devices and _missing_devices ----

  /** The MACs of `order` that `known` does not hold yet, in order: the keys an upsert appends. */
  function NewMacs(known: map<string, Device>, order: seq<string>): seq<string>
    decreases |order|
  {
    if order == [] then []
    else NewMacs(known, order[..|order| - 1])
         + (if order[|order| - 1] in known then [] else [order[|order| - 1]])
  }

  /** The appended keys are exactly the MACs of the table that were not known. */
  lemma {:induction false} NewMacsMembers(known: map<string, Device>, order: seq<string>)
    ensures forall m :: m in NewMacs(known, order) <==> m in order && m !in known
    decreases |order|
  {
    if order != [] {
      var n := |order| - 1;
      NewMacsMembers(known, order[..n]);
      assert order == order[..n] + [order[n]];
    }
  }

  /** Whether a known MAC is reported: absent from the current table, or flagged inactive there. */
  predicate Flagged(current: map<string, Device>, mac: string) {
    mac !in current || current[mac].active == InactiveFlag
  }

  /**
   * The entry reported for a flagged MAC: a missing device with its last recorded address
   * and hostname, an inactive one with the current table's.
   */
  function EntryFor(known: map<string, Device>, current: map<string, Device>, mac: string): DeltaEntry
    requires mac in known
  {
    if mac !in current then DeltaEntry(mac, known[mac].ip, known[mac].hostname, Missing)
    else DeltaEntry(mac, current[mac].ip, current[mac].hostname, Inactive)
  }

  /** `_missing_devices` as rebuilt by walking the known devices in insertion order. */
  function Delta(order: seq<string>, known: map<string, Device>, current: map<string, Device>): seq<DeltaEntry>
    requires forall m :: m in order ==> m in known
    decreases |order|
  {
    if order == [] then []
    else
      var last := order[|order| - 1];
      Delta(order[..|order| - 1], known, current)
      + (if Flagged(current, last) then [EntryFor(known, current, last)] else [])
  }

  function IndexOf(s: seq<string>, x: string): (i: nat)
    requires x in s
    ensures i < |s| && s[i] == x
    ensures forall j :: 0 <= j < i ==> s[j] != x
  {
    if s[0] == x then 0 else 1 + IndexOf(s[1..], x)
  }

  /** `e` is the entry of a known MAC of `order` that is flagged. */
  predicate Reported(order: seq<string>, known: map<string, Device>, current: map<string, Device>, e: DeltaEntry)
    requires forall m :: m in order ==> m in known
  {
    e.mac in order && Flagged(current, e.mac) && e == EntryFor(known, current, e.mac)
  }

  /** Every reported entry is for a known, flagged MAC and carries that MAC's entry. */
  lemma {:induction false} DeltaSound(order: seq<string>, known: map<string, Device>, current: map<string, Device>)
    requires forall m :: m in order ==> m in known
    ensures forall e :: e in Delta(order, known, current) ==> Reported(order, known, current, e)
    decreases |order|
  {
    if order != [] {
      var n := |order| - 1;
      var init := order[..n];
      assert forall m :: m in init ==> m in order;
      DeltaSound(init, known, current);
      var d0 := Delta(init, known, current);
      var d := Delta(order, known, current);
      forall e | e in d ensures Reported(order, known, current, e) {
        if e in d0 {
          assert Reported(init, known, current, e);
        }
      }
    }
  }

  /** The MACs of the reported entries, in order. */
  function MacsOf(d: seq<DeltaEntry>): (r: seq<string>)
    ensures |r| == |d| && forall i :: 0 <= i < |d| ==> r[i] == d[i].mac
  {
    seq(|d|, i requires 0 <= i < |d| => d[i].mac)
  }

  /** Every known, flagged MAC is reported. */
  lemma {:induction false} DeltaComplete(order: seq<string>, known: map<string, Device>, current: map<string, Device>)
    requires forall m :: m in order ==> m in known
    ensures forall m :: m in order && Flagged(current, m) ==> m in MacsOf(Delta(order, known, current))
    decreases |order|
  {
    if order != [] {
      var n := |order| - 1;
      var init := order[..n];
      assert forall m :: m in init ==> m in order;
      DeltaComplete(init, known, current);
      var d0 := Delta(init, known, current);
      var d := Delta(order, known, current);
      if Flagged(current, order[n]) {
        assert MacsOf(d) == MacsOf(d0) + [order[n]];
      } else {
        assert MacsOf(d) == MacsOf(d0);
      }
      forall m | m in order && Flagged(current, m) ensures m in MacsOf(d) {
        if m != order[n] {
          assert m in init;
        }
      }
    }
  }

  /** The reported entries follow the insertion order of the known devices, so no MAC is reported twice. */
  lemma {:induction false} DeltaOrdered(order: seq<string>, known: map<string, Device>, current: map<string, Device>)
    requires forall m :: m in order ==> m in known
    requires Distinct(order)
    ensures forall i, j :: 0 <= i < j < |Delta(order, known, current)| ==>
      DeltaIndex(order, known, current, i) < DeltaIndex(order, known, current, j)
    decreases |order|
  {
    if order != [] {
      var n := |order| - 1;
      var init := order[..n];
      assert forall m :: m in init ==> m in order;
      assert Distinct(init);
      DeltaOrdered(init, known, current);
      DeltaSound(init, known, current);
      DeltaSound(order, known, current);
      var d0 := Delta(init, known, current);
      var d := Delta(order, known, current);
      forall i | 0 <= i < |d0| ensures DeltaIndex(order, known, current, i) == DeltaIndex(init, known, current, i) < n {
        assert d0[i] in d0;
        assert d[i] == d0[i];
        IndexOfPrefix(order, n, d0[i].mac);
      }
      if Flagged(current, order[n]) {
        assert d[|d| - 1].mac == order[n];
        assert IndexOf(order, order[n]) == n;
      }
    }
  }

  /** The position in `order` of the MAC of the `i`-th reported entry. */
  function DeltaIndex(order: seq<string>, known: map<string, Device>, current: map<string, Device>, i: nat): nat
    requires forall m :: m in order ==> m in known
    requires i < |Delta(order, known, current)|
  {
    DeltaSound(order, known, current);
    assert Delta(order, known, current)[i] in Delta(order, known, current);
    IndexOf(order, Delta(order, known, current)[i].mac)
  }

  lemma {:induction false} IndexOfPrefix(s: seq<string>, n: nat, x: string)
    requires n <= |s| && x in s[..n]
    ensures IndexOf(s, x) == IndexOf(s[..n], x)
    decreases n
  {
    if s[0] != x {
      assert s[..n][1..] == s[1..][..n - 1];
      IndexOfPrefix(s[1..], n - 1, x);
    }
  }

  function FlaggedSet(order: seq<string>, current: map<string, Device>): set<string> {
    set m | m in order && Flagged(current, m)
  }

  lemma FlaggedSetSnoc(init: seq<string>, last: string, current: map<string, Device>)
    ensures FlaggedSet(init + [last], current)
            == FlaggedSet(init, current) + (if Flagged(current, last) then {last} else {})
  {
    var s := init + [last];
    forall m ensures m in s <==> m in init || m == last {
      if m in s {
        var k :| 0 <= k < |s| && s[k] == m;
        if k < |init| { assert init[k] == m; }
      }
      if m in init {
        var k :| 0 <= k < |init| && init[k] == m;
        assert s[k] == m;
      }
      if m == last { assert s[|init|] == m; }
    }
  }

  /** The number of reported entries is the number of flagged known MACs. */
  lemma {:induction false} DeltaCount(order: seq<string>, known: map<string, Device>, current: map<string, Device>)
    requires forall m :: m in order ==> m in known
    requires Distinct(order)
    ensures |Delta(order, known, current)| == |FlaggedSet(order, current)|
    decreases |order|
  {
    if order == [] {
      assert FlaggedSet(order, current) == {};
    } else {
      var n := |order| - 1;
      var init := order[..n];
      var last := order[n];
      assert forall m :: m in init ==> m in order;
      assert Distinct(init);
      DeltaCount(init, known, current);
      assert order == init + [last];
      FlaggedSetSnoc(init, last, current);
      assert last !in init;
      assert last !in FlaggedSet(init, current);
    }
  }

  /** `_known_devices` keys after upserting the table `snap`: new MACs go last, in table order. */
  function UpsertOrder(order: seq<string>, known: map<string, Device>, snap: Snapshot): (r: seq<string>)
    ensures forall m :: m in r <==> m in order || (m in snap.order && m !in known)
  {
    NewMacsMembers(known, snap.order);
    order + NewMacs(known, snap.order)
  }

  /** `_known_devices` records after upserting the table `snap`: the table's records win. */
  function UpsertKnown(known: map<string, Device>, snap: Snapshot): map<string, Device> {
    known + snap.devices
  }

  /**
   * Upserting never forgets a device: every MAC known before is still known, each MAC of
   * the table maps to this table's record, and the others keep their last record.
   */
  lemma UpsertKnownSpec(known: map<string, Device>, snap: Snapshot)
    ensures UpsertKnown(known, snap).Keys == known.Keys + snap.devices.Keys
    ensures forall m :: m in snap.devices ==> UpsertKnown(known, snap)[m] == snap.devices[m]
    ensures forall m :: m in known && m !in snap.devices ==> UpsertKnown(known, snap)[m] == known[m]
  {
  }

  /** The upserted order is still duplicate-free and lists exactly the upserted keys. */
  lemma UpsertKeepsOrder(order: seq<string>, known: map<string, Device>, snap: Snapshot)
    requires Distinct(order) && (forall m :: m in order <==> m in known)
    requires WellFormed(snap)
    ensures Distinct(UpsertOrder(order, known, snap))
    ensures forall m :: m in UpsertOrder(order, known, snap) <==> m in UpsertKnown(known, snap)
  {
    var o := UpsertOrder(order, known, snap);
    var added := NewMacs(known, snap.order);
    NewMacsDistinct(known, snap.order);
    NewMacsMembers(known, snap.order);
    forall i, j | 0 <= i < j < |o| ensures o[i] != o[j] {
      if j < |order| {
        assert o[i] == order[i] && o[j] == order[j];
      } else if i < |order| {
        assert o[i] in known;
        assert o[j] == added[j - |order|];
      } else {
        assert o[i] == added[i - |order|] && o[j] == added[j - |order|];
      }
    }
    forall m ensures m in o <==> m in UpsertKnown(known, snap) {
      assert m in o <==> m in order || m in added;
    }
  }

  lemma {:induction false} NewMacsDistinct(known: map<string, Device>, order: seq<string>)
    requires Distinct(order)
    ensures Distinct(NewMacs(known, order))
    decreases |order|
  {
    if order != [] {
      var n := |order| - 1;
      assert Distinct(order[..n]);
      NewMacsDistinct(known, order[..n]);
      var r0 := NewMacs(known, order[..n]);
      NewMacsMembers(known, order[..n]);
      if order[n] !in known {
        assert order[n] !in order[..n];
        assert order[n] !in r0;
        var r := r0 + [order[n]];
        forall i, j | 0 <= i < j < |r| ensures r[i] != r[j] {
          if j < |r0| { assert r[i] == r0[i] && r[j] == r0[j]; }
          else { assert r[i] in r0; }
        }
      }
    }
  }

  /**
   * After an update with table `snap`, a MAC is reported as missing exactly when it was
   * known and is absent from the table, and then with the address and hostname last recorded.
   */
  lemma UpdatedMissing(order: seq<string>, known: map<string, Device>, snap: Snapshot)
    requires Distinct(order) && (forall m :: m in order <==> m in known)
    requires WellFormed(snap)
    ensures forall m :: m in known && m !in snap.devices ==>
      DeltaEntry(m, known[m].ip, known[m].hostname, Missing)
        in Delta(UpsertOrder(order, known, snap), UpsertKnown(known, snap), snap.devices)
    ensures forall e :: e in Delta(UpsertOrder(order, known, snap), UpsertKnown(known, snap), snap.devices)
                        && e.status == Missing ==>
      e.mac in known && e.mac !in snap.devices && e == DeltaEntry(e.mac, known[e.mac].ip, known[e.mac].hostname, Missing)
  {
    var o := UpsertOrder(order, known, snap);
    var k := UpsertKnown(known, snap);
    UpsertKeepsOrder(order, known, snap);
    DeltaSound(o, k, snap.devices);
    DeltaComplete(o, k, snap.devices);
    var d := Delta(o, k, snap.devices);
    forall m | m in known && m !in snap.devices
      ensures DeltaEntry(m, known[m].ip, known[m].hostname, Missing) in d
    {
      assert m in MacsOf(d);
      var i :| 0 <= i < |d| && MacsOf(d)[i] == m;
      assert d[i] in d;
    }
  }

  /**
   * After an update with table `snap`, a MAC of the table is never missing; it is reported
   * (as inactive, with the table's address and hostname) exactly when its `active` value is
   * the string "false".
   */
  lemma UpdatedInactive(order: seq<string>, known: map<string, Device>, snap: Snapshot)
    requires Distinct(order) && (forall m :: m in order <==> m in known)
    requires WellFormed(snap)
    ensures forall m :: m in snap.devices ==>
      (m in MacsOf(Delta(UpsertOrder(order, known, snap), UpsertKnown(known, snap), snap.devices))
       <==> snap.devices[m].active == InactiveFlag)
    ensures forall e :: e in Delta(UpsertOrder(order, known, snap), UpsertKnown(known, snap), snap.devices)
                        && e.mac in snap.devices ==>
      e == DeltaEntry(e.mac, snap.devices[e.mac].ip, snap.devices[e.mac].hostname, Inactive)
  {
    var o := UpsertOrder(order, known, snap);
    var k := UpsertKnown(known, snap);
    UpsertKeepsOrder(order, known, snap);
    DeltaSound(o, k, snap.devices);
    DeltaComplete(o, k, snap.devices);
    var d := Delta(o, k, snap.devices);
    forall m | m in snap.devices && m in MacsOf(d) ensures snap.devices[m].active == InactiveFlag {
      var i :| 0 <= i < |d| && MacsOf(d)[i] == m;
      assert d[i] in d;
    }
  }

  /**
   * Updating twice with the same table: the second update adds no key and changes no
   * record, so it reports the same delta as the first.
   */
  lemma UpdateIdempotent(order: seq<string>, known: map<string, Device>, snap: Snapshot)
    requires WellFormed(snap)
    ensures UpsertOrder(UpsertOrder(order, known, snap), UpsertKnown(known, snap), snap) == UpsertOrder(order, known, snap)
    ensures UpsertKnown(UpsertKnown(known, snap), snap) == UpsertKnown(known, snap)
  {
    NoNewMacs(UpsertKnown(known, snap), snap.order);
  }

  lemma {:induction false} NoNewMacs(known: map<string, Device>, order: seq<string>)
    requires forall m :: m in order ==> m in known
    ensures NewMacs(known, order) == []
    decreases |order|
  {
    if order != [] {
      NoNewMacs(known, order[..|order| - 1]);
    }
  }

  // ---- extra_state_attributes ----

  /** `_ip_sort_key` applied to a recorded address; only strings can be split. */
  function IpKey(ip: Value): seq<int> {
    if ip.JStr? then IpSortKey(ip.s) else Sentinel
  }

  function DeltaKey(e: DeltaEntry): seq<int> {
    IpKey(e.lastIp)
  }

  function KnownKey(e: KnownEntry): seq<int> {
    IpKey(e.lastIp)
  }

  /** The known devices as listed before sorting, in insertion order. */
  function KnownListing(order: seq<string>, known: map<string, Device>): (r: seq<KnownEntry>)
    requires forall m :: m in order ==> m in known
    ensures |r| == |order|
    ensures forall i :: 0 <= i < |order| ==> r[i] == KnownEntry(order[i], known[order[i]].ip, known[order[i]].hostname)
  {
    seq(|order|, i requires 0 <= i < |order| => KnownEntry(order[i], known[order[i]].ip, known[order[i]].hostname))
  }

  datatype DeltaAttributes = DeltaAttributes(missingDevices: seq<DeltaEntry>, knownDevices: seq<KnownEntry>)

  /**
   * `extra_state_attributes`: both lists sorted stably by address key. A recorded address
   * that is not a string makes `_ip_sort_key` raise AttributeError.
   */
  function Attributes(missing: seq<DeltaEntry>, listing: seq<KnownEntry>): (r: Result<DeltaAttributes, Error>)
    ensures r.Success? <==> (forall i :: 0 <= i < |missing| ==> missing[i].lastIp.JStr?)
                            && (forall i :: 0 <= i < |listing| ==> listing[i].lastIp.JStr?)
    ensures r.Success? ==>
      && multiset(r.value.missingDevices) == multiset(missing)
      && SortedBy(r.value.missingDevices, DeltaKey)
      && (forall k :: WithKey(r.value.missingDevices, DeltaKey, k) == WithKey(missing, DeltaKey, k))
      && multiset(r.value.knownDevices) == multiset(listing)
      && SortedBy(r.value.knownDevices, KnownKey)
      && (forall k :: WithKey(r.value.knownDevices, KnownKey, k) == WithKey(listing, KnownKey, k))
  {
    if (forall i :: 0 <= i < |missing| ==> missing[i].lastIp.JStr?)
       && (forall i :: 0 <= i < |listing| ==> listing[i].lastIp.JStr?)
    then
      SortByPermutes(missing, DeltaKey);
      SortByPermutes(listing, KnownKey);
      assert forall k :: WithKey(SortBy(missing, DeltaKey), DeltaKey, k) == WithKey(missing, DeltaKey, k) by {
        forall k ensures WithKey(SortBy(missing, DeltaKey), DeltaKey, k) == WithKey(missing, DeltaKey, k) {
          SortByStable(missing, DeltaKey, k);
        }
      }
      assert forall k :: WithKey(SortBy(listing, KnownKey), KnownKey, k) == WithKey(listing, KnownKey, k) by {
        forall k ensures WithKey(SortBy(listing, KnownKey), KnownKey, k) == WithKey(listing, KnownKey, k) {
          SortByStable(listing, KnownKey, k);
        }
      }
      Success(DeltaAttributes(SortBy(missing, DeltaKey), SortBy(listing, KnownKey)))
    else Failure(TypeError)
  }

  // ---- the sensor ----

  /** The records of `devices` for those of `keys` it holds: what upserting those keys stores. */
  function Restrict(devices: map<string, Device>, keys: seq<string>): map<string, Device>
    decreases |keys|
  {
    if keys == [] then map[]
    else
      var r := Restrict(devices, keys[..|keys| - 1]);
      var k := keys[|keys| - 1];
      if k in devices then r[k := devices[k]] else r
  }

  lemma {:induction false} RestrictSpec(devices: map<string, Device>, keys: seq<string>)
    ensures forall m :: m in Restrict(devices, keys) <==> m in keys && m in devices
    ensures forall m :: m in Restrict(devices, keys) ==> Restrict(devices, keys)[m] == devices[m]
    decreases |keys|
  {
    if keys != [] {
      var n := |keys| - 1;
      RestrictSpec(devices, keys[..n]);
      assert keys == keys[..n] + [keys[n]];
    }
  }

  lemma MapUnionUpdate(a: map<string, Device>, b: map<string, Device>, k: string, v: Device)
    ensures (a + b)[k := v] == a + b[k := v]
  {
  }

  /** After the upsert loop: every record of the table has been stored. */
  lemma UpsertDone(known0: map<string, Device>, snap: Snapshot)
    requires WellFormed(snap)
    ensures known0 + Restrict(snap.devices, snap.order) == UpsertKnown(known0, snap)
  {
    RestrictSpec(snap.devices, snap.order);
    assert Restrict(snap.devices, snap.order) == snap.devices;
  }

  /** The first `i` stores of the upsert loop, applied to the known devices `s`. */
  function PutAll(s: Snapshot, table: Snapshot, i: nat): Snapshot
    requires i <= |table.order| && forall m :: m in table.order ==> m in table.devices
    decreases i
  {
    if i == 0 then s
    else Put(PutAll(s, table, i - 1), table.order[i - 1], table.devices[table.order[i - 1]])
  }

  /** After `i` stores, the records are those known before, overridden by the table's first `i`. */
  lemma {:induction false} PutAllDevices(s: Snapshot, table: Snapshot, i: nat)
    requires WellFormed(table) && i <= |table.order|
    ensures PutAll(s, table, i).devices == s.devices + Restrict(table.devices, table.order[..i])
    decreases i
  {
    if i == 0 {
      assert table.order[..0] == [];
    } else {
      PutAllDevices(s, table, i - 1);
      var mac := table.order[i - 1];
      assert table.order[..i][..i - 1] == table.order[..i - 1];
      MapUnionUpdate(s.devices, Restrict(table.devices, table.order[..i - 1]), mac, table.devices[mac]);
    }
  }

  /** Before the `i`-th store, its MAC is already held exactly when it was known to start with. */
  lemma PutAllKnown(s: Snapshot, table: Snapshot, i: nat)
    requires WellFormed(table) && i < |table.order|
    ensures table.order[i] in PutAll(s, table, i).devices <==> table.order[i] in s.devices
  {
    var mac := table.order[i];
    var pre := table.order[..i];
    PutAllDevices(s, table, i);
    RestrictSpec(table.devices, pre);
    assert mac !in pre by {
      forall j | 0 <= j < i ensures pre[j] != mac {
        assert pre[j] == table.order[j];
      }
    }
  }

  /** After `i` stores, the keys are those known before, then the new MACs among the table's first `i`. */
  lemma {:induction false} PutAllOrder(s: Snapshot, table: Snapshot, i: nat)
    requires WellFormed(table) && i <= |table.order|
    ensures PutAll(s, table, i).order == s.order + NewMacs(s.devices, table.order[..i])
    decreases i
  {
    if i == 0 {
      assert table.order[..0] == [];
    } else {
      PutAllOrder(s, table, i - 1);
      var mac := table.order[i - 1];
      var pre := NewMacs(s.devices, table.order[..i - 1]);
      var tail := if mac in s.devices then [] else [mac];
      NewMacsSnoc(s.devices, table.order, i - 1);
      PutAllStep(s, table, i - 1);
      ConcatAssoc(s.order, pre, tail);
    }
  }

  lemma ConcatAssoc(a: seq<string>, b: seq<string>, c: seq<string>)
    ensures (a + b) + c == a + (b + c)
  {
  }

  /** Extending the scanned prefix by one MAC appends it when it was not known. */
  lemma NewMacsSnoc(known: map<string, Device>, order: seq<string>, k: nat)
    requires k < |order|
    ensures NewMacs(known, order[..k + 1])
            == NewMacs(known, order[..k]) + (if order[k] in known then [] else [order[k]])
  {
    assert order[..k + 1][..k] == order[..k] && order[..k + 1][k] == order[k];
  }

  /** The `i`-th store appends its MAC to the key order exactly when it was not known to start with. */
  lemma PutAllStep(s: Snapshot, table: Snapshot, i: nat)
    requires WellFormed(table) && i < |table.order|
    ensures PutAll(s, table, i + 1).order
            == PutAll(s, table, i).order + (if table.order[i] in s.devices then [] else [table.order[i]])
  {
    PutAllKnown(s, table, i);
  }

  /** The whole upsert loop computes the closed forms `UpsertOrder` and `UpsertKnown`. */
  lemma UpsertLoop(s: Snapshot, table: Snapshot)
    requires WellFormed(table)
    requires forall m :: m in s.order <==> m in s.devices
    ensures PutAll(s, table, |table.order|)
            == Snapshot(UpsertOrder(s.order, s.devices, table), UpsertKnown(s.devices, table))
  {
    PutAllDevices(s, table, |table.order|);
    PutAllOrder(s, table, |table.order|);
    assert table.order[..|table.order|] == table.order;
    UpsertDone(s.devices, table);
  }

  /** "Update known devices": stores every record of the table `snap`, in its order, into `known`. */
  method StoreAll(known: Snapshot, snap: Snapshot) returns (table: Snapshot)
    requires WellFormed(snap)
    ensures table == PutAll(known, snap, |snap.order|)
  {
    table := known;
    var i := 0;
    while i < |snap.order|
      invariant 0 <= i <= |snap.order|
      invariant table == PutAll(known, snap, i)
    {
      var mac := snap.order[i];
      table := Put(table, mac, snap.devices[mac]);
      i := i + 1;
    }
  }

  class HostDeltaSensor {
    const configEntryId: string
    const host: string
    const name: string
    /** `_known_devices`: keys in insertion order, and the records. */
    var knownOrder: seq<string>
    var known: map<string, Device>
    /** `_missing_devices`. */
    var missing: seq<DeltaEntry>
    /** The devices of the latest host table that was read successfully. */
    ghost var current: map<string, Device>

    /**
     * The keys of `_known_devices` are listed once each, and `_missing_devices` is the delta
     * of the known devices against the latest table.
     */
    ghost predicate Valid()
      reads this
    {
      && Distinct(knownOrder)
      && (forall m :: m in knownOrder <==> m in known)
      && missing == Delta(knownOrder, known, current)
    }

    constructor (configEntryId: string, host: string, name: string)
      ensures Valid()
      ensures this.configEntryId == configEntryId && this.host == host && this.name == name
      ensures knownOrder == [] && known == map[] && missing == [] && current == map[]
    {
      this.configEntryId := configEntryId;
      this.host := host;
      this.name := name;
      knownOrder := [];
      known := map[];
      missing := [];
      current := map[];
    }

    /** `state`: the number of known devices missing from, or inactive in, the latest table. */
    function State(): (n: nat)
      reads this
      requires Valid()
      ensures n == |FlaggedSet(knownOrder, current)|
      ensures n <= |knownOrder|
    {
      DeltaCount(knownOrder, known, current);
      FlaggedSubset(knownOrder, current);
      |missing|
    }

    /** `extra_state_attributes` for the current state. */
    function ExtraStateAttributes(): Result<DeltaAttributes, Error>
      reads this
      requires Valid()
    {
      Attributes(missing, KnownListing(knownOrder, known))
    }

    /** `unique_id`. */
    function UniqueId(): string {
      SensorRules.UniqueId(configEntryId, name)
    }

    /** The delta sensor's registry record never carries a model or firmware version. */
    function DeviceInfo(): (info: SensorRules.DeviceInfo)
      ensures info.model.None? && info.swVersion.None?
    {
      SensorRules.GatewayDeviceInfo(host, JNull, JNull)
    }

    /**
     * `async_update`, given the outcome of the host-table query. A failed query or an
     * unreadable table raises before anything is changed, and the exception is swallowed.
     */
    method AsyncUpdate(fetch: Result<Value, Error>)
      requires Valid()
      modifies this
      ensures Valid()
      ensures fetch.Failure? || CurrentDevices(fetch.value).Failure? ==> unchanged(this)
      ensures fetch.Success? && CurrentDevices(fetch.value).Success? ==>
        var snap := CurrentDevices(fetch.value).value;
        && known == UpsertKnown(old(known), snap)
        && knownOrder == UpsertOrder(old(knownOrder), old(known), snap)
        && missing == Delta(knownOrder, known, snap.devices)
        && current == snap.devices
    {
      if fetch.Failure? {
        return;
      }
      var read := CurrentDevices(fetch.value);
      if read.Failure? {
        return;
      }
      CurrentDevicesWellFormed(fetch.value);
      var snap := read.value;
      Upsert(snap);
      RebuildMissing(snap.devices);
    }

    /** "Update known devices": store every device of the table under its MAC. */
    method Upsert(snap: Snapshot)
      requires Distinct(knownOrder) && (forall m :: m in knownOrder <==> m in known)
      requires WellFormed(snap)
      modifies this`knownOrder, this`known
      ensures Distinct(knownOrder) && (forall m :: m in knownOrder <==> m in known)
      ensures known == UpsertKnown(old(known), snap)
      ensures knownOrder == UpsertOrder(old(knownOrder), old(known), snap)
    {
      var table := StoreAll(Snapshot(knownOrder, known), snap);
      UpsertLoop(Snapshot(knownOrder, known), snap);
      UpsertKeepsOrder(knownOrder, known, snap);
      knownOrder, known := table.order, table.devices;
    }

    /** "Determine missing or inactive devices" against the table `devices`. */
    method RebuildMissing(devices: map<string, Device>)
      requires Distinct(knownOrder) && (forall m :: m in knownOrder <==> m in known)
      modifies this`missing, this`current
      ensures Valid()
      ensures missing == Delta(knownOrder, known, devices)
      ensures current == devices
    {
      missing := [];
      var j := 0;
      while j < |knownOrder|
        invariant 0 <= j <= |knownOrder|
        invariant missing == Delta(knownOrder[..j], known, devices)
      {
        var mac := knownOrder[j];
        RebuildStep(knownOrder, known, devices, j);
        if mac !in devices {
          missing := missing + [DeltaEntry(mac, known[mac].ip, known[mac].hostname, Missing)];
        } else if devices[mac].active == InactiveFlag {
          missing := missing + [DeltaEntry(mac, devices[mac].ip, devices[mac].hostname, Inactive)];
        }
        j := j + 1;
      }
      assert knownOrder[..j] == knownOrder;
      current := devices;
    }
  }

  /** One step of the loop that rebuilds `_missing_devices`. */
  lemma RebuildStep(order: seq<string>, known: map<string, Device>, current: map<string, Device>, j: nat)
    requires j < |order| && forall m :: m in order ==> m in known
    ensures forall m :: m in order[..j] ==> m in known
    ensures forall m :: m in order[..j + 1] ==> m in known
    ensures Delta(order[..j + 1], known, current)
            == Delta(order[..j], known, current)
               + (if Flagged(current, order[j]) then [EntryFor(known, current, order[j])] else [])
  {
    assert forall m :: m in order[..j] ==> m in order;
    assert forall m :: m in order[..j + 1] ==> m in order;
    assert order[..j + 1][..j] == order[..j];
  }

  lemma {:induction false} FlaggedSubset(order: seq<string>, current: map<string, Device>)
    ensures |FlaggedSet(order, current)| <= |order|
    decreases |order|
  {
    if order == [] {
      assert FlaggedSet(order, current) == {};
    } else {
      var n := |order| - 1;
      FlaggedSubset(order[..n], current);
      assert order == order[..n] + [order[n]];
      FlaggedSetSnoc(order[..n], order[n], current);
    }
  }
}
