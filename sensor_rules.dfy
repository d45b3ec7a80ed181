/**
 * The pure rules by which the sensors turn gateway data into a state and attributes,
 * shared by both revisions of the sensor platform: the unique id, the device-registry
 * record, the system status split, the DHCP value and the host count.
 */
module SensorRules {
  import opened Wrappers
  import opened Values
  import opened Strings

  /** The integration's DOMAIN. */
  const Domain: string := "technicolor_cga"
  const GatewayName: string := "Technicolor CGA Gateway"
  const GatewayManufacturer: string := "Technicolor"
  const StatusKey: string := "CMStatus"
  const Unknown: Value := JStr("Unknown")

  // ---- unique_id ----

  /** The name part of the unique id: spaces become underscores, then the text is lowercased. */
  function Slug(name: string): (r: string)
    ensures |r| == |name| && ' ' !in r && IsLower(r)
    ensures forall i :: 0 <= i < |name| ==> r[i] == (if name[i] == ' ' then '_' else LowerChar(name[i]))
  {
    Lower(ReplaceChar(name, ' ', '_'))
  }

  /** `unique_id`: the config entry id, an underscore, and the slug of the sensor's name. */
  function UniqueId(configEntryId: string, name: string): string {
    configEntryId + "_" + Slug(name)
  }

  /**
   * Within one config entry two sensors get the same unique id exactly when their names
   * have the same slug (so "Host List" and "host_list" collide).
   */
  lemma UniqueIdCollision(configEntryId: string, name1: string, name2: string)
    ensures UniqueId(configEntryId, name1) == UniqueId(configEntryId, name2) <==> Slug(name1) == Slug(name2)
  {
    var p := configEntryId + "_";
    if UniqueId(configEntryId, name1) == UniqueId(configEntryId, name2) {
      assert UniqueId(configEntryId, name1)[|p|..] == Slug(name1);
      assert UniqueId(configEntryId, name2)[|p|..] == Slug(name2);
    }
  }

  // ---- device_info ----

  datatype DeviceInfo = DeviceInfo(
    identifiers: set<(string, string)>,
    name: string,
    manufacturer: string,
    configurationUrl: string,
    model: Option<Value>,
    swVersion: Option<Value>)

  /** `device_info`: the gateway record; model and firmware are added only when truthy. */
  function GatewayDeviceInfo(host: string, model: Value, swVersion: Value): (info: DeviceInfo)
    ensures info.identifiers == {(Domain, host)}
    ensures info.name == GatewayName && info.manufacturer == GatewayManufacturer
    ensures info.configurationUrl == "http://" + host + "/"
    ensures info.model.Some? <==> Truthy(model)
    ensures info.model.Some? ==> info.model.value == model
    ensures info.swVersion.Some? <==> Truthy(swVersion)
    ensures info.swVersion.Some? ==> info.swVersion.value == swVersion
  {
    DeviceInfo({(Domain, host)}, GatewayName, GatewayManufacturer, "http://" + host + "/",
               if Truthy(model) then Some(model) else None,
               if Truthy(swVersion) then Some(swVersion) else None)
  }

  // ---- system sensor ----

  /** The system sensor's state: `CMStatus`, or "Unknown" when the gateway did not send it. */
  function SystemState(data: map<string, Value>): (v: Value)
    ensures StatusKey in data ==> v == data[StatusKey]
    ensures StatusKey !in data ==> v == Unknown
  {
    GetOr(data, StatusKey, Unknown)
  }

  /** The system sensor's attributes: every field except `CMStatus`, unchanged. */
  function SystemAttributes(data: map<string, Value>): (attrs: map<string, Value>)
    ensures attrs.Keys == data.Keys - {StatusKey}
    ensures forall k :: k in attrs ==> attrs[k] == data[k]
  {
    map k | k in data && k != StatusKey :: data[k]
  }

  /** State and attributes together lose nothing of the system data. */
  lemma SystemSplitLossless(data: map<string, Value>)
    ensures StatusKey in data ==> SystemAttributes(data)[StatusKey := SystemState(data)] == data
    ensures StatusKey !in data ==> SystemAttributes(data) == data
  {
    assert StatusKey in data ==> SystemAttributes(data)[StatusKey := SystemState(data)].Keys == data.Keys;
  }

  /** `system_data.get("ModelName") or system_data.get("Model")`. */
  function ModelOf(data: map<string, Value>): (m: Value)
    ensures Truthy(Get(data, "ModelName")) ==> m == data["ModelName"]
    ensures !Truthy(Get(data, "ModelName")) ==> m == Get(data, "Model")
  {
    FirstTruthyIsFirst([Get(data, "ModelName"), Get(data, "Model")]);
    FirstTruthy([Get(data, "ModelName"), Get(data, "Model")])
  }

  /** `system_data.get("SoftwareVersion") or system_data.get("SWVersion") or system_data.get("FirmwareVersion")`. */
  function SwVersionOf(data: map<string, Value>): (v: Value)
    ensures Truthy(v) <==> Truthy(Get(data, "SoftwareVersion")) || Truthy(Get(data, "SWVersion"))
                           || Truthy(Get(data, "FirmwareVersion"))
    ensures Truthy(Get(data, "SoftwareVersion")) ==> v == data["SoftwareVersion"]
    ensures !Truthy(Get(data, "SoftwareVersion")) && Truthy(Get(data, "SWVersion")) ==> v == data["SWVersion"]
    ensures !Truthy(Get(data, "SoftwareVersion")) && !Truthy(Get(data, "SWVersion")) ==> v == Get(data, "FirmwareVersion")
  {
    var vs := [Get(data, "SoftwareVersion"), Get(data, "SWVersion"), Get(data, "FirmwareVersion")];
    FirstTruthyIsFirst(vs);
    FirstTruthy(vs)
  }

  // ---- DHCP and host sensors ----

  /** `dhcp_data.get(attribute, "Unknown")`; a reply that is not a dict raises AttributeError. */
  function DhcpState(data: Value, attribute: string): (r: Result<Value, Error>)
    ensures r.Success? <==> data.JObject?
    ensures data.JObject? && attribute in data.fields ==> r.value == data.fields[attribute]
    ensures data.JObject? && attribute !in data.fields ==> r.value == Unknown
  {
    if data.JObject? then Success(GetOr(data.fields, attribute, Unknown)) else Failure(TypeError)
  }

  /** Python's `len` on a decoded value; numbers, booleans and None have none. */
  function Len(v: Value): (r: Result<nat, Error>)
    ensures r.Success? <==> v.JStr? || v.JList? || v.JObject?
  {
    match v
    case JStr(s) => Success(|s|)
    case JList(items) => Success(|items|)
    case JObject(fields) => Success(|fields|)
    case _ => Failure(TypeError)
  }

  /** `len(host_data.get("hostTbl", []))`: the number of hosts, 0 when the table is absent. */
  function HostCount(data: Value): (r: Result<nat, Error>)
    ensures r.Success? <==> data.JObject? && ("hostTbl" in data.fields ==> Len(data.fields["hostTbl"]).Success?)
    ensures data.JObject? && "hostTbl" !in data.fields ==> r == Success(0)
    ensures data.JObject? && "hostTbl" in data.fields && data.fields["hostTbl"].JList?
            ==> r == Success(|data.fields["hostTbl"].items|)
  {
    if data.JObject? then Len(GetOr(data.fields, "hostTbl", JList([]))) else Failure(TypeError)
  }
}
