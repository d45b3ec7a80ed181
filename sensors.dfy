/**
 * The three polling sensors of the current sensor platform: the system status sensor,
 * one sensor per DHCP field, and the host-list sensor. Each keeps a state and an
 * attribute dict; an update that raises leaves both as they were.
 */
module Sensors {
  import opened Wrappers
  import opened Values
  import SensorRules

  /** `TechnicolorCGASystemSensor`, which also learns the gateway's model and firmware version. */
  class SystemSensor {
    const configEntryId: string
    const host: string
    const name: string
    var state: Value
    var attributes: map<string, Value>
    var model: Value
    var swVersion: Value

    /** Built from the system data read during setup, which must be a dict. */
    constructor (configEntryId: string, host: string, name: string, systemData: map<string, Value>)
      ensures this.configEntryId == configEntryId && this.host == host && this.name == name
      ensures state == SensorRules.SystemState(systemData)
      ensures attributes == SensorRules.SystemAttributes(systemData)
      ensures model == SensorRules.ModelOf(systemData)
      ensures swVersion == SensorRules.SwVersionOf(systemData)
    {
      this.configEntryId := configEntryId;
      this.host := host;
      this.name := name;
      state := JNull;
      attributes := map[];
      model := JNull;
      swVersion := JNull;
      new;
      ApplySystemData(systemData);
    }

    /**
     * Construction from whatever `system()` returned: `__init__` calls `.get` on it, which
     * only a dict has, so any other payload raises and no sensor is created.
     */
    static method Create(configEntryId: string, host: string, name: string, systemData: Value)
      returns (r: Result<SystemSensor, Error>)
      ensures r.Failure? <==> !systemData.JObject?
      ensures r.Failure? ==> r.error == TypeError
      ensures r.Success? ==>
        && fresh(r.value)
        && r.value.configEntryId == configEntryId && r.value.host == host && r.value.name == name
        && r.value.state == SensorRules.SystemState(systemData.fields)
        && r.value.attributes == SensorRules.SystemAttributes(systemData.fields)
        && r.value.model == SensorRules.ModelOf(systemData.fields)
        && r.value.swVersion == SensorRules.SwVersionOf(systemData.fields)
    {
      if !systemData.JObject? {
        return Failure(TypeError);
      }
      var sensor := new SystemSensor(configEntryId, host, name, systemData.fields);
      r := Success(sensor);
    }

    /** `_apply_system_data`: status, model, firmware version and the remaining fields. */
    method ApplySystemData(data: map<string, Value>)
      modifies this`state, this`attributes, this`model, this`swVersion
      ensures state == SensorRules.SystemState(data)
      ensures attributes == SensorRules.SystemAttributes(data)
      ensures model == SensorRules.ModelOf(data)
      ensures swVersion == SensorRules.SwVersionOf(data)
    {
      state := GetOr(data, SensorRules.StatusKey, SensorRules.Unknown);
      model := Or(Get(data, "ModelName"), Get(data, "Model"));
      swVersion := Or(Or(Get(data, "SoftwareVersion"), Get(data, "SWVersion")), Get(data, "FirmwareVersion"));
      attributes := map k | k in data && k != SensorRules.StatusKey :: data[k];
    }

    /**
     * `async_update` given the outcome of `system()`: a reply that is not a dict raises
     * at its first `.get`, before any field is written.
     */
    method AsyncUpdate(fetch: Result<Value, Error>)
      modifies this`state, this`attributes, this`model, this`swVersion
      ensures fetch.Success? && fetch.value.JObject? ==>
        && state == SensorRules.SystemState(fetch.value.fields)
        && attributes == SensorRules.SystemAttributes(fetch.value.fields)
        && model == SensorRules.ModelOf(fetch.value.fields)
        && swVersion == SensorRules.SwVersionOf(fetch.value.fields)
      ensures !(fetch.Success? && fetch.value.JObject?) ==>
        state == old(state) && attributes == old(attributes) && model == old(model) && swVersion == old(swVersion)
    {
      if fetch.Success? && fetch.value.JObject? {
        ApplySystemData(fetch.value.fields);
      }
    }

    /** `unique_id`. */
    function UniqueId(): string {
      SensorRules.UniqueId(configEntryId, name)
    }

    /** `device_info`: the gateway record, with the model and firmware version once they are truthy. */
    function DeviceInfo(): (info: SensorRules.DeviceInfo)
      reads this
      ensures info.identifiers == {(SensorRules.Domain, host)}
      ensures info.model == (if Truthy(model) then Some(model) else None)
      ensures info.swVersion == (if Truthy(swVersion) then Some(swVersion) else None)
    {
      SensorRules.GatewayDeviceInfo(host, model, swVersion)
    }
  }

  /** `TechnicolorCGADHCPSensor`: the value of one field of the DHCP settings. */
  class DhcpSensor {
    const configEntryId: string
    const host: string
    const name: string
    const attribute: string
    var state: Value
    var attributes: map<string, Value>

    constructor (configEntryId: string, host: string, name: string, attribute: string)
      ensures this.configEntryId == configEntryId && this.host == host && this.name == name
      ensures this.attribute == attribute
      ensures state == JNull && attributes == map[]
    {
      this.configEntryId := configEntryId;
      this.host := host;
      this.name := name;
      this.attribute := attribute;
      state := JNull;
      attributes := map[];
    }

    /** `async_update` given the outcome of `dhcp()`; the attributes are never written. */
    method AsyncUpdate(fetch: Result<Value, Error>)
      modifies this`state
      ensures fetch.Success? && fetch.value.JObject? ==>
        state == SensorRules.DhcpState(fetch.value, attribute).value
      ensures !(fetch.Success? && fetch.value.JObject?) ==> state == old(state)
    {
      if fetch.Success? {
        var r := SensorRules.DhcpState(fetch.value, attribute);
        if r.Success? {
          state := r.value;
        }
      }
    }

    /** `unique_id`. */
    function UniqueId(): string {
      SensorRules.UniqueId(configEntryId, name)
    }

    /** Only the system sensor learns a model, so this record never carries one. */
    function DeviceInfo(): (info: SensorRules.DeviceInfo)
      ensures info.identifiers == {(SensorRules.Domain, host)}
      ensures info.model.None? && info.swVersion.None?
    {
      SensorRules.GatewayDeviceInfo(host, JNull, JNull)
    }
  }

  /** `TechnicolorCGAHostSensor`: the number of hosts, with the whole host table as attributes. */
  class HostSensor {
    const configEntryId: string
    const host: string
    const name: string
    var state: Value
    var attributes: map<string, Value>

    constructor (configEntryId: string, host: string, name: string)
      ensures this.configEntryId == configEntryId && this.host == host && this.name == name
      ensures state == JNull && attributes == map[]
    {
      this.configEntryId := configEntryId;
      this.host := host;
      this.name := name;
      state := JNull;
      attributes := map[];
    }

    /**
     * `async_update` given the outcome of `aDev()`: the count is taken first, so a reply
     * whose count cannot be taken changes neither the state nor the attributes.
     */
    method AsyncUpdate(fetch: Result<Value, Error>)
      modifies this`state, this`attributes
      ensures fetch.Success? && SensorRules.HostCount(fetch.value).Success? ==>
        state == JInt(SensorRules.HostCount(fetch.value).value) && attributes == fetch.value.fields
      ensures !(fetch.Success? && SensorRules.HostCount(fetch.value).Success?) ==>
        state == old(state) && attributes == old(attributes)
    {
      if fetch.Success? {
        var count := SensorRules.HostCount(fetch.value);
        if count.Success? {
          state := JInt(count.value);
          attributes := fetch.value.fields;
        }
      }
    }

    /** `unique_id`. */
    function UniqueId(): string {
      SensorRules.UniqueId(configEntryId, name)
    }

    function DeviceInfo(): (info: SensorRules.DeviceInfo)
      ensures info.identifiers == {(SensorRules.Domain, host)}
      ensures info.model.None? && info.swVersion.None?
    {
      SensorRules.GatewayDeviceInfo(host, JNull, JNull)
    }
  }
}
