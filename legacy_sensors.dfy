/**
 * The earlier revision of the sensor platform: the same three polling sensors without
 * a host, a device-registry record, or the model and firmware fields.
 */
module LegacySensors {
  import opened Wrappers
  import opened Values
  import SensorRules

  class SystemSensor {
    const configEntryId: string
    const name: string
    var state: Value
    var attributes: map<string, Value>

    /** Built from the system data read during setup, which must be a dict. */
    constructor (configEntryId: string, name: string, systemData: map<string, Value>)
      ensures this.configEntryId == configEntryId && this.name == name
      ensures state == SensorRules.SystemState(systemData)
      ensures attributes == SensorRules.SystemAttributes(systemData)
    {
      this.configEntryId := configEntryId;
      this.name := name;
      state := GetOr(systemData, SensorRules.StatusKey, SensorRules.Unknown);
      attributes := map k | k in systemData && k != SensorRules.StatusKey :: systemData[k];
    }

    /**
     * Construction from whatever `system()` returned: `__init__` calls `.get` on it, which
     * only a dict has, so any other payload raises and no sensor is created.
     */
    static method Create(configEntryId: string, name: string, systemData: Value) returns (r: Result<SystemSensor, Error>)
      ensures r.Failure? <==> !systemData.JObject?
      ensures r.Failure? ==> r.error == TypeError
      ensures r.Success? ==>
        && fresh(r.value)
        && r.value.configEntryId == configEntryId && r.value.name == name
        && r.value.state == SensorRules.SystemState(systemData.fields)
        && r.value.attributes == SensorRules.SystemAttributes(systemData.fields)
    {
      if !systemData.JObject? {
        return Failure(TypeError);
      }
      var sensor := new SystemSensor(configEntryId, name, systemData.fields);
      r := Success(sensor);
    }

    /** `async_update` given the outcome of `system()`; a reply that is not a dict changes nothing. */
    method AsyncUpdate(fetch: Result<Value, Error>)
      modifies this`state, this`attributes
      ensures fetch.Success? && fetch.value.JObject? ==>
        && state == SensorRules.SystemState(fetch.value.fields)
        && attributes == SensorRules.SystemAttributes(fetch.value.fields)
      ensures !(fetch.Success? && fetch.value.JObject?) ==> state == old(state) && attributes == old(attributes)
    {
      if fetch.Success? && fetch.value.JObject? {
        var data := fetch.value.fields;
        state := GetOr(data, SensorRules.StatusKey, SensorRules.Unknown);
        attributes := map k | k in data && k != SensorRules.StatusKey :: data[k];
      }
    }

    /** `unique_id`. */
    function UniqueId(): string {
      SensorRules.UniqueId(configEntryId, name)
    }
  }

  class DhcpSensor {
    const configEntryId: string
    const name: string
    const attribute: string
    var state: Value
    var attributes: map<string, Value>

    constructor (configEntryId: string, name: string, attribute: string)
      ensures this.configEntryId == configEntryId && this.name == name && this.attribute == attribute
      ensures state == JNull && attributes == map[]
    {
      this.configEntryId := configEntryId;
      this.name := name;
      this.attribute := attribute;
      state := JNull;
      attributes := map[];
    }

    /** `async_update` given the outcome of `dhcp()`; the attributes are never written. */
    method AsyncUpdate(fetch: Result<Value, Error>)
      modifies this`state
      ensures fetch.Success? && fetch.value.JObject? ==>
        state == SensorRules.DhcpState(fetch.value, attribute).value
      ensures !(fetch.Success? && fetch.value.JObject?) ==> state == old(state)
    {
      if fetch.Success? {
        var r := SensorRules.DhcpState(fetch.value, attribute);
        if r.Success? {
          state := r.value;
        }
      }
    }

    /** `unique_id`. */
    function UniqueId(): string {
      SensorRules.UniqueId(configEntryId, name)
    }
  }

  class HostSensor {
    const configEntryId: string
    const name: string
    var state: Value
    var attributes: map<string, Value>

    constructor (configEntryId: string, name: string)
      ensures this.configEntryId == configEntryId && this.name == name
      ensures state == JNull && attributes == map[]
    {
      this.configEntryId := configEntryId;
      this.name := name;
      state := JNull;
      attributes := map[];
    }

    /** `async_update` given the outcome of `aDev()`; the count is taken before anything is written. */
    method AsyncUpdate(fetch: Result<Value, Error>)
      modifies this`state, this`attributes
      ensures fetch.Success? && SensorRules.HostCount(fetch.value).Success? ==>
        state == JInt(SensorRules.HostCount(fetch.value).value) && attributes == fetch.value.fields
      ensures !(fetch.Success? && SensorRules.HostCount(fetch.value).Success?) ==>
        state == old(state) && attributes == old(attributes)
    {
      if fetch.Success? {
        var count := SensorRules.HostCount(fetch.value);
        if count.Success? {
          state := JInt(count.value);
          attributes := fetch.value.fields;
        }
      }
    }

    /** `unique_id`. */
    function UniqueId(): string {
      SensorRules.UniqueId(configEntryId, name)
    }
  }
}
