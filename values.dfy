/**
 * Decoded JSON values as the integration sees them after `response.json()`:
 * Python's None, bool, int, str, list and dict. Dict key order is not modelled.
 */
module Values {
  import opened Wrappers

  datatype Value =
    | JNull
    | JBool(b: bool)
    | JInt(i: int)
    | JStr(s: string)
    | JList(items: seq<Value>)
    | JObject(fields: map<string, Value>)

  /** The exceptions the modelled code can raise, by Python class. */
  datatype Error =
    | ConnectionError        // requests could not reach the gateway
    | JsonDecodeError        // `.json()` on a body that is not JSON
    | KeyError(key: string)  // `d[key]` on a dict without that key
    | TypeError              // TypeError / AttributeError: a value of the wrong kind
    | InvalidCredentials     // RuntimeError("invalid credentials") raised by login

  /** Python truthiness: None, False, 0, "", [] and {} are falsy. */
  predicate Truthy(v: Value) {
    match v
    case JNull => false
    case JBool(b) => b
    case JInt(i) => i != 0
    case JStr(s) => s != ""
    case JList(items) => items != []
    case JObject(fields) => fields != map[]
  }

  /** `d.get(key, default)`. */
  function GetOr(d: map<string, Value>, key: string, default: Value): (v: Value)
    ensures key in d ==> v == d[key]
    ensures key !in d ==> v == default
  {
    if key in d then d[key] else default
  }

  /** `d.get(key)`: a missing key gives None. */
  function Get(d: map<string, Value>, key: string): (v: Value)
    ensures key in d ==> v == d[key]
    ensures key !in d ==> v == JNull
  {
    GetOr(d, key, JNull)
  }

  /** `v[key]` on a decoded JSON value: a dict without the key raises KeyError, a non-dict TypeError. */
  function Index(v: Value, key: string): (r: Result<Value, Error>)
    ensures r.Success? <==> v.JObject? && key in v.fields
    ensures r.Success? ==> r.value == v.fields[key]
    ensures v.JObject? && key !in v.fields ==> r == Failure(KeyError(key))
    ensures !v.JObject? ==> r == Failure(TypeError)
  {
    match v
    case JObject(fields) => if key in fields then Success(fields[key]) else Failure(KeyError(key))
    case _ => Failure(TypeError)
  }

  /** Python's `x or y`: the left operand when it is truthy, otherwise the right one. */
  function Or(x: Value, y: Value): Value {
    if Truthy(x) then x else y
  }

  /** `vs[0] or vs[1] or ... or vs[n-1]`, evaluated left to right. */
  function FirstTruthy(vs: seq<Value>): Value
    requires vs != []
  {
    if |vs| == 1 then vs[0] else Or(vs[0], FirstTruthy(vs[1..]))
  }

  /**
   * The `or` chain yields the first truthy operand; when none is truthy it yields the last
   * operand, which is falsy.
   */
  lemma {:induction false} FirstTruthyIsFirst(vs: seq<Value>)
    requires vs != []
    ensures Truthy(FirstTruthy(vs)) <==> exists i :: 0 <= i < |vs| && Truthy(vs[i])
    ensures forall i :: 0 <= i < |vs| && Truthy(vs[i]) && (forall j :: 0 <= j < i ==> !Truthy(vs[j]))
                        ==> FirstTruthy(vs) == vs[i]
    ensures (forall i :: 0 <= i < |vs| ==> !Truthy(vs[i])) ==> FirstTruthy(vs) == vs[|vs| - 1]
  {
    if |vs| > 1 {
      FirstTruthyIsFirst(vs[1..]);
      if !Truthy(vs[0]) {
        forall i | 0 <= i < |vs| && Truthy(vs[i]) && (forall j :: 0 <= j < i ==> !Truthy(vs[j]))
          ensures FirstTruthy(vs) == vs[i]
        {
          assert i > 0;
          assert vs[1..][i - 1] == vs[i];
          forall j | 0 <= j < i - 1 ensures !Truthy(vs[1..][j]) {
            assert vs[1..][j] == vs[j + 1];
          }
        }
        if exists i :: 0 <= i < |vs| && Truthy(vs[i]) {
          var i :| 0 <= i < |vs| && Truthy(vs[i]);
          assert vs[1..][i - 1] == vs[i];
        }
      }
    }
  }
}
