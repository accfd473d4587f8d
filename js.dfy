/** The JavaScript values that a decoded JSON document can hold, with the two
    operations the handlers apply to them: truthiness and reading a property.
    JSON numbers are modelled as integers. */
module Js {
  import opened Maybe

  datatype JsValue =
    | JsNull
    | JsBool(b: bool)
    | JsNumber(n: int)
    | JsString(s: string)
    | JsArray(items: seq<JsValue>)
    | JsObject(fields: map<string, JsValue>)

  /** JavaScript truthiness: `null`, `false`, `0` and `""` are falsy. */
  predicate Truthy(v: JsValue) {
    match v
    case JsNull => false
    case JsBool(b) => b
    case JsNumber(n) => n != 0
    case JsString(s) => s != ""
    case JsArray(_) => true
    case JsObject(_) => true
  }

  /** Reading `v[key]` on a value that is not `null`. Only objects decoded
      from JSON carry the keys the handlers read; on any other value the
      read gives `undefined`, here `None`. (Reading from `null` throws, so the
      callers test for `JsNull` first.) Members inherited from
      `Object.prototype` are not modelled here: none of the keys the handlers
      read (`text`, `mood`, `reflection`, `suggestions`, `severity`) is one. */
  function Get(v: JsValue, key: string): (r: Option<JsValue>)
    requires !v.JsNull?
    ensures r.Some? <==> v.JsObject? && key in v.fields
    ensures r.Some? ==> r.value == v.fields[key]
  {
    if v.JsObject? && key in v.fields then Some(v.fields[key]) else None
  }

  /** Truthiness of a property that may be `undefined`. */
  predicate TruthyField(v: JsValue, key: string)
    requires !v.JsNull?
  {
    var p := Get(v, key);
    p.Some? && Truthy(p.value)
  }

  /** `Array.isArray(v[key])`. */
  predicate ArrayField(v: JsValue, key: string)
    requires !v.JsNull?
  {
    var p := Get(v, key);
    p.Some? && p.value.JsArray?
  }
}
