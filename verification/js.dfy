/**
 * The JavaScript values the prediction service inspects: decoded JSON, the errors it
 * throws and catches, property reads and truthiness. JSON decoding itself is not
 * modelled; a decoded text is a `Json` value or a parse failure.
 */
module Js {
  import opened Wrappers

  /** A value produced by `JSON.parse`; numbers are modelled as reals. */
  datatype Json =
    | JNull
    | JBool(b: bool)
    | JNum(n: real)
    | JStr(s: string)
    | JArr(items: seq<Json>)
    | JObj(fields: map<string, Json>)

  /** A thrown `Error`: its `name` and its `message`. */
  datatype JsError = JsError(name: string, message: string)

  /** `new Error(message)` */
  function Error(message: string): JsError {
    JsError("Error", message)
  }

  /** The outcome of `JSON.parse(text)` or `response.json()`. */
  datatype Parsed = Parsed(value: Json) | Unparseable(err: JsError)

  /** JavaScript truthiness of a decoded value (NaN is not modelled). */
  predicate Truthy(v: Json) {
    match v
    case JNull => false
    case JBool(b) => b
    case JNum(n) => n != 0.0
    case JStr(s) => s != ""
    case JArr(_) => true
    case JObj(_) => true
  }

  /** Truthiness of a property read, where `None` is `undefined`. */
  predicate IsTruthy(v: Option<Json>) {
    v.Some? && Truthy(v.value)
  }

  /** The `TypeError` V8 throws for `null[key]`. */
  function NullRead(key: string): JsError {
    JsError("TypeError", "Cannot read properties of null (reading '" + key + "')")
  }

  /**
   * `v[key]` for the keys the service reads (`event_id`, `success`, `predictions`,
   * `category`, `label`, `confidence`): the property of an object, `undefined` (`None`)
   * for an absent key or a non-object, and a thrown `TypeError` on `null`. Built-in
   * properties such as an array's `length` are not among them and are not modelled.
   */
  function Read(v: Json, key: string): (r: Result<Option<Json>, JsError>)
    ensures r.Err? <==> v == JNull
    ensures r.Ok? && r.value.Some? <==> v.JObj? && key in v.fields
    ensures r.Ok? && r.value.Some? ==> r.value.value == v.fields[key]
  {
    match v
    case JNull => Err(NullRead(key))
    case JObj(fields) => Ok(if key in fields then Some(fields[key]) else None)
    case _ => Ok(None)
  }
}
