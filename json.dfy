/**
 * Values produced by `JSON.parse` and read by the application: property
 * access, JavaScript truthiness (the `a || b` defaults) and the string
 * conversion `String(v)` applied by `new Error(v)`.
 */
module Json {
  import opened Wrappers
  import opened Text

  /** A parsed JSON value. Numbers are restricted to integers. */
  datatype Json =
    | JNull
    | JBool(b: bool)
    | JNumber(n: int)
    | JString(s: string)
    | JArray(items: seq<Json>)
    | JObject(fields: map<string, Json>)

  /** `v.key` for a value that is not null: an object's own field, `undefined` otherwise. */
  function Get(v: Json, key: string): (r: Option<Json>)
    ensures r.Some? <==> v.JObject? && key in v.fields
    ensures r.Some? ==> r.value == v.fields[key]
  {
    if v.JObject? && key in v.fields then Some(v.fields[key]) else None
  }

  /** JavaScript truthiness of a possibly `undefined` value. */
  predicate Truthy(v: Option<Json>) {
    match v
    case None => false
    case Some(JNull) => false
    case Some(JBool(b)) => b
    case Some(JNumber(n)) => n != 0
    case Some(JString(s)) => s != ""
    case Some(_) => true
  }

  /** `String(v)`: arrays join their elements' strings with commas, `null` elements as "". */
  function ToJsString(v: Json): string
    decreases v
  {
    match v
    case JNull => "null"
    case JBool(b) => if b then "true" else "false"
    case JNumber(n) => IntToString(n)
    case JString(s) => s
    case JObject(_) => "[object Object]"
    case JArray(items) =>
      Join(seq(|items|, i requires 0 <= i < |items| => if items[i].JNull? then "" else ToJsString(items[i])), ",")
  }

  /** A truthy string converts to itself. */
  lemma TruthyStringKept(s: string)
    requires Truthy(Some(JString(s)))
    ensures ToJsString(JString(s)) == s && s != ""
  {
  }
}
