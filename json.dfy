/** JSON-shaped values as they reach the model: the payloads exchanged with
    the language models, localStorage records and HTTP bodies. */
module JsonValue {

  datatype Json =
    | JNull
    | JBool(b: bool)
    | JNum(n: real)
    | JStr(s: string)
    | JArr(items: seq<Json>)
    | JObj(fields: map<string, Json>)

  /** JavaScript truthiness (`null`/`undefined`, `false`, `0`, `""` are falsy). */
  predicate JsTruthy(j: Json) {
    !(j.JNull? || j == JBool(false) || j == JNum(0.0) || j == JStr(""))
  }

  /** JavaScript property read `j.k`: absent properties and non-objects give undefined. */
  function Prop(j: Json, k: string): Json {
    if j.JObj? && k in j.fields then j.fields[k] else JNull
  }
}
