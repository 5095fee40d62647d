/**
 * The value `JSON.parse` produces. Parsing itself is not modelled: the stream
 * consumer receives the parser as a parameter.
 */
module JsonValue {
  import opened Wrappers

  datatype Json =
    | JNull
    | JBool(b: bool)
    | JNum(n: int)
    | JStr(s: string)
    | JArr(items: seq<Json>)
    | JObj(fields: map<string, Json>)

  /** Optional property access `v?.key`: only objects carry named properties. */
  function Member(v: Json, key: string): (r: Option<Json>)
    ensures r.Some? <==> v.JObj? && key in v.fields
    ensures r.Some? ==> r.value == v.fields[key]
  {
    if v.JObj? then Get(v.fields, key) else None
  }

  /** The string held at `v.key`, when there is one. */
  function StringMember(v: Json, key: string): (r: Option<string>)
    ensures r.Some? <==> Member(v, key).Some? && Member(v, key).value.JStr?
    ensures r.Some? ==> Member(v, key) == Some(JStr(r.value))
  {
    match Member(v, key)
    case Some(JStr(s)) => Some(s)
    case _ => None
  }
}
