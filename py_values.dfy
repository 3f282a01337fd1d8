/** Python values the scripts handle: optional values, exceptions, and decoded JSON. */
module PyValues {

  datatype Option<+T> = None | Some(value: T)

  /** The outcome of a Python call: a value, or an exception that propagates to the caller. */
  datatype Outcome<+T> = Ok(value: T) | Raised

  /** A value produced by json.loads: objects are dicts with string keys. */
  datatype Json =
    | JNull
    | JBool(b: bool)
    | JNum(n: real)
    | JStr(str: string)
    | JArr(items: seq<Json>)
    | JObj(fields: map<string, Json>)

  /** Python truthiness: None, False, 0, "", [] and {} are false. */
  predicate Truthy(j: Json)
  {
    match j
    case JNull => false
    case JBool(b) => b
    case JNum(n) => n != 0.0
    case JStr(s) => s != []
    case JArr(a) => a != []
    case JObj(m) => m != map[]
  }

  /** `j.get(key)`: None when the key is absent; any non-dict has no `.get` and raises. */
  function Get(j: Json, key: string): (r: Outcome<Json>)
    ensures r.Raised? <==> !j.JObj?
    ensures j.JObj? && key in j.fields ==> r == Ok(j.fields[key])
    ensures j.JObj? && key !in j.fields ==> r == Ok(JNull)
  {
    match j
    case JObj(m) => Ok(if key in m then m[key] else JNull)
    case _ => Raised
  }

  /** `j[key]`: KeyError on a dict without the key, TypeError on every other value. */
  function Index(j: Json, key: string): (r: Outcome<Json>)
    ensures r.Ok? <==> j.JObj? && key in j.fields
    ensures r.Ok? ==> r.value == j.fields[key]
  {
    if j.JObj? && key in j.fields then Ok(j.fields[key]) else Raised
  }

  /** The dict `{"needs_reply": needsReply, "reply_draft": draft}`. */
  function Decision(needsReply: bool, draft: string): (r: Json)
    ensures r.JObj? && r.fields.Keys == {"needs_reply", "reply_draft"}
    ensures Get(r, "needs_reply") == Ok(JBool(needsReply))
    ensures Index(r, "reply_draft") == Ok(JStr(draft))
  {
    JObj(map["needs_reply" := JBool(needsReply), "reply_draft" := JStr(draft)])
  }
}
