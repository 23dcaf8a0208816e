/**
 * JSON values as the client handles them after `JSON.parse`, and the parser
 * itself as a collaborator: the client only relies on it being partial.
 */
module Json {
  import opened Wrappers

  /** A parsed JSON document. Numbers are kept as reals (no NaN, no infinities). */
  datatype Json =
    | JNull
    | JBool(b: bool)
    | JNum(n: real)
    | JStr(s: string)
    | JArr(items: seq<Json>)
    | JObj(fields: map<string, Json>)

  /** The empty object `{}`, a new Frequency's first snapshot. */
  const EmptyObject: Json := JObj(map[])

  /** JavaScript truthiness of a parsed value: `null`, `false`, `0` and `""` are falsy. */
  predicate Truthy(j: Json) {
    match j
    case JNull => false
    case JBool(b) => b
    case JNum(n) => n != 0.0
    case JStr(s) => s != ""
    case _ => true
  }

  function RejectEverything(text: string): Option<Json> {
    None
  }

  /**
   * `JSON.parse` seen from the client: a partial function from text to a value
   * (`None` is a thrown SyntaxError). The only fact the client depends on is
   * that the empty text is not a JSON document.
   */
  type JsonParser = parse: string -> Option<Json> | parse("") == None
    witness RejectEverything

  /** Reads the string property `key` of an object value; anything else is `undefined`. */
  function StringField(j: Option<Json>, key: string): (r: Option<string>)
    ensures r.Some? <==> j.Some? && j.value.JObj? && key in j.value.fields && j.value.fields[key].JStr?
    ensures r.Some? ==> r.value == j.value.fields[key].s
  {
    match j
    case Some(JObj(fields)) =>
      if key in fields && fields[key].JStr? then Some(fields[key].s) else None
    case _ => None
  }
}
