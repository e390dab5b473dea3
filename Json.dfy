/**
 * JSON values as `JSON.parse` produces them, JavaScript truthiness over them,
 * and the two built-ins `JSON.parse` / `JSON.stringify` as an abstract codec.
 */
module Json {
  import opened Wrappers

  /** A JSON value. Numbers are integers in this model; the order of object members is not modelled. */
  datatype Json =
    | JNull
    | JBool(b: bool)
    | JNumber(n: int)
    | JString(s: string)
    | JArray(items: seq<Json>)
    | JObject(members: map<string, Json>)

  /** The literal `{}`. */
  const EmptyObject: Json := JObject(map[])

  /** JavaScript truthiness of a JSON value: null, false, 0 and "" are falsy. */
  predicate IsTruthy(v: Json) {
    match v
    case JNull => false
    case JBool(b) => b
    case JNumber(n) => n != 0
    case JString(s) => s != ""
    case _ => true
  }

  /** Truthiness of a property read, where `None` is `undefined`. */
  predicate IsTruthyProperty(p: Option<Json>) {
    p.Some? && IsTruthy(p.value)
  }

  /**
   * `v.key` for a non-null JSON value: an object yields its member (or undefined),
   * every other non-null value has no property of that name. Reading a property
   * of null throws a TypeError, so null is excluded here.
   */
  function Property(v: Json, key: string): (p: Option<Json>)
    requires !v.JNull?
    ensures p.Some? <==> v.JObject? && key in v.members
    ensures p.Some? ==> p.value == v.members[key]
  {
    if v.JObject? && key in v.members then Some(v.members[key]) else None
  }

  /** `v || {}`: a falsy value is replaced by the empty object. */
  function OrEmptyObject(v: Json): (r: Json)
    ensures IsTruthy(r) && !r.JNull?
    ensures IsTruthy(v) ==> r == v
    ensures !IsTruthy(v) ==> r == EmptyObject
  {
    if IsTruthy(v) then v else EmptyObject
  }

  /** `s || '{}'`: the empty text is read as the empty object. */
  function TextOrEmptyObject(s: string): (r: string)
    ensures r != ""
    ensures s != "" ==> r == s
  {
    if s == "" then "{}" else s
  }

  /**
   * `JSON.parse` (None when it throws a SyntaxError) and `JSON.stringify(_, null, 2)`.
   * They are built-ins of the JavaScript runtime, so the model takes them as parameters.
   */
  datatype JsonCodec = JsonCodec(parse: string -> Option<Json>, stringify: Json -> string) {

    /**
     * What the model assumes of the ECMAScript built-ins `JSON.parse` and
     * `JSON.stringify`: every serialised value parses back to itself and the text `{}`
     * is the empty object. The empty text does not parse, since it is not a JSON text
     * (RFC 8259, section 2).
     */
    ghost predicate Lawful() {
      && (forall v :: parse(stringify(v)) == Some(v))
      && parse("{}") == Some(EmptyObject)
      && parse("") == None
    }
  }
}
