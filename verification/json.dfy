/** Decoded JSON values, and how Go's decoders read one member of a JSON object into a
    typed struct field. Turning raw bytes into a `JsonValue` is not modelled: the body
    arrives either as the decoder's syntax error or as the value it decoded. */
module Json {
  import opened Results

  /** A JSON value; numbers keep their literal text. Go's conversion of numbers to float64
      (and its failure on out-of-range literals) is not modelled. */
  datatype JsonValue =
    | JNull
    | JBool(truth: bool)
    | JNumber(literal: string)
    | JString(text: string)
    | JArray(items: seq<JsonValue>)
    | JObject(members: map<string, JsonValue>)

  /** A structured document, Go's `map[string]interface{}`. */
  type Document = map<string, JsonValue>

  /** Inbound bytes: not well-formed JSON (with the decoder's message), or the decoded value. */
  datatype RawBody = Malformed(reason: string) | WellFormed(value: JsonValue)

  /** The name Go's decoders give a value's kind when reporting a type mismatch. */
  function KindName(v: JsonValue): string
  {
    match v
    case JNull => "null"
    case JBool(_) => "bool"
    case JNumber(_) => "number"
    case JString(_) => "string"
    case JArray(_) => "array"
    case JObject(_) => "object"
  }

  /** Reads member `key` into a string field. An absent or null member leaves the field at
      its zero value "", a string is taken as is, and any other kind is a type mismatch,
      reported by the offending kind's name. */
  function StringMember(members: Document, key: string): Result<string, string>
  {
    if key !in members then Ok("")
    else match members[key]
      case JNull => Ok("")
      case JString(s) => Ok(s)
      case other => Err(KindName(other))
  }

  /** Reads member `key` into a map field. An absent or null member leaves the map nil
      (`None`), an object becomes the map, and any other kind is a type mismatch. */
  function ObjectMember(members: Document, key: string): Result<Option<Document>, string>
  {
    if key !in members then Ok(None)
    else match members[key]
      case JNull => Ok(None)
      case JObject(m) => Ok(Some(m))
      case other => Err(KindName(other))
  }

  /** Member `key` can be read into a string field: it is absent, null or a string. */
  predicate FitsString(members: Document, key: string)
  {
    key !in members || members[key].JNull? || members[key].JString?
  }

  /** Member `key` can be read into a map field: it is absent, null or an object. */
  predicate FitsObject(members: Document, key: string)
  {
    key !in members || members[key].JNull? || members[key].JObject?
  }

  /** The string a fitting member leaves in its field. */
  function TextOf(members: Document, key: string): string
  {
    if key in members && members[key].JString? then members[key].text else ""
  }
}
