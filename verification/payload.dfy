/** The notification payload of the issue-tracker provider: decoding it from the request
    body and checking its mandatory fields. */
module Payloads {
  import opened Results
  import opened Json
  import opened Domain

  const MissingSummary := "generated payload does not contaion mandatory param summary"
  const MissingDescription := "generated payload does not contain mandatory param description"

  /** `description` is a nil map when `None`; its content is never inspected. */
  datatype Payload = Payload(summary: string, description: Option<Document>)

  /** The payload before anything is decoded into it. */
  const Zero := Payload("", None)

  function FieldMismatch(kind: string, field: string, goType: string): string
  {
    "json: cannot unmarshal " + kind + " into Go struct field Payload." + field + " of type " + goType
  }

  /** Decodes the body into a fresh payload the way `json.Unmarshal` does. Every failure,
      syntax or type mismatch, is reported as a body-validation error carrying the
      decoder's message. A `null` body decodes to the zero payload without error. */
  function Extract(body: RawBody): (r: Result<Payload, Error>)
    ensures r.Err? ==> r.error.BodyValidation?
    ensures body.Malformed? ==> r == Err(BodyValidation(body.reason))
    ensures body == WellFormed(JNull) ==> r == Ok(Zero)
    ensures r.Ok? ==> body.WellFormed? && (body.value.JNull? || body.value.JObject?)
  {
    match body
    case Malformed(reason) => Err(BodyValidation(reason))
    case WellFormed(JNull) => Ok(Zero)
    case WellFormed(JObject(members)) =>
      (match (StringMember(members, "summary"), ObjectMember(members, "description"))
       case (Err(kind), _) => Err(BodyValidation(FieldMismatch(kind, "summary", "string")))
       case (_, Err(kind)) => Err(BodyValidation(FieldMismatch(kind, "description", "map[string]interface {}")))
       case (Ok(summary), Ok(description)) => Ok(Payload(summary, description)))
    case WellFormed(other) =>
      Err(BodyValidation("json: cannot unmarshal " + KindName(other) + " into Go value of type jira.Payload"))
  }

  /** The payload as `json.Marshal` writes it, following the struct's field tags. */
  function Encode(p: Payload): JsonValue
  {
    JObject(map[
      "summary" := JString(p.summary),
      "description" := match p.description case None => JNull case Some(d) => JObject(d)])
  }

  /** Decoding an encoded payload gives the payload back. */
  lemma ExtractEncode(p: Payload)
    ensures Extract(WellFormed(Encode(p))) == Ok(p)
  {
  }

  /** Members other than `summary` and `description` are ignored. */
  lemma ExtractIgnoresUnknownMembers(members: Document, key: string, v: JsonValue)
    requires key != "summary" && key != "description"
    ensures Extract(WellFormed(JObject(members[key := v]))) == Extract(WellFormed(JObject(members)))
  {
    var m' := members[key := v];
    assert ("summary" in m') == ("summary" in members);
    assert ("description" in m') == ("description" in members);
  }

  /** An object body decodes exactly when `summary` fits a string and `description` fits a
      map, and then the payload holds those members' values. */
  lemma ExtractObject(members: Document)
    ensures Extract(WellFormed(JObject(members))).Ok? <==>
              FitsString(members, "summary") && FitsObject(members, "description")
    ensures Extract(WellFormed(JObject(members))).Ok? ==>
              && Extract(WellFormed(JObject(members))).value.summary == TextOf(members, "summary")
              && Extract(WellFormed(JObject(members))).value.description ==
                   (if "description" in members && members["description"].JObject?
                    then Some(members["description"].members) else None)
  {
  }

  /** A body that is neither an object nor null is rejected. */
  lemma ExtractRejectsNonObject(v: JsonValue)
    requires !v.JObject? && !v.JNull?
    ensures Extract(WellFormed(v)).Err?
  {
  }

  /** Checks the mandatory fields: the summary first, then the description. */
  function Validate(p: Payload): (r: Outcome<Error>)
    ensures r.Pass? <==> p.summary != "" && p.description.Some?
    ensures p.summary == "" ==> r == Fail(BodyValidation(MissingSummary))
    ensures p.summary != "" && p.description.None? ==> r == Fail(BodyValidation(MissingDescription))
  {
    if p.summary == "" then Fail(BodyValidation(MissingSummary))
    else if p.description.None? then Fail(BodyValidation(MissingDescription))
    else Pass
  }

  /** The description's content is never inspected: an empty document is as good as any. */
  lemma ValidateIgnoresDocumentContent(p: Payload, d: Document)
    requires p.description.Some?
    ensures Validate(p.(description := Some(d))) == Validate(p)
  {
  }
}
