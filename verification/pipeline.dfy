/** The provider's `Send`: from a notifier configuration and a request body to one
    create-issue call and the message reporting it. */
module Pipeline {
  import opened Results
  import opened Json
  import opened Domain
  import opened Remote
  import Payloads
  import Opts

  /** What a successful send reports: a fresh id, the payload that was sent and the
      tracker's reply. */
  datatype Message = Message(id: string, ok: bool, payload: Payloads.Payload, providerResponse: JsonValue)

  /** The result of one send together with the remote calls it made. */
  datatype Sent = Sent(result: Result<Message, Error>, calls: seq<Call>)

  /** Every local check passes: the payload decodes and is complete, and so do the options. */
  predicate LocallyValid(config: Option<Config>, body: RawBody)
  {
    && Payloads.Extract(body).Ok?
    && Payloads.Validate(Payloads.Extract(body).value).Pass?
    && Opts.Extract(config).Ok?
    && Opts.Validate(Opts.Extract(config).value).Pass?
  }

  /** `req` carries exactly what the payload and the options say. */
  predicate Carries(req: CreateIssueRequest, p: Payloads.Payload, o: Opts.Opts)
  {
    && req.fields.project.key == o.projectKey
    && req.fields.issueType.name == o.issueType
    && req.fields.summary == p.summary
    && req.fields.description == p.description
    && req.cloudId == o.cloudId
    && o.secret.Some? && req.bearerToken == o.secret.value.token
  }

  function BuildRequest(p: Payloads.Payload, o: Opts.Opts): CreateIssueRequest
    requires o.secret.Some?
  {
    CreateIssueRequest(
      Fields(Project(o.projectKey), IssueType(o.issueType), p.summary, p.description),
      o.cloudId, o.secret.value.token)
  }

  /** Sends one notification: extract and validate the payload, extract and validate the
      options, then create the issue, stopping at the first failure. `freshId` stands for
      the generated message id. */
  function Send(client: Client, config: Option<Config>, body: RawBody, freshId: string): (r: Sent)
    ensures |r.calls| <= 1
    ensures r.calls != [] <==> LocallyValid(config, body)
    ensures r.calls != [] ==>
              && r.calls[0].CreateIssue?
              && Carries(r.calls[0].createReq, Payloads.Extract(body).value, Opts.Extract(config).value)
    ensures r.calls != [] && r.result.Err? ==> client.createIssue(0, r.calls[0].createReq) == Err(r.result.error)
    ensures r.result.Ok? ==>
              && r.calls != []
              && client.createIssue(0, r.calls[0].createReq).Ok?
              && r.result.value == Message(freshId, true, Payloads.Extract(body).value, client.createIssue(0, r.calls[0].createReq).value)
  {
    match Payloads.Extract(body)
    case Err(e) => Sent(Err(e), [])
    case Ok(payload) =>
      match Payloads.Validate(payload)
      case Fail(e) => Sent(Err(e), [])
      case Pass =>
        match Opts.Extract(config)
        case Err(e) => Sent(Err(e), [])
        case Ok(opts) =>
          match Opts.Validate(opts)
          case Fail(e) => Sent(Err(e), [])
          case Pass =>
            var request := BuildRequest(payload, opts);
            var calls := [CreateIssue(request)];
            match client.createIssue(0, request)
            case Err(e) => Sent(Err(e), calls)
            case Ok(response) => Sent(Ok(Message(freshId, true, payload, response)), calls)
  }

  /** A local failure is reported as is, by the first step that fails, and no remote call
      is made. */
  lemma SendStopsAtFirstLocalError(client: Client, config: Option<Config>, body: RawBody, freshId: string)
    ensures var r := Send(client, config, body, freshId);
      && (Payloads.Extract(body).Err? ==> r == Sent(Err(Payloads.Extract(body).error), []))
      && (Payloads.Extract(body).Ok? && Payloads.Validate(Payloads.Extract(body).value).Fail? ==>
            r == Sent(Err(Payloads.Validate(Payloads.Extract(body).value).error), []))
      && (Payloads.Extract(body).Ok? && Payloads.Validate(Payloads.Extract(body).value).Pass? && Opts.Extract(config).Err? ==>
            r == Sent(Err(Opts.Extract(config).error), []))
      && (Payloads.Extract(body).Ok? && Payloads.Validate(Payloads.Extract(body).value).Pass? &&
          Opts.Extract(config).Ok? && Opts.Validate(Opts.Extract(config).value).Fail? ==>
            r == Sent(Err(Opts.Validate(Opts.Extract(config).value).error), []))
  {
  }

  /** Send is fail-fast over its remote calls too: a success means every call succeeded,
      and a remote failure is the client's own error for the last call. */
  lemma SendFailFast(client: Client, config: Option<Config>, body: RawBody, freshId: string)
    ensures var r := Send(client, config, body, freshId);
      && (r.result.Ok? ==> AllSucceed(client, r.calls))
      && (r.result.Err? && r.calls != [] ==> StoppedAt(client, r.calls, r.result.error))
  {
    var r := Send(client, config, body, freshId);
    if r.calls != [] {
      assert r.calls[..|r.calls| - 1] == [];
    }
  }

  /** A complete payload and complete options never fail locally: exactly one issue is
      requested, and any failure is the client's. */
  lemma SendAcceptsCompleteInput(client: Client, config: Option<Config>, body: RawBody, freshId: string,
                                 p: Payloads.Payload, o: Opts.Opts)
    requires Payloads.Extract(body) == Ok(p) && p.summary != "" && p.description.Some?
    requires Opts.Extract(config) == Ok(o) && o.projectKey != "" && o.issueType != ""
    requires o.secret.Some? && o.secret.value.token != ""
    ensures var r := Send(client, config, body, freshId);
      && |r.calls| == 1
      && r.calls[0] == CreateIssue(BuildRequest(p, o))
      && (r.result.Err? ==> client.createIssue(0, BuildRequest(p, o)) == Err(r.result.error))
  {
  }

  /** An empty summary is rejected before anything else is looked at, with no remote call. */
  lemma SendRejectsEmptySummary(client: Client, config: Option<Config>, body: RawBody, freshId: string)
    requires Payloads.Extract(body).Ok? && Payloads.Extract(body).value.summary == ""
    ensures Send(client, config, body, freshId) == Sent(Err(BodyValidation(Payloads.MissingSummary)), [])
  {
  }

  /** With a valid payload, a missing project key, issue type or token is an options error
      and no remote call is made. */
  lemma SendRejectsIncompleteOptions(client: Client, config: Option<Config>, body: RawBody, freshId: string)
    requires Payloads.Extract(body).Ok? && Payloads.Validate(Payloads.Extract(body).value).Pass?
    requires Opts.Extract(config).Ok?
    requires var o := Opts.Extract(config).value;
      o.projectKey == "" || o.issueType == "" || o.secret.None? || o.secret.value.token == ""
    ensures var r := Send(client, config, body, freshId);
      r.calls == [] && r.result.Err? && r.result.error.OptsValidation?
  {
  }

  /** A body with summary "Bug" and a document, options OPS/Bug/site1 and a token: the issue
      is created and the message echoes the payload. */
  lemma SendScenarioBug(client: Client, response: JsonValue)
    requires client.createIssue(0, CreateIssueRequest(
      Fields(Project("OPS"), IssueType("Bug"), "Bug", Some(map["type" := JString("doc")])), "site1", "t0k")) == Ok(response)
    ensures var body := WellFormed(JObject(map["summary" := JString("Bug"),
                                             "description" := JObject(map["type" := JString("doc")])]));
            var config := Config(map["project_key" := JString("OPS"), "issue_type" := JString("Bug"),
                                     "cloud_id" := JString("site1")], Some(Secret("t0k")));
            var r := Send(client, Some(config), body, "msg-1");
      && r.result.Ok? && r.result.value.ok && r.result.value.payload.summary == "Bug"
      && r.result.value.providerResponse == response
  {
    var doc := map["type" := JString("doc")];
    var members := map["summary" := JString("Bug"), "description" := JObject(doc)];
    var blob := map["project_key" := JString("OPS"), "issue_type" := JString("Bug"), "cloud_id" := JString("site1")];
    assert Payloads.Extract(WellFormed(JObject(members))) == Ok(Payloads.Payload("Bug", Some(doc))) by {
      assert StringMember(members, "summary") == Ok("Bug");
      assert ObjectMember(members, "description") == Ok(Some(doc));
    }
    assert Opts.DecodeFields(blob) == Some(("OPS", "Bug", "site1")) by {
      assert StringMember(blob, "project_key") == Ok("OPS");
      assert StringMember(blob, "issue_type") == Ok("Bug");
      assert StringMember(blob, "cloud_id") == Ok("site1");
    }
  }

  /** A body without a summary is rejected as a body-validation error, with no remote call. */
  lemma SendScenarioMissingSummary(client: Client, config: Option<Config>)
    ensures var body := WellFormed(JObject(map["description" := JObject(map["type" := JString("doc")])]));
            var r := Send(client, config, body, "msg-1");
      r.calls == [] && r.result == Err(BodyValidation(Payloads.MissingSummary))
  {
  }
}
