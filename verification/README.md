# Issue-tracker notification provider (Jira), modelled in Dafny

This project models the Jira provider of the hermes notification hub. The provider has
two operations.

- `Send` turns a notification request into one create-issue call. It takes a notifier
  configuration and a JSON body. First it decodes and validates the payload (summary and
  description). Then it decodes and validates the provider options (project key, issue
  type, cloud id, plus the notifier secret's bearer token). Then it builds the
  create-issue request and calls the tracker's client. On success it returns a message
  that echoes the payload and the tracker's reply.
- `GetOptValues` discovers the option values a configuration form can offer for a
  bearer token. It lists the token's accessible sites, then asks each site for its issue
  types and its projects. It assembles
  `{cloud_id: [...], _rel: {cloud_id: {<site id>: {project_key: [...], issue_type: [...]}}}}`.

The tracker's client is a `Remote.Client`: one answering function per operation. Each
reply may depend on the request and on the call's ordinal within the current operation.
Every operation returns its result together with the trace of remote calls it made. The
properties are stated against that trace:

- no remote call happens unless every local check has passed;
- the fields of the create-issue request;
- fail-fast error propagation, with the client's error passed on unchanged;
- discovery's call plan of `1 + 2n` calls for `n` sites;
- the shape and order of the discovery result.

Files, one module each:

- `results.dfy`: `Option`, `Result`, `Outcome`.
- `json.dfy`: decoded JSON values, and how Go's decoders read one member into a string
  or map field.
- `domain.dfy`: the error kinds, the secret and the generic notifier configuration.
- `remote.dfy`: client requests, replies, call traces and fail-fast predicates.
- `payload.dfy`: `Payload.Extract` and `Payload.Validate`.
- `opts.dfy`: `Opts.Extract` and `Opts.Validate`.
- `pipeline.dfy`: `Send`.
- `discovery.dfy`: `GetOptValues`, written as a recursive fold over the site list.

Behaviour of the code that a reader might not expect:

- There is no separate parse or decode error kind. A body that is not valid JSON, or
  whose members have the wrong JSON kinds, is reported as a body-validation error that
  carries the decoder's message. A missing configuration, or an option blob that does
  not decode, is reported as an options-validation error.
- A body that is the JSON literal `null` decodes without error to the empty payload.
  Validation then rejects it for its missing summary.
- Discovery is fail-fast: the first failing call discards everything gathered so far.
- When two listed sites share an id, the later site's entry replaces the earlier one
  under `_rel`. The `cloud_id` list still has one entry per listed site.

## Model

| member | source | states |
|---|---|---|
| Payloads.Extract | provider/jira/jira.go:130-136 | every decode failure is a body-validation error; a syntax error carries the decoder's message; a `null` body yields the empty payload; success needs an object or `null` body |
| Payloads.ExtractEncode | provider/jira/jira.go:124-136 | decoding the JSON written from a payload under its `summary`/`description` tags gives the same payload back |
| Payloads.ExtractIgnoresUnknownMembers | provider/jira/jira.go:124-136 | members other than `summary` and `description` do not affect decoding |
| Payloads.ExtractObject | provider/jira/jira.go:124-136 | an object body decodes exactly when `summary` is absent, null or a string and `description` is absent, null or an object; the payload then holds the summary text ("" otherwise) and the description object (nil otherwise) |
| Payloads.ExtractRejectsNonObject | provider/jira/jira.go:130-134 | a body that is neither an object nor `null` is rejected |
| Payloads.Validate | provider/jira/jira.go:138-152 | passes exactly when the summary is non-empty and the description is present; an empty summary is reported first, even when the description is also missing |
| Payloads.ValidateIgnoresDocumentContent | provider/jira/jira.go:138-151 | the description's content is never checked, only its presence |
| Opts.Extract | provider/jira/jira.go:162-171 | a missing configuration gives "notifier config emtpy"; a blob that does not decode gives "failed to decode configuration"; on success the secret is exactly the configuration's secret |
| Opts.ExtractToConfig | provider/jira/jira.go:154-170 | decoding the blob written from an options value under its `project_key`/`issue_type`/`cloud_id` tags, with its secret, gives the value back |
| Opts.ExtractCarriesSecret | provider/jira/jira.go:166-169 | the secret takes no part in decoding: changing it changes only the result's secret, never success or the decoded fields |
| Opts.ExtractConfig | provider/jira/jira.go:154-170 | a configuration decodes exactly when `project_key`, `issue_type` and `cloud_id` are each absent, null or a string; each option then holds its member's text, "" when absent or null, and the secret is the configuration's |
| Opts.Validate | provider/jira/jira.go:175-187 | passes exactly when issue type and project key are non-empty and a secret with a non-empty token is present; the empty key or type is reported before the secret |
| Opts.ValidateIgnoresCloudId | provider/jira/jira.go:175-187 | the cloud id never affects validation |
| Pipeline.Send | provider/jira/jira.go:27-69 | at most one remote call, made exactly when every local check passes; its request carries project key, issue type, summary, description, cloud id and token from the decoded inputs; a client error is returned unchanged; a success message has the fresh id, `ok = true`, the decoded payload and the client's reply |
| Pipeline.SendStopsAtFirstLocalError | provider/jira/jira.go:28-45 | payload decode, payload validation, options decode and options validation are tried in this order; the first failure is returned as is, with no remote call |
| Pipeline.SendFailFast | provider/jira/jira.go:58-68 | a successful send had every remote call answered; a remote failure is the client's error for the last call made |
| Pipeline.SendAcceptsCompleteInput | provider/jira/jira.go:29-58 | a payload with summary and description plus options with key, type and token always reach exactly one create-issue call; any failure then comes from the client |
| Pipeline.SendRejectsEmptySummary | provider/jira/jira.go:29-35 | whatever the configuration, an empty summary gives the missing-summary body error with no remote call |
| Pipeline.SendRejectsIncompleteOptions | provider/jira/jira.go:37-45 | with a valid payload, a missing project key, issue type, secret or token gives an options error with no remote call |
| Pipeline.SendScenarioBug | provider/jira/jira.go:27-68 | summary "Bug" with a document, options OPS/Bug/site1 and a token: the message is `ok` and echoes the summary and the reply |
| Pipeline.SendScenarioMissingSummary | provider/jira/jira.go:29-35 | a body without a summary is rejected as a body-validation error and no call is made |
| Discovery.IssueTypePairs | provider/jira/jira.go:89-95 | one `{id, name}` entry per issue type, in order, identified by the issue type's id |
| Discovery.ProjectPairs | provider/jira/jira.go:102-108 | one `{id, name}` entry per project, in order, identified by the project's key rather than its internal id |
| Discovery.PlannedCalls | provider/jira/jira.go:75-101 | the plan has `1 + 2n` calls: the site listing, then the issue-type call and the project call of each site, in site order |
| Discovery.RelStep | provider/jira/jira.go:110-113 | recording a site's entry under its id keeps the invariant: each id holds the entry of the latest site with that id |
| Discovery.LoopCompletesPlan | provider/jira/jira.go:82-114 | a site loop that succeeds has made every planned call, each answered |
| Discovery.LoopListsSites | provider/jira/jira.go:82-83 | a site loop that succeeds lists one `{id, name}` per site, in order |
| Discovery.LoopRelatesSites | provider/jira/jira.go:82-114 | a site loop that succeeds keys `_rel` by exactly the site ids, each holding its latest site's answers |
| Discovery.LoopStops | provider/jira/jira.go:84-101 | a site loop that fails stops at the first failing call of the plan and returns that call's error |
| Discovery.DiscoveryFailFast | provider/jira/jira.go:75-101 | discovery succeeds only if every call it made was answered; otherwise it returns the last call's error unchanged, all earlier calls having succeeded, and no partial result |
| Discovery.DiscoveryFollowsPlan | provider/jira/jira.go:71-114 | a failed site listing ends discovery after one call; otherwise the calls are a prefix of the plan, and a success makes exactly `1 + 2n` calls |
| Discovery.DiscoverySucceedsIff | provider/jira/jira.go:75-121 | discovery succeeds exactly when the site listing and every planned per-site call succeed |
| Discovery.DiscoveryShape | provider/jira/jira.go:80-121 | on success, `cloud_id` has each listed site's `{id, name}` in listed order; `_rel` is keyed by exactly the site ids; each entry holds the project keys and issue types answered for the latest site with that id |
| Discovery.DiscoveryOfNoSites | provider/jira/jira.go:80-121 | no accessible site gives empty `cloud_id` and `_rel` after exactly one call |
| Discovery.DiscoverySecondProjectsFailure | provider/jira/jira.go:97-101 | when the second site's project call fails, its error is returned after five calls, and nothing from the first site is returned |

## Left out

- Turning body bytes into a JSON value is not modelled. The body arrives either as the
  decoder's syntax error or as the decoded value (`Json.RawBody`).
- Payloads.Extract: Go's `encoding/json` also matches member names case-insensitively,
  lets the last of several duplicate members win, and reports the earliest of several
  type mismatches in document order. The model matches exact names only and checks
  `summary` before `description`. Mismatch messages follow Go's wording only roughly.
- Payloads.ExtractObject and Payloads.Extract: Go's decoder converts every JSON number
  inside the description to a float64 and fails the whole decode when one is out of
  range (`{"n": 1e400}`). The model keeps numbers as literal text, so such a body
  decodes here. Float64 conversion is outside what this model covers.
- Opts.Extract: `mapstructure` also matches keys case-insensitively. It would also try to
  decode an option-blob key matching the untagged `Secret` field, whose value is then
  overwritten; a mistyped value there could fail decoding. Neither is modelled.
  Reflection-based decoding is reduced to reading the three tagged string fields.
- Opts.Validate: the nil-receiver case (jira.go:176-178, "options empty") is not
  modelled. `Send` always validates a freshly allocated options value.
- A nil notifier passed to `Send`, a nil secret passed to `GetOptValues`, and a nil
  reply without an error to one of the three discovery calls (jira.go:82, 90, 103) make
  the Go code panic. The model takes a notifier configuration (possibly absent) and a
  secret, and the discovery calls always answer with a value or an error. A nil
  create-issue reply is not a panic: `Send` stores it as the provider response, which
  the model covers as the `JNull` reply.
- `ksuid.New()` is the `freshId` parameter of `Send`; uniqueness is not modelled.
- The client (`Client`, `http.Client`, the tracker's HTTP API, project-search paging) is
  not part of this model: only the project page's `values` are read. `NewJIRAProvider`
  only wires the HTTP client in and is not modelled.
- `context.Context` is ignored by the code and is not a parameter here. The `fmt.Println`
  debug output on discovery failures has no effect on the result and is left out.
- The error constructors are not shown in the source. They are the `BodyValidation` and
  `OptsValidation` variants, each carrying its message. Any error the client returns is
  passed on as is.
- The discovery result is a typed record (`Discovery.OptValues`) rather than Go's
  untyped nested map. Its fields correspond one-to-one to the `cloud_id` and
  `_rel.cloud_id` keys.
