/** The provider-specific options of the issue-tracker provider: decoding them from the
    generic notifier configuration and checking the mandatory ones. */
module Opts {
  import opened Results
  import opened Json
  import opened Domain

  const ConfigEmpty := "notifier config emtpy"
  const DecodeFailed := "failed to decode configuration"
  const KeyOrTypeEmpty := "issue_type or project_key is emtpy"
  const SecretMissing := "secret not defined in configuration"

  datatype Opts = Opts(secret: Option<Secret>, projectKey: string, issueType: string, cloudId: string)

  /** Decodes the option blob onto the three tagged string fields, as `mapstructure.Decode`
      does without weak typing: `None` when any of them holds a value that is not a string. */
  function DecodeFields(blob: map<string, JsonValue>): Option<(string, string, string)>
  {
    match (StringMember(blob, "project_key"), StringMember(blob, "issue_type"), StringMember(blob, "cloud_id"))
    case (Ok(projectKey), Ok(issueType), Ok(cloudId)) => Some((projectKey, issueType, cloudId))
    case _ => None
  }

  /** Resolves the options from the notifier configuration. A missing configuration and a
      blob that does not decode are both reported as options-validation errors; on success
      the secret is the configuration's own, whatever the blob holds. */
  function Extract(c: Option<Config>): (r: Result<Opts, Error>)
    ensures c.None? ==> r == Err(OptsValidation(ConfigEmpty))
    ensures c.Some? && r.Err? ==> r.error == OptsValidation(DecodeFailed)
    ensures r.Ok? ==> c.Some? && r.value.secret == c.value.secret
  {
    match c
    case None => Err(OptsValidation(ConfigEmpty))
    case Some(config) =>
      match DecodeFields(config.opts)
      case None => Err(OptsValidation(DecodeFailed))
      case Some((projectKey, issueType, cloudId)) => Ok(Opts(config.secret, projectKey, issueType, cloudId))
  }

  /** The configuration an options value comes from: its three fields as strings under
      their tags, and its secret. */
  function ToConfig(o: Opts): Config
  {
    Config(map["project_key" := JString(o.projectKey), "issue_type" := JString(o.issueType),
                "cloud_id" := JString(o.cloudId)], o.secret)
  }

  /** Resolving the configuration of an options value gives that value back. */
  lemma ExtractToConfig(o: Opts)
    ensures Extract(Some(ToConfig(o))) == Ok(o)
  {
  }

  /** The secret plays no part in decoding: swapping it changes only the result's secret. */
  lemma ExtractCarriesSecret(blob: map<string, JsonValue>, s: Option<Secret>, s': Option<Secret>)
    ensures Extract(Some(Config(blob, s))).Ok? == Extract(Some(Config(blob, s'))).Ok?
    ensures Extract(Some(Config(blob, s))).Ok? ==>
              Extract(Some(Config(blob, s'))).value == Extract(Some(Config(blob, s))).value.(secret := s')
  {
  }

  /** A configuration decodes exactly when each of the three tagged members fits a string,
      and then each option holds its member's text ("" when absent or null). */
  lemma ExtractConfig(blob: map<string, JsonValue>, s: Option<Secret>)
    ensures Extract(Some(Config(blob, s))).Ok? <==>
              FitsString(blob, "project_key") && FitsString(blob, "issue_type") && FitsString(blob, "cloud_id")
    ensures Extract(Some(Config(blob, s))).Ok? ==>
              Extract(Some(Config(blob, s))).value ==
                Opts(s, TextOf(blob, "project_key"), TextOf(blob, "issue_type"), TextOf(blob, "cloud_id"))
  {
  }

  /** Checks the mandatory options: project key and issue type first, then the secret and
      its token. The cloud id is not checked. */
  function Validate(o: Opts): (r: Outcome<Error>)
    ensures r.Pass? <==> o.issueType != "" && o.projectKey != "" && o.secret.Some? && o.secret.value.token != ""
    ensures (o.issueType == "" || o.projectKey == "") ==> r == Fail(OptsValidation(KeyOrTypeEmpty))
    ensures o.issueType != "" && o.projectKey != "" && r.Fail? ==> r == Fail(OptsValidation(SecretMissing))
  {
    if o.issueType == "" || o.projectKey == "" then Fail(OptsValidation(KeyOrTypeEmpty))
    else if o.secret.None? || o.secret.value.token == "" then Fail(OptsValidation(SecretMissing))
    else Pass
  }

  /** The cloud id never affects validation. */
  lemma ValidateIgnoresCloudId(o: Opts, cloudId: string)
    ensures Validate(o.(cloudId := cloudId)) == Validate(o)
  {
  }
}
