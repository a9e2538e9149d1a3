/** Types the provider shares with the surrounding notification hub: its error kinds, the
    notifier secret and the generic notifier configuration. */
module Domain {
  import opened Results
  import opened Json

  /** The errors a provider reports. The provider itself only builds the first two; the
      remote client may answer with any error, and the provider passes it on unchanged. */
  datatype Error =
    | BodyValidation(message: string)
    | OptsValidation(message: string)
    | Remote(message: string)

  /** A notifier secret: the bearer token for the issue tracker. */
  datatype Secret = Secret(token: string)

  /** A generic notifier configuration: provider options as a key/value blob, plus the
      secret, which may be absent. */
  datatype Config = Config(opts: map<string, JsonValue>, secret: Option<Secret>)
}
