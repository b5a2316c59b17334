/** The executor's settings: how `YepCodeCodeExecutor.__init__` validates and
    stores them, and the configuration record that `_to_config` and
    `_from_config` convert to and from. */
module Config {
  import opened Wrappers

  /** The four values the constructor stores (`_api_token`, `_timeout`,
      `_remove_on_done`, `_sync_execution`). */
  datatype Settings = Settings(apiToken: string, timeout: int, removeOnDone: bool, syncExecution: bool)

  /** What every constructed executor satisfies. */
  predicate ValidSettings(s: Settings)
  {
    s.timeout >= 1 && s.apiToken != ""
  }

  /** `YepCodeCodeExecutorConfig`: the token may be absent there. */
  datatype ExecutorConfig = ExecutorConfig(apiToken: Option<string>, timeout: int, removeOnDone: bool, syncExecution: bool)

  /** The configuration record's field defaults. */
  const DefaultConfig := ExecutorConfig(None, 60, false, true)

  const TimeoutMessage := "Timeout must be greater than or equal to 1."
  const MissingTokenMessage := "YepCode API token is required. Provide it via api_token parameter or YEPCODE_API_TOKEN environment variable."

  /** Python truthiness of an optional string: present and non-empty. */
  predicate Truthy(s: Option<string>)
  {
    s.Some? && s.value != ""
  }

  /** `api_token or os.getenv("YEPCODE_API_TOKEN")` followed by the emptiness
      check: the explicit token wins when it is non-empty, otherwise the
      environment's value is used; `None` when neither yields a non-empty token. */
  function ResolveToken(explicit: Option<string>, env: Option<string>): (r: Option<string>)
    ensures r.Some? <==> Truthy(explicit) || Truthy(env)
    ensures r.Some? ==> r.value != ""
    ensures Truthy(explicit) ==> r == explicit
    ensures !Truthy(explicit) && Truthy(env) ==> r == env
  {
    if Truthy(explicit) then explicit
    else if Truthy(env) then env
    else None
  }

  /** The checks of `__init__`, in its order: the timeout first, then the token.
      `env` is the value of the `YEPCODE_API_TOKEN` environment variable; the
      other parameters have `__init__`'s defaults. */
  function Construct(env: Option<string>, apiToken: Option<string> := None, timeout: int := 60,
                     removeOnDone: bool := false, syncExecution: bool := true): (r: Result<Settings>)
    ensures timeout < 1 ==> r == Err(TimeoutMessage)
    ensures timeout >= 1 && !Truthy(apiToken) && !Truthy(env) ==> r == Err(MissingTokenMessage)
    ensures r.Ok? <==> timeout >= 1 && (Truthy(apiToken) || Truthy(env))
    ensures r.Ok? ==> ValidSettings(r.value)
    ensures r.Ok? ==> r.value.timeout == timeout && r.value.removeOnDone == removeOnDone
                      && r.value.syncExecution == syncExecution
    ensures r.Ok? ==> Some(r.value.apiToken) == (if Truthy(apiToken) then apiToken else env)
  {
    if timeout < 1 then Err(TimeoutMessage)
    else
      match ResolveToken(apiToken, env)
      case None => Err(MissingTokenMessage)
      case Some(token) => Ok(Settings(token, timeout, removeOnDone, syncExecution))
  }

  /** `_to_config`: the stored values, the token always present. From the record
      of valid settings, `_from_config` rebuilds the same token, timeout and flags,
      whatever the environment holds. */
  function ToConfig(s: Settings): (c: ExecutorConfig)
    ensures ValidSettings(s) ==> forall env :: FromConfig(c, env) == Ok(s)
  {
    ExecutorConfig(Some(s.apiToken), s.timeout, s.removeOnDone, s.syncExecution)
  }

  /** `_from_config`: the constructor applied to the record's fields. It succeeds
      exactly when the record's timeout is at least 1 and the record or the
      environment holds a non-empty token, and then keeps the timeout and flags. */
  function FromConfig(c: ExecutorConfig, env: Option<string>): (r: Result<Settings>)
    ensures r.Ok? <==> c.timeout >= 1 && (Truthy(c.apiToken) || Truthy(env))
    ensures r.Ok? ==> r.value.timeout == c.timeout && r.value.removeOnDone == c.removeOnDone
                      && r.value.syncExecution == c.syncExecution
  {
    Construct(env, c.apiToken, c.timeout, c.removeOnDone, c.syncExecution)
  }

  /** Serialising what a configuration record builds gives back that record, except
      that a missing or empty token is replaced by the one read from the
      environment. */
  lemma ConfigRoundTripBack(c: ExecutorConfig, env: Option<string>)
    requires FromConfig(c, env).Ok?
    ensures Truthy(c.apiToken) ==> ToConfig(FromConfig(c, env).value) == c
    ensures !Truthy(c.apiToken) ==> ToConfig(FromConfig(c, env).value) == c.(apiToken := env)
  {
  }

  /** The defaults construct once a token is available from either source. */
  lemma DefaultConfigBuilds(env: Option<string>)
    ensures FromConfig(DefaultConfig, env).Ok? <==> Truthy(env)
  {
  }
}
