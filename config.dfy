/**
 * The credential checks of config.py, over an explicit environment: `env` maps variable
 * names to values, as `os.getenv` would see them after `load_dotenv`.
 */
module Config {
  import opened Wrappers
  import TextUtils

  const OpenAiKey := "OPENAI_API_KEY"
  const PerplexityKey := "PERPLEXITY_API_KEY"
  const MissingPrefix := "Missing environment variables: "
  const PerplexityMissingMessage := "PERPLEXITY_API_KEY is missing. Please set it in a .env file or environment variable."

  /** `get_env(name)`: the value, or `None` when the variable is not set. */
  function GetEnv(env: map<string, string>, name: string): Option<string>
  {
    if name in env then Some(env[name]) else None
  }

  /** A variable counts as configured when it is set to a non-empty value. */
  predicate IsSet(env: map<string, string>, name: string)
  {
    name in env && env[name] != ""
  }

  /** `get_perplexity_api_key()`: the key, or a RuntimeError when it is unset or empty. */
  function GetPerplexityApiKey(env: map<string, string>): (r: Result<string, string>)
    ensures r.Ok? <==> IsSet(env, PerplexityKey)
    ensures r.Ok? ==> r.value == env[PerplexityKey]
    ensures r.Err? ==> r.error == PerplexityMissingMessage
  {
    var key := GetEnv(env, PerplexityKey);
    if key.None? || key.value == "" then Err(PerplexityMissingMessage) else Ok(key.value)
  }

  /**
   * `validate_config()`: `(True, "")` when both keys are configured; otherwise `False` and a
   * message naming the missing keys, OpenAI's first.
   */
  method ValidateConfig(env: map<string, string>) returns (ok: bool, message: string)
    ensures ok <==> IsSet(env, OpenAiKey) && IsSet(env, PerplexityKey)
    ensures ok ==> message == ""
    ensures !IsSet(env, OpenAiKey) && !IsSet(env, PerplexityKey) ==>
      message == MissingPrefix + OpenAiKey + ", " + PerplexityKey
    ensures !IsSet(env, OpenAiKey) && IsSet(env, PerplexityKey) ==> message == MissingPrefix + OpenAiKey
    ensures IsSet(env, OpenAiKey) && !IsSet(env, PerplexityKey) ==> message == MissingPrefix + PerplexityKey
  {
    var missing: seq<string> := [];
    var openAi := GetEnv(env, OpenAiKey);
    if openAi.None? || openAi.value == "" {
      missing := missing + [OpenAiKey];
    }
    var perplexity := GetEnv(env, PerplexityKey);
    if perplexity.None? || perplexity.value == "" {
      missing := missing + [PerplexityKey];
    }
    if missing != [] {
      if |missing| == 2 {
        JoinPair(MissingPrefix, OpenAiKey, PerplexityKey);
      }
      return false, MissingPrefix + TextUtils.Join(", ", missing);
    }
    return true, "";
  }

  lemma JoinPair(prefix: string, a: string, b: string)
    ensures prefix + TextUtils.Join(", ", [a, b]) == prefix + a + ", " + b
  {
    assert [a, b][1..] == [b];
  }

  /** When the configuration validates, the search client obtains exactly the configured key. */
  lemma ValidatedConfigYieldsKey(env: map<string, string>)
    requires IsSet(env, OpenAiKey) && IsSet(env, PerplexityKey)
    ensures GetPerplexityApiKey(env) == Ok(env[PerplexityKey])
  {
  }
}
