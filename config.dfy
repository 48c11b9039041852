/**
 * ApiConfig and its loading from the process environment
 * (nyamanga/config.py). The environment is a map from variable names to
 * values; float() on NYAMANGA_TIMEOUT is the parameter parseFloat, which
 * yields None where Python's float() raises ValueError.
 */
module Config {
  import opened Wrappers
  import opened Errors

  const DEFAULT_BASE_URL: string := "https://api.ephone.chat/v1"

  const API_KEY_VARS: seq<string> := ["NYAMANGA_API_KEY", "EPHONE_API_KEY", "OPENAI_API_KEY"]
  const BASE_URL_VAR: string := "NYAMANGA_BASE_URL"
  const CHAT_MODEL_VAR: string := "NYAMANGA_CHAT_MODEL"
  const IMAGE_MODEL_VAR: string := "NYAMANGA_IMAGE_MODEL"
  const TIMEOUT_VAR: string := "NYAMANGA_TIMEOUT"

  const MISSING_KEY_MESSAGE: string := "Set NYAMANGA_API_KEY/EPHONE_API_KEY/OPENAI_API_KEY"

  /** Timeouts are seconds, Python floats; they are real numbers here. */
  datatype ApiConfig = ApiConfig(
    apiKey: string,
    baseUrl: string,
    chatModel: string,
    imageModel: string,
    requestTimeout: real)

  type Env = map<string, string>

  /** ApiConfig(api_key=k): the dataclass defaults for every other field. */
  function NewApiConfig(apiKey: string): (c: ApiConfig)
    ensures c.apiKey == apiKey && c.baseUrl == DEFAULT_BASE_URL
    ensures c.chatModel == "nano-banana-2" && c.imageModel == "nano-banana-2"
    ensures c.requestTimeout == 120.0
  {
    ApiConfig(apiKey, DEFAULT_BASE_URL, "nano-banana-2", "nano-banana-2", 120.0)
  }

  /** The variable is set to something other than the empty string. */
  predicate NonEmpty(env: Env, name: string) {
    name in env && env[name] != ""
  }

  /** os.environ.get(name, default): the value whenever the variable is set, even to "". */
  function GetOr(env: Env, name: string, default: string): (r: string)
    ensures name in env ==> r == env[name]
    ensures name !in env ==> r == default
  {
    if name in env then env[name] else default
  }

  /**
   * The `or`-chain over the API key variables: the value of the first one that
   * is set and non-empty, None when there is none.
   */
  function FirstKey(env: Env, names: seq<string>): (r: Option<string>)
    ensures r.None? <==> forall k :: 0 <= k < |names| ==> !NonEmpty(env, names[k])
    ensures r.Some? ==> exists k :: (0 <= k < |names| && NonEmpty(env, names[k]) && r.value == env[names[k]]
                                     && forall j :: 0 <= j < k ==> !NonEmpty(env, names[j]))
  {
    if names == [] then None
    else if NonEmpty(env, names[0]) then Some(env[names[0]])
    else
      var r := FirstKey(env, names[1..]);
      assert forall k :: 0 <= k < |names| - 1 ==> names[1..][k] == names[k + 1];
      if r.Some? then
        var k :| 0 <= k < |names| - 1 && NonEmpty(env, names[1..][k]) && r.value == env[names[1..][k]]
          && forall j :: 0 <= j < k ==> !NonEmpty(env, names[1..][j]);
        assert forall j :: 0 <= j < k + 1 ==> !NonEmpty(env, names[j]) by {
          forall j | 0 <= j < k + 1 ensures !NonEmpty(env, names[j]) {
            if j > 0 { assert names[j] == names[1..][j - 1]; }
          }
        }
        r
      else
        r
  }

  /** `float(raw) if raw else 30.0`: the default is taken only for an absent or empty variable. */
  function Timeout(env: Env, parseFloat: string -> Option<real>): (r: Result<real, Error>)
    ensures !NonEmpty(env, TIMEOUT_VAR) ==> r == Ok(30.0)
    ensures NonEmpty(env, TIMEOUT_VAR) && parseFloat(env[TIMEOUT_VAR]).Some? ==> r == Ok(parseFloat(env[TIMEOUT_VAR]).value)
    ensures NonEmpty(env, TIMEOUT_VAR) && parseFloat(env[TIMEOUT_VAR]).None? ==> r == Err(InvalidTimeout(env[TIMEOUT_VAR]))
  {
    if !NonEmpty(env, TIMEOUT_VAR) then Ok(30.0)
    else
      match parseFloat(env[TIMEOUT_VAR])
      case Some(t) => Ok(t)
      case None => Err(InvalidTimeout(env[TIMEOUT_VAR]))
  }

  /** ApiConfig.from_env(). */
  function FromEnv(env: Env, parseFloat: string -> Option<real>): (r: Result<ApiConfig, Error>)
    ensures r == Err(MissingApiKey(MISSING_KEY_MESSAGE)) <==> forall k :: 0 <= k < 3 ==> !NonEmpty(env, API_KEY_VARS[k])
    ensures r.Ok? ==> r.value.apiKey != ""
    ensures r.Ok? ==> (&& r.value.baseUrl == GetOr(env, BASE_URL_VAR, DEFAULT_BASE_URL)
                       && r.value.chatModel == GetOr(env, CHAT_MODEL_VAR, "nano-banana-2")
                       && r.value.imageModel == GetOr(env, IMAGE_MODEL_VAR, "gpt-image-1")
                       && Timeout(env, parseFloat) == Ok(r.value.requestTimeout))
    ensures (exists k :: 0 <= k < 3 && NonEmpty(env, API_KEY_VARS[k])) ==>
      (r.Ok? <==> Timeout(env, parseFloat).Ok?) && (r.Err? ==> r.error == Timeout(env, parseFloat).error)
  {
    match FirstKey(env, API_KEY_VARS)
    case None => Err(MissingApiKey(MISSING_KEY_MESSAGE))
    case Some(apiKey) =>
      var baseUrl := GetOr(env, BASE_URL_VAR, DEFAULT_BASE_URL);
      var chatModel := GetOr(env, CHAT_MODEL_VAR, "nano-banana-2");
      var imageModel := GetOr(env, IMAGE_MODEL_VAR, "gpt-image-1");
      match Timeout(env, parseFloat)
      case Err(e) => Err(e)
      case Ok(timeout) => Ok(ApiConfig(apiKey, baseUrl, chatModel, imageModel, timeout))
  }

  /**
   * NYAMANGA_API_KEY wins over EPHONE_API_KEY, which wins over OPENAI_API_KEY;
   * a variable set to "" is passed over as if it were absent.
   */
  lemma KeyPriority(env: Env, parseFloat: string -> Option<real>)
    requires FromEnv(env, parseFloat).Ok?
    ensures NonEmpty(env, "NYAMANGA_API_KEY") ==>
      FromEnv(env, parseFloat).value.apiKey == env["NYAMANGA_API_KEY"]
    ensures !NonEmpty(env, "NYAMANGA_API_KEY") && NonEmpty(env, "EPHONE_API_KEY") ==>
      FromEnv(env, parseFloat).value.apiKey == env["EPHONE_API_KEY"]
    ensures !NonEmpty(env, "NYAMANGA_API_KEY") && !NonEmpty(env, "EPHONE_API_KEY") ==>
      NonEmpty(env, "OPENAI_API_KEY") && FromEnv(env, parseFloat).value.apiKey == env["OPENAI_API_KEY"]
  {
    var k :| 0 <= k < 3 && NonEmpty(env, API_KEY_VARS[k]) && FirstKey(env, API_KEY_VARS).value == env[API_KEY_VARS[k]]
      && forall j :: 0 <= j < k ==> !NonEmpty(env, API_KEY_VARS[j]);
    assert API_KEY_VARS[0] == "NYAMANGA_API_KEY" && API_KEY_VARS[1] == "EPHONE_API_KEY" && API_KEY_VARS[2] == "OPENAI_API_KEY";
  }

  /**
   * With only a key in the environment, from_env gives image model
   * "gpt-image-1" and a 30-second timeout, where the dataclass defaults are
   * "nano-banana-2" and 120 seconds.
   */
  lemma FromEnvDefaultsDifferFromDataclass(key: string, parseFloat: string -> Option<real>)
    requires key != ""
    ensures var r := FromEnv(map["NYAMANGA_API_KEY" := key], parseFloat);
      && r == Ok(ApiConfig(key, DEFAULT_BASE_URL, "nano-banana-2", "gpt-image-1", 30.0))
      && r.value.imageModel != NewApiConfig(key).imageModel
      && r.value.requestTimeout != NewApiConfig(key).requestTimeout
  {
    var env := map["NYAMANGA_API_KEY" := key];
    assert NonEmpty(env, API_KEY_VARS[0]);
    assert FirstKey(env, API_KEY_VARS) == Some(key);
  }
}
