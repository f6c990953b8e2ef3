/** Configuration read from the process environment: string and boolean lookups with
    fallbacks, the defaults, and the production-only check of the required secrets. */
module Config {
  import opened Common
  import opened JsText

  /** The process environment: a variable is either absent or holds a string. */
  type Env = map<string, string>

  /** `process.env[name] ?? fallback`: a defined variable wins even when it is empty. */
  function RequireString(env: Env, name: string, fallback: string): (v: string)
    ensures name in env ==> v == env[name]
    ensures name !in env ==> v == fallback
  {
    if name in env then env[name] else fallback
  }

  /** An undefined variable gives the fallback; a defined one is true exactly when it reads
      `true` in any letter case, or is exactly `1`. */
  function RequireBoolean(env: Env, name: string, fallback: bool): bool
  {
    if name !in env then fallback
    else ToLower(env[name]) == "true" || env[name] == "1"
  }

  /** The spellings of `true` in some letter case, written out letter by letter. */
  predicate TrueSpelling(v: string)
  {
    |v| == 4 && v[0] in "tT" && v[1] in "rR" && v[2] in "uU" && v[3] in "eE"
  }

  /** A string lower-cases to `true` exactly when it spells `true` in some letter case. */
  lemma LowerIsTrue(v: string)
    ensures ToLower(v) == "true" <==> TrueSpelling(v)
  {
    if TrueSpelling(v) {
      assert ToLower(v) == [ToLowerChar(v[0]), ToLowerChar(v[1]), ToLowerChar(v[2]), ToLowerChar(v[3])];
    }
  }

  /** An undefined variable gives the fallback; a defined one is true exactly when it spells
      `true` in some letter case or is exactly `1`. So an empty value is false whatever the
      fallback, and `yes` or `01` are false too. */
  lemma RequireBooleanCases(env: Env, name: string, fallback: bool)
    ensures name !in env ==> RequireBoolean(env, name, fallback) == fallback
    ensures name in env ==> (RequireBoolean(env, name, fallback) <==> TrueSpelling(env[name]) || env[name] == "1")
    ensures name in env && env[name] == "" ==> !RequireBoolean(env, name, fallback)
    ensures name in env && env[name] in {"TRUE", "True", "tRuE", "1"} ==> RequireBoolean(env, name, fallback)
    ensures name in env && env[name] in {"yes", "01", "0", "false"} ==> !RequireBoolean(env, name, fallback)
  {
    if name in env {
      LowerIsTrue(env[name]);
    }
  }

  /** Number settings go through `Number.parseInt(..., 10)`; `None` stands for `NaN`. */
  datatype Settings = Settings(
    nodeEnv: string,
    port: Option<int>,
    mongoUri: string,
    openAiApiKey: string,
    openAiTextModel: string,
    openAiMultimodalModel: string,
    jwtAccessSecret: string,
    jwtRefreshSecret: string,
    accessTokenExpiry: string,
    refreshTokenExpiryDays: Option<int>,
    maxRetries: Option<int>,
    requestTimeout: Option<int>,
    maxFileSize: string,
    maxMessageLength: Option<int>,
    maxContextLength: Option<int>)

  /** The `config` object built at start-up. */
  function Load(env: Env): Settings
  {
    Settings(
      RequireString(env, "NODE_ENV", "development"),
      ParseInt(RequireString(env, "PORT", "3000")),
      RequireString(env, "MONGO_URI", "mongodb://localhost:27017/chatbot"),
      RequireString(env, "OPENAI_API_KEY", ""),
      RequireString(env, "OPENAI_MODEL", "gpt-4o-mini"),
      RequireString(env, "OPENAI_MM_MODEL", "gpt-4o-mini"),
      RequireString(env, "JWT_ACCESS_SECRET", ""),
      RequireString(env, "JWT_REFRESH_SECRET", ""),
      RequireString(env, "ACCESS_TOKEN_EXPIRY", "15m"),
      ParseInt(RequireString(env, "REFRESH_TOKEN_EXPIRY_DAYS", "30")),
      ParseInt(RequireString(env, "MAX_RETRIES", "3")),
      ParseInt(RequireString(env, "REQUEST_TIMEOUT", "30000")),
      RequireString(env, "MAX_FILE_SIZE", "5mb"),
      ParseInt(RequireString(env, "MAX_MESSAGE_LENGTH", "4000")),
      ParseInt(RequireString(env, "MAX_CONTEXT_LENGTH", "8000")))
  }

  /** With no variable set, the text settings are the documented defaults, and both
      signing secrets are the empty string. */
  lemma DefaultTexts()
    ensures var c := Load(map[]);
      && c.nodeEnv == "development" && c.mongoUri == "mongodb://localhost:27017/chatbot"
      && c.openAiApiKey == "" && c.jwtAccessSecret == "" && c.jwtRefreshSecret == ""
      && c.accessTokenExpiry == "15m" && c.maxFileSize == "5mb"
      && c.openAiTextModel == "gpt-4o-mini" && c.openAiMultimodalModel == "gpt-4o-mini"
  {
  }

  /** A number setting left unset reads as the number its fallback text prints. */
  lemma UnsetNumber(env: Env, name: string, fallback: string, n: int)
    requires name !in env && IntToString(n) == fallback
    ensures ParseInt(RequireString(env, name, fallback)) == Some(n)
  {
    ParseIntOfPrinted(n, fallback);
  }

  /** The fallback texts of the server and token settings are how those numbers print. */
  lemma PrintedDefaults()
    ensures IntToString(3000) == "3000" && IntToString(30) == "30" && IntToString(3) == "3"
  {
    assert NatToString(300) == "300";
  }

  /** The fallback texts of the timeout and length limits are how those numbers print. */
  lemma PrintedLimits()
    ensures IntToString(30000) == "30000" && IntToString(4000) == "4000" && IntToString(8000) == "8000"
  {
    assert NatToString(30) == "30";
    assert NatToString(300) == "300";
    assert NatToString(3000) == "3000";
    assert NatToString(40) == "40";
    assert NatToString(400) == "400";
    assert NatToString(80) == "80";
    assert NatToString(800) == "800";
  }

  /** With no variable set, the number settings are the documented defaults. */
  lemma DefaultNumbers(env: Env)
    requires env == map[]
    ensures var c := Load(env);
      && c.port == Some(3000) && c.refreshTokenExpiryDays == Some(30)
      && c.maxRetries == Some(3) && c.requestTimeout == Some(30000)
      && c.maxMessageLength == Some(4000) && c.maxContextLength == Some(8000)
  {
    PrintedDefaults();
    PrintedLimits();
    UnsetNumber(env, "PORT", "3000", 3000);
    UnsetNumber(env, "REFRESH_TOKEN_EXPIRY_DAYS", "30", 30);
    UnsetNumber(env, "MAX_RETRIES", "3", 3);
    UnsetNumber(env, "REQUEST_TIMEOUT", "30000", 30000);
    UnsetNumber(env, "MAX_MESSAGE_LENGTH", "4000", 4000);
    UnsetNumber(env, "MAX_CONTEXT_LENGTH", "8000", 8000);
  }

  const RequiredKeys: seq<string> := ["OPENAI_API_KEY", "JWT_ACCESS_SECRET", "JWT_REFRESH_SECRET"]

  /** `!process.env[key]`: absent or empty. */
  predicate Missing(env: Env, key: string)
  {
    key !in env || env[key] == ""
  }

  /** `keys.filter(key => !process.env[key])`. */
  function MissingKeys(env: Env, keys: seq<string>): (m: seq<string>)
    ensures |m| <= |keys|
    ensures forall k :: k in m <==> k in keys && Missing(env, k)
    decreases |keys|
  {
    if |keys| == 0 then []
    else (if Missing(env, keys[0]) then [keys[0]] else []) + MissingKeys(env, keys[1..])
  }

  /** The filter keeps the order of the list: filtering a concatenation concatenates the
      filtered parts. */
  lemma {:induction false} MissingKeysConcat(env: Env, a: seq<string>, b: seq<string>)
    ensures MissingKeys(env, a + b) == MissingKeys(env, a) + MissingKeys(env, b)
    decreases |a|
  {
    if |a| == 0 {
      assert a + b == b;
    } else {
      assert (a + b)[1..] == a[1..] + b;
      MissingKeysConcat(env, a[1..], b);
    }
  }

  /** `validateConfig()`: `Some(message)` when it throws. */
  function ValidateConfig(env: Env): (r: Option<string>)
  {
    var missing := MissingKeys(env, RequiredKeys);
    if |missing| > 0 then Some("Missing required environment variables: " + Join(missing, ", "))
    else None
  }

  /** Validation fails exactly when one of the three required variables is absent or empty. */
  lemma ValidateConfigFailsIffMissing(env: Env)
    ensures ValidateConfig(env).Some? <==> exists k :: k in RequiredKeys && Missing(env, k)
  {
    if exists k :: k in RequiredKeys && Missing(env, k) {
      var k :| k in RequiredKeys && Missing(env, k);
      assert k in MissingKeys(env, RequiredKeys);
    }
  }

  /** The message lists the missing variables in their declared order, comma-separated. */
  lemma ValidateConfigMessage(env: Env)
    ensures ValidateConfig(env).Some? ==>
      ValidateConfig(env).value == "Missing required environment variables: " + Join(
        (if Missing(env, "OPENAI_API_KEY") then ["OPENAI_API_KEY"] else [])
        + (if Missing(env, "JWT_ACCESS_SECRET") then ["JWT_ACCESS_SECRET"] else [])
        + (if Missing(env, "JWT_REFRESH_SECRET") then ["JWT_REFRESH_SECRET"] else []), ", ")
  {
    var r1 := RequiredKeys[1..];
    var r2 := r1[1..];
    assert r1 == ["JWT_ACCESS_SECRET", "JWT_REFRESH_SECRET"];
    assert r2 == ["JWT_REFRESH_SECRET"];
    assert r2[1..] == [];
    var a := if Missing(env, "OPENAI_API_KEY") then ["OPENAI_API_KEY"] else [];
    var b := if Missing(env, "JWT_ACCESS_SECRET") then ["JWT_ACCESS_SECRET"] else [];
    var c := if Missing(env, "JWT_REFRESH_SECRET") then ["JWT_REFRESH_SECRET"] else [];
    assert MissingKeys(env, r2) == c;
    assert MissingKeys(env, r1) == b + c;
    assert MissingKeys(env, RequiredKeys) == a + (b + c);
    assert a + (b + c) == a + b + c;
  }

  /** Start-up: the settings, or the error `validateConfig` throws, which happens only when
      `NODE_ENV` is `production`. */
  function Startup(env: Env): (r: Result<Settings, string>)
    ensures r.Err? <==> Load(env).nodeEnv == "production" && ValidateConfig(env).Some?
  {
    var settings := Load(env);
    if settings.nodeEnv == "production" then
      match ValidateConfig(env)
      case Some(message) => Err(message)
      case None => Ok(settings)
    else Ok(settings)
  }
}
