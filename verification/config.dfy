/** Settings read from the process environment (`backend/config.py`). The environment
    is passed in as a map from variable name to value. */
module Config {
  import opened Wrappers
  import opened Text

  type Env = map<string, string>

  datatype Settings = Settings(
    openaiApiKey: Option<string>,
    googleApiKey: Option<string>,
    elevenlabsApiKey: Option<string>,
    obdPort: string,
    obdBaudrate: int,
    debug: bool,
    port: int)

  /** `int(...)` raised on this literal while the settings were being built. */
  datatype ConfigError = InvalidLiteral(literal: string)

  const DefaultObdPort := "COM3"
  const DefaultObdBaudrate := 115200
  const DefaultPort := 8000

  /** `os.getenv(name)`: the value, or `None` when the variable is unset. */
  function Lookup(env: Env, name: string): Option<string>
  {
    if name in env then Some(env[name]) else None
  }

  /** `int(os.getenv(name, default))`: the default itself when unset, else the parsed text. */
  function IntSetting(env: Env, name: string, default: int): (r: Result<int, ConfigError>)
    ensures name !in env ==> r == Ok(default)
    ensures name in env && ParseInt(env[name]).Some? ==> r == Ok(ParseInt(env[name]).value)
    ensures name in env && ParseInt(env[name]).None? ==> r == Err(InvalidLiteral(env[name]))
  {
    if name !in env then Ok(default)
    else match ParseInt(env[name])
      case Some(n) => Ok(n)
      case None => Err(InvalidLiteral(env[name]))
  }

  /** `os.getenv("DEBUG", "false").lower() == "true"` */
  function DebugFlag(env: Env): (r: bool)
    ensures "DEBUG" !in env ==> !r
    ensures "DEBUG" in env ==> (r <==> ToLower(env["DEBUG"]) == "true")
  {
    ToLower(Lookup(env, "DEBUG").UnwrapOr("false")) == "true"
  }

  /** The class attributes in declaration order; the first `int()` that raises aborts the
      whole class body, so OBD_BAUDRATE is reported before PORT. */
  function Load(env: Env): (r: Result<Settings, ConfigError>)
    ensures r.Ok? <==> IntSetting(env, "OBD_BAUDRATE", DefaultObdBaudrate).Ok?
                       && IntSetting(env, "PORT", DefaultPort).Ok?
    ensures IntSetting(env, "OBD_BAUDRATE", DefaultObdBaudrate).Err? ==>
              r.Err? && r.error == IntSetting(env, "OBD_BAUDRATE", DefaultObdBaudrate).error
    ensures IntSetting(env, "OBD_BAUDRATE", DefaultObdBaudrate).Ok? && IntSetting(env, "PORT", DefaultPort).Err? ==>
              r.Err? && r.error == IntSetting(env, "PORT", DefaultPort).error
    ensures r.Ok? ==>
              && r.value.openaiApiKey == Lookup(env, "OPENAI_API_KEY")
              && r.value.googleApiKey == Lookup(env, "GOOGLE_API_KEY")
              && r.value.elevenlabsApiKey == Lookup(env, "ELEVENLABS_API_KEY")
              && r.value.obdPort == (if "OBD_PORT" in env then env["OBD_PORT"] else DefaultObdPort)
              && r.value.debug == DebugFlag(env)
              && r.value.obdBaudrate == IntSetting(env, "OBD_BAUDRATE", DefaultObdBaudrate).value
              && r.value.port == IntSetting(env, "PORT", DefaultPort).value
  {
    match IntSetting(env, "OBD_BAUDRATE", DefaultObdBaudrate)
    case Err(e) => Err(e)
    case Ok(baud) =>
      match IntSetting(env, "PORT", DefaultPort)
      case Err(e) => Err(e)
      case Ok(port) =>
        Ok(Settings(
          Lookup(env, "OPENAI_API_KEY"),
          Lookup(env, "GOOGLE_API_KEY"),
          Lookup(env, "ELEVENLABS_API_KEY"),
          Lookup(env, "OBD_PORT").UnwrapOr(DefaultObdPort),
          baud,
          DebugFlag(env),
          port))
  }

  /** With nothing set, every setting takes its default and the API keys are absent. */
  lemma EmptyEnvironmentDefaults()
    ensures Load(map[]) == Ok(Settings(None, None, None, "COM3", 115200, false, 8000))
  {
  }

  /** The DEBUG test ignores letter case: any spelling that lower-cases to "true" enables it. */
  lemma DebugIgnoresCase(env: Env, v: string)
    ensures DebugFlag(env["DEBUG" := v]) == DebugFlag(env["DEBUG" := ToLower(v)])
  {
    ToLowerIdempotent(v);
  }

  /** "TRUE" enables debugging; "1" does not. */
  lemma DebugExamples(env: Env)
    ensures DebugFlag(env["DEBUG" := "TRUE"])
    ensures !DebugFlag(env["DEBUG" := "1"])
  {
    assert ToLower("TRUE") == "true";
    assert ToLower("1")[0] == '1';
  }

  /** A port written out in decimal is read back as that port. */
  lemma PortRoundTrip(env: Env, p: int)
    requires IntSetting(env, "OBD_BAUDRATE", DefaultObdBaudrate).Ok?
    ensures Load(env["PORT" := IntToString(p)]).Ok?
    ensures Load(env["PORT" := IntToString(p)]).value.port == p
  {
    IntToStringRoundTrip(p);
    var e := env["PORT" := IntToString(p)];
    assert IntSetting(e, "OBD_BAUDRATE", DefaultObdBaudrate) == IntSetting(env, "OBD_BAUDRATE", DefaultObdBaudrate);
  }

  /** A present PORT that is not a decimal literal makes loading fail. */
  lemma NonNumericPortFails(env: Env)
    requires IntSetting(env, "OBD_BAUDRATE", DefaultObdBaudrate).Ok?
    ensures Load(env["PORT" := "abc"]) == Err(InvalidLiteral("abc"))
  {
    var e := env["PORT" := "abc"];
    assert IntSetting(e, "OBD_BAUDRATE", DefaultObdBaudrate) == IntSetting(env, "OBD_BAUDRATE", DefaultObdBaudrate);
    AbcIsNoInt();
    assert IntSetting(e, "PORT", DefaultPort) == Err(InvalidLiteral("abc"));
  }

  lemma AbcIsNoInt()
    ensures ParseInt("abc") == None
  {
    StripUnchanged("abc");
    assert "abc"[0] == 'a' && !IsDigit('a');
    assert ParseSigned("abc") == None;
  }
}
