/**
 * Configuration loading of internal/config/config.go.
 *
 * A Config starts from fixed defaults, is then overridden field by field by
 * a YAML file (only when a path is given), and finally by environment
 * variables. Reading the file, decoding YAML, reading the environment and
 * Go's strconv.ParseBool / strconv.Atoi are inputs to the model: the file
 * system and the decoder are functions, the environment is a map, and the
 * two parsers are partial functions returning None where Go returns an error.
 */
module Configuration {
  import opened Wrappers

  /** Go's `int` on a 64-bit platform. */
  newtype int64 = x: int | -0x8000_0000_0000_0000 <= x < 0x8000_0000_0000_0000

  type byte = bv8

  /** The value of the five configuration fields at one moment. */
  datatype Settings = Settings(serverPort: string, openAIKey: string, anthropicKey: string, debug: bool, timeout: int64)

  /**
   * The decoded YAML document. A key missing from the file decodes to the
   * zero value: "" for strings, 0 for the timeout, false for debug.
   */
  datatype ServerSection = ServerSection(port: string)
  datatype LLMSection = LLMSection(openAIKey: string, anthropicKey: string, timeout: int64)
  datatype FileConfig = FileConfig(server: ServerSection, llm: LLMSection, debug: bool)

  /** Which step of loading the file failed, with the underlying error text. */
  datatype LoadError = ReadFailed(cause: string) | DecodeFailed(cause: string)

  /** NewConfig's only error: loading the named file failed. */
  datatype ConfigError = FileLoadFailed(cause: LoadError)

  type ReadFile = string -> Result<seq<byte>, string>
  type Unmarshal = seq<byte> -> Result<FileConfig, string>
  type Environment = map<string, string>
  type ParseBool = string -> Option<bool>
  type Atoi = string -> Option<int64>

  /** The values NewConfig starts from. */
  const Defaults := Settings("8080", "", "", false, 30)

  /** os.Getenv: an unset variable reads as the empty string. */
  function Getenv(env: Environment, key: string): (value: string)
  {
    if key in env then env[key] else ""
  }

  /** os.ReadFile followed by yaml.Unmarshal; the first failing step decides the error. */
  function ReadConfigFile(filename: string, readFile: ReadFile, unmarshal: Unmarshal): (r: Result<FileConfig, LoadError>)
    ensures readFile(filename).Err? ==> r == Err(ReadFailed(readFile(filename).error))
    ensures readFile(filename).Ok? && unmarshal(readFile(filename).value).Err? ==>
      r == Err(DecodeFailed(unmarshal(readFile(filename).value).error))
    ensures readFile(filename).Ok? && unmarshal(readFile(filename).value).Ok? ==>
      r == Ok(unmarshal(readFile(filename).value).value)
  {
    match readFile(filename)
    case Err(cause) => Err(ReadFailed(cause))
    case Ok(data) =>
      match unmarshal(data)
      case Err(cause) => Err(DecodeFailed(cause))
      case Ok(file) => Ok(file)
  }

  /**
   * The file stage: port and both keys override only when non-empty, the
   * timeout only when positive, and debug always.
   */
  function ApplyFile(s: Settings, f: FileConfig): (r: Settings)
    ensures f.server.port != "" ==> r.serverPort == f.server.port
    ensures f.server.port == "" ==> r.serverPort == s.serverPort
    ensures f.llm.openAIKey != "" ==> r.openAIKey == f.llm.openAIKey
    ensures f.llm.openAIKey == "" ==> r.openAIKey == s.openAIKey
    ensures f.llm.anthropicKey != "" ==> r.anthropicKey == f.llm.anthropicKey
    ensures f.llm.anthropicKey == "" ==> r.anthropicKey == s.anthropicKey
    ensures f.llm.timeout > 0 ==> r.timeout == f.llm.timeout
    ensures f.llm.timeout <= 0 ==> r.timeout == s.timeout
    ensures r.debug == f.debug
  {
    Settings(
      if f.server.port != "" then f.server.port else s.serverPort,
      if f.llm.openAIKey != "" then f.llm.openAIKey else s.openAIKey,
      if f.llm.anthropicKey != "" then f.llm.anthropicKey else s.anthropicKey,
      f.debug,
      if f.llm.timeout > 0 then f.llm.timeout else s.timeout)
  }

  /**
   * The environment stage: PORT, OPENAI_API_KEY and ANTHROPIC_API_KEY
   * override when non-empty; DEBUG and TIMEOUT override when non-empty and
   * parsed successfully. No range check applies to TIMEOUT.
   */
  function ApplyEnv(s: Settings, env: Environment, parseBool: ParseBool, atoi: Atoi): (r: Settings)
    ensures Getenv(env, "PORT") != "" ==> r.serverPort == Getenv(env, "PORT")
    ensures Getenv(env, "PORT") == "" ==> r.serverPort == s.serverPort
    ensures Getenv(env, "OPENAI_API_KEY") != "" ==> r.openAIKey == Getenv(env, "OPENAI_API_KEY")
    ensures Getenv(env, "OPENAI_API_KEY") == "" ==> r.openAIKey == s.openAIKey
    ensures Getenv(env, "ANTHROPIC_API_KEY") != "" ==> r.anthropicKey == Getenv(env, "ANTHROPIC_API_KEY")
    ensures Getenv(env, "ANTHROPIC_API_KEY") == "" ==> r.anthropicKey == s.anthropicKey
    ensures Getenv(env, "DEBUG") != "" && parseBool(Getenv(env, "DEBUG")).Some? ==>
      r.debug == parseBool(Getenv(env, "DEBUG")).value
    ensures Getenv(env, "DEBUG") == "" || parseBool(Getenv(env, "DEBUG")).None? ==> r.debug == s.debug
    ensures Getenv(env, "TIMEOUT") != "" && atoi(Getenv(env, "TIMEOUT")).Some? ==>
      r.timeout == atoi(Getenv(env, "TIMEOUT")).value
    ensures Getenv(env, "TIMEOUT") == "" || atoi(Getenv(env, "TIMEOUT")).None? ==> r.timeout == s.timeout
  {
    var port := Getenv(env, "PORT");
    var openAIKey := Getenv(env, "OPENAI_API_KEY");
    var anthropicKey := Getenv(env, "ANTHROPIC_API_KEY");
    var debug := Getenv(env, "DEBUG");
    var timeout := Getenv(env, "TIMEOUT");
    Settings(
      if port != "" then port else s.serverPort,
      if openAIKey != "" then openAIKey else s.openAIKey,
      if anthropicKey != "" then anthropicKey else s.anthropicKey,
      if debug != "" && parseBool(debug).Some? then parseBool(debug).value else s.debug,
      if timeout != "" && atoi(timeout).Some? then atoi(timeout).value else s.timeout)
  }

  /**
   * The whole of NewConfig on values: defaults, then the file when a path
   * is given (a load failure aborts), then the environment.
   */
  function Resolve(configFile: string, readFile: ReadFile, unmarshal: Unmarshal,
                   env: Environment, parseBool: ParseBool, atoi: Atoi): (r: Result<Settings, ConfigError>)
    ensures configFile == "" ==> r == Ok(ApplyEnv(Defaults, env, parseBool, atoi))
    ensures configFile != "" && ReadConfigFile(configFile, readFile, unmarshal).Err? ==>
      r == Err(FileLoadFailed(ReadConfigFile(configFile, readFile, unmarshal).error))
    ensures configFile != "" && ReadConfigFile(configFile, readFile, unmarshal).Ok? ==>
      r == Ok(ApplyEnv(ApplyFile(Defaults, ReadConfigFile(configFile, readFile, unmarshal).value), env, parseBool, atoi))
  {
    if configFile == "" then
      Ok(ApplyEnv(Defaults, env, parseBool, atoi))
    else
      match ReadConfigFile(configFile, readFile, unmarshal)
      case Err(e) => Err(FileLoadFailed(e))
      case Ok(f) => Ok(ApplyEnv(ApplyFile(Defaults, f), env, parseBool, atoi))
  }

  class Config {
    var serverPort: string
    var openAIKey: string
    var anthropicKey: string
    var debug: bool
    var timeout: int64

    /** The current values of the five fields. */
    function Snapshot(): (s: Settings)
      reads this
    {
      Settings(serverPort, openAIKey, anthropicKey, debug, timeout)
    }

    /** The default configuration built at the start of NewConfig. */
    constructor ()
      ensures Snapshot() == Defaults
    {
      serverPort := "8080";
      openAIKey := "";
      anthropicKey := "";
      debug := false;
      timeout := 30;
    }

    /**
     * Reads and decodes the file, then applies its values. On a read or
     * decode failure the error is returned and no field changes.
     */
    method LoadFromFile(filename: string, readFile: ReadFile, unmarshal: Unmarshal) returns (err: Option<LoadError>)
      modifies this
      ensures ReadConfigFile(filename, readFile, unmarshal).Err? ==>
        err == Some(ReadConfigFile(filename, readFile, unmarshal).error) && Snapshot() == old(Snapshot())
      ensures ReadConfigFile(filename, readFile, unmarshal).Ok? ==>
        err == None && Snapshot() == ApplyFile(old(Snapshot()), ReadConfigFile(filename, readFile, unmarshal).value)
    {
      var data := readFile(filename);
      if data.Err? {
        return Some(ReadFailed(data.error));
      }
      var decoded := unmarshal(data.value);
      if decoded.Err? {
        return Some(DecodeFailed(decoded.error));
      }
      var fileConfig := decoded.value;
      if fileConfig.server.port != "" {
        serverPort := fileConfig.server.port;
      }
      if fileConfig.llm.openAIKey != "" {
        openAIKey := fileConfig.llm.openAIKey;
      }
      if fileConfig.llm.anthropicKey != "" {
        anthropicKey := fileConfig.llm.anthropicKey;
      }
      if fileConfig.llm.timeout > 0 {
        timeout := fileConfig.llm.timeout;
      }
      debug := fileConfig.debug;
      return None;
    }

    /** Applies the environment overrides one field at a time. */
    method LoadFromEnv(env: Environment, parseBool: ParseBool, atoi: Atoi)
      modifies this
      ensures Snapshot() == ApplyEnv(old(Snapshot()), env, parseBool, atoi)
    {
      var value := Getenv(env, "PORT");
      if value != "" {
        serverPort := value;
      }
      value := Getenv(env, "OPENAI_API_KEY");
      if value != "" {
        openAIKey := value;
      }
      value := Getenv(env, "ANTHROPIC_API_KEY");
      if value != "" {
        anthropicKey := value;
      }
      value := Getenv(env, "DEBUG");
      if value != "" {
        var parsed := parseBool(value);
        if parsed.Some? {
          debug := parsed.value;
        }
      }
      value := Getenv(env, "TIMEOUT");
      if value != "" {
        var parsed := atoi(value);
        if parsed.Some? {
          timeout := parsed.value;
        }
      }
    }
  }

  /**
   * NewConfig, with the `-config` flag's value as `configFile`: defaults,
   * then the file if a path was given, then the environment. A file-load
   * failure yields an error and no configuration.
   */
  method NewConfig(configFile: string, readFile: ReadFile, unmarshal: Unmarshal,
                   env: Environment, parseBool: ParseBool, atoi: Atoi)
    returns (config: Config?, err: Option<ConfigError>)
    ensures Resolve(configFile, readFile, unmarshal, env, parseBool, atoi).Err? ==>
      config == null && err == Some(Resolve(configFile, readFile, unmarshal, env, parseBool, atoi).error)
    ensures Resolve(configFile, readFile, unmarshal, env, parseBool, atoi).Ok? ==>
      config != null && fresh(config) && err == None &&
      config.Snapshot() == Resolve(configFile, readFile, unmarshal, env, parseBool, atoi).value
  {
    var c := new Config();
    if configFile != "" {
      var loadErr := c.LoadFromFile(configFile, readFile, unmarshal);
      if loadErr.Some? {
        return null, Some(FileLoadFailed(loadErr.value));
      }
    }
    c.LoadFromEnv(env, parseBool, atoi);
    return c, None;
  }

  /** NewConfig fails exactly when a path is given and loading that file fails. */
  lemma ResolveFailsIffFileLoadFails(configFile: string, readFile: ReadFile, unmarshal: Unmarshal,
                                     env: Environment, parseBool: ParseBool, atoi: Atoi)
    ensures Resolve(configFile, readFile, unmarshal, env, parseBool, atoi).Err? <==>
      configFile != "" && ReadConfigFile(configFile, readFile, unmarshal).Err?
    ensures Resolve(configFile, readFile, unmarshal, env, parseBool, atoi).Err? ==>
      Resolve(configFile, readFile, unmarshal, env, parseBool, atoi).error ==
        FileLoadFailed(ReadConfigFile(configFile, readFile, unmarshal).error)
  {
  }

  /** Without a path the file system and decoder are never consulted. */
  lemma NoPathSkipsFile(readFile1: ReadFile, unmarshal1: Unmarshal, readFile2: ReadFile, unmarshal2: Unmarshal,
                        env: Environment, parseBool: ParseBool, atoi: Atoi)
    ensures Resolve("", readFile1, unmarshal1, env, parseBool, atoi) == Resolve("", readFile2, unmarshal2, env, parseBool, atoi)
    ensures Resolve("", readFile1, unmarshal1, env, parseBool, atoi) == Ok(ApplyEnv(Defaults, env, parseBool, atoi))
  {
  }

  /** With no path and none of the five variables set, the defaults stand. */
  lemma DefaultsWhenNothingGiven(readFile: ReadFile, unmarshal: Unmarshal, parseBool: ParseBool, atoi: Atoi)
    ensures Resolve("", readFile, unmarshal, map[], parseBool, atoi) == Ok(Settings("8080", "", "", false, 30))
  {
  }

  /**
   * Precedence for the string fields: a non-empty environment value wins;
   * otherwise a non-empty file value; otherwise the default.
   */
  lemma PortPrecedence(configFile: string, readFile: ReadFile, unmarshal: Unmarshal,
                       env: Environment, parseBool: ParseBool, atoi: Atoi)
    requires Resolve(configFile, readFile, unmarshal, env, parseBool, atoi).Ok?
    ensures var port := Resolve(configFile, readFile, unmarshal, env, parseBool, atoi).value.serverPort;
      if Getenv(env, "PORT") != "" then port == Getenv(env, "PORT")
      else if configFile != "" && ReadConfigFile(configFile, readFile, unmarshal).value.server.port != "" then
        port == ReadConfigFile(configFile, readFile, unmarshal).value.server.port
      else port == "8080"
  {
  }

  /** The same precedence for the OpenAI key. */
  lemma OpenAIKeyPrecedence(configFile: string, readFile: ReadFile, unmarshal: Unmarshal,
                            env: Environment, parseBool: ParseBool, atoi: Atoi)
    requires Resolve(configFile, readFile, unmarshal, env, parseBool, atoi).Ok?
    ensures var key := Resolve(configFile, readFile, unmarshal, env, parseBool, atoi).value.openAIKey;
      if Getenv(env, "OPENAI_API_KEY") != "" then key == Getenv(env, "OPENAI_API_KEY")
      else if configFile != "" && ReadConfigFile(configFile, readFile, unmarshal).value.llm.openAIKey != "" then
        key == ReadConfigFile(configFile, readFile, unmarshal).value.llm.openAIKey
      else key == ""
  {
  }

  /** The same precedence for the Anthropic key. */
  lemma AnthropicKeyPrecedence(configFile: string, readFile: ReadFile, unmarshal: Unmarshal,
                               env: Environment, parseBool: ParseBool, atoi: Atoi)
    requires Resolve(configFile, readFile, unmarshal, env, parseBool, atoi).Ok?
    ensures var key := Resolve(configFile, readFile, unmarshal, env, parseBool, atoi).value.anthropicKey;
      if Getenv(env, "ANTHROPIC_API_KEY") != "" then key == Getenv(env, "ANTHROPIC_API_KEY")
      else if configFile != "" && ReadConfigFile(configFile, readFile, unmarshal).value.llm.anthropicKey != "" then
        key == ReadConfigFile(configFile, readFile, unmarshal).value.llm.anthropicKey
      else key == ""
  {
  }

  /**
   * Precedence for debug: a parsable DEBUG wins; otherwise a loaded file's
   * value, even false; otherwise the default false.
   */
  lemma DebugPrecedence(configFile: string, readFile: ReadFile, unmarshal: Unmarshal,
                        env: Environment, parseBool: ParseBool, atoi: Atoi)
    requires Resolve(configFile, readFile, unmarshal, env, parseBool, atoi).Ok?
    ensures var debug := Resolve(configFile, readFile, unmarshal, env, parseBool, atoi).value.debug;
      if Getenv(env, "DEBUG") != "" && parseBool(Getenv(env, "DEBUG")).Some? then
        debug == parseBool(Getenv(env, "DEBUG")).value
      else if configFile != "" then debug == ReadConfigFile(configFile, readFile, unmarshal).value.debug
      else !debug
  {
  }

  /**
   * Precedence for the timeout: a parsable TIMEOUT wins, whatever its sign;
   * otherwise a positive file value; otherwise the default 30.
   */
  lemma TimeoutPrecedence(configFile: string, readFile: ReadFile, unmarshal: Unmarshal,
                          env: Environment, parseBool: ParseBool, atoi: Atoi)
    requires Resolve(configFile, readFile, unmarshal, env, parseBool, atoi).Ok?
    ensures var timeout := Resolve(configFile, readFile, unmarshal, env, parseBool, atoi).value.timeout;
      if Getenv(env, "TIMEOUT") != "" && atoi(Getenv(env, "TIMEOUT")).Some? then
        timeout == atoi(Getenv(env, "TIMEOUT")).value
      else if configFile != "" && ReadConfigFile(configFile, readFile, unmarshal).value.llm.timeout > 0 then
        timeout == ReadConfigFile(configFile, readFile, unmarshal).value.llm.timeout
      else timeout == 30
  {
  }

  /**
   * Invariant of defaults and the file stage: the port is never empty and
   * the timeout is always positive. The environment keeps the first but
   * not the second.
   */
  lemma FileStageKeepsPortAndTimeoutValid(s: Settings, f: FileConfig, env: Environment, parseBool: ParseBool, atoi: Atoi)
    requires s.serverPort != "" && s.timeout > 0
    ensures ApplyFile(s, f).serverPort != "" && ApplyFile(s, f).timeout > 0
    ensures ApplyEnv(s, env, parseBool, atoi).serverPort != ""
  {
  }

  /**
   * An environment TIMEOUT that parses to zero or a negative number is
   * accepted: it replaces the current timeout, even a positive one.
   */
  lemma EnvTimeoutHasNoPositivityGuard(s: Settings, env: Environment, parseBool: ParseBool, atoi: Atoi, v: int64)
    requires Getenv(env, "TIMEOUT") != "" && atoi(Getenv(env, "TIMEOUT")) == Some(v) && v <= 0
    ensures ApplyEnv(s, env, parseBool, atoi).timeout == v
    ensures s.timeout > 0 ==> ApplyEnv(s, env, parseBool, atoi).timeout != s.timeout
  {
  }

  /** Re-applying the same file or the same environment changes nothing more. */
  lemma StagesAreIdempotent(s: Settings, f: FileConfig, env: Environment, parseBool: ParseBool, atoi: Atoi)
    ensures ApplyFile(ApplyFile(s, f), f) == ApplyFile(s, f)
    ensures ApplyEnv(ApplyEnv(s, env, parseBool, atoi), env, parseBool, atoi) == ApplyEnv(s, env, parseBool, atoi)
  {
  }
}
