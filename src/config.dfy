/**
  Application configuration (internal/config): the defaults, the validation
  rules, the overrides read from environment variables, the overlay of a
  decoded configuration file on the defaults, and the validation guard in
  front of saving. The environment is a map from variable names to values
  (an unset variable reads as ""); file contents arrive already decoded.
 */
module Configuration {
  import opened Wrappers
  import opened Decimal

  datatype Config = Config(
    maxPageSize: int,
    baseURL: string,
    defaultRateLimitDelaySeconds: int,
    kafkaBroker: string,
    kafkaTopic: string,
    timeoutSeconds: int,
    maxRetries: int,
    outputDir: string)

  predicate PageSizeOk(c: Config) { 1 <= c.maxPageSize <= 100 }
  predicate BaseURLOk(c: Config) { c.baseURL != "" }
  predicate DelayOk(c: Config) { c.defaultRateLimitDelaySeconds >= 0 }
  predicate BrokerOk(c: Config) { c.kafkaBroker != "" }
  predicate TopicOk(c: Config) { c.kafkaTopic != "" }
  predicate TimeoutOk(c: Config) { c.timeoutSeconds > 0 }
  predicate RetriesOk(c: Config) { c.maxRetries >= 0 }
  predicate OutputDirOk(c: Config) { c.outputDir != "" }

  /** Every rule a usable configuration meets. */
  predicate ValidConfig(c: Config) {
    && PageSizeOk(c) && BaseURLOk(c) && DelayOk(c) && BrokerOk(c)
    && TopicOk(c) && TimeoutOk(c) && RetriesOk(c) && OutputDirOk(c)
  }

  /** `DefaultConfig`: the built-in settings, which are themselves valid. */
  function DefaultConfig(): (c: Config)
    ensures ValidConfig(c)
    ensures c.maxPageSize == 20 && c.timeoutSeconds == 30 && c.maxRetries == 3
  {
    Config(20, "https://newsapi.org/v2/top-headlines", 60, "localhost:9092", "news_files", 30, 3, "/tmp/news_downloads")
  }

  /**
    `Config.Validate`: no error exactly for a valid configuration; otherwise the
    message of the first rule broken, in the order max_page_size, base_url,
    default_rate_limit_delay_seconds, kafka_broker, kafka_topic,
    timeout_seconds, max_retries, output_dir.
   */
  function Validate(c: Config): (e: Option<string>)
    ensures e.None? <==> ValidConfig(c)
    ensures !PageSizeOk(c) ==>
      e == Some("max_page_size must be between 1 and 100, got " + IntToString(c.maxPageSize))
    ensures PageSizeOk(c) && !BaseURLOk(c) ==> e == Some("base_url cannot be empty")
    ensures PageSizeOk(c) && BaseURLOk(c) && !DelayOk(c) ==>
      e == Some("default_rate_limit_delay_seconds cannot be negative, got " + IntToString(c.defaultRateLimitDelaySeconds))
    ensures PageSizeOk(c) && BaseURLOk(c) && DelayOk(c) && !BrokerOk(c) ==> e == Some("kafka_broker cannot be empty")
    ensures PageSizeOk(c) && BaseURLOk(c) && DelayOk(c) && BrokerOk(c) && !TopicOk(c) ==>
      e == Some("kafka_topic cannot be empty")
    ensures PageSizeOk(c) && BaseURLOk(c) && DelayOk(c) && BrokerOk(c) && TopicOk(c) && !TimeoutOk(c) ==>
      e == Some("timeout_seconds must be positive, got " + IntToString(c.timeoutSeconds))
    ensures PageSizeOk(c) && BaseURLOk(c) && DelayOk(c) && BrokerOk(c) && TopicOk(c) && TimeoutOk(c) && !RetriesOk(c) ==>
      e == Some("max_retries cannot be negative, got " + IntToString(c.maxRetries))
    ensures (PageSizeOk(c) && BaseURLOk(c) && DelayOk(c) && BrokerOk(c) && TopicOk(c) && TimeoutOk(c) && RetriesOk(c)
      && !OutputDirOk(c)) ==> e == Some("output_dir cannot be empty")
  {
    if c.maxPageSize <= 0 || c.maxPageSize > 100 then
      Some("max_page_size must be between 1 and 100, got " + IntToString(c.maxPageSize))
    else if c.baseURL == "" then Some("base_url cannot be empty")
    else if c.defaultRateLimitDelaySeconds < 0 then
      Some("default_rate_limit_delay_seconds cannot be negative, got " + IntToString(c.defaultRateLimitDelaySeconds))
    else if c.kafkaBroker == "" then Some("kafka_broker cannot be empty")
    else if c.kafkaTopic == "" then Some("kafka_topic cannot be empty")
    else if c.timeoutSeconds <= 0 then Some("timeout_seconds must be positive, got " + IntToString(c.timeoutSeconds))
    else if c.maxRetries < 0 then Some("max_retries cannot be negative, got " + IntToString(c.maxRetries))
    else if c.outputDir == "" then Some("output_dir cannot be empty")
    else None
  }

  // ---------------------------------------------------------------------
  // Environment overrides

  /** `parseIntFromEnv`: the empty value and anything `strconv.Atoi` rejects are errors. */
  function ParseIntFromEnv(value: string): (r: Result<int, string>)
    ensures r.Ok? <==> value != "" && Atoi(value).Some?
    ensures r.Ok? ==> r.value == Atoi(value).value && IsIntLiteral(value)
    ensures value == "" ==> r == Err("empty value")
    ensures value != "" && Atoi(value).None? ==> r == Err("invalid integer format")
  {
    if value == "" then Err("empty value")
    else match Atoi(value)
      case None => Err("invalid integer format")
      case Some(v) => Ok(v)
  }

  /** Every int64 printed in decimal reads back through parseIntFromEnv. */
  lemma ParseIntFromEnvRoundTrip(n: int)
    requires Int64Min <= n <= Int64Max
    ensures ParseIntFromEnv(IntToString(n)) == Ok(n)
  {
    AtoiIntToString(n);
  }

  /** The cases of the parsing tests. */
  lemma ParseIntFromEnvExamples()
    ensures ParseIntFromEnv("42") == Ok(42)
    ensures ParseIntFromEnv("0") == Ok(0)
    ensures ParseIntFromEnv("-10") == Ok(-10)
    ensures ParseIntFromEnv("").Err?
    ensures ParseIntFromEnv("not-a-number").Err?
    ensures ParseIntFromEnv("42.5").Err?
  {
    AtoiExamples();
  }

  /** `os.Getenv`: an unset variable reads as the empty string. */
  function Getenv(env: map<string, string>, key: string): string {
    if key in env then env[key] else ""
  }

  /**
    The value an integer variable contributes: its parse when that lies in
    [lo, hi] (no upper bound when `hi` is None), and nothing otherwise.
   */
  function IntSetting(value: string, lo: int, hi: Option<int>): (r: Option<int>)
    ensures r.Some? <==>
      ParseIntFromEnv(value).Ok? && lo <= ParseIntFromEnv(value).value
      && (hi.None? || ParseIntFromEnv(value).value <= hi.value)
    ensures r.Some? ==> r.value == ParseIntFromEnv(value).value && lo <= r.value
  {
    match ParseIntFromEnv(value)
    case Err(_) => None
    case Ok(v) => if lo <= v && (hi.None? || v <= hi.value) then Some(v) else None
  }

  function IntOr(setting: Option<int>, current: int): int {
    if setting.Some? then setting.value else current
  }

  function StringOr(value: string, current: string): string {
    if value != "" then value else current
  }

  /**
    The configuration the environment selects: each integer variable
    overrides its default only when it parses and is in range (page size
    1..100, delay and timeout at least 1, retries at least 0), and each string
    variable only when it is not empty.
   */
  function FromEnv(env: map<string, string>): Config {
    var d := DefaultConfig();
    Config(
      IntOr(IntSetting(Getenv(env, "NEWS_MAX_PAGE_SIZE"), 1, Some(100)), d.maxPageSize),
      StringOr(Getenv(env, "NEWS_BASE_URL"), d.baseURL),
      IntOr(IntSetting(Getenv(env, "NEWS_RATE_LIMIT_DELAY"), 1, None), d.defaultRateLimitDelaySeconds),
      StringOr(Getenv(env, "KAFKA_BROKER"), d.kafkaBroker),
      StringOr(Getenv(env, "KAFKA_TOPIC"), d.kafkaTopic),
      IntOr(IntSetting(Getenv(env, "NEWS_TIMEOUT"), 1, None), d.timeoutSeconds),
      IntOr(IntSetting(Getenv(env, "NEWS_MAX_RETRIES"), 0, None), d.maxRetries),
      StringOr(Getenv(env, "NEWS_OUTPUT_DIR"), d.outputDir))
  }

  /**
    One integer variable: when it is set, parses, and lies in [lo, hi] it
    replaces `current`; otherwise `current` stays.
   */
  method OverrideInt(val: string, current: int, lo: int, hi: Option<int>) returns (v: int)
    ensures v == IntOr(IntSetting(val, lo, hi), current)
  {
    v := current;
    if val != "" {
      var parsed := ParseIntFromEnv(val);
      if parsed.Ok? && parsed.value >= lo && (hi.None? || parsed.value <= hi.value) {
        v := parsed.value;
      }
    }
  }

  /**
    `LoadConfigFromEnv`: start from the defaults and apply each variable in
    turn. The result is the configuration the environment selects, and it
    always passes validation.
   */
  method LoadConfigFromEnv(env: map<string, string>) returns (cfg: Config)
    ensures cfg == FromEnv(env)
    ensures ValidConfig(cfg)
  {
    cfg := DefaultConfig();
    var n := OverrideInt(Getenv(env, "NEWS_MAX_PAGE_SIZE"), cfg.maxPageSize, 1, Some(100));
    cfg := cfg.(maxPageSize := n);
    var val := Getenv(env, "NEWS_BASE_URL");
    if val != "" {
      cfg := cfg.(baseURL := val);
    }
    n := OverrideInt(Getenv(env, "NEWS_RATE_LIMIT_DELAY"), cfg.defaultRateLimitDelaySeconds, 1, None);
    cfg := cfg.(defaultRateLimitDelaySeconds := n);
    val := Getenv(env, "KAFKA_BROKER");
    if val != "" {
      cfg := cfg.(kafkaBroker := val);
    }
    val := Getenv(env, "KAFKA_TOPIC");
    if val != "" {
      cfg := cfg.(kafkaTopic := val);
    }
    n := OverrideInt(Getenv(env, "NEWS_TIMEOUT"), cfg.timeoutSeconds, 1, None);
    cfg := cfg.(timeoutSeconds := n);
    n := OverrideInt(Getenv(env, "NEWS_MAX_RETRIES"), cfg.maxRetries, 0, None);
    cfg := cfg.(maxRetries := n);
    val := Getenv(env, "NEWS_OUTPUT_DIR");
    if val != "" {
      cfg := cfg.(outputDir := val);
    }
    FromEnvValid(env);
  }

  /** Whatever the environment holds, the configuration it selects is valid. */
  lemma FromEnvValid(env: map<string, string>)
    ensures ValidConfig(FromEnv(env))
  {
    var d := DefaultConfig();
    var c := FromEnv(env);
    assert c.maxPageSize == d.maxPageSize || 1 <= c.maxPageSize <= 100;
    assert c.defaultRateLimitDelaySeconds == d.defaultRateLimitDelaySeconds || c.defaultRateLimitDelaySeconds >= 1;
    assert c.timeoutSeconds == d.timeoutSeconds || c.timeoutSeconds >= 1;
    assert c.maxRetries == d.maxRetries || c.maxRetries >= 0;
  }

  /** With none of the variables set the defaults are used unchanged. */
  lemma FromEnvUnset(env: map<string, string>)
    requires forall k :: k in env ==> env[k] == ""
    ensures FromEnv(env) == DefaultConfig()
  {
  }

  lemma ParseValidExamples()
    ensures ParseIntFromEnv("50") == Ok(50) && ParseIntFromEnv("60") == Ok(60) && ParseIntFromEnv("5") == Ok(5)
  {
    assert DigitsValue("50") == 50 by { assert "50"[..1] == "5"; }
    assert DigitsValue("60") == 60 by { assert "60"[..1] == "6"; }
  }

  lemma ParseRejectedExamples()
    ensures ParseIntFromEnv("invalid").Err? && ParseIntFromEnv("not-a-number").Err?
  {
    assert !IsDigit("invalid"[0]);
    AtoiExamples();
  }

  lemma ParseOutOfRangeExamples()
    ensures ParseIntFromEnv("-1") == Ok(-1) && ParseIntFromEnv("-5") == Ok(-5)
    ensures ParseIntFromEnv("150") == Ok(150) && ParseIntFromEnv("0") == Ok(0)
  {
    assert "-1"[1..] == "1";
    assert "-5"[1..] == "5";
    assert DigitsValue("150") == 150 by { assert "150"[..2] == "15"; assert "15"[..1] == "1"; }
  }

  /** The environment test with valid values: each one overrides its default. */
  lemma FromEnvOverrideExample(env: map<string, string>)
    requires Getenv(env, "NEWS_MAX_PAGE_SIZE") == "50" && Getenv(env, "NEWS_TIMEOUT") == "60"
    requires Getenv(env, "NEWS_MAX_RETRIES") == "5" && Getenv(env, "KAFKA_TOPIC") == "custom_topic"
    ensures var c := FromEnv(env);
      c.maxPageSize == 50 && c.timeoutSeconds == 60 && c.maxRetries == 5 && c.kafkaTopic == "custom_topic"
  {
    ParseValidExamples();
  }

  /** The environment tests with unparsable or out-of-range values: the defaults stay. */
  lemma FromEnvFallbackExamples(env1: map<string, string>, env2: map<string, string>)
    requires Getenv(env1, "NEWS_MAX_PAGE_SIZE") == "invalid" && Getenv(env1, "NEWS_TIMEOUT") == "not-a-number"
    requires Getenv(env1, "NEWS_MAX_RETRIES") == "-1"
    requires Getenv(env2, "NEWS_MAX_PAGE_SIZE") == "150" && Getenv(env2, "NEWS_TIMEOUT") == "0"
    requires Getenv(env2, "NEWS_MAX_RETRIES") == "-5"
    ensures var c := FromEnv(env1); c.maxPageSize == 20 && c.timeoutSeconds == 30 && c.maxRetries == 3
    ensures var c := FromEnv(env2); c.maxPageSize == 20 && c.timeoutSeconds == 30 && c.maxRetries == 3
  {
    ParseRejectedExamples();
    ParseOutOfRangeExamples();
  }

  // ---------------------------------------------------------------------
  // Configuration files

  /** A decoded configuration file: the fields it names, each None when absent. */
  datatype ConfigFile = ConfigFile(
    maxPageSize: Option<int>,
    baseURL: Option<string>,
    defaultRateLimitDelaySeconds: Option<int>,
    kafkaBroker: Option<string>,
    kafkaTopic: Option<string>,
    timeoutSeconds: Option<int>,
    maxRetries: Option<int>,
    outputDir: Option<string>)

  /** What reading the file produced: an open or read failure, malformed JSON, or a decoded document. */
  datatype FileRead = OpenFailed(cause: string) | ReadFailed(cause: string) | Malformed(cause: string) | Decoded(file: ConfigFile)

  function Or<T>(o: Option<T>, current: T): T {
    if o.Some? then o.value else current
  }

  /** Decoding onto an existing configuration: fields present in the file replace, absent fields stay. */
  function Overlay(c: Config, f: ConfigFile): (r: Config)
    ensures r.maxPageSize == (if f.maxPageSize.Some? then f.maxPageSize.value else c.maxPageSize)
    ensures r.baseURL == (if f.baseURL.Some? then f.baseURL.value else c.baseURL)
    ensures r.defaultRateLimitDelaySeconds ==
      (if f.defaultRateLimitDelaySeconds.Some? then f.defaultRateLimitDelaySeconds.value else c.defaultRateLimitDelaySeconds)
    ensures r.kafkaBroker == (if f.kafkaBroker.Some? then f.kafkaBroker.value else c.kafkaBroker)
    ensures r.kafkaTopic == (if f.kafkaTopic.Some? then f.kafkaTopic.value else c.kafkaTopic)
    ensures r.timeoutSeconds == (if f.timeoutSeconds.Some? then f.timeoutSeconds.value else c.timeoutSeconds)
    ensures r.maxRetries == (if f.maxRetries.Some? then f.maxRetries.value else c.maxRetries)
    ensures r.outputDir == (if f.outputDir.Some? then f.outputDir.value else c.outputDir)
  {
    Config(
      Or(f.maxPageSize, c.maxPageSize),
      Or(f.baseURL, c.baseURL),
      Or(f.defaultRateLimitDelaySeconds, c.defaultRateLimitDelaySeconds),
      Or(f.kafkaBroker, c.kafkaBroker),
      Or(f.kafkaTopic, c.kafkaTopic),
      Or(f.timeoutSeconds, c.timeoutSeconds),
      Or(f.maxRetries, c.maxRetries),
      Or(f.outputDir, c.outputDir))
  }

  /** The file `SaveConfig` writes for a configuration: every field present. */
  function Encode(c: Config): ConfigFile {
    ConfigFile(Some(c.maxPageSize), Some(c.baseURL), Some(c.defaultRateLimitDelaySeconds), Some(c.kafkaBroker),
               Some(c.kafkaTopic), Some(c.timeoutSeconds), Some(c.maxRetries), Some(c.outputDir))
  }

  /**
    `LoadConfig`: the empty path, an open or read failure and malformed JSON
    are errors; otherwise the file is laid over the defaults and the result is
    returned only if it validates.
   */
  function LoadConfig(filePath: string, read: FileRead): (r: Result<Config, string>)
    ensures r.Ok? <==> filePath != "" && read.Decoded? && ValidConfig(Overlay(DefaultConfig(), read.file))
    ensures r.Ok? ==> r.value == Overlay(DefaultConfig(), read.file) && ValidConfig(r.value)
    ensures filePath == "" ==> r == Err("config file path cannot be empty")
  {
    if filePath == "" then Err("config file path cannot be empty")
    else match read
      case OpenFailed(cause) => Err("failed to open config file '" + filePath + "': " + cause)
      case ReadFailed(cause) => Err("failed to read config file '" + filePath + "': " + cause)
      case Malformed(cause) => Err("failed to unmarshal config JSON from '" + filePath + "': " + cause)
      case Decoded(file) =>
        var cfg := Overlay(DefaultConfig(), file);
        match Validate(cfg)
        case Some(e) => Err("invalid configuration in '" + filePath + "': " + e)
        case None => Ok(cfg)
  }

  /** What `SaveConfig` did: the error it returned and whether it wrote the file. */
  datatype SaveOutcome = SaveOutcome(err: Option<string>, written: Option<ConfigFile>)

  /**
    `SaveConfig`: an invalid configuration is refused before anything is
    written; a valid one is written in full, and the write may fail with
    `writeErr`.
   */
  function SaveConfig(c: Config, filePath: string, writeErr: Option<string>): (r: SaveOutcome)
    ensures !ValidConfig(c) ==> r.written.None? && r.err == Some("cannot save invalid config: " + Validate(c).value)
    ensures ValidConfig(c) ==> r.written == Some(Encode(c))
    ensures ValidConfig(c) ==> (r.err.None? <==> writeErr.None?)
  {
    match Validate(c)
    case Some(e) => SaveOutcome(Some("cannot save invalid config: " + e), None)
    case None =>
      match writeErr
      case Some(cause) => SaveOutcome(Some("failed to write config to file '" + filePath + "': " + cause), Some(Encode(c)))
      case None => SaveOutcome(None, Some(Encode(c)))
  }

  /** A configuration saved without error loads back unchanged. */
  lemma SaveLoadRoundTrip(c: Config, filePath: string)
    requires filePath != ""
    requires SaveConfig(c, filePath, None).err.None?
    ensures LoadConfig(filePath, Decoded(SaveConfig(c, filePath, None).written.value)) == Ok(c)
  {
    assert ValidConfig(c);
    assert Overlay(DefaultConfig(), Encode(c)) == c;
  }

  /** An empty file leaves the defaults, and loading it succeeds. */
  lemma LoadEmptyFile(filePath: string)
    requires filePath != ""
    ensures LoadConfig(filePath, Decoded(ConfigFile(None, None, None, None, None, None, None, None))) == Ok(DefaultConfig())
  {
  }

  /** The file tests: a partial file merges with the defaults; out-of-range values are refused. */
  lemma LoadConfigExamples()
    ensures var r := LoadConfig("config.json", Decoded(ConfigFile(Some(75), None, None, None, Some("custom_topic"), None, None, None)));
      r.Ok? && r.value.maxPageSize == 75 && r.value.kafkaTopic == "custom_topic" && r.value.timeoutSeconds == 30
    ensures LoadConfig("config.json", Decoded(ConfigFile(Some(150), Some(""), None, None, None, Some(-1), None, None))).Err?
    ensures LoadConfig("config.json", Malformed("invalid character")).Err?
  {
  }

  /** The save test: a configuration with page size 150 and no base URL is refused and nothing is written. */
  lemma SaveInvalidExample()
    ensures var r := SaveConfig(Config(150, "", 0, "", "", 0, 0, ""), "invalid_config.json", None);
      r.written.None? && r.err.Some?
      && |r.err.value| >= 27 && r.err.value[..27] == "cannot save invalid config:"
  {
    var e := Validate(Config(150, "", 0, "", "", 0, 0, "")).value;
    assert ("cannot save invalid config: " + e)[..27] == "cannot save invalid config:";
  }
}
