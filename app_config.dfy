/**
 * The weather API's configuration (cmd/weatherapi/config.go).
 *
 * Every field comes from an environment variable, with a default or as required; the two
 * provider keys must moreover be non-empty. For logging, `masked` replaces the keys by
 * asterisks. Turning text into an integer or a duration is the environment library's
 * business and is a parameter here.
 */
module WeatherApiConfig {
  import opened Wrappers
  import opened Clock

  /** `appConfig`. */
  datatype AppConfig = AppConfig(
    port: int,
    openweatherEndpointURL: string,
    openweatherAPIKey: string,
    weatherstackEndpointURL: string,
    weatherstackAccessKey: string,
    resultTimeout: Duration,
    resultCacheTTL: Duration)

  const Mask: string := "*****"

  /** `masked`: a copy whose non-empty keys read "*****"; empty keys stay empty. */
  function Masked(c: AppConfig): (m: AppConfig)
    ensures m.openweatherAPIKey == (if c.openweatherAPIKey == "" then "" else Mask)
    ensures m.weatherstackAccessKey == (if c.weatherstackAccessKey == "" then "" else Mask)
    ensures m == c.(openweatherAPIKey := m.openweatherAPIKey, weatherstackAccessKey := m.weatherstackAccessKey)
  {
    var m := c.(openweatherAPIKey := if c.openweatherAPIKey != "" then Mask else c.openweatherAPIKey);
    m.(weatherstackAccessKey := if m.weatherstackAccessKey != "" then Mask else m.weatherstackAccessKey)
  }

  /** Masking twice is masking once, and a masked copy shows no key other than "*****". */
  lemma MaskedIdempotent(c: AppConfig)
    ensures Masked(Masked(c)) == Masked(c)
    ensures Masked(c).openweatherAPIKey in {"", Mask} && Masked(c).weatherstackAccessKey in {"", Mask}
  {
  }

  // ---------------------------------------------------------------- loading

  /** A failure of the environment library: a required variable absent, or a value that does not parse. */
  datatype EnvError = MissingRequired(key: string) | Unparsable(key: string, value: string)

  /**
   * Why `loadConfig` failed: the library's error, wrapped as "weatherapi: loading config",
   * or an empty provider key.
   */
  datatype LoadError = LoadingConfig(cause: EnvError) | Required(msg: string)

  const OpenweatherKeyRequired: string := "weatherapi: environment variable OPENWEATHER_API_KEY is required"
  const WeatherstackKeyRequired: string := "weatherapi: environment variable WEATHERTSTACK_ACCESS_KEY is required"

  const DefaultPort: string := "8080"
  const DefaultOpenweatherEndpointURL: string := "http://api.openweathermap.org/data/2.5"
  const DefaultWeatherstackEndpointURL: string := "http://api.weatherstack.com"
  const DefaultResultTimeout: string := "10s"
  const DefaultResultCacheTTL: string := "3s"

  /** An environment variable with a default: its value when set (even empty), the default otherwise. */
  function WithDefault(env: map<string, string>, key: string, default: string): string
  {
    if key in env then env[key] else default
  }

  /** A variable parsed by `parse`, with a default. */
  function Parsed<T>(env: map<string, string>, key: string, default: string, parse: string -> Option<T>): (r: Result<T, EnvError>)
    ensures r.Failure? ==> r.error == Unparsable(key, WithDefault(env, key, default))
  {
    var text := WithDefault(env, key, default);
    match parse(text)
    case Some(v) => Success(v)
    case None => Failure(Unparsable(key, text))
  }

  /**
   * `envconfig.Process` on `appConfig`: the fields in declaration order, the first failure
   * winning; a required variable must be set, though it may be empty.
   */
  function Process(env: map<string, string>, parseInt: string -> Option<int>, parseDuration: string -> Option<Duration>)
    : Result<AppConfig, EnvError>
  {
    var port := Parsed(env, "PORT", DefaultPort, parseInt);
    if port.Failure? then Failure(port.error)
    else if "OPENWEATHER_API_KEY" !in env then Failure(MissingRequired("OPENWEATHER_API_KEY"))
    else if "WEATHERTSTACK_ACCESS_KEY" !in env then Failure(MissingRequired("WEATHERTSTACK_ACCESS_KEY"))
    else
      var timeout := Parsed(env, "RESULT_TIMEOUT", DefaultResultTimeout, parseDuration);
      if timeout.Failure? then Failure(timeout.error)
      else
        var ttl := Parsed(env, "RESULT_CACHE_TTL", DefaultResultCacheTTL, parseDuration);
        if ttl.Failure? then Failure(ttl.error)
        else Success(AppConfig(
          port.value,
          WithDefault(env, "OPENWEATHER_ENDPOINT_URL", DefaultOpenweatherEndpointURL),
          env["OPENWEATHER_API_KEY"],
          WithDefault(env, "WEATHERTSTACK_ENDPOINT_URL", DefaultWeatherstackEndpointURL),
          env["WEATHERTSTACK_ACCESS_KEY"],
          timeout.value,
          ttl.value))
  }

  /** `loadConfig`: the processed configuration, refused when either provider key is empty. */
  function LoadConfig(env: map<string, string>, parseInt: string -> Option<int>, parseDuration: string -> Option<Duration>)
    : Result<AppConfig, LoadError>
  {
    match Process(env, parseInt, parseDuration)
    case Failure(e) => Failure(LoadingConfig(e))
    case Success(c) =>
      if c.openweatherAPIKey == "" then Failure(Required(OpenweatherKeyRequired))
      else if c.weatherstackAccessKey == "" then Failure(Required(WeatherstackKeyRequired))
      else Success(c)
  }

  /**
   * Loading succeeds exactly when the library succeeds and both keys are non-empty; a
   * loaded configuration then has the keys of the environment, so its masked copy shows
   * "*****" for both.
   */
  lemma LoadConfigSucceedsIff(env: map<string, string>, parseInt: string -> Option<int>, parseDuration: string -> Option<Duration>)
    ensures var r := LoadConfig(env, parseInt, parseDuration);
            r.Success? <==> (Process(env, parseInt, parseDuration).Success?
                             && env["OPENWEATHER_API_KEY"] != "" && env["WEATHERTSTACK_ACCESS_KEY"] != "")
    ensures var r := LoadConfig(env, parseInt, parseDuration);
            r.Success? ==> && r.value.openweatherAPIKey == env["OPENWEATHER_API_KEY"]
                           && r.value.weatherstackAccessKey == env["WEATHERTSTACK_ACCESS_KEY"]
                           && Masked(r.value).openweatherAPIKey == Mask && Masked(r.value).weatherstackAccessKey == Mask
  {
  }

  /** The Openweather key is checked first: with both keys empty, its error is the one returned. */
  lemma OpenweatherKeyCheckedFirst(env: map<string, string>, parseInt: string -> Option<int>, parseDuration: string -> Option<Duration>)
    requires Process(env, parseInt, parseDuration).Success?
    requires env["OPENWEATHER_API_KEY"] == ""
    ensures LoadConfig(env, parseInt, parseDuration) == Failure(Required(OpenweatherKeyRequired))
  {
  }

  /**
   * With only the two keys set, and the library parsing the default texts, the
   * configuration is the defaults: port 8080, the two public endpoints, a 10s result
   * timeout and a 3s cache TTL.
   */
  lemma DefaultsApply(env: map<string, string>, parseInt: string -> Option<int>, parseDuration: string -> Option<Duration>)
    requires env.Keys == {"OPENWEATHER_API_KEY", "WEATHERTSTACK_ACCESS_KEY"}
    requires env["OPENWEATHER_API_KEY"] != "" && env["WEATHERTSTACK_ACCESS_KEY"] != ""
    requires parseInt(DefaultPort) == Some(8080)
    requires parseDuration(DefaultResultTimeout) == Some(10 * Second) && parseDuration(DefaultResultCacheTTL) == Some(3 * Second)
    ensures LoadConfig(env, parseInt, parseDuration) ==
              Success(AppConfig(8080, DefaultOpenweatherEndpointURL, env["OPENWEATHER_API_KEY"],
                                DefaultWeatherstackEndpointURL, env["WEATHERTSTACK_ACCESS_KEY"], 10 * Second, 3 * Second))
  {
    assert "PORT" !in env && "RESULT_TIMEOUT" !in env && "RESULT_CACHE_TTL" !in env;
    assert "OPENWEATHER_ENDPOINT_URL" !in env && "WEATHERTSTACK_ENDPOINT_URL" !in env;
  }
}
