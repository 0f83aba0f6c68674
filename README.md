# weather_example in Dafny

A model of the weather API service by byatesrae. The service answers `GET /weather?city=Sydney`
with a wind speed and temperature summary. A coordinator gets that summary from a prioritised
list of weather providers. It caches the result for a short TTL and serves a stale result when
every provider fails. The model covers:

- `ProviderQuery` (provider_query.dfy): the coordinator (`Queryer`). This covers its
  construction options, how it reads the cache, the first-success pass over the providers,
  the freshness check, the stale fallback and the cache write.
- `MemoryCache` (memory_cache.dfy): the in-memory cache behind the coordinator. It is a
  class whose `values` map is updated in place by `Set`.
- `HandlerMap` (handler_map.dfy): the keyed HTTP handler registry (`Map`). It covers
  `Register`, the cleanup closure and the dispatch rule of `mustLoadHandler`.
- `StartupConfig` (startup_config.dfy): flag and environment-variable start-up
  configuration. It covers `Parse`, the usage text, `FlagError` and the default mapping from
  a flag name to an environment variable name.
- `OtelMetrics` (otel_metrics.dfy): the metrics middleware. It covers the set-up errors, the
  in-progress request counter (a class), the response recorder (a class) and the measurement
  recorded per request.
- `WeatherHandler` (weather_handler.dfy): the `/weather` handler. It maps each request to the
  operations it performs on the response writer.
- `WeatherApiConfig` (app_config.dfy): the application configuration, its loading rules and
  its masked copy for logging.
- Shared helpers: `Wrappers` (Option and Result), `Clock` (instants, the two clocks) and
  `GoText` (Go's `%q` quoting).

Collaborators that perform I/O are parameters:

- the cache's answer to `Get`;
- what each provider would answer;
- the wall-clock reading;
- the point at which the refresh context is done;
- the outcome of parsing the command line, and of setting a flag;
- the environment;
- the integer and duration parsers of the environment library;
- the calls a handler makes on the response writer.

Where the code and the repository's own tests or comments disagree, the model follows the
code. The cases are noted below.

## Model

| member | source | states |
|---|---|---|
| GoText.Quote | internal/platform/startupconfig/config.go:157 | `%q` output starts and ends with a double quote |
| GoText.QuoteRoundTrip | internal/platform/startupconfig/config.go:157 | the text between the quotes is the escaped input, and unescaping it gives back the input |
| GoText.UnescapeEscape | internal/platform/startupconfig/config.go:157 | escaping loses nothing: reading the escaped text back (a backslash takes the next character literally) gives the original |
| GoText.EscapeAppend | internal/platform/startupconfig/config.go:157 | escaping works character by character, so it distributes over concatenation |
| GoText.EscapeChar | internal/platform/startupconfig/config.go:157 | a double quote and a backslash each become a backslash followed by the character; every other character is kept |
| GoText.EscapePlain | internal/platform/startupconfig/config.go:157 | text without quotes or backslashes is quoted unchanged between the quotes |
| MemoryCache.GetUnsetKey | internal/memorycache/memorycache.go:35-38 | a key never set answers a nil value, the zero time and no error |
| MemoryCache.SetThenGet | internal/memorycache/memorycache.go:45-53 | Get after Set(k, v, e) answers exactly (v, e) with no error |
| MemoryCache.SetTwiceLastWins | internal/memorycache/memorycache.go:49-50 | a second Set on a key replaces the first value and expiry |
| MemoryCache.SetLeavesOtherKeys | internal/memorycache/memorycache.go:50 | Set on one key does not change what Get answers for any other key |
| MemoryCache.GetNeverFails | internal/memorycache/memorycache.go:31-41 | Get never reports an error; it reports a value exactly when the key was set (no eviction) |
| MemoryCache.MemoryCache.constructor | internal/memorycache/memorycache.go:24-28 | a new cache holds no entry |
| MemoryCache.MemoryCache.Get | internal/memorycache/memorycache.go:31-41 | the stored value and expiry, whatever the expiry; nil and the zero time for an unset key; no error |
| MemoryCache.MemoryCache.Set | internal/memorycache/memorycache.go:45-53 | the map afterwards is the old map with (val, expiry) under key, and nothing else changed; no error |
| ProviderQuery.NoTTLOverrideKeepsTTL | internal/providerquery/queryer.go:83-90 | without a `WithResultCacheTTL` override the TTL keeps its default |
| ProviderQuery.LastTTLOverrideWins | internal/providerquery/queryer.go:74-90 | overrides apply in order, so the last `WithResultCacheTTL` decides the TTL |
| ProviderQuery.NoClockOverrideKeepsClock | internal/providerquery/queryer.go:83-90 | without a `withClock` override the clock stays the wall clock |
| ProviderQuery.LastClockOverrideWins | internal/providerquery/queryer.go:67-90 | the last `withClock` override decides the clock |
| ProviderQuery.New | internal/providerquery/queryer.go:81-102 | the providers as given; cache timeout 2s, provider timeout 3s, result timeout 10s; clock and TTL are the defaults (wall clock, 3s) after the overrides in order |
| ProviderQuery.CachedResult | internal/providerquery/queryer.go:141-164 | a cached result exists if and only if the cache returned a non-nil value, and it carries the expiry the cache reported; CacheErrorIgnored and CachedResultRoundTrip state the rest |
| ProviderQuery.WriteFor | internal/providerquery/queryer.go:203-215 | the cache write for a result; CachedResultRoundTrip proves it reads back as that result |
| ProviderQuery.QueryProvider | internal/providerquery/queryer.go:183-201 | a step fails if and only if the context is done or the provider errs; a summary is returned only from a provider that was called and did not err, and it is that provider's summary |
| ProviderQuery.ReadSpec | internal/providerquery/queryer.go:106-139 | the four cases of one read; FreshEntryServed, RefreshExactlyWhenStale, RefreshSuccess, RefreshFailureFallsBack and ResultXorError state them |
| ProviderQuery.CacheErrorIgnored | internal/providerquery/queryer.go:145-158 | the cached result does not depend on the cache's error; a nil cached value is a miss |
| ProviderQuery.CachedResultRoundTrip | internal/providerquery/queryer.go:203-210 | an entry written by `cacheWeatherResult` is read back as the same result (summary, creation time, expiry) |
| ProviderQuery.FirstSuccessFrom | internal/providerquery/queryer.go:169-178 | the answer is the first provider reached before the context is done that answers a summary without error; none when no such provider exists |
| ProviderQuery.QueryAllProviders | internal/providerquery/queryer.go:166-201 | on success, the first successful provider's summary, no error, and exactly the providers up to it were called, in order; otherwise "no successful provider responses", and only the providers reached before the context was done were called |
| ProviderQuery.ReadWeatherResult | internal/providerquery/queryer.go:106-139 | the result, the error, the cache write and the providers called are those of the four-case read specification |
| ProviderQuery.FreshEntryServed | internal/providerquery/queryer.go:111 | a cached entry the clock is not after (now == expiry counts as fresh) is returned unchanged, with no provider called and no write |
| ProviderQuery.RefreshExactlyWhenStale | internal/providerquery/queryer.go:111 | with at least one provider and a context not done before the first call, providers are called if and only if nothing is cached or the clock is strictly after the cached expiry |
| ProviderQuery.RefreshSuccess | internal/providerquery/queryer.go:126-134 | a successful refresh returns {summary, now, now + TTL} and writes that summary and `now` under the constant key with that expiry, whatever the city |
| ProviderQuery.RefreshFailureFallsBack | internal/providerquery/queryer.go:120-125 | a failed refresh serves the cached entry, even an expired one, without error; with nothing cached it fails with "no cached result to fall back on"; it writes nothing |
| ProviderQuery.ResultXorError | internal/providerquery/queryer.go:106-139 | every read returns exactly one of a result and an error |
| ProviderQuery.AllFailingMeansNoSuccess | internal/providerquery/queryer.go:169-180 | when every provider fails or answers nil, no refresh succeeds |
| ProviderQuery.FirstSuccessWinsExample | internal/providerquery/queryer.go:169-178 | a failing first provider is skipped; the second, succeeding, wins after calls to the first and then the second |
| ProviderQuery.DoneContextStopsCalls | internal/providerquery/queryer.go:188-190 | no provider at or after the point where the context is done is ever called |
| ProviderQuery.WrittenResultReadBack | internal/providerquery/queryer.go:203-215 | after a new result's write lands in the memory cache, a read no later than its expiry serves that result unchanged and calls no provider |
| ProviderQuery.ThreeReadScenario | internal/providerquery/queryer.go:106-139 | with a 1s TTL: a first read refreshes; a read 0.5s later is served from the cache; a read 2s later, with the provider failing, serves the stale result without error |
| ProviderQuery.ReadThroughMemoryCache | internal/providerquery/queryer.go:106-164 | a read through a memory cache object returns the read specification's result and error, and leaves the cache holding exactly what the read's write stored |
| HandlerMap.MustLoadHandler | internal/httphandlermap/map.go:57-78 | it panics if and only if there is a key generator, no default handler and the generated key is unregistered; it is a no-op if and only if there is neither a key generator nor a default; the Dispatch lemmas give the handler in every case |
| HandlerMap.RegisterSpec | internal/httphandlermap/map.go:44-54 | the outcome of Register on given registrations; RegisterUnusedKey, RegisterKeyInUse and CleanupFreesKey state it |
| HandlerMap.CleanupSpec | internal/httphandlermap/map.go:51-53 | the registrations after the cleanup; CleanupFreesKey proves it restores those from before Register |
| HandlerMap.RegisterUnusedKey | internal/httphandlermap/map.go:44-54 | Register on an unused key stores the handler, keeps every other registration and returns a cleanup and no error |
| HandlerMap.RegisterKeyInUse | internal/httphandlermap/map.go:45-47 | Register on a key in use fails with "already in use" and a nil cleanup, and changes nothing |
| HandlerMap.CleanupFreesKey | internal/httphandlermap/map.go:51-53 | a second Register on the same key fails; after the cleanup the registrations are those from before, and the key can be registered again |
| HandlerMap.DispatchWithoutKeyGen | internal/httphandlermap/map.go:58-64 | without a key generator the default handler serves, or a no-op when there is none; there is no panic |
| HandlerMap.DispatchRegisteredKey | internal/httphandlermap/map.go:66-77 | a registered generated key is served by exactly its handler, never by the default |
| HandlerMap.DispatchUnregisteredKey | internal/httphandlermap/map.go:68-75 | an unregistered generated key is served by the default handler, or panics naming the key when there is no default |
| HandlerMap.DistinctKeysIndependent | internal/httphandlermap/map_test.go:29-60 | registrations under "handler1", a nil `*int` and an untyped nil are independent, and each generated key reaches its own handler |
| HandlerMap.HandlerMap.constructor | internal/httphandlermap/map.go:14-28 | the zero-value map has no key generator, no default handler and no registration |
| HandlerMap.HandlerMap.Register | internal/httphandlermap/map.go:44-54 | the new registrations, the cleanup and the error are those of the register specification |
| HandlerMap.HandlerMap.RunCleanup | internal/httphandlermap/map.go:51-53 | the cleanup deletes its key and nothing else |
| HandlerMap.HandlerMap.ServeHTTP | internal/httphandlermap/map.go:33-35 | without a key generator the default handler serves, or nothing; a registered generated key is served by its own handler; any other key by the default handler, or it panics naming the key |
| StartupConfig.DefaultEnvVarName | internal/platform/startupconfig/config.go:175-177 | the default mapping; DefaultEnvVarNameAt and ReplaceSeparatorsAppend state what it does per character |
| StartupConfig.FlagNameToEnvVarName | internal/platform/startupconfig/config.go:168-178 | the custom mapping when the parser has one, the default mapping otherwise |
| StartupConfig.ReplaceSeparatorsAt | internal/platform/startupconfig/config.go:175 | the replacer keeps the length and turns each '-', '.' and '/' into '_' |
| StartupConfig.ToUpperAt | internal/platform/startupconfig/config.go:177 | upper-casing keeps the length and maps each ASCII lower-case letter to its upper case |
| StartupConfig.DefaultEnvVarNameAt | internal/platform/startupconfig/config.go:168-178 | the default variable name maps the flag name character by character, so it holds no separator and no lower-case ASCII letter |
| StartupConfig.ReplaceSeparatorsAppend | internal/platform/startupconfig/config.go:175 | the replacer distributes over concatenation |
| StartupConfig.EnvStep | internal/platform/startupconfig/config.go:41-64 | one visit of the environment pass; the lemmas on EnvPass state its effect |
| StartupConfig.EnvPass | internal/platform/startupconfig/config.go:41-64 | the environment pass over the flags in order; CommandLineWins, NoVariableKeepsValue, EnvFillsUnsetFlag and FirstErrorAborts state it |
| StartupConfig.Parse | internal/platform/startupconfig/config.go:30-71 | a command-line failure is returned wrapped and nothing is looked up; otherwise the values set, the variables looked up and the error are those of the environment pass over the flags not set on the command line, and the error is wrapped |
| StartupConfig.CommandLineWins | internal/platform/startupconfig/config.go:46-48 | a flag set on the command line is never set from the environment |
| StartupConfig.NoVariableKeepsValue | internal/platform/startupconfig/config.go:50-58 | a flag whose variable name is empty, or whose variable is absent, is not set from the environment |
| StartupConfig.EnvFillsUnsetFlag | internal/platform/startupconfig/config.go:46-63 | a flag not set on the command line, with a non-empty variable name that is present and a value the flag accepts, is set to that variable's text when the pass succeeds (environment over default) |
| StartupConfig.NameNotAssignedBefore | internal/platform/startupconfig/config.go:41-64 | the pass sets values only under the names of the flags it visits |
| StartupConfig.FirstErrorAborts | internal/platform/startupconfig/config.go:42-44 | once a set fails, no later flag is looked up or set, and the first error is kept |
| StartupConfig.FailingFirstFlagStopsPass | internal/platform/startupconfig/parser_test.go:226-240 | a first flag whose value fails to set fails the pass with the wrapped setter error, and the second flag's variable is never looked up |
| StartupConfig.UsageLine | internal/platform/startupconfig/config.go:124-166 | one flag's usage line; DefaultShownRule, EnvHintRule and IndentUsageNoNewline state its parts |
| StartupConfig.ZeroError | internal/platform/startupconfig/config.go:205-223 | an error is reported if and only if the zero value of the flag's type cannot be determined |
| StartupConfig.FPrintUsage | internal/platform/startupconfig/config.go:124-166 | the line built piece by piece is the flag's usage line (name, type, usage, variable hint, default, newline); the error is the zero-check error |
| StartupConfig.Usage | internal/platform/startupconfig/config.go:78-103 | the output is the header, every flag's usage line in order, then the zero-check errors after an empty line |
| StartupConfig.PrintFlagUsages | internal/platform/startupconfig/config.go:88-93 | the `VisitAll` pass collects every usage line and every zero-check error, in flag order |
| StartupConfig.PrintErrors | internal/platform/startupconfig/config.go:98-100 | each collected error is printed on its own line, in order |
| StartupConfig.EmptyFlagSetUsage | internal/platform/startupconfig/config.go:82-86 | a flag set without flags prints "Usage:\n" when unnamed and "Usage of <name>:\n" when named |
| StartupConfig.ErrorBlockIffUndetermined | internal/platform/startupconfig/config.go:95-101 | the error block appears if and only if some flag's zero check is undeterminable |
| StartupConfig.DefaultShownRule | internal/platform/startupconfig/config.go:155-161 | the default is shown if and only if the flag is bool or its default is not known to be zero; a string default is `%q`-quoted |
| StartupConfig.EnvHintRule | internal/platform/startupconfig/config.go:144-149 | the variable hint appears if and only if the variable name is not empty |
| StartupConfig.LookupFlag | internal/platform/startupconfig/config.go:112 | the found flag carries the name; when nothing is found, no flag carries it |
| StartupConfig.FlagError | internal/platform/startupconfig/config.go:111-122 | an unknown flag gives `flag "<name>" does not exist` and no output; otherwise "error with flag -<name>: <err>" is output and returned, followed in the output by that flag's usage line |
| StartupConfig.IndentUsageNoNewline | internal/platform/startupconfig/config.go:141 | usage text without a newline is printed unchanged |
| OtelMetrics.SetupError | internal/otelmetrics/metrics.go:72-121 | no error if and only if every instrument and the callback were created |
| OtelMetrics.FirstSetupFailureReported | internal/otelmetrics/metrics.go:72-121 | for each of the five steps in creation order: when it is the first to fail, its error wrapped with what it was creating is returned, whatever fails later |
| OtelMetrics.Wrap64 | internal/otelmetrics/metrics.go:161 | the `int64` value lies in [-2^63, 2^63) and is congruent to the exact value modulo 2^64 |
| OtelMetrics.WrapAdd | internal/otelmetrics/metrics.go:168 | wrapping after every addition equals wrapping the exact total once |
| OtelMetrics.AsWrittenStep | internal/otelmetrics/metrics.go:164-176 | one call on the recorder as written; AsWrittenRecordsOkAfterError and AsWrittenCountsBytes state its effect |
| OtelMetrics.RecordAsWritten | internal/otelmetrics/metrics.go:157-176 | the as-written record after the handler's calls, from the zero value |
| OtelMetrics.RecordCorrected | internal/otelmetrics/metrics.go:157-176 | the corrected record; CorrectedRecordsSentResponse proves it is the sent status and the bytes written |
| OtelMetrics.AsWrittenRecordsOkAfterError | internal/otelmetrics/metrics.go:164-176 | as written, a 500 status followed by a body is recorded as 200, although 500 was sent |
| OtelMetrics.AsWrittenRecordsZeroWithoutWrites | internal/otelmetrics/metrics.go:158-162 | as written, a handler that writes nothing is recorded with status 0, although 200 is sent |
| OtelMetrics.CorrectedRecordsSentResponse | internal/otelmetrics/metrics.go:157-176 | the corrected recorder records the status the client receives and the `int64` total of the bytes written |
| OtelMetrics.AsWrittenCountsBytes | internal/otelmetrics/metrics.go:164-171 | the recorder as written counts the bytes written as an `int64` total |
| OtelMetrics.RwRecorder.constructor | internal/otelmetrics/metrics.go:137 | the zero-value recorder: status 0, count 0, nothing forwarded |
| OtelMetrics.RwRecorder.Write | internal/otelmetrics/metrics.go:164-171 | every write sets the status to 200, is forwarded, and adds the written count to the `int64` total; the written count is returned |
| OtelMetrics.RwRecorder.WriteHeader | internal/otelmetrics/metrics.go:173-176 | every code overwrites the recorded status and is forwarded |
| OtelMetrics.CorrectedRwRecorder.constructor | internal/otelmetrics/metrics.go:137 | corrected recorder: status 200 until the handler's first call, count 0, nothing forwarded |
| OtelMetrics.CorrectedRwRecorder.Write | internal/otelmetrics/metrics.go:164-171 | corrected recorder: the bytes are forwarded and counted; a write fixes the status at 200 only if it is the first call |
| OtelMetrics.CorrectedRwRecorder.WriteHeader | internal/otelmetrics/metrics.go:173-176 | corrected recorder: the code is forwarded, and it becomes the recorded status only if it is the first call |
| OtelMetrics.RequestCounter.constructor | internal/otelmetrics/metrics.go:191-195 | a new counter holds no key |
| OtelMetrics.RequestCounter.Add | internal/otelmetrics/metrics.go:197-204 | the key's count (0 when absent) grows by i; the other keys are unchanged |
| OtelMetrics.RequestCounter.Get | internal/otelmetrics/metrics.go:206-219 | the copy built entry by entry equals the counts |
| OtelMetrics.AddThenSubtract | internal/otelmetrics/metrics.go:132-135 | adding then subtracting the same amount restores the key's count |
| OtelMetrics.ServeWithMetrics | internal/otelmetrics/metrics.go:123-153 | with the corrected recorder: while the handler runs its key counts one more request in progress, and afterwards the count is as before; the writer receives exactly the handler's calls; the measurement carries the protocol, the sent status, the method and path, the bytes written and a count of 1 |
| OtelMetrics.ServeWithMetricsAsWritten | internal/otelmetrics/metrics.go:123-153 | as written: the same in-progress bracket, forwarding and byte count, but the measurement carries the as-written recorder's status (200 after any write, 0 when nothing is written) |
| WeatherHandler.ErrorResponse | cmd/weatherapi/handlers/weather.go:77-86 | the error response's operations; ErrorResponseReceived states what the client receives |
| WeatherHandler.SuccessResponse | cmd/weatherapi/handlers/weather.go:62-73 | the success response's operations; SuccessResponseReceived states what the client receives |
| WeatherHandler.Handle | cmd/weatherapi/handlers/weather.go:30-74 | the service is asked if and only if the city is Sydney; nothing is written if and only if the service was asked and answered neither a result nor an error |
| WeatherHandler.ErrorResponseReceived | cmd/weatherapi/handlers/weather.go:77-86 | an error response sends the given status, one JSON error body and the JSON content type |
| WeatherHandler.SuccessResponseReceived | cmd/weatherapi/handlers/weather.go:62-73 | a success response sends 200, the summary as its one body, and exactly the four headers (content type, public caching, last modified at creation, expiring at the expiry) |
| WeatherHandler.HeadersSnoc | cmd/weatherapi/handlers/weather.go:63-66 | each header `Set` replaces that header's value and leaves the others |
| WeatherHandler.MissingCity | cmd/weatherapi/handlers/weather.go:31-36 | with no "city" parameter, or an empty one, the answer is 400 "Missing parameter" and the service is not asked |
| WeatherHandler.UnsupportedCity | cmd/weatherapi/handlers/weather.go:38-47 | any city but Sydney gets 400 naming the city, and the service is not asked |
| WeatherHandler.ServiceErrorIs500 | cmd/weatherapi/handlers/weather.go:52-60 | for Sydney, a service error without a result gets 500 "Woops, something went wrong." |
| WeatherHandler.ServiceResultIs200 | cmd/weatherapi/handlers/weather.go:62-73 | for Sydney, a result without an error gets 200, the summary and the expiry header |
| WeatherHandler.QueryerBehindHandler | cmd/weatherapi/handlers/weather.go:52-73 | behind the coordinator, the missing `return` never writes two responses: the client gets 500 exactly when the read fails, and the result otherwise |
| WeatherHandler.ServiceErrorMetrics | cmd/weatherapi/handlers/weather.go:77-86 | a handler that writes the 500 error response, if served behind the metrics middleware, makes a 500 call then a body write; the recorder as written records 200 and the corrected recorder records 500 |
| WeatherApiConfig.Masked | cmd/weatherapi/config.go:35-47 | non-empty keys read "*****" and empty keys stay empty; every other field is unchanged |
| WeatherApiConfig.MaskedIdempotent | cmd/weatherapi/config.go:35-47 | masking twice is masking once; a masked key is either empty or "*****" |
| WeatherApiConfig.Parsed | cmd/weatherapi/config.go:14 | a value that does not parse fails, naming the variable and the text read (the default when the variable is unset) |
| WeatherApiConfig.Process | cmd/weatherapi/config.go:11-33 | the environment library on `appConfig`: fields in declaration order, the first failure winning; DefaultsApply states the defaults |
| WeatherApiConfig.LoadConfig | cmd/weatherapi/config.go:49-65 | the loading rules; LoadConfigSucceedsIff and OpenweatherKeyCheckedFirst state them |
| WeatherApiConfig.LoadConfigSucceedsIff | cmd/weatherapi/config.go:49-65 | loading succeeds if and only if the library succeeds and both keys are non-empty; the loaded keys are the environment's, and both are masked |
| WeatherApiConfig.OpenweatherKeyCheckedFirst | cmd/weatherapi/config.go:56-58 | with an empty Openweather key, that key's error is returned, whatever the other key holds |
| WeatherApiConfig.DefaultsApply | cmd/weatherapi/config.go:11-33 | with only the two keys set: port 8080, the two public endpoints, a 10s result timeout and a 3s cache TTL |

## Left out

- Single-flight deduplication of concurrent refreshes, the mutexes and every other form of
  concurrency are not modelled. Each read is modelled on its own.
- ReadWeatherResult: the refresh timeout and the per-provider timeout are not modelled. The
  only context effect modelled is the provider index from which the context is done. A
  provider that hangs shows up as a failing provider.
- ReadThroughMemoryCache: the source stores the new result in a background goroutine and
  ignores its error. The model performs the write synchronously after the read. The returned
  result never depends on the write, but the model does not capture a later read overtaking
  the write.
- Logging (`log.Printf`, the logger fields) is not modelled, because it has no effect on results.
- The provider adapters (Openweather, Weatherstack), their HTTP clients and JSON decoding are
  not part of this model. A provider is only what it answers.
- The server lifecycle in cmd/weatherapi/main.go, the health handler and the platform/config
  package are not part of this model.
- `cloneRequest` in the handler map is not modelled: the key generator is a function of the
  request.
- The `flag` package is a parameter of `StartupConfig`: the command-line parse outcome, each
  flag's type name, kind, default text and zero check, and the outcome of setting a value.
  The reflection in `isZeroValue` is given as the flag's `zero` field.
- DefaultEnvVarName: `strings.ToUpper` is modelled on ASCII letters only. Non-ASCII letters are kept unchanged.
- Quote: only '"' and '\' are escaped. Go's `%q` also escapes control and non-printable characters, which the model keeps as they are.
- FlagError: the source passes the message to `fmt.Errorf` as a format string, so a '%' in the
  flag name or error text would be reinterpreted. The model returns the message as is.
- UsageLine: the model follows the code, which always writes the usage separator. For a
  flag with empty usage this yields an empty indented line before the variable hint.
  The repository's usage tests expect no such line.
- The OpenTelemetry instruments, the request-duration histogram and its clock, and the
  gauge callback's registration are not modelled. What would be recorded is returned as a
  `Measurement`, and the gauge's view is the `observed` counts.
- ServeWithMetrics: the in-progress counts are observed once, after the handler's calls and
  before the decrement. A callback may run at any other moment; this is not modelled.
- RequestCounter.Add: Go `int` overflow of a count is not modelled; counts are unbounded integers.
- ServeWithMetrics: the recorder used is the corrected one (see Findings).
  `OtelMetrics.ServeWithMetricsAsWritten` is the middleware with the recorder as written.
- Two type-assertion panics are not modelled. Handlers are non-nil by type, so `Register(key, nil)` followed by a dispatch that panics is out of scope. The cache is assumed to hold only the coordinator's own entries, so `previousWeather.(resultCacheEntry)` never fails.
- Informational `WriteHeader` codes (1xx) are not modelled. Every `WriteHeader` is taken as final.
- Handle: JSON encoding and HTTP-date formatting are abstract (a body value, an instant).
  The encoding-failure path (`http.Error`) is not modelled.
- Handle: header-name canonicalisation by `http.Header` is not modelled. Names are kept as the
  handler writes them.
- Process: `envconfig` is abstract. Its integer and duration parsers are parameters, and its
  error wording is a datatype. The model keeps its field order and its rules for required
  fields and defaults.
- A nil summary pointer from a provider that also reports no error is modelled as a nil summary.
  Floating-point values are real numbers.

## Findings

| source | as written | input that shows it | evidently intended | confidence | as-written member | corrected member |
|---|---|---|---|---|---|---|
| internal/otelmetrics/metrics.go:164-176 | `rwRecorder.Write` sets the recorded status to 200 on every write, overriding an earlier `WriteHeader`. A handler that writes nothing leaves the status at 0. | a handler that calls `WriteHeader(500)` then writes a body, as `errorResponse` does (cmd/weatherapi/handlers/weather.go:79-81) if served behind the middleware. The recorder records status 200 while the client receives 500. A handler that writes nothing is recorded with status 0. | the recorded status is the one the client receives: the first `WriteHeader` before any write, otherwise 200. The middleware test expects a separate 500 record (internal/otelmetrics/metrics_test.go:101-107). | not executed | OtelMetrics.AsWrittenRecordsOkAfterError | OtelMetrics.CorrectedRecordsSentResponse |
