/**
 * The weather result coordinator (internal/providerquery/queryer.go).
 *
 * For each read it serves the cached result while it is fresh, otherwise refreshes by
 * trying the providers one by one in priority order (first non-nil summary wins), and
 * when the refresh fails falls back to a stale cached entry, or fails when nothing is
 * cached. The collaborators are abstract: the cache is what its Get answered, the
 * providers are what each would answer, the clock is what the wall clock read, and the
 * refresh context is the index from which it is done.
 */
module ProviderQuery {
  import opened Wrappers
  import opened Clock
  import MC = MemoryCache

  /** A weather reading (the repository's `weather.Summary`); floats are kept as reals. */
  datatype Summary = Summary(windSpeed: real, temperature: real)

  /** `WeatherResult`: a summary with the instant it was created and the instant it expires. */
  datatype WeatherResult = WeatherResult(expiry: Time, createdAt: Time, weather: Summary)

  /** `resultCacheKey{}`: the single, constant key every result is cached under. */
  datatype CacheKey = ResultCacheKey

  /** `resultCacheEntry`: what is stored in the cache; the expiry is stored beside it. */
  datatype CacheEntry = CacheEntry(result: Summary, createdAt: Time)

  /** What the cache's Get answered for the result key. */
  type CacheReply = MC.GetReply<CacheEntry>

  /** One `Cache.Set(key, val, expiry)` call that a read issues. */
  datatype CacheWrite = CacheWrite(key: CacheKey, entry: CacheEntry, expiry: Time)

  /** A provider; only its name is known to the coordinator. */
  datatype Provider = Provider(name: string)

  /** What a provider's `GetWeatherSummary` would answer: a summary or nil, and an error or nil. */
  datatype ProviderReply = ProviderReply(summary: Option<Summary>, err: Option<string>)

  const NoFallbackError := "providerqueryer: failed to load a new result and no cached result to fall back on"
  const NoProviderError := "providerquery: no successful provider responses"
  const ContextDoneError := "providerquery: context done before exhausting providers"
  const GetSummaryError := "get weather summary"

  /** `errors.Wrap(err, msg)`: the message, a colon, then the wrapped error. */
  function Wrap(msg: string, err: string): string
  {
    msg + ": " + err
  }

  /**
   * The coordinator with its configuration. Nothing in it changes after `New`, so it is
   * a value. Durations other than the TTL only bound I/O and are kept for the record.
   */
  datatype Queryer = Queryer(
    providers: seq<Provider>,
    cacheTimeout: Duration,
    providerTimeout: Duration,
    resultCacheTTL: Duration,
    resultTimeout: Duration,
    clock: Clock)

  // ---------------------------------------------------------------- construction

  /** The functional options `New` accepts. */
  datatype Override = WithClock(clock: Clock) | WithResultCacheTTL(ttl: Duration)

  /** `newOptions`. */
  datatype Options = Options(clock: Clock, resultCacheTTL: Duration)

  const DefaultOptions := Options(StandardClock, 3 * Second)

  function ApplyOverride(o: Options, ov: Override): Options
  {
    match ov
    case WithClock(c) => o.(clock := c)
    case WithResultCacheTTL(d) => o.(resultCacheTTL := d)
  }

  /** The options after applying `ovs` in order to `o`. */
  function ApplyOverrides(o: Options, ovs: seq<Override>): Options
    decreases |ovs|
  {
    if ovs == [] then o
    else ApplyOverride(ApplyOverrides(o, ovs[..|ovs| - 1]), ovs[|ovs| - 1])
  }

  /** With no `WithResultCacheTTL` override the TTL stays as it was. */
  lemma {:induction false} NoTTLOverrideKeepsTTL(o: Options, ovs: seq<Override>)
    requires forall k :: 0 <= k < |ovs| ==> !ovs[k].WithResultCacheTTL?
    ensures ApplyOverrides(o, ovs).resultCacheTTL == o.resultCacheTTL
    decreases |ovs|
  {
    if ovs != [] {
      NoTTLOverrideKeepsTTL(o, ovs[..|ovs| - 1]);
    }
  }

  /** The last `WithResultCacheTTL` override, at index `k`, decides the TTL. */
  lemma {:induction false} LastTTLOverrideWins(o: Options, ovs: seq<Override>, k: nat)
    requires k < |ovs| && ovs[k].WithResultCacheTTL?
    requires forall j :: k < j < |ovs| ==> !ovs[j].WithResultCacheTTL?
    ensures ApplyOverrides(o, ovs).resultCacheTTL == ovs[k].ttl
    decreases |ovs|
  {
    if k < |ovs| - 1 {
      var init := ovs[..|ovs| - 1];
      assert init[k] == ovs[k];
      LastTTLOverrideWins(o, init, k);
    }
  }

  /** With no `WithClock` override the clock stays as it was. */
  lemma {:induction false} NoClockOverrideKeepsClock(o: Options, ovs: seq<Override>)
    requires forall k :: 0 <= k < |ovs| ==> !ovs[k].WithClock?
    ensures ApplyOverrides(o, ovs).clock == o.clock
    decreases |ovs|
  {
    if ovs != [] {
      NoClockOverrideKeepsClock(o, ovs[..|ovs| - 1]);
    }
  }

  /** The last `WithClock` override, at index `k`, decides the clock. */
  lemma {:induction false} LastClockOverrideWins(o: Options, ovs: seq<Override>, k: nat)
    requires k < |ovs| && ovs[k].WithClock?
    requires forall j :: k < j < |ovs| ==> !ovs[j].WithClock?
    ensures ApplyOverrides(o, ovs).clock == ovs[k].clock
    decreases |ovs|
  {
    if k < |ovs| - 1 {
      var init := ovs[..|ovs| - 1];
      assert init[k] == ovs[k];
      LastClockOverrideWins(o, init, k);
    }
  }

  /**
   * `New`: the defaults (wall clock, 3s TTL) overridden in order by `overrides`, and the
   * fixed timeouts (cache 2s, provider 3s, overall 10s).
   */
  method New(providers: seq<Provider>, overrides: seq<Override>) returns (q: Queryer)
    ensures q.providers == providers
    ensures q.cacheTimeout == 2 * Second && q.providerTimeout == 3 * Second && q.resultTimeout == 10 * Second
    ensures Options(q.clock, q.resultCacheTTL) == ApplyOverrides(DefaultOptions, overrides)
  {
    var options := DefaultOptions;
    var i := 0;
    while i < |overrides|
      invariant 0 <= i <= |overrides|
      invariant options == ApplyOverrides(DefaultOptions, overrides[..i])
    {
      assert overrides[..i + 1][..i] == overrides[..i];
      options := ApplyOverride(options, overrides[i]);
      i := i + 1;
    }
    assert overrides[..i] == overrides;
    q := Queryer(providers, 2 * Second, 3 * Second, options.resultCacheTTL, 10 * Second, options.clock);
  }

  // ---------------------------------------------------------------- reading the cache

  /**
   * `getCachedReadWeatherResult`: a non-nil cached value becomes the cached result (its
   * summary and creation time, with the expiry the cache reported); a nil value is a
   * miss. The cache's error is only logged, never looked at otherwise.
   */
  function CachedResult(reply: CacheReply): (r: Option<WeatherResult>)
    ensures r.Some? <==> reply.value.Some?
    ensures r.Some? ==> r.value.expiry == reply.expiry
  {
    match reply.value
    case None => None
    case Some(entry) => Some(WeatherResult(reply.expiry, entry.createdAt, entry.result))
  }

  /** Cache errors are never surfaced: the cached result does not depend on the error at all. */
  lemma CacheErrorIgnored(value: Option<CacheEntry>, expiry: Time, e1: Option<string>, e2: Option<string>)
    ensures CachedResult(MC.GetReply(value, expiry, e1)) == CachedResult(MC.GetReply(value, expiry, e2))
    ensures value.None? ==> CachedResult(MC.GetReply(value, expiry, e1)) == None
  {
  }

  /** `cacheWeatherResult`: the Set call that stores `r` under the constant key. */
  function WriteFor(r: WeatherResult): CacheWrite
  {
    CacheWrite(ResultCacheKey, CacheEntry(r.weather, r.createdAt), r.expiry)
  }

  /** Round trip: a result written by `cacheWeatherResult` is read back intact. */
  lemma CachedResultRoundTrip(r: WeatherResult, err: Option<string>)
    ensures var w := WriteFor(r);
            CachedResult(MC.GetReply(Some(w.entry), w.expiry, err)) == Some(r)
  {
  }

  // ---------------------------------------------------------------- the providers

  /**
   * `queryProviderForWeather` for one provider: when the context is already done the
   * provider is not called and the step fails with the wrapped context error; a provider
   * error makes the step fail with that error wrapped; otherwise the provider's summary
   * (which may be nil) is the step's result.
   */
  function QueryProvider(ctxDone: bool, ctxErr: string, reply: ProviderReply): (r: (Option<Summary>, Option<string>))
    ensures r.1.Some? <==> ctxDone || reply.err.Some?
    ensures r.0.Some? ==> !ctxDone && reply.err.None? && r.0 == reply.summary
  {
    if ctxDone then (None, Some(Wrap(ContextDoneError, ctxErr)))
    else if reply.err.Some? then (None, Some(Wrap(GetSummaryError, reply.err.value)))
    else (reply.summary, None)
  }

  /** Provider `i` wins a refresh: it is reached before the context is done and answers a summary without error. */
  predicate Succeeds(replies: seq<ProviderReply>, doneAt: nat, i: nat)
    requires i < |replies|
  {
    i < doneAt && replies[i].err.None? && replies[i].summary.Some?
  }

  /** The first provider at or after `from` that succeeds, if any. */
  function FirstSuccessFrom(replies: seq<ProviderReply>, doneAt: nat, from: nat): (w: Option<nat>)
    requires from <= |replies|
    ensures w.Some? ==> from <= w.value < |replies| && Succeeds(replies, doneAt, w.value)
    ensures w.Some? ==> forall j :: from <= j < w.value ==> !Succeeds(replies, doneAt, j)
    ensures w.None? ==> forall j :: from <= j < |replies| ==> !Succeeds(replies, doneAt, j)
    decreases |replies| - from
  {
    if from == |replies| then None
    else if Succeeds(replies, doneAt, from) then Some(from)
    else FirstSuccessFrom(replies, doneAt, from + 1)
  }

  /** The provider whose summary a refresh returns, if any. */
  function FirstSuccess(replies: seq<ProviderReply>, doneAt: nat): Option<nat>
  {
    FirstSuccessFrom(replies, doneAt, 0)
  }

  /** The indices 0, 1, ..., n - 1 in order. */
  function Upto(n: nat): (s: seq<nat>)
    ensures |s| == n && forall i :: 0 <= i < n ==> s[i] == i
  {
    seq(n, i => i)
  }

  /**
   * `queryAllProvidersForWeather`: providers are tried strictly in order; the first
   * non-nil summary is returned at once and no later provider is called; providers
   * that fail or answer nil are skipped; a done context stops every further call; when
   * no provider succeeds (including when there is none) the error is "no successful
   * provider responses". `called` lists, in order, the providers actually called.
   */
  method QueryAllProviders(replies: seq<ProviderReply>, doneAt: nat, ctxErr: string)
    returns (res: Option<Summary>, err: Option<string>, called: seq<nat>)
    ensures FirstSuccess(replies, doneAt).Some? ==>
              var w := FirstSuccess(replies, doneAt).value;
              res == replies[w].summary && err == None && called == Upto(w + 1)
    ensures FirstSuccess(replies, doneAt).None? ==>
              res == None && err == Some(NoProviderError) && called == Upto(Min(|replies|, doneAt))
  {
    called := [];
    var i := 0;
    while i < |replies|
      invariant 0 <= i <= |replies|
      invariant forall j :: 0 <= j < i ==> !Succeeds(replies, doneAt, j)
      invariant called == Upto(Min(i, doneAt))
    {
      var ctxDone := i >= doneAt;
      if !ctxDone {
        called := called + [i];
      }
      var (r, _) := QueryProvider(ctxDone, ctxErr, replies[i]);
      if r.Some? {
        assert Succeeds(replies, doneAt, i);
        return r, None, called;
      }
      i := i + 1;
    }
    return None, Some(NoProviderError), called;
  }

  // ---------------------------------------------------------------- one read

  /**
   * The collaborators' answers during one read: what the cache's Get answered, what the
   * wall clock read when the expiry is checked and when a new result is stamped, what
   * each provider would answer, from which provider index on the refresh context is
   * done, and the context's error text.
   */
  datatype ReadEnv = ReadEnv(
    cacheReply: CacheReply,
    wallCheck: Time,
    wallCreate: Time,
    replies: seq<ProviderReply>,
    doneAt: nat,
    ctxErr: string)

  /** Everything a read produces: the result or the error, the Set it issues, the providers it called. */
  datatype ReadOutcome = ReadOutcome(
    result: Option<WeatherResult>,
    err: Option<string>,
    write: Option<CacheWrite>,
    called: seq<nat>)

  /** A refresh is needed when nothing is cached or the clock is strictly after the cached expiry. */
  predicate NeedsRefresh(cached: Option<WeatherResult>, now: Time)
  {
    cached.None? || After(now, cached.value.expiry)
  }

  /** The providers a refresh calls. */
  function RefreshCalls(replies: seq<ProviderReply>, doneAt: nat): seq<nat>
  {
    match FirstSuccess(replies, doneAt)
    case Some(w) => Upto(w + 1)
    case None => Upto(Min(|replies|, doneAt))
  }

  /**
   * The outcome of a read, by cases: fresh cache hit; refresh success (new result stamped
   * now, expiring after the TTL, and written back); refresh failure with a stale entry
   * (served without error); refresh failure with nothing cached (error).
   */
  function ReadSpec(q: Queryer, env: ReadEnv): ReadOutcome
  {
    var cached := CachedResult(env.cacheReply);
    if !NeedsRefresh(cached, Now(q.clock, env.wallCheck)) then
      ReadOutcome(cached, None, None, [])
    else
      var calls := RefreshCalls(env.replies, env.doneAt);
      match FirstSuccess(env.replies, env.doneAt)
      case Some(w) =>
        var now := Now(q.clock, env.wallCreate);
        var r := WeatherResult(now + q.resultCacheTTL, now, env.replies[w].summary.value);
        ReadOutcome(Some(r), None, Some(WriteFor(r)), calls)
      case None =>
        if cached.None? then ReadOutcome(None, Some(NoFallbackError), None, calls)
        else ReadOutcome(cached, None, None, calls)
  }

  /**
   * `ReadWeatherResult` for one read (without the single-flight dedup): the local
   * `result` starts as the cached result and is replaced on a successful refresh, which
   * also issues the cache write; a failed refresh with nothing cached returns the error.
   */
  method ReadWeatherResult(q: Queryer, city: string, env: ReadEnv)
    returns (result: Option<WeatherResult>, err: Option<string>, write: Option<CacheWrite>, called: seq<nat>)
    ensures ReadOutcome(result, err, write, called) == ReadSpec(q, env)
  {
    result := CachedResult(env.cacheReply);
    var retrievedCachedResult := result.Some?;
    err, write, called := None, None, [];

    if !retrievedCachedResult || After(Now(q.clock, env.wallCheck), result.value.expiry) {
      var newWeather, queryErr, c := QueryAllProviders(env.replies, env.doneAt, env.ctxErr);
      called := c;
      if queryErr.Some? {
        if !retrievedCachedResult {
          return None, Some(NoFallbackError), None, called;
        }
      } else if newWeather.Some? {
        var now := Now(q.clock, env.wallCreate);
        result := Some(WeatherResult(now + q.resultCacheTTL, now, newWeather.value));
        write := Some(WriteFor(result.value));
      }
    }
  }

  // ---------------------------------------------------------------- properties of a read

  /**
   * Fresh path: a cached entry that the clock is not after (`now == expiry` counts as
   * fresh) is returned unchanged, without error, without calling any provider or writing.
   */
  lemma FreshEntryServed(q: Queryer, env: ReadEnv)
    requires env.cacheReply.value.Some?
    requires Now(q.clock, env.wallCheck) <= env.cacheReply.expiry
    ensures var o := ReadSpec(q, env);
            o.result == CachedResult(env.cacheReply) && o.err == None && o.called == [] && o.write == None
  {
  }

  /** Providers are called exactly when nothing is cached or the cached entry has expired. */
  lemma {:induction false} RefreshExactlyWhenStale(q: Queryer, env: ReadEnv)
    requires 0 < |env.replies| && 0 < env.doneAt
    ensures ReadSpec(q, env).called != [] <==>
              (env.cacheReply.value.None? || Now(q.clock, env.wallCheck) > env.cacheReply.expiry)
  {
    var calls := RefreshCalls(env.replies, env.doneAt);
    match FirstSuccess(env.replies, env.doneAt)
    case Some(w) =>
      assert calls[0] == 0;
    case None =>
      assert calls[0] == 0;
  }

  /**
   * A successful refresh returns {summary of the first successful provider, now, now + TTL}
   * and writes under the constant key (whatever the city) that summary, `now`, and the expiry.
   */
  lemma RefreshSuccess(q: Queryer, env: ReadEnv)
    requires NeedsRefresh(CachedResult(env.cacheReply), Now(q.clock, env.wallCheck))
    requires FirstSuccess(env.replies, env.doneAt).Some?
    ensures var w := FirstSuccess(env.replies, env.doneAt).value;
            var now := Now(q.clock, env.wallCreate);
            var o := ReadSpec(q, env);
            && o.result == Some(WeatherResult(now + q.resultCacheTTL, now, env.replies[w].summary.value))
            && o.err == None
            && o.write == Some(CacheWrite(ResultCacheKey, CacheEntry(env.replies[w].summary.value, now), now + q.resultCacheTTL))
  {
  }

  /**
   * A failed refresh serves whatever was cached, even an expired entry, without error;
   * with nothing cached the read fails with the "no cached result to fall back on" error.
   */
  lemma RefreshFailureFallsBack(q: Queryer, env: ReadEnv)
    requires NeedsRefresh(CachedResult(env.cacheReply), Now(q.clock, env.wallCheck))
    requires FirstSuccess(env.replies, env.doneAt).None?
    ensures env.cacheReply.value.Some? ==>
              ReadSpec(q, env).result == CachedResult(env.cacheReply) && ReadSpec(q, env).err == None
    ensures env.cacheReply.value.None? ==>
              ReadSpec(q, env).result == None && ReadSpec(q, env).err == Some(NoFallbackError)
    ensures ReadSpec(q, env).write == None
  {
  }

  /** Every read returns exactly one of a result and an error. */
  lemma ResultXorError(q: Queryer, env: ReadEnv)
    ensures ReadSpec(q, env).result.Some? != ReadSpec(q, env).err.Some?
  {
  }

  /** With every provider failing (or none configured), no refresh succeeds. */
  lemma {:induction false} AllFailingMeansNoSuccess(replies: seq<ProviderReply>, doneAt: nat)
    requires forall i :: 0 <= i < |replies| ==> replies[i].err.Some? || replies[i].summary.None?
    ensures FirstSuccess(replies, doneAt) == None
  {
  }

  /** First success wins: with provider A failing and B succeeding, B's summary is returned after calling A then B. */
  lemma FirstSuccessWinsExample(a: ProviderReply, b: Summary, rest: seq<ProviderReply>)
    requires a.err.Some?
    ensures var replies := [a, ProviderReply(Some(b), None)] + rest;
            FirstSuccess(replies, |replies|) == Some(1) && RefreshCalls(replies, |replies|) == [0, 1]
  {
    var replies := [a, ProviderReply(Some(b), None)] + rest;
    assert !Succeeds(replies, |replies|, 0) && Succeeds(replies, |replies|, 1);
    assert FirstSuccessFrom(replies, |replies|, 1) == Some(1);
  }

  /** Once the context is done no further provider is called, whatever those providers would answer. */
  lemma {:induction false} DoneContextStopsCalls(replies: seq<ProviderReply>, doneAt: nat)
    ensures forall i :: 0 <= i < |RefreshCalls(replies, doneAt)| ==> RefreshCalls(replies, doneAt)[i] < doneAt
  {
    match FirstSuccess(replies, doneAt)
    case Some(w) =>
      assert Succeeds(replies, doneAt, w);
    case None =>
  }

  // ---------------------------------------------------------------- with the memory cache

  /** The state of a memory cache holding results. */
  type ResultStore = map<CacheKey, MC.Item<CacheEntry>>

  /** The store after a read's cache write (if any) has landed. */
  function ApplyWrite(store: ResultStore, write: Option<CacheWrite>): ResultStore
  {
    match write
    case None => store
    case Some(w) => store[w.key := MC.Item(w.entry, w.expiry)]
  }

  /** A read against a memory cache holding `store`. */
  function ReadFromStore(q: Queryer, store: ResultStore, wallCheck: Time, wallCreate: Time,
                         replies: seq<ProviderReply>, doneAt: nat, ctxErr: string): ReadOutcome
  {
    ReadSpec(q, ReadEnv(MC.Lookup(store, ResultCacheKey), wallCheck, wallCreate, replies, doneAt, ctxErr))
  }

  /**
   * Round trip through the memory cache: after a read that produced a new result lands
   * its write, the cache yields that same result; a read no later than its expiry serves it
   * unchanged and calls no provider.
   */
  lemma {:induction false} WrittenResultReadBack(q: Queryer, store: ResultStore, r: WeatherResult,
                                                 wallCheck: Time, wallCreate: Time,
                                                 replies: seq<ProviderReply>, doneAt: nat, ctxErr: string)
    requires Now(q.clock, wallCheck) <= r.expiry
    ensures var next := ApplyWrite(store, Some(WriteFor(r)));
            CachedResult(MC.Lookup(next, ResultCacheKey)) == Some(r) &&
            ReadFromStore(q, next, wallCheck, wallCreate, replies, doneAt, ctxErr) == ReadOutcome(Some(r), None, None, [])
  {
    var next := ApplyWrite(store, Some(WriteFor(r)));
    MC.SetThenGet(store, ResultCacheKey, WriteFor(r).entry, r.expiry);
    CachedResultRoundTrip(r, None);
    assert CachedResult(MC.Lookup(next, ResultCacheKey)) == Some(r);
  }

  /**
   * The three-read scenario: TTL 1s on the wall clock; the first read at T0 on an empty
   * cache gets {s, T0, T0 + 1s} from the one provider; the second at T0 + 0.5s serves the
   * same result without calling the provider; the third at T0 + 2s, with the provider
   * now failing, serves the stale T0 result without error.
   */
  lemma ThreeReadScenario(providers: seq<Provider>, t0: Time, s: Summary, e: string)
    requires |providers| == 1
    ensures
      var q := Queryer(providers, 2 * Second, 3 * Second, Second, 10 * Second, StandardClock);
      var ok := [ProviderReply(Some(s), None)];
      var bad := [ProviderReply(None, Some(e))];
      var r0 := WeatherResult(t0 + Second, t0, s);
      var o1 := ReadFromStore(q, map[], t0, t0, ok, 1, "");
      var st1 := ApplyWrite(map[], o1.write);
      var o2 := ReadFromStore(q, st1, t0 + Second / 2, t0 + Second / 2, ok, 1, "");
      var st2 := ApplyWrite(st1, o2.write);
      var o3 := ReadFromStore(q, st2, t0 + 2 * Second, t0 + 2 * Second, bad, 1, "");
      && o1 == ReadOutcome(Some(r0), None, Some(WriteFor(r0)), [0])
      && o2 == ReadOutcome(Some(r0), None, None, [])
      && o3.result == Some(r0) && o3.err == None && o3.called == [0]
  {
    var q := Queryer(providers, 2 * Second, 3 * Second, Second, 10 * Second, StandardClock);
    var ok := [ProviderReply(Some(s), None)];
    var bad := [ProviderReply(None, Some(e))];
    var r0 := WeatherResult(t0 + Second, t0, s);
    assert FirstSuccessFrom(ok, 1, 0) == Some(0);
    assert FirstSuccessFrom(bad, 1, 1) == None;
    assert FirstSuccessFrom(bad, 1, 0) == None;
    var st1 := ApplyWrite(map[], Some(WriteFor(r0)));
    WrittenResultReadBack(q, map[], r0, t0 + Second / 2, t0 + Second / 2, ok, 1, "");
    assert CachedResult(MC.Lookup(st1, ResultCacheKey)) == Some(r0);
  }

  /**
   * One read through a memory cache object: Get under the constant key, decide, and
   * perform the cache write (synchronously here; the source fires it off in the
   * background and ignores its error, so the returned value never depends on it).
   */
  method ReadThroughMemoryCache(q: Queryer, cache: MC.MemoryCache<CacheKey, CacheEntry>, city: string,
                                wallCheck: Time, wallCreate: Time,
                                replies: seq<ProviderReply>, doneAt: nat, ctxErr: string)
    returns (result: Option<WeatherResult>, err: Option<string>)
    modifies cache
    ensures var o := ReadFromStore(q, old(cache.values), wallCheck, wallCreate, replies, doneAt, ctxErr);
            result == o.result && err == o.err && cache.values == ApplyWrite(old(cache.values), o.write)
  {
    var val, expiry, getErr := cache.Get(ResultCacheKey);
    var env := ReadEnv(MC.GetReply(val, expiry, getErr), wallCheck, wallCreate, replies, doneAt, ctxErr);
    assert env.cacheReply == MC.Lookup(cache.values, ResultCacheKey);
    var write, called;
    result, err, write, called := ReadWeatherResult(q, city, env);
    if write.Some? {
      var _ := cache.Set(write.value.key, write.value.entry, write.value.expiry);
    }
  }
}
