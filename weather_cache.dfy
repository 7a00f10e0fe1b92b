/** The `WeatherService` class of lib/weatherService.ts: a map from location
    strings to `{data, timestamp}` entries in front of a weather provider.

    The clock (`Date.now()`) is the parameter `now`. The provider is the class
    `Provider`, whose answers are injected: `answer(location, k)` is what its
    k-th call returns, so any provider (the random generator, a failing
    network service, a test stub) is one choice of `answer`. `Lookup` and
    `Serve` specify one lookup and a run of lookups on plain values; the
    methods of `WeatherService` are proved to do exactly that. */
module WeatherCache {
  import opened WeatherTypes
  import MockWeather

  /** `CACHE_DURATION`: ten minutes, in milliseconds. */
  const CacheDuration: int := 10 * 60 * 1000

  /** The message of the `Error` that `getWeatherData` throws when the
      provider fails. */
  const FetchFailed: string := "Failed to fetch weather data"

  /** The default argument of `getWeatherData`. */
  const DefaultLocation: string := "Pittsburgh, PA"

  /** The default location names Pittsburgh, so the generator gives it the
      lower base temperature. */
  lemma DefaultLocationHasPittsburghBase()
    ensures MockWeather.BaseTemp(DefaultLocation) == MockWeather.PittsburghBase
  {
    MockWeather.PittsburghHasLowerBase();
  }

  datatype CacheEntry = CacheEntry(data: WeatherData, timestamp: int)

  type Cache = map<string, CacheEntry>

  /** A provider's behaviour: the result of its k-th call for a location. */
  type Answer = (string, nat) -> Result<WeatherData>

  /** The cached entry for `location` may be served at time `now`: it exists
      and is strictly younger than the cache duration. */
  predicate IsFresh(cache: Cache, location: string, now: int) {
    location in cache && now - cache[location].timestamp < CacheDuration
  }

  /** `c` and `c'` hold the same entries for every key but `location`. */
  ghost predicate SameOutside(c: Cache, c': Cache, location: string) {
    forall k :: k != location ==> (k in c <==> k in c') && (k in c ==> c[k] == c'[k])
  }

  // ---------------------------------------------------------------------------
  // One lookup

  /** The state after one lookup: its result, the new cache, and the
      locations the provider has been asked for so far. */
  datatype Step = Step(result: Result<WeatherData>, cache: Cache, log: seq<string>)

  /** `getWeatherData(location)` at time `now`, with `log` the provider's
      calls so far. */
  function Lookup(cache: Cache, log: seq<string>, location: string, now: int, answer: Answer): (s: Step)
    // a fresh entry is served as it is, without asking the provider
    ensures IsFresh(cache, location, now) ==> s == Step(Success(cache[location].data), cache, log)
    // otherwise the provider is asked exactly once, for exactly this key
    ensures !IsFresh(cache, location, now) ==> s.log == log + [location]
    ensures !IsFresh(cache, location, now) ==>
              match answer(location, |log|)
              case Success(data) => s.result == Success(data) && s.cache == cache[location := CacheEntry(data, now)]
              case Failure(_) => s.result == Failure(FetchFailed) && s.cache == cache
    // no other key is touched
    ensures SameOutside(cache, s.cache, location)
    // a lookup succeeds exactly when it leaves a fresh entry behind, so a
    // failure is never cached
    ensures s.result.Success? <==> IsFresh(s.cache, location, now)
  {
    if IsFresh(cache, location, now) then
      Step(Success(cache[location].data), cache, log)
    else
      match answer(location, |log|)
      case Success(data) => Step(Success(data), cache[location := CacheEntry(data, now)], log + [location])
      case Failure(_) => Step(Failure(FetchFailed), cache, log + [location])
  }

  // ---------------------------------------------------------------------------
  // A run of lookups

  datatype Request = Request(location: string, now: int)

  datatype Batch = Batch(results: seq<Result<WeatherData>>, cache: Cache, log: seq<string>)

  /** The requests `getMultiLocationWeather(locations)` makes at time `now`. */
  function AtTime(locations: seq<string>, now: int): seq<Request> {
    seq(|locations|, i requires 0 <= i < |locations| => Request(locations[i], now))
  }

  /** The lookups of `requests`, one after the other, in order. */
  function Serve(cache: Cache, log: seq<string>, requests: seq<Request>, answer: Answer): (b: Batch)
    ensures |b.results| == |requests|
    // the provider is asked at most once per request, and its earlier calls stay as they were
    ensures |log| <= |b.log| <= |log| + |requests| && b.log[..|log|] == log
    decreases |requests|
  {
    if requests == [] then
      Batch([], cache, log)
    else
      var s := Lookup(cache, log, requests[0].location, requests[0].now, answer);
      var rest := Serve(s.cache, s.log, requests[1..], answer);
      Batch([s.result] + rest.results, rest.cache, rest.log)
  }

  /** Serving `a + b` is serving `a` and then serving `b` from where `a` left off. */
  lemma {:induction false} ServeAppend(cache: Cache, log: seq<string>, a: seq<Request>, b: seq<Request>, answer: Answer)
    ensures var x := Serve(cache, log, a, answer);
            var y := Serve(x.cache, x.log, b, answer);
            Serve(cache, log, a + b, answer) == Batch(x.results + y.results, y.cache, y.log)
    decreases |a|
  {
    if a == [] {
      assert a + b == b;
    } else {
      var s := Lookup(cache, log, a[0].location, a[0].now, answer);
      assert (a + b)[0] == a[0];
      assert (a + b)[1..] == a[1..] + b;
      ServeAppend(s.cache, s.log, a[1..], b, answer);
      var x := Serve(s.cache, s.log, a[1..], answer);
      var y := Serve(x.cache, x.log, b, answer);
      assert [s.result] + (x.results + y.results) == ([s.result] + x.results) + y.results;
    }
  }

  /** The i-th result of a run is the lookup of the i-th request, made in the
      state the first i requests left behind. */
  lemma ServeAt(cache: Cache, log: seq<string>, requests: seq<Request>, answer: Answer, i: nat)
    requires i < |requests|
    ensures var before := Serve(cache, log, requests[..i], answer);
            Serve(cache, log, requests, answer).results[i] ==
            Lookup(before.cache, before.log, requests[i].location, requests[i].now, answer).result
  {
    ServeAppend(cache, log, requests[..i], requests[i..], answer);
    assert requests[..i] + requests[i..] == requests;
    assert requests[i..][0] == requests[i];
  }

  /** Requests for a key whose entry is fresh at each of their times are all
      served from the cache: the same data every time, no provider call, no
      change to the cache. */
  lemma {:induction false} HitsAreServedFromCache(cache: Cache, log: seq<string>, location: string, requests: seq<Request>, answer: Answer)
    requires forall i :: 0 <= i < |requests| ==> requests[i].location == location && IsFresh(cache, location, requests[i].now)
    ensures var b := Serve(cache, log, requests, answer);
            b.cache == cache && b.log == log &&
            forall i :: 0 <= i < |b.results| ==> b.results[i] == Success(cache[location].data)
    decreases |requests|
  {
    if requests != [] {
      HitsAreServedFromCache(cache, log, location, requests[1..], answer);
    }
  }

  /** The freshness bound: after a successful fetch of a key at time `t0`,
      every later request for that key less than the cache duration after
      `t0` returns the same data, and the provider is called once in all. */
  lemma OneFetchWithinLifetime(cache: Cache, log: seq<string>, location: string, t0: int, later: seq<Request>, answer: Answer)
    requires !IsFresh(cache, location, t0)
    requires answer(location, |log|).Success?
    requires forall i :: 0 <= i < |later| ==>
               later[i].location == location && later[i].now - t0 < CacheDuration
    ensures var b := Serve(cache, log, [Request(location, t0)] + later, answer);
            b.log == log + [location] &&
            forall i :: 0 <= i < |b.results| ==> b.results[i] == answer(location, |log|)
  {
    var s := Lookup(cache, log, location, t0, answer);
    assert ([Request(location, t0)] + later)[1..] == later;
    HitsAreServedFromCache(s.cache, s.log, location, later, answer);
  }

  /** Expiry triggers a refetch: a cold key asked for twice, the second time
      at least the cache duration later, costs two provider calls, and when
      both succeed the stored entry is the second one. */
  lemma ExpiryRefetches(cache: Cache, log: seq<string>, location: string, t1: int, t2: int, answer: Answer)
    requires !IsFresh(cache, location, t1)
    requires t2 - t1 >= CacheDuration
    ensures var b := Serve(cache, log, [Request(location, t1), Request(location, t2)], answer);
            b.log == log + [location, location] &&
            (answer(location, |log| + 1).Success? ==>
               location in b.cache && b.cache[location] == CacheEntry(answer(location, |log| + 1).value, t2) &&
               b.cache[location].timestamp > t1)
  {
    var s := Lookup(cache, log, location, t1, answer);
    assert [Request(location, t1), Request(location, t2)][1..] == [Request(location, t2)];
    assert !IsFresh(s.cache, location, t2);
    var s2 := Lookup(s.cache, s.log, location, t2, answer);
    assert [Request(location, t2)][1..] == [];
    assert Serve(s.cache, s.log, [Request(location, t2)], answer) == Batch([s2.result], s2.cache, s2.log);
  }

  /** Key isolation: requests that never name `location` leave its entry,
      and so its freshness at any time, exactly as it was. */
  lemma {:induction false} OtherKeysUntouched(cache: Cache, log: seq<string>, requests: seq<Request>, location: string, answer: Answer)
    requires forall i :: 0 <= i < |requests| ==> requests[i].location != location
    ensures var b := Serve(cache, log, requests, answer);
            (location in b.cache <==> location in cache) &&
            (location in cache ==> b.cache[location] == cache[location])
    decreases |requests|
  {
    if requests != [] {
      var s := Lookup(cache, log, requests[0].location, requests[0].now, answer);
      OtherKeysUntouched(s.cache, s.log, requests[1..], location, answer);
    }
  }

  /** A provider failure is not cached: the lookup fails, the cache keeps its
      old contents, and asking again for the key is a genuine second call. */
  lemma FailureIsNotCached(cache: Cache, log: seq<string>, location: string, t1: int, t2: int, answer: Answer)
    requires !IsFresh(cache, location, t1) && !IsFresh(cache, location, t2)
    requires answer(location, |log|).Failure?
    ensures var b := Serve(cache, log, [Request(location, t1), Request(location, t2)], answer);
            b.results[0] == Failure(FetchFailed) &&
            b.log == log + [location, location] &&
            b.results[1] == (if answer(location, |log| + 1).Success? then answer(location, |log| + 1) else Failure(FetchFailed))
  {
    var s := Lookup(cache, log, location, t1, answer);
    assert s.cache == cache;
    assert [Request(location, t1), Request(location, t2)][1..] == [Request(location, t2)];
  }

  /** After `clearCache`, any key's next lookup asks the provider. */
  lemma ClearedCacheMisses(log: seq<string>, location: string, now: int, answer: Answer)
    ensures Lookup(map[], log, location, now, answer).log == log + [location]
  {
  }

  // ---------------------------------------------------------------------------
  // Promise.all

  /** `Promise.all` over settled lookups: all the values in order when every
      lookup succeeded, otherwise the first rejection. */
  function Collect(results: seq<Result<WeatherData>>): (r: Result<seq<WeatherData>>)
    ensures r.Success? <==> forall i :: 0 <= i < |results| ==> results[i].Success?
    ensures r.Success? ==> |r.value| == |results| &&
                           forall i :: 0 <= i < |results| ==> results[i] == Success(r.value[i])
    ensures r.Failure? ==> exists i :: 0 <= i < |results| && results[i] == Failure(r.message)
    decreases |results|
  {
    if results == [] then
      Success([])
    else
      match results[0]
      case Failure(m) => Failure(m)
      case Success(v) =>
        match Collect(results[1..])
        case Success(vs) => Success([v] + vs)
        case Failure(m) => Failure(m)
  }

  /** Every failed lookup rejects with the same message, so a batch with a
      failure rejects with that message whichever lookup failed. */
  lemma {:induction false} ServeFailuresAreFetchFailed(cache: Cache, log: seq<string>, requests: seq<Request>, answer: Answer)
    ensures var b := Serve(cache, log, requests, answer);
            forall i :: 0 <= i < |b.results| && b.results[i].Failure? ==> b.results[i].message == FetchFailed
    decreases |requests|
  {
    if requests != [] {
      var s := Lookup(cache, log, requests[0].location, requests[0].now, answer);
      ServeFailuresAreFetchFailed(s.cache, s.log, requests[1..], answer);
      var b := Serve(cache, log, requests, answer);
      forall i | 0 <= i < |b.results| && b.results[i].Failure?
        ensures b.results[i].message == FetchFailed
      {
        if i > 0 {
          assert b.results[i] == Serve(s.cache, s.log, requests[1..], answer).results[i - 1];
        }
      }
    }
  }

  // ---------------------------------------------------------------------------
  // Providers that name the location they were asked for

  /** The provider's data names the location it was asked for. */
  ghost predicate EchoesLocation(answer: Answer) {
    forall location, k :: answer(location, k).Success? ==> answer(location, k).value.location == location
  }

  /** Every cached entry holds data for its own key. */
  ghost predicate EntriesMatchKeys(cache: Cache) {
    forall k :: k in cache ==> cache[k].data.location == k
  }

  /** With such a provider every lookup keeps the cache consistent, and every
      successful result is the data of the location that was asked for. */
  lemma {:induction false} ServeKeepsEntriesMatched(cache: Cache, log: seq<string>, requests: seq<Request>, answer: Answer)
    requires EchoesLocation(answer) && EntriesMatchKeys(cache)
    ensures var b := Serve(cache, log, requests, answer);
            EntriesMatchKeys(b.cache) &&
            forall i :: 0 <= i < |requests| && b.results[i].Success? ==> b.results[i].value.location == requests[i].location
    decreases |requests|
  {
    if requests != [] {
      var s := Lookup(cache, log, requests[0].location, requests[0].now, answer);
      assert EntriesMatchKeys(s.cache);
      ServeKeepsEntriesMatched(s.cache, s.log, requests[1..], answer);
      var b := Serve(cache, log, requests, answer);
      forall i | 0 <= i < |requests| && b.results[i].Success?
        ensures b.results[i].value.location == requests[i].location
      {
        if i > 0 {
          assert b.results[i] == Serve(s.cache, s.log, requests[1..], answer).results[i - 1];
          assert requests[1..][i - 1] == requests[i];
        }
      }
    }
  }

  /** The draws of the provider's k-th call from the stream of `Math.random()`. */
  function CallDraws(random: nat -> real, k: nat): (d: seq<real>)
    requires forall n :: MockWeather.IsDraw(random(n))
    ensures |d| == MockWeather.DrawCount && MockWeather.ValidDraws(d)
  {
    seq(MockWeather.DrawCount, j requires 0 <= j < MockWeather.DrawCount => random(MockWeather.DrawCount * k + j))
  }

  /** The provider the source wires in: `fetchMockWeatherData`, whose k-th
      call reads the k-th block of draws and the calendar at that call. It
      never fails and names the location it was asked for. */
  function MockAnswer(random: nat -> real, calendar: nat -> MockWeather.Calendar): (answer: Answer)
    requires forall n :: MockWeather.IsDraw(random(n))
    ensures forall location, k :: answer(location, k).Success? &&
              MockWeather.WellFormed(answer(location, k).value, location, calendar(k))
    ensures EchoesLocation(answer)
  {
    (location: string, k: nat) => Success(MockWeather.MockSnapshot(location, CallDraws(random, k), calendar(k)))
  }

  // ---------------------------------------------------------------------------
  // The objects

  /** A weather provider whose k-th answer is `answer(location, k)`. */
  class Provider {
    const answer: Answer
    /** The locations asked for so far, in call order. */
    var log: seq<string>

    constructor (answer: Answer)
      ensures this.answer == answer && log == []
    {
      this.answer := answer;
      log := [];
    }

    method Fetch(location: string) returns (r: Result<WeatherData>)
      modifies this
      ensures log == old(log) + [location]
      ensures r == answer(location, |old(log)|)
    {
      r := answer(location, |log|);
      log := log + [location];
    }
  }

  class WeatherService {
    var cache: Cache

    constructor ()
      ensures cache == map[]
    {
      cache := map[];
    }

    /** `getWeatherData`: a fresh entry is returned as it is; otherwise the
        provider is asked, and its data is stored stamped `now` and returned.
        A provider failure rejects with `FetchFailed` and stores nothing. */
    method GetWeatherData(location: string, now: int, provider: Provider) returns (r: Result<WeatherData>)
      modifies this, provider
      ensures var s := Lookup(old(cache), old(provider.log), location, now, provider.answer);
              r == s.result && cache == s.cache && provider.log == s.log
    {
      if location in cache && now - cache[location].timestamp < CacheDuration {
        return Success(cache[location].data);
      }
      var weatherData := provider.Fetch(location);
      if weatherData.Failure? {
        return Failure(FetchFailed);
      }
      cache := cache[location := CacheEntry(weatherData.value, now)];
      r := weatherData;
    }

    /** `getMultiLocationWeather`: one lookup per location, in order; the
        values in input order when all succeed, otherwise the rejection. */
    method GetMultiLocationWeather(locations: seq<string>, now: int, provider: Provider) returns (r: Result<seq<WeatherData>>)
      modifies this, provider
      ensures var b := Serve(old(cache), old(provider.log), AtTime(locations, now), provider.answer);
              r == Collect(b.results) && cache == b.cache && provider.log == b.log
    {
      ghost var cache0, log0 := cache, provider.log;
      var results: seq<Result<WeatherData>> := [];
      for i := 0 to |locations|
        invariant Serve(cache0, log0, AtTime(locations[..i], now), provider.answer) == Batch(results, cache, provider.log)
      {
        var data := GetWeatherData(locations[i], now, provider);
        ServeAppend(cache0, log0, AtTime(locations[..i], now), [Request(locations[i], now)], provider.answer);
        assert AtTime(locations[..i + 1], now) == AtTime(locations[..i], now) + [Request(locations[i], now)];
        results := results + [data];
      }
      assert locations[..|locations|] == locations;
      r := Collect(results);
    }

    /** `clearCache`. */
    method ClearCache()
      modifies this
      ensures cache == map[]
    {
      cache := map[];
    }
  }

  /** The lazily created single instance behind `getInstance`. */
  class ServiceRegistry {
    var instance: WeatherService?

    constructor ()
      ensures instance == null
    {
      instance := null;
    }

    /** The first call creates an empty service; every later call returns
        that same object. */
    method GetInstance() returns (s: WeatherService)
      modifies this
      ensures old(instance) != null ==> s == old(instance)
      ensures old(instance) == null ==> fresh(s) && s.cache == map[]
      ensures instance == s
    {
      if instance == null {
        instance := new WeatherService();
      }
      s := instance;
    }
  }
}
