/**
 * The two provider clients and the helpers the processor calls:
 * OpenWeatherMap as the primary source (falling back to WeatherAPI.com,
 * then to a zeroed record, so that it never raises), WeatherAPI.com as the
 * secondary source, and the two-source agreement test.
 */
module WeatherClient {
  import opened Wrappers
  import opened Dicts
  import opened JsonValues
  import opened Fields
  import opened Net
  import opened SnowPayload
  import opened ApiClients

  const OWM_BASE_URL := "https://api.openweathermap.org/data/2.5"
  const WEATHERAPI_BASE_URL := "https://api.weatherapi.com/v1"
  /** Seconds slept before asking the secondary source, to respect rate limits. */
  const VERIFY_PACING := 1.0

  /**
   * What the client module reads from the environment when it is loaded:
   * the OpenWeatherMap and WeatherAPI.com keys and `CACHE_TTL`, the seconds
   * a cached response stays valid.
   */
  datatype ClientEnv = ClientEnv(openWeather: string, weatherApi: string, cacheTtl: int)

  /** `api_key or DEFAULT`: a missing or empty key falls back to the configured one. */
  function KeyOr(given: Option<string>, configured: string): string {
    if given.Some? && given.value != "" then given.value else configured
  }

  /** Parameters of the OpenWeatherMap `weather` and `forecast` requests. */
  function OwmParams(lat: Field, lon: Field, key: string): (p: Params)
  {
    var p := [("lat", lat), ("lon", lon), ("units", FStr("imperial")), ("appid", FStr(key))];
    assert p[1..][1..] == p[2..] && p[2..][1..] == p[3..] && p[3..][1..] == [];
    assert Keys(p[3..]) == {"appid"};
    assert Keys(p[2..]) == {"units", "appid"} by { KeysCons(p[2..]); }
    assert Keys(p[1..]) == {"lon", "units", "appid"} by { KeysCons(p[1..]); }
    assert DistinctKeys(p[3..]) && DistinctKeys(p[2..]) && DistinctKeys(p[1..]);
    p
  }

  /** The OpenWeatherMap request carries exactly these four parameters. */
  lemma OwmParamsKeys(lat: Field, lon: Field, key: string)
    ensures Keys(OwmParams(lat, lon, key)) == {"lat", "lon", "units", "appid"}
  {
    var p := OwmParams(lat, lon, key);
    assert p[1..][1..] == p[2..] && p[2..][1..] == p[3..] && p[3..][1..] == [];
    assert Keys(p[3..]) == {"appid"};
    assert Keys(p[2..]) == {"units", "appid"} by { KeysCons(p[2..]); }
    assert Keys(p[1..]) == {"lon", "units", "appid"} by { KeysCons(p[1..]); }
    KeysCons(p);
  }

  /**
   * Parameters of the WeatherAPI.com `forecast.json` request; the location
   * `q` is the pair itself rather than its "lat,lon" text.
   */
  function WeatherApiParams(lat: Field, lon: Field, key: string, days: int): (p: Params)
    ensures Keys(p) == {"q", "days", "key"}
  {
    var p := [("q", FTuple([lat, lon])), ("days", FInt(days)), ("key", FStr(key))];
    assert p[1..][1..] == p[2..] && p[2..][1..] == [];
    assert Keys(p[2..]) == {"key"};
    assert Keys(p[1..]) == {"days", "key"} by { KeysCons(p[1..]); }
    assert DistinctKeys(p[2..]) && DistinctKeys(p[1..]);
    KeysCons(p);
    p
  }

  // ---------------------------------------------------------------------
  // Degradation of the OpenWeatherMap reading

  /** The record built from a WeatherAPI.com reading when OpenWeatherMap failed. */
  function FallbackReport(w: WeatherApiReading): SnowReport {
    SnowReport(w.snowInches, 0.0, w.currentTemp, w.conditions, FALLBACK_SOURCE)
  }

  /** The record returned when both sources failed. */
  const DEFAULT_REPORT := SnowReport(0.0, 0.0, JNum(0.0), JStr(DEFAULT_CONDITIONS), DEFAULT_SOURCE)

  /**
   * The two `except` levels of the OpenWeatherMap `get_snow_data`: the
   * primary reading if there is one, else the secondary one in the primary's
   * shape, else all zeros.
   */
  function Degrade(primary: Result<SnowReport, PyError>, secondary: Result<WeatherApiReading, PyError>): (r: SnowReport)
    ensures primary.Ok? ==> r == primary.value
    ensures primary.Err? && secondary.Ok? ==>
      r.currentSnow == secondary.value.snowInches && r.forecastSnow == 0.0 && r.source == FALLBACK_SOURCE
    ensures primary.Err? && secondary.Err? ==>
      r.currentSnow == 0.0 && r.forecastSnow == 0.0 && r.currentTemp == JNum(0.0) && r.source == DEFAULT_SOURCE
  {
    if primary.Ok? then primary.value
    else if secondary.Ok? then FallbackReport(secondary.value)
    else DEFAULT_REPORT
  }

  /** What the WeatherAPI.com `get_snow_data` gives for the outcome of its one request. */
  function WeatherApiSnow(o: Outcome): (r: Result<WeatherApiReading, PyError>)
    ensures o.result.Ok? ==> r == WeatherApiExtract(o.result.value)
    ensures o.result.Err? ==> r == Err(o.result.error)
  {
    if o.result.Ok? then WeatherApiExtract(o.result.value) else Err(o.result.error)
  }

  /** The OpenWeatherMap reading or its exception, and the attempts it took. */
  datatype Primary = Primary(result: Result<SnowReport, PyError>, attempts: nat)

  /** A report and the number of network attempts spent producing it. */
  datatype Fetched = Fetched(report: SnowReport, attempts: nat)

  /** The fallback level: a fresh WeatherAPI.com client asked from reply `at` on. */
  function Fallback(primary: Result<SnowReport, PyError>, script: seq<Reply>, at: nat, spent: nat): (f: Fetched)
    requires primary.Err?
    ensures f.attempts >= spent
    ensures f.report.forecastSnow == 0.0
    ensures f.report.source == FALLBACK_SOURCE <==> WeatherApiSnow(FreshWeatherApi(script, at)).Ok?
    ensures f.report.source != FALLBACK_SOURCE ==> f.report == DEFAULT_REPORT
  {
    var o := FreshWeatherApi(script, at);
    Fetched(Degrade(primary, WeatherApiSnow(o)), spent + o.attempts)
  }

  /**
   * The `try` block of the OpenWeatherMap `get_snow_data`, given what its
   * cache holds for the `weather` and `forecast` requests and the replies
   * from `start` on: the forecast is requested only once the current
   * weather is in.
   */
  function OwmPrimary(hitCurrent: Option<Json>, hitForecast: Option<Json>, script: seq<Reply>, start: nat, baseUrl: string)
    : (p: Primary)
    ensures p.result.Ok? ==> p.result.value.source == OWM_SOURCE
  {
    var o1 := Request(hitCurrent, script, start, MAX_RETRIES, EndpointUrl(baseUrl, "weather"));
    if o1.result.Err? then Primary(Err(o1.result.error), o1.attempts)
    else
      var q := ForecastStep(o1.result.value, hitForecast, script, start + o1.attempts, baseUrl);
      Primary(q.result, o1.attempts + q.attempts)
  }

  /** The `try` block fails with the current-weather request, or goes on with the forecast step. */
  lemma PrimaryAfterCurrent(hitCurrent: Option<Json>, hitForecast: Option<Json>, script: seq<Reply>, start: nat, baseUrl: string,
                            current: Result<Json, PyError>, at: nat)
    requires start <= at
    requires Request(hitCurrent, script, start, MAX_RETRIES, EndpointUrl(baseUrl, "weather")) == Outcome(current, at - start)
    ensures var p := OwmPrimary(hitCurrent, hitForecast, script, start, baseUrl);
      current.Err? ==> p.result == Err(current.error) && start + p.attempts == at
    ensures var p := OwmPrimary(hitCurrent, hitForecast, script, start, baseUrl);
      current.Ok? ==> var q := ForecastStep(current.value, hitForecast, script, at, baseUrl);
      p.result == q.result && start + p.attempts == at + q.attempts
  {
  }

  /** The reading is the primary one when the `try` block succeeds, else a fresh WeatherAPI.com client's, degraded. */
  lemma SnowAfterPrimary(hitCurrent: Option<Json>, hitForecast: Option<Json>, script: seq<Reply>, start: nat, baseUrl: string,
                         primary: Result<SnowReport, PyError>, spent: nat, at: nat)
    requires OwmPrimary(hitCurrent, hitForecast, script, start, baseUrl) == Primary(primary, spent)
    requires at == start + spent
    ensures primary.Ok? ==> OwmSnow(hitCurrent, hitForecast, script, start, baseUrl) == Fetched(primary.value, spent)
    ensures primary.Err? ==> var o := FreshWeatherApi(script, at);
      OwmSnow(hitCurrent, hitForecast, script, start, baseUrl) == Fetched(Degrade(primary, WeatherApiSnow(o)), spent + o.attempts)
  {
    if primary.Err? {
      assert OwmSnow(hitCurrent, hitForecast, script, start, baseUrl) == Fallback(primary, script, at, spent);
    }
  }

  /** The rest of that `try` block once the current weather is in: the forecast request, then the extraction. */
  function ForecastStep(current: Json, hitForecast: Option<Json>, script: seq<Reply>, at: nat, baseUrl: string): Primary {
    var o2 := Request(hitForecast, script, at, MAX_RETRIES, EndpointUrl(baseUrl, "forecast"));
    if o2.result.Err? then Primary(Err(o2.result.error), o2.attempts)
    else Primary(OwmExtract(current, o2.result.value), o2.attempts)
  }

  /**
   * The whole OpenWeatherMap `get_snow_data`, which never fails: the reading
   * comes from OpenWeatherMap exactly when the `try` block succeeds;
   * otherwise it is the WeatherAPI.com reading with no forecast when that
   * one succeeds, and all zeros when not.
   */
  function OwmSnow(hitCurrent: Option<Json>, hitForecast: Option<Json>, script: seq<Reply>, start: nat, baseUrl: string): (f: Fetched)
    ensures var p := OwmPrimary(hitCurrent, hitForecast, script, start, baseUrl);
      var w := WeatherApiSnow(FreshWeatherApi(script, start + p.attempts));
      var r := f.report;
      (r.source == OWM_SOURCE || r.source == FALLBACK_SOURCE || r.source == DEFAULT_SOURCE) &&
      (r.source == OWM_SOURCE <==> p.result.Ok?) &&
      (p.result.Ok? ==> r == p.result.value) &&
      (r.source == FALLBACK_SOURCE <==> p.result.Err? && w.Ok?) &&
      (r.source == FALLBACK_SOURCE ==> r.currentSnow == w.value.snowInches && r.forecastSnow == 0.0) &&
      (r.source == DEFAULT_SOURCE ==> r == DEFAULT_REPORT)
    ensures f.attempts >= OwmPrimary(hitCurrent, hitForecast, script, start, baseUrl).attempts
  {
    var p := OwmPrimary(hitCurrent, hitForecast, script, start, baseUrl);
    if p.result.Ok? then Fetched(p.result.value, p.attempts)
    else Fallback(p.result, script, start + p.attempts, p.attempts)
  }

  /** With both payloads cached and readable, no request reaches the network. */
  lemma OwmSnowFromCache(current: Json, forecast: Json, script: seq<Reply>, start: nat, baseUrl: string)
    requires OwmExtract(current, forecast).Ok?
    ensures OwmSnow(Some(current), Some(forecast), script, start, baseUrl)
      == Fetched(OwmExtract(current, forecast).value, 0)
  {
  }

  // ---------------------------------------------------------------------
  // Verification against the secondary source

  /** The secondary record, with the resort name added. */
  datatype SecondaryData = SecondaryData(resort: string, reading: WeatherApiReading)

  /** Whether the two amounts agree, and what the secondary source said. */
  datatype Verification = Verification(verified: bool, secondary: Option<SecondaryData>, attempts: nat)

  /**
   * `verify_with_secondary_source` on the replies from `start` on: any
   * exception gives (False, None); otherwise the data is returned and
   * agreement means a difference of at most the threshold.
   */
  function VerifySpec(script: seq<Reply>, start: nat, resort: string, primaryInches: real, threshold: real): (v: Verification)
    ensures v.secondary.None? <==> WeatherApiSnow(FreshWeatherApi(script, start)).Err?
    ensures v.verified <==>
      v.secondary.Some? && Abs(primaryInches - v.secondary.value.reading.snowInches) <= threshold
    ensures v.secondary.Some? ==>
      (v.secondary.value.resort == resort &&
       v.secondary.value.reading.snowInches * 2.54 == v.secondary.value.reading.snowCm)
  {
    var o := FreshWeatherApi(script, start);
    match WeatherApiSnow(o)
    case Err(_) => Verification(false, None, o.attempts)
    case Ok(w) => Verification(Abs(primaryInches - w.snowInches) <= threshold, Some(SecondaryData(resort, w)), o.attempts)
  }

  // ---------------------------------------------------------------------
  // The clients

  class WeatherApiClient {
    const api: ApiClient

    constructor(apiKey: Option<string>, env: ClientEnv, net: Network, cacheEnabled: bool)
      ensures fresh(api) && api.net == net && api.cacheEnabled == cacheEnabled
      ensures api.apiKey == KeyOr(apiKey, env.weatherApi) && api.baseUrl == WEATHERAPI_BASE_URL && api.ttl == env.cacheTtl
      ensures api.cache == map[] && api.cacheExpiry == map[]
    {
      api := new ApiClient(KeyOr(apiKey, env.weatherApi), WEATHERAPI_BASE_URL, cacheEnabled, env.cacheTtl, net);
    }

    function ForecastKey(lat: Field, lon: Field): RequestKey {
      CacheKey("forecast.json", WeatherApiParams(lat, lon, api.apiKey, 1))
    }

    /** `get_snow_data`: one day of forecast, its snow converted to inches; may raise. */
    method GetSnowData(lat: Field, lon: Field, now: int) returns (r: Result<WeatherApiReading, PyError>)
      modifies api, api.net
      ensures var o := Request(old(api.Lookup(ForecastKey(lat, lon), now)), api.net.script, old(api.net.calls),
          MAX_RETRIES, EndpointUrl(api.baseUrl, "forecast.json"));
        r == WeatherApiSnow(o) && api.net.calls == old(api.net.calls) + o.attempts
      ensures old(api.net.pauses) <= api.net.pauses
      ensures PacingCount(api.net.pauses) == PacingCount(old(api.net.pauses))
    {
      var data := api.MakeRequest("forecast.json", WeatherApiParams(lat, lon, api.apiKey, 1), MAX_RETRIES, RETRY_DELAY, now);
      if data.Err? {
        return Err(data.error);
      }
      r := WeatherApiExtract(data.value);
    }
  }

  /** The outcome of the one request a fresh WeatherAPI.com client makes from reply `start` on. */
  function FreshWeatherApi(script: seq<Reply>, start: nat): Outcome {
    Request(None, script, start, MAX_RETRIES, EndpointUrl(WEATHERAPI_BASE_URL, "forecast.json"))
  }

  /** `WeatherApiClient().get_snow_data(lat, lon)` on a fresh client, whose cache is empty. */
  method AskWeatherApi(lat: Field, lon: Field, env: ClientEnv, net: Network, now: int)
    returns (r: Result<WeatherApiReading, PyError>)
    modifies net
    ensures var o := FreshWeatherApi(net.script, old(net.calls));
      r == WeatherApiSnow(o) && net.calls == old(net.calls) + o.attempts
    ensures old(net.pauses) <= net.pauses
    ensures PacingCount(net.pauses) == PacingCount(old(net.pauses))
  {
    var client := new WeatherApiClient(None, env, net, true);
    assert client.api.Lookup(client.ForecastKey(lat, lon), now) == None;
    r := client.GetSnowData(lat, lon, now);
  }

  /** The body of the OpenWeatherMap `try` once both payloads are in, with its loop. */
  method ReadPrimary(current: Json, forecast: Json) returns (r: Result<SnowReport, PyError>)
    ensures r == OwmExtract(current, forecast)
  {
    var now := CurrentSnow(current);
    if now.Err? {
      return Err(now.error);
    }
    var periods := Periods(forecast);
    if periods.Err? {
      return Err(periods.error);
    }
    var ahead := SumForecastPeriods(periods.value);
    if ahead.Err? {
      return Err(ahead.error);
    }
    var temp := CurrentTemp(current);
    if temp.Err? {
      return Err(temp.error);
    }
    var conditions := Conditions(current);
    if conditions.Err? {
      return Err(conditions.error);
    }
    r := Ok(SnowReport(now.value, ahead.value, temp.value, conditions.value, OWM_SOURCE));
  }

  class OpenWeatherMapClient {
    const api: ApiClient
    const env: ClientEnv

    constructor(apiKey: Option<string>, env: ClientEnv, net: Network, cacheEnabled: bool)
      ensures fresh(api) && api.net == net && api.cacheEnabled == cacheEnabled && this.env == env
      ensures api.apiKey == KeyOr(apiKey, env.openWeather) && api.baseUrl == OWM_BASE_URL && api.ttl == env.cacheTtl
      ensures api.cache == map[] && api.cacheExpiry == map[]
    {
      api := new ApiClient(KeyOr(apiKey, env.openWeather), OWM_BASE_URL, cacheEnabled, env.cacheTtl, net);
      this.env := env;
    }

    function CurrentKey(lat: Field, lon: Field): RequestKey {
      CacheKey("weather", OwmParams(lat, lon, api.apiKey))
    }

    function ForecastKey(lat: Field, lon: Field): RequestKey {
      CacheKey("forecast", OwmParams(lat, lon, api.apiKey))
    }

    /** `get_current_weather` / `get_forecast`: one OpenWeatherMap request through the shared client. */
    method Ask(endpoint: string, lat: Field, lon: Field, now: int, ghost hit: Option<Json>) returns (r: Result<Json, PyError>)
      requires hit == api.Lookup(CacheKey(endpoint, OwmParams(lat, lon, api.apiKey)), now)
      modifies api, api.net
      ensures var o := Request(hit, api.net.script, old(api.net.calls), MAX_RETRIES, EndpointUrl(api.baseUrl, endpoint));
        r == o.result && api.net.calls == old(api.net.calls) + o.attempts
      ensures var key := CacheKey(endpoint, OwmParams(lat, lon, api.apiKey));
        (api.cache == old(api.cache) || (r.Ok? && api.cache == old(api.cache)[key := r.value])) &&
        (api.cacheExpiry == old(api.cacheExpiry) || api.cacheExpiry == old(api.cacheExpiry)[key := now + api.ttl])
      ensures PacingCount(api.net.pauses) == PacingCount(old(api.net.pauses))
    {
      r := api.MakeRequest(endpoint, OwmParams(lat, lon, api.apiKey), MAX_RETRIES, RETRY_DELAY, now);
    }

    /** The `try` block of `get_snow_data`: current weather, the forecast, the extraction. */
    method ReadOwm(lat: Field, lon: Field, now: int, ghost hitCurrent: Option<Json>, ghost hitForecast: Option<Json>)
      returns (primary: Result<SnowReport, PyError>)
      requires hitCurrent == api.Lookup(CurrentKey(lat, lon), now) && hitForecast == api.Lookup(ForecastKey(lat, lon), now)
      modifies api, api.net
      ensures var p := OwmPrimary(hitCurrent, hitForecast, api.net.script, old(api.net.calls), api.baseUrl);
        primary == p.result && api.net.calls == old(api.net.calls) + p.attempts
      ensures PacingCount(api.net.pauses) == PacingCount(old(api.net.pauses))
    {
      ghost var start := api.net.calls;
      var current := Ask("weather", lat, lon, now, hitCurrent);
      PrimaryAfterCurrent(hitCurrent, hitForecast, api.net.script, start, api.baseUrl, current, api.net.calls);
      if current.Err? {
        return Err(current.error);
      }
      assert api.Lookup(ForecastKey(lat, lon), now) == hitForecast by {
        assert CurrentKey(lat, lon) != ForecastKey(lat, lon) by {
          assert CurrentKey(lat, lon).endpoint == "weather";
        }
      }
      primary := ReadForecast(current.value, lat, lon, now, hitForecast);
    }

    /** The forecast half of that `try` block, once the current weather is in. */
    method ReadForecast(current: Json, lat: Field, lon: Field, now: int, ghost hit: Option<Json>)
      returns (primary: Result<SnowReport, PyError>)
      requires hit == api.Lookup(ForecastKey(lat, lon), now)
      modifies api, api.net
      ensures var q := ForecastStep(current, hit, api.net.script, old(api.net.calls), api.baseUrl);
        primary == q.result && api.net.calls == old(api.net.calls) + q.attempts
      ensures PacingCount(api.net.pauses) == PacingCount(old(api.net.pauses))
    {
      var forecast := Ask("forecast", lat, lon, now, hit);
      if forecast.Err? {
        return Err(forecast.error);
      }
      primary := ReadPrimary(current, forecast.value);
    }

    /**
     * `get_snow_data`: any exception in the `try` block falls back to a
     * fresh WeatherAPI.com client, and a failure there to the zeroed record.
     */
    method GetSnowData(lat: Field, lon: Field, now: int) returns (r: SnowReport)
      modifies api, api.net
      ensures var f := OwmSnow(old(api.Lookup(CurrentKey(lat, lon), now)), old(api.Lookup(ForecastKey(lat, lon), now)),
          api.net.script, old(api.net.calls), api.baseUrl);
        r == f.report && api.net.calls == old(api.net.calls) + f.attempts
      ensures PacingCount(api.net.pauses) == PacingCount(old(api.net.pauses))
    {
      ghost var hitCurrent, hitForecast := api.Lookup(CurrentKey(lat, lon), now), api.Lookup(ForecastKey(lat, lon), now);
      ghost var start := api.net.calls;
      var primary := ReadOwm(lat, lon, now, hitCurrent, hitForecast);
      SnowAfterPrimary(hitCurrent, hitForecast, api.net.script, start, api.baseUrl, primary, api.net.calls - start, api.net.calls);
      if primary.Ok? {
        return primary.value;
      }
      var secondary := AskWeatherApi(lat, lon, env, api.net, now);
      r := Degrade(primary, secondary);
    }
  }

  // ---------------------------------------------------------------------
  // Helpers used by the processor

  /** The primary reading with the resort name added. */
  datatype ResortSnow = ResortSnow(resort: string, report: SnowReport)

  /** `get_resort_snow_data`: a fresh OpenWeatherMap client's reading; never raises. */
  method GetResortSnowData(resort: string, lat: Field, lon: Field, env: ClientEnv, net: Network, now: int)
    returns (r: ResortSnow)
    modifies net
    ensures var f := OwmSnow(None, None, net.script, old(net.calls), OWM_BASE_URL);
      r == ResortSnow(resort, f.report) && net.calls == old(net.calls) + f.attempts
    ensures PacingCount(net.pauses) == PacingCount(old(net.pauses))
  {
    var client := new OpenWeatherMapClient(None, env, net, true);
    var report := client.GetSnowData(lat, lon, now);
    r := ResortSnow(resort, report);
  }

  /**
   * `verify_with_secondary_source`: one pacing sleep, then a fresh
   * WeatherAPI.com client's reading compared with the primary amount.
   */
  method VerifyWithSecondarySource(resort: string, lat: Field, lon: Field, primaryInches: real, threshold: real,
                                   env: ClientEnv, net: Network, now: int)
    returns (verified: bool, secondary: Option<SecondaryData>)
    modifies net
    ensures var v := VerifySpec(net.script, old(net.calls), resort, primaryInches, threshold);
      verified == v.verified && secondary == v.secondary && net.calls == old(net.calls) + v.attempts
    ensures |net.pauses| > |old(net.pauses)| && net.pauses[|old(net.pauses)|] == Pacing(VERIFY_PACING)
    ensures PacingCount(net.pauses) == PacingCount(old(net.pauses)) + 1
  {
    net.Sleep(Pacing(VERIFY_PACING));
    ghost var paced := net.pauses;
    var reading := AskWeatherApi(lat, lon, env, net, now);
    assert [Pacing(VERIFY_PACING)][..0] == [];
    PacingCountAppend(old(net.pauses), [Pacing(VERIFY_PACING)]);
    PacingCountAppend(paced, net.pauses[|paced|..]);
    assert paced + net.pauses[|paced|..] == net.pauses;
    if reading.Err? {
      return false, None;
    }
    var w := reading.value;
    verified := Abs(primaryInches - w.snowInches) <= threshold;
    secondary := Some(SecondaryData(resort, w));
  }
}
