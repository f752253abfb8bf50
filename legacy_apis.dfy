/**
 * The older, standalone extraction path over OpenWeatherMap's one-call
 * reply: yesterday's snow from `daily[0]`, tomorrow's from `daily[1:2]`,
 * with transport and parsing failures re-raised under two distinct
 * messages; and its own two-source verification against WeatherAPI.com.
 * Each function takes the one reply its request received.
 */
module LegacyApis {
  import opened Wrappers
  import opened JsonValues
  import opened Net
  import opened SnowPayload

  const LEGACY_SOURCE := "OpenWeatherMap"
  const SECONDARY_SOURCE := "WeatherAPI.com"
  const RETRIEVE_PREFIX := "Failed to retrieve weather data: "
  const PARSE_PREFIX := "Failed to parse weather data: "
  /** The default of the VERIFICATION_THRESHOLD setting, in inches. */
  const DEFAULT_VERIFICATION_THRESHOLD := 2.0

  /** The record the legacy `get_resort_snow_data` returns; snow is passed through as read. */
  datatype LegacyReport = LegacyReport(
    resort: string,
    currentSnow: Json,
    forecastSnow: real,
    currentTemp: Json,
    conditions: Json,
    source: string)

  /** The secondary record the legacy verification returns. */
  datatype LegacySecondary = LegacySecondary(resort: string, snowCm: real, snowInches: real, source: string)

  /** `data.get("daily", [{}])[0].get("snow", 0)`. */
  function DailySnow(data: Json): (r: Result<Json, PyError>)
    ensures data.JObj? && "daily" !in data.fields ==> r == Ok(JNum(0.0))
    ensures data.JObj? && "daily" in data.fields && data.fields["daily"] == JArr([]) ==>
      r == Err(IndexError("list index out of range"))
    ensures (data.JObj? && "daily" in data.fields && data.fields["daily"].JArr? &&
             data.fields["daily"].items != [] && data.fields["daily"].items[0].JObj?) ==>
      var day := data.fields["daily"].items[0];
      r == Ok(if "snow" in day.fields then day.fields["snow"] else JNum(0.0))
  {
    var daily :- Get(data, "daily", JArr([JObj(map[])]));
    var first :- Index0(daily);
    Get(first, "snow", JNum(0.0))
  }

  /** `xs[1:2]` for the kinds of value `daily` can be. */
  function SecondOnly(j: Json): (r: Result<seq<Json>, PyError>)
    ensures r.Ok? ==> |r.value| <= 1
    ensures j.JArr? ==> r == Ok(if |j.items| >= 2 then [j.items[1]] else [])
  {
    match j
    case JArr(items) => Ok(if |items| >= 2 then [items[1]] else [])
    case JStr(s) => Ok(if |s| >= 2 then [JStr([s[1]])] else [])
    case JObj(_) => Err(TypeError("unhashable type: 'slice'"))
    case _ => Err(TypeError("'" + TypeName(j) + "' object is not subscriptable"))
  }

  /** `sum(day.get("snow", 0) for day in data.get("daily", [])[1:2])`. */
  function TomorrowSnow(data: Json): (r: Result<real, PyError>)
    ensures data.JObj? && "daily" !in data.fields ==> r == Ok(0.0)
    ensures data.JObj? && "daily" in data.fields && data.fields["daily"].JArr? ==>
      var items := data.fields["daily"].items;
      (|items| < 2 ==> r == Ok(0.0)) &&
      (|items| >= 2 && items[1].JObj? && "snow" !in items[1].fields ==> r == Ok(0.0)) &&
      (|items| >= 2 && items[1].JObj? && "snow" in items[1].fields && items[1].fields["snow"].JNum? ==>
        r == Ok(items[1].fields["snow"].num))
  {
    var daily :- Get(data, "daily", JArr([]));
    var days :- SecondOnly(daily);
    if days == [] then Ok(0.0)
    else
      var snow :- Get(days[0], "snow", JNum(0.0));
      AddNumber(0.0, snow, "+")
  }

  /** `data.get("current", {}).get("temp", 0)`. */
  function OneCallTemp(data: Json): Result<Json, PyError> {
    var current :- Get(data, "current", JObj(map[]));
    Get(current, "temp", JNum(0.0))
  }

  /** `data.get("current", {}).get("weather", [{}])[0].get("description", "")`. */
  function OneCallConditions(data: Json): Result<Json, PyError> {
    var current :- Get(data, "current", JObj(map[]));
    Conditions(current)
  }

  /** The body of the `try` after the reply arrived, in statement order. */
  function LegacyExtract(resort: string, data: Json): (r: Result<LegacyReport, PyError>)
    ensures r.Ok? <==> (DailySnow(data).Ok? && TomorrowSnow(data).Ok? &&
      OneCallTemp(data).Ok? && OneCallConditions(data).Ok?)
    ensures r.Ok? ==>
      (r.value.resort == resort && r.value.source == LEGACY_SOURCE &&
       Ok(r.value.currentSnow) == DailySnow(data) && Ok(r.value.forecastSnow) == TomorrowSnow(data))
    ensures r.Err? ==>
      (r.error ==
        if DailySnow(data).Err? then DailySnow(data).error
        else if TomorrowSnow(data).Err? then TomorrowSnow(data).error
        else if OneCallTemp(data).Err? then OneCallTemp(data).error
        else OneCallConditions(data).error)
  {
    var current :- DailySnow(data);
    var forecast :- TomorrowSnow(data);
    var temp :- OneCallTemp(data);
    var conditions :- OneCallConditions(data);
    Ok(LegacyReport(resort, current, forecast, temp, conditions, LEGACY_SOURCE))
  }

  /** The two `except` clauses: which exceptions are re-raised, under which message. */
  function MapError(e: PyError): (r: PyError)
    ensures e.RequestError? ==> r == Exception(RETRIEVE_PREFIX + e.msg)
    ensures e.KeyError? || e.IndexError? || e.ValueError? ==> r == Exception(PARSE_PREFIX + e.msg)
    ensures !(e.RequestError? || e.KeyError? || e.IndexError? || e.ValueError?) ==> r == e
  {
    match e
    case RequestError(m) => Exception(RETRIEVE_PREFIX + m)
    case KeyError(m) => Exception(PARSE_PREFIX + m)
    case IndexError(m) => Exception(PARSE_PREFIX + m)
    case ValueError(m) => Exception(PARSE_PREFIX + m)
    case _ => e
  }

  /** The legacy `get_resort_snow_data`, given the reply its one request received. */
  function LegacySnowData(resort: string, reply: Reply): (r: Result<LegacyReport, PyError>)
    ensures reply.Failure? ==> r == Err(Exception(RETRIEVE_PREFIX + reply.reason))
    ensures reply.Success? ==>
      (r.Ok? <==> LegacyExtract(resort, reply.body).Ok?) &&
      (r.Ok? ==> r == LegacyExtract(resort, reply.body)) &&
      (r.Err? ==> r.error == MapError(LegacyExtract(resort, reply.body).error))
  {
    match reply
    case Failure(reason) => Err(MapError(RequestError(reason)))
    case Success(data) =>
      match LegacyExtract(resort, data)
      case Ok(report) => Ok(report)
      case Err(e) => Err(MapError(e))
  }

  /** An empty `daily` list is reported as a parsing failure. */
  lemma EmptyDailyIsParseError(resort: string, data: Json)
    requires data.JObj? && "daily" in data.fields && data.fields["daily"] == JArr([])
    ensures LegacySnowData(resort, Success(data)) == Err(Exception(PARSE_PREFIX + "list index out of range"))
  {
  }

  /** A reply without `daily` or `current` reads as no snow, a temperature of 0 and no conditions. */
  lemma NoDailyNoSnow(resort: string, data: Json)
    requires data.JObj? && "daily" !in data.fields && "current" !in data.fields
    ensures LegacySnowData(resort, Success(data))
      == Ok(LegacyReport(resort, JNum(0.0), 0.0, JNum(0.0), JStr(""), LEGACY_SOURCE))
  {
  }

  /** The legacy verification: the snow in centimetres and its conversion, or the exception. */
  function LegacySecondaryReading(resort: string, reply: Reply): (r: Result<LegacySecondary, PyError>)
    ensures r.Ok? <==> reply.Success? && TotalSnowCm(reply.body).Ok? && TotalSnowCm(reply.body).value.JNum?
    ensures r.Ok? ==>
      (TotalSnowCm(reply.body) == Ok(JNum(r.value.snowCm)) &&
       r.value.snowInches * 2.54 == r.value.snowCm && r.value.resort == resort && r.value.source == SECONDARY_SOURCE)
  {
    match reply
    case Failure(reason) => Err(RequestError(reason))
    case Success(data) =>
      var cm :- TotalSnowCm(data);
      var inches :- CmToInches(cm);
      Ok(LegacySecondary(resort, cm.num, inches, SECONDARY_SOURCE))
  }

  /**
   * The legacy `verify_with_secondary_source`: never raises; any exception
   * gives (False, None), otherwise the secondary record comes back whether
   * or not the amounts agree within the threshold.
   */
  function LegacyVerify(resort: string, reply: Reply, primaryInches: real, threshold: real)
    : (v: (bool, Option<LegacySecondary>))
    ensures v.1.None? <==> LegacySecondaryReading(resort, reply).Err?
    ensures v.1.Some? ==> v.1.value == LegacySecondaryReading(resort, reply).value
    ensures v.0 <==> v.1.Some? && Abs(primaryInches - v.1.value.snowInches) <= threshold
  {
    match LegacySecondaryReading(resort, reply)
    case Err(_) => (false, None)
    case Ok(s) => (Abs(primaryInches - s.snowInches) <= threshold, Some(s))
  }
}
