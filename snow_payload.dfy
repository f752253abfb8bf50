/**
 * What the weather clients read out of the provider payloads: current and
 * forecast snow from OpenWeatherMap's `weather` and `forecast` replies, and
 * snow in centimetres from WeatherAPI.com's `forecast.json` reply.
 *
 * The OpenWeatherMap snow readers exist twice: `...AsWritten` follows the
 * published code line by line, the unsuffixed version is the corrected
 * reading the rest of the model uses (see the README's Findings).
 */
module SnowPayload {
  import opened Wrappers
  import opened JsonValues

  const OWM_SOURCE := "OpenWeatherMap (Free API)"
  const FALLBACK_SOURCE := "Fallback: WeatherAPI.com"
  const DEFAULT_SOURCE := "Default values (API errors)"
  const DEFAULT_CONDITIONS := "Error fetching data"

  /** Three-hour forecast periods summed: 8 periods = 24 hours. */
  const FORECAST_PERIODS := 8

  /** The record `get_snow_data` of the OpenWeatherMap client returns. */
  datatype SnowReport = SnowReport(
    currentSnow: real,
    forecastSnow: real,
    currentTemp: Json,
    conditions: Json,
    source: string)

  /** The record `get_snow_data` of the WeatherAPI.com client returns. */
  datatype WeatherApiReading = WeatherApiReading(
    snowCm: real,
    snowInches: real,
    currentTemp: Json,
    conditions: Json)

  // ---------------------------------------------------------------------
  // OpenWeatherMap snow, as written

  /**
   * Current snow as the published code reads it: `snow.1h`, and when that is
   * falsy the whole `snow` value, whatever it is.
   */
  function CurrentSnowAsWritten(current: Json): (r: Result<Json, PyError>)
    ensures r.Ok? <==> current.JObj? && ("snow" in current.fields ==> current.fields["snow"].JObj?)
    ensures r.Ok? && "snow" !in current.fields ==> r.value == JNum(0.0)
  {
    var snow :- Get(current, "snow", JObj(map[]));
    var hour :- Get(snow, "1h", JNum(0.0));
    if Truthy(hour) then Ok(hour) else Get(current, "snow", JNum(0.0))
  }

  /**
   * One forecast period's snow as the published code reads it; the
   * `isinstance` branch is only tried after `.get` on the same value
   * succeeded, that is when it is a dict.
   */
  function PeriodSnowAsWritten(period: Json): (r: Result<Json, PyError>)
    ensures r.Ok? <==> period.JObj? && ("snow" in period.fields ==> period.fields["snow"].JObj?)
  {
    var snow :- Get(period, "snow", JObj(map[]));
    var three :- Get(snow, "3h", JNum(0.0));
    var raw := Get(period, "snow", JNull).value;
    if !Truthy(three) && raw.JNum? then Get(period, "snow", JNum(0.0)) else Ok(three)
  }

  /** The scalar-`snow` branch of the period reader never yields anything. */
  lemma PeriodSnowAsWrittenIsThreeHour(period: Json)
    requires PeriodSnowAsWritten(period).Ok?
    ensures PeriodSnowAsWritten(period) == Get(Get(period, "snow", JObj(map[])).value, "3h", JNum(0.0))
  {
  }

  // ---------------------------------------------------------------------
  // OpenWeatherMap snow, corrected

  /**
   * The snow amount of a `weather` reply or of a forecast period: the number
   * under `snow.<window>` (0 when absent), or `snow` itself when the provider
   * sends a bare number; no `snow` at all means 0.
   */
  function SnowReading(item: Json, window: string): (r: Result<real, PyError>)
    ensures r.Ok? <==> item.JObj? && ("snow" in item.fields ==> SnowShaped(item.fields["snow"], window))
    ensures r.Ok? && "snow" !in item.fields ==> r.value == 0.0
    ensures r.Ok? && "snow" in item.fields && item.fields["snow"].JNum? ==> r.value == item.fields["snow"].num
  {
    var snow :- Get(item, "snow", JObj(map[]));
    match snow
    case JNum(n) => Ok(n)
    case JObj(f) => AddNumber(0.0, if window in f then f[window] else JNum(0.0), "+=")
    case _ => Err(AttributeError("'" + TypeName(snow) + "' object has no attribute 'get'"))
  }

  /** A `snow` value the corrected reader accepts. */
  predicate SnowShaped(snow: Json, window: string) {
    snow.JNum? || (snow.JObj? && (window in snow.fields ==> snow.fields[window].JNum?))
  }

  function CurrentSnow(current: Json): (r: Result<real, PyError>)
  {
    SnowReading(current, "1h")
  }

  function PeriodSnow(period: Json): (r: Result<real, PyError>)
  {
    SnowReading(period, "3h")
  }

  /** Wherever the published reader yields a number, the corrected one yields the same. */
  lemma CurrentSnowAgrees(current: Json, n: real)
    requires CurrentSnowAsWritten(current) == Ok(JNum(n))
    ensures CurrentSnow(current) == Ok(n)
  {
  }

  lemma PeriodSnowAgrees(period: Json, n: real)
    requires PeriodSnowAsWritten(period) == Ok(JNum(n))
    ensures PeriodSnow(period) == Ok(n)
  {
  }

  /** A `snow` object without `1h` comes back whole as the current snow. */
  lemma CurrentSnowObjectLeaks()
    ensures var payload := JObj(map["snow" := JObj(map["3h" := JNum(1.5)])]);
      CurrentSnowAsWritten(payload) == Ok(JObj(map["3h" := JNum(1.5)])) &&
      CurrentSnow(payload) == Ok(0.0)
  {
  }

  /**
   * A `1h` that is not a number comes back as the current snow, or, when it
   * is falsy, the whole `snow` object does; the corrected reader fails.
   */
  lemma NonNumericHourLeaks()
    ensures var listed := JObj(map["snow" := JObj(map["1h" := JArr([JNum(1.0)])])]);
      CurrentSnowAsWritten(listed) == Ok(JArr([JNum(1.0)])) && CurrentSnow(listed).Err?
    ensures var empty := JObj(map["snow" := JObj(map["1h" := JObj(map[])])]);
      CurrentSnowAsWritten(empty) == Ok(JObj(map["1h" := JObj(map[])])) && CurrentSnow(empty).Err?
  {
  }

  /** A bare numeric `snow` makes the published readers raise. */
  lemma ScalarSnowRejected()
    ensures var payload := JObj(map["snow" := JNum(2.0)]);
      CurrentSnowAsWritten(payload).Err? && CurrentSnow(payload) == Ok(2.0) &&
      PeriodSnowAsWritten(payload).Err? && PeriodSnow(payload) == Ok(2.0)
  {
  }

  // ---------------------------------------------------------------------
  // Forecast periods

  /** `forecast.get("list", [])[:8]`, as the items the loop visits. */
  function Periods(forecast: Json): (r: Result<seq<Json>, PyError>)
    ensures r.Ok? ==> |r.value| <= FORECAST_PERIODS
    ensures forecast.JObj? && "list" in forecast.fields && forecast.fields["list"].JArr? ==>
      var items := forecast.fields["list"].items;
      r == Ok(if |items| <= FORECAST_PERIODS then items else items[..FORECAST_PERIODS])
    ensures forecast.JObj? && "list" !in forecast.fields ==> r == Ok([])
  {
    var list :- Get(forecast, "list", JArr([]));
    match list
    case JArr(items) => Ok(if |items| <= FORECAST_PERIODS then items else items[..FORECAST_PERIODS])
    case JStr(s) =>
      var n := if |s| <= FORECAST_PERIODS then |s| else FORECAST_PERIODS;
      Ok(seq(n, i requires 0 <= i < n => JStr([s[i]])))
    case JObj(_) => Err(TypeError("unhashable type: 'slice'"))
    case _ => Err(TypeError("'" + TypeName(list) + "' object is not subscriptable"))
  }

  /** The forecast total: the period readings added up in order, the first bad one raising. */
  function SumSnow(periods: seq<Json>): (r: Result<real, PyError>)
  {
    if periods == [] then Ok(0.0)
    else
      var total :- SumSnow(periods[..|periods| - 1]);
      var last :- PeriodSnow(periods[|periods| - 1]);
      Ok(total + last)
  }

  /** The total succeeds exactly when every period's reading does. */
  lemma {:induction false} SumSnowOk(periods: seq<Json>)
    ensures SumSnow(periods).Ok? <==> forall i :: 0 <= i < |periods| ==> PeriodSnow(periods[i]).Ok?
  {
    if periods != [] {
      var init := periods[..|periods| - 1];
      SumSnowOk(init);
      assert forall i :: 0 <= i < |init| ==> init[i] == periods[i];
    }
  }

  /** The last period's reading is added to the total of the others. */
  lemma SumSnowLast(periods: seq<Json>)
    requires periods != [] && SumSnow(periods).Ok?
    ensures SumSnow(periods[..|periods| - 1]).Ok? && PeriodSnow(periods[|periods| - 1]).Ok?
    ensures SumSnow(periods).value ==
      SumSnow(periods[..|periods| - 1]).value + PeriodSnow(periods[|periods| - 1]).value
  {
  }

  /** Totals add up over consecutive stretches of periods. */
  lemma {:induction false} SumSnowAppend(a: seq<Json>, b: seq<Json>)
    requires SumSnow(a).Ok? && SumSnow(b).Ok?
    ensures SumSnow(a + b).Ok? && SumSnow(a + b).value == SumSnow(a).value + SumSnow(b).value
  {
    if b == [] {
      assert a + b == a;
    } else {
      var init, last := b[..|b| - 1], b[|b| - 1];
      SumSnowLast(b);
      SumSnowAppend(a, init);
      var c := a + init;
      SumSnowSnoc(c, last);
      assert b == init + [last];
      assert a + b == c + [last];
    }
  }

  /** One more period adds its reading to the total. */
  lemma SumSnowSnoc(init: seq<Json>, p: Json)
    requires SumSnow(init).Ok? && PeriodSnow(p).Ok?
    ensures SumSnow(init + [p]) == Ok(SumSnow(init).value + PeriodSnow(p).value)
  {
    var s := init + [p];
    assert s[..|s| - 1] == init;
    assert s[|s| - 1] == p;
  }

  /** Periods reporting no snow contribute nothing. */
  lemma {:induction false} SumSnowNoSnow(periods: seq<Json>)
    requires forall i :: 0 <= i < |periods| ==> periods[i].JObj? && "snow" !in periods[i].fields
    ensures SumSnow(periods) == Ok(0.0)
  {
    if periods != [] {
      SumSnowNoSnow(periods[..|periods| - 1]);
    }
  }

  /** With every reading non-negative, so is the total. */
  lemma {:induction false} SumSnowNonNegative(periods: seq<Json>)
    requires forall i :: 0 <= i < |periods| ==> PeriodSnow(periods[i]).Ok? && PeriodSnow(periods[i]).value >= 0.0
    ensures SumSnow(periods).Ok? && SumSnow(periods).value >= 0.0
  {
    if periods != [] {
      var init := periods[..|periods| - 1];
      assert forall i :: 0 <= i < |init| ==> init[i] == periods[i];
      SumSnowNonNegative(init);
    }
  }

  /** The `for` loop over the forecast periods, accumulating `forecast_snow`. */
  method SumForecastPeriods(periods: seq<Json>) returns (r: Result<real, PyError>)
    ensures r == SumSnow(periods)
  {
    var total := 0.0;
    var i := 0;
    while i < |periods|
      invariant 0 <= i <= |periods|
      invariant SumSnow(periods[..i]) == Ok(total)
    {
      assert periods[..i + 1][..i] == periods[..i];
      var reading := PeriodSnow(periods[i]);
      if reading.Err? {
        assert SumSnow(periods[..i + 1]).Err?;
        SumSnowPrefixErr(periods, i + 1);
        return Err(reading.error);
      }
      total := total + reading.value;
      i := i + 1;
    }
    assert periods[..i] == periods;
    r := Ok(total);
  }

  /** Once a prefix fails, the whole list fails with the same error. */
  lemma {:induction false} SumSnowPrefixErr(periods: seq<Json>, k: nat)
    requires k <= |periods| && SumSnow(periods[..k]).Err?
    ensures SumSnow(periods) == SumSnow(periods[..k])
    decreases |periods| - k
  {
    if k < |periods| {
      assert periods[..k + 1][..k] == periods[..k];
      SumSnowPrefixErr(periods, k + 1);
    } else {
      assert periods[..k] == periods;
    }
  }

  // ---------------------------------------------------------------------
  // Whole payloads

  /** `current.get("weather", [{}])[0].get("description", "")`. */
  function Conditions(current: Json): Result<Json, PyError> {
    var weather :- Get(current, "weather", JArr([JObj(map[])]));
    var first :- Index0(weather);
    Get(first, "description", JStr(""))
  }

  /** `current.get("main", {}).get("temp", 0)`. */
  function CurrentTemp(current: Json): Result<Json, PyError> {
    var main :- Get(current, "main", JObj(map[]));
    Get(main, "temp", JNum(0.0))
  }

  /**
   * The body of the OpenWeatherMap `try` once both replies are in: current
   * snow, the forecast total, temperature and conditions.
   */
  function OwmExtract(current: Json, forecast: Json): (r: Result<SnowReport, PyError>)
    ensures r.Ok? ==> r.value.source == OWM_SOURCE
    ensures r.Ok? ==> Ok(r.value.currentSnow) == CurrentSnow(current)
    ensures r.Ok? ==> Periods(forecast).Ok? && Ok(r.value.forecastSnow) == SumSnow(Periods(forecast).value)
    ensures r.Ok? <==> (CurrentSnow(current).Ok? && Periods(forecast).Ok? &&
      SumSnow(Periods(forecast).value).Ok? && CurrentTemp(current).Ok? && Conditions(current).Ok?)
  {
    var now :- CurrentSnow(current);
    var periods :- Periods(forecast);
    var ahead :- SumSnow(periods);
    var temp :- CurrentTemp(current);
    var conditions :- Conditions(current);
    Ok(SnowReport(now, ahead, temp, conditions, OWM_SOURCE))
  }

  /** The forecast loop as published: `forecast_snow += period_snow`, raising on a reading that is not a number. */
  function SumSnowAsWritten(periods: seq<Json>): (r: Result<real, PyError>)
  {
    if periods == [] then Ok(0.0)
    else
      var total :- SumSnowAsWritten(periods[..|periods| - 1]);
      var last :- PeriodSnowAsWritten(periods[|periods| - 1]);
      AddNumber(total, last, "+=")
  }

  /** Wherever the published loop adds up, the corrected total is the same. */
  lemma {:induction false} SumSnowAgrees(periods: seq<Json>)
    requires SumSnowAsWritten(periods).Ok?
    ensures SumSnow(periods) == SumSnowAsWritten(periods)
  {
    if periods != [] {
      var init, last := periods[..|periods| - 1], periods[|periods| - 1];
      SumSnowAgrees(init);
      var reading := PeriodSnowAsWritten(last);
      assert reading.Ok? && reading.value.JNum?;
      PeriodSnowAgrees(last, reading.value.num);
    }
  }

  /** The record the published code builds, with `current_snow` whatever the reader returned. */
  datatype RawReport = RawReport(currentSnow: Json, forecastSnow: real, currentTemp: Json, conditions: Json)

  /** The body of the OpenWeatherMap `try` as published, on the readers as written. */
  function OwmExtractAsWritten(current: Json, forecast: Json): (r: Result<RawReport, PyError>)
    ensures r.Ok? ==> Ok(r.value.currentSnow) == CurrentSnowAsWritten(current)
  {
    var now :- CurrentSnowAsWritten(current);
    var periods :- Periods(forecast);
    var ahead :- SumSnowAsWritten(periods);
    var temp :- CurrentTemp(current);
    var conditions :- Conditions(current);
    Ok(RawReport(now, ahead, temp, conditions))
  }

  /**
   * Wherever the published extraction succeeds with a number as the current
   * snow, the corrected one gives the same record.
   */
  lemma OwmExtractAgrees(current: Json, forecast: Json)
    requires OwmExtractAsWritten(current, forecast).Ok? && OwmExtractAsWritten(current, forecast).value.currentSnow.JNum?
    ensures var raw := OwmExtractAsWritten(current, forecast).value;
      OwmExtract(current, forecast) == Ok(SnowReport(raw.currentSnow.num, raw.forecastSnow, raw.currentTemp, raw.conditions, OWM_SOURCE))
  {
    var raw := OwmExtractAsWritten(current, forecast).value;
    CurrentSnowAgrees(current, raw.currentSnow.num);
    SumSnowAgrees(Periods(forecast).value);
  }

  /**
   * A bare numeric forecast `snow` makes the published extraction raise
   * (so the client falls back), where the corrected one counts it.
   */
  lemma ScalarPeriodFallsBack()
    ensures var forecast := JObj(map["list" := JArr([JObj(map["snow" := JNum(1.0)])])]);
      OwmExtractAsWritten(JObj(map[]), forecast).Err? &&
      OwmExtract(JObj(map[]), forecast).Ok? && OwmExtract(JObj(map[]), forecast).value.forecastSnow == 1.0
  {
    var forecast := JObj(map["list" := JArr([JObj(map["snow" := JNum(1.0)])])]);
    var periods := [JObj(map["snow" := JNum(1.0)])];
    assert Periods(forecast) == Ok(periods);
    assert periods[..0] == [];
    assert PeriodSnowAsWritten(periods[0]).Err?;
  }

  /** `data.get("forecast", {}).get("forecastday", [{}])[0].get("day", {}).get("totalsnow_cm", 0)`. */
  function TotalSnowCm(data: Json): Result<Json, PyError> {
    var forecast :- Get(data, "forecast", JObj(map[]));
    var days :- Get(forecast, "forecastday", JArr([JObj(map[])]));
    var first :- Index0(days);
    var day :- Get(first, "day", JObj(map[]));
    Get(day, "totalsnow_cm", JNum(0.0))
  }

  /** `data.get("current", {}).get("condition", {}).get("text", "")`. */
  function ConditionText(data: Json): Result<Json, PyError> {
    var current :- Get(data, "current", JObj(map[]));
    var condition :- Get(current, "condition", JObj(map[]));
    Get(condition, "text", JStr(""))
  }

  /** `data.get("current", {}).get("temp_f", 0)`. */
  function TempF(data: Json): Result<Json, PyError> {
    var current :- Get(data, "current", JObj(map[]));
    Get(current, "temp_f", JNum(0.0))
  }

  /** The WeatherAPI.com reading: today's total snow, converted to inches. */
  function WeatherApiExtract(data: Json): (r: Result<WeatherApiReading, PyError>)
    ensures r.Ok? ==> r.value.snowInches * 2.54 == r.value.snowCm
    ensures r.Ok? ==> TotalSnowCm(data) == Ok(JNum(r.value.snowCm))
    ensures r.Ok? <==> (TotalSnowCm(data).Ok? && TotalSnowCm(data).value.JNum? &&
      TempF(data).Ok? && ConditionText(data).Ok?)
  {
    var cm :- TotalSnowCm(data);
    var inches :- CmToInches(cm);
    var temp :- TempF(data);
    var conditions :- ConditionText(data);
    Ok(WeatherApiReading(cm.num, inches, temp, conditions))
  }

  /** A payload without a `forecast` section reads as no snow. */
  lemma WeatherApiNoForecast(data: Json)
    requires data.JObj? && "forecast" !in data.fields && "current" !in data.fields
    ensures WeatherApiExtract(data) == Ok(WeatherApiReading(0.0, 0.0, JNum(0.0), JStr("")))
  {
  }

  /** An empty `forecastday` list makes the reading raise. */
  lemma WeatherApiEmptyForecastDays(data: Json)
    requires data.JObj? && "forecast" in data.fields
    requires data.fields["forecast"] == JObj(map["forecastday" := JArr([])])
    ensures WeatherApiExtract(data) == Err(IndexError("list index out of range"))
  {
  }
}
