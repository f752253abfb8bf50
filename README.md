# Snowfall alert system — a verified model of its core

The snowfall alert system checks a list of ski resorts on a schedule. For
each resort it does the following:

- it reads current and forecast snow from OpenWeatherMap;
- when the current amount reaches the light threshold, it asks WeatherAPI.com
  to confirm that amount;
- it classifies the amount as light, moderate or heavy;
- it sends an alert only for confirmed data whose category is not in
  cooldown for that resort.

Beneath this sit the following pieces:

- an HTTP client base with a response cache and a retry loop with
  exponential backoff;
- an OpenWeatherMap client that never raises. It falls back to WeatherAPI.com
  first, then to a zeroed record;
- an older one-call extraction path that runs on its own;
- validators for the resort table and for the process environment;
- filters over the resort table.

This project models all of these in Dafny and proves what each of them
promises. The modules follow the program's files:

| module (file) | models |
|---|---|
| `Alerts` (alerts.dfy) | classification, time windows, the cooldown log, the trigger decision |
| `Processor` (processor.dfy) | `SnowfallProcessor`: one resort, a whole run, the processor object |
| `ApiClients` (api_client.dfy) | `WeatherAPIClient`: cache key, cache, retry loop with backoff |
| `SnowPayload` (snow_payload.dfy) | what the clients read out of the provider payloads |
| `WeatherClient` (weather_client.dfy) | both `get_snow_data` methods, the degradation chain, `get_resort_snow_data`, `verify_with_secondary_source` |
| `LegacyApis` (legacy_apis.dfy) | the one-call `get_resort_snow_data` and its verification |
| `ResortValidator` (resort_validator.dfy) | `validate_resort_data`, `validate_all_resorts` |
| `ResortConfig` (resort_config.dfy) | `ENABLED_RESORTS`, `get_enabled_resorts`, `get_resort_by_region`, `get_resort_coordinates` |
| `EnvValidator` (env_validator.dfy) | `get_environment`, `get_missing_variables`, `validate_environment_variables`, `check_for_default_values` |
| `Resorts` (resorts.dfy) | the configured table of ten resorts |
| `JsonValues`, `Fields`, `Net`, `Dicts`, `Strings`, `Wrappers` | decoded JSON, Python values, the scripted network, ordered dictionaries, string operations, Option/Result |

The model treats the outside world as follows:

- **The network** is a `Net.Network` object. It answers requests from a fixed
  script of replies, in call order, and counts its calls.
- **`time.sleep`** only appends the requested pause to a ghost log. Backoff
  pauses and pacing pauses are kept apart in that log.
- **The clock** is an explicit `now` in whole seconds, and it does not advance
  while the model runs.
- **The environment** is a `map<string, string>`. What the client module
  reads from it when loaded (the two API keys and `CACHE_TTL`) is a
  `WeatherClient.ClientEnv` value.
- **Settings** are parameters (`Alerts.Settings`):
  - the thresholds, 2/6/12 inches by default;
  - the verification tolerance, 2.0 inches;
  - the cooldown, 12 hours.
- **Snow amounts** are exact reals.
- **Python dictionaries whose order matters** are sequences of pairs with
  distinct keys (`Dicts.Dict`). These are the resort table, the request
  parameters and the result maps.

## Model

| member | source | states |
|---|---|---|
| Alerts.Classify | src/core/processor.py:106-123 | heavy, moderate, light and none each hold exactly when the amount passes the `>=` tests in that order; an amount equal to a threshold gets the higher category |
| Alerts.ClassifyMonotone | src/core/processor.py:116-123 | with light <= moderate <= heavy, more snow never gives a lower category |
| Alerts.AlertMeansLightReached | src/core/processor.py:116-123 | with ordered thresholds, the category is not "none" exactly when the amount reaches the light threshold |
| Alerts.DefaultBoundaries | src/config/settings.py:26-32 | with the default 2/6/12 thresholds: 1.9 is none, 2 is light, 6 is moderate and 12 is heavy |
| Alerts.TimeWindows | src/core/processor.py:125-153 | current_24h and forecast_24h are the reading's amounts, 0 when absent; total_48h is their sum |
| Alerts.Record | src/core/processor.py:92-104 | the resort and category are stamped with `now`; every other resort and category keeps its entry; the resort is added to the log's keys |
| Alerts.InCooldown | src/core/processor.py:69-90 | a resort and category are in cooldown exactly when the log holds an alert for them and fewer than `cooldown` hours have passed since it |
| Alerts.RecordStartsCooldown | src/core/processor.py:69-104 | for a positive cooldown, a category just recorded is in cooldown at that instant |
| Alerts.CooldownExpires | src/core/processor.py:81-90 | after a recorded alert, the category is in cooldown exactly while now < last + hours * 3600 (strict) |
| Alerts.RecordKeepsOthers | src/core/processor.py:100-104 | recording one resort and category leaves the cooldown of every other resort and category as it was |
| Alerts.ShouldTrigger | src/core/processor.py:155-191 | unverified data at or above light gives (False, None); otherwise an alert fires exactly for a real category not in cooldown; the category is returned iff an alert fires, and it is the classification of current_24h |
| Alerts.TriggerMeansVerified | src/core/processor.py:172-191 | with ordered thresholds, every alert that fires was verified |
| Alerts.NoRepeatAlert | src/core/processor.py:155-191 | once an alert has fired and been recorded, the same reading at the same instant does not fire again |
| Processor.ProcessSpec | src/core/processor.py:193-266 | the result names the resort and carries its data; the network call count never goes back |
| Processor.AssessSpec | src/core/processor.py:223-260 | once the coordinates unpack: the primary reading, then the decision from the reply it stopped at; the call count never goes back |
| Processor.DecideSpec | src/core/processor.py:236-260 | the decision once the primary record is in; the call count never goes back |
| Processor.AssessAfterFetch | src/core/processor.py:229-231 | the rest of the resort depends on the primary fetch only through its record and the number of replies it used |
| Processor.MissingCoordinatesNoFetch | src/core/processor.py:218-221 | a resort without coordinates gets the error "Missing coordinates", with no request, no pacing sleep, no alert and no log change |
| Processor.ErrorMeansNoAlert | src/core/processor.py:216-264 | a resort whose result holds an error has no alert, left the cooldown log as it was and made no request |
| Processor.VerifiesOnlyAboveLight | src/core/processor.py:241-249 | the second source is asked exactly when the coordinates unpack and the primary current snow reaches the light threshold; otherwise the result is unverified and has no secondary data |
| Processor.AlertRecordsCooldown | src/core/processor.py:251-260 | an alert carries the category of the primary amount, fires only when that category was not in cooldown, and is stamped in the log at `now`; without an alert the log is unchanged and there is no category |
| Processor.AlertOnlyWhenVerified | src/core/processor.py:241-260 | with ordered thresholds, an alert fires only after the second source was asked and confirmed the amount |
| Processor.AssessAlertVerified | src/core/processor.py:241-260 | once the coordinates unpack, with ordered thresholds, an alert implies the amount was verified and the second source was asked |
| Processor.DecideAlertVerified | src/core/processor.py:241-260 | the same for any primary record and any reply position |
| Processor.SecondPassQuiet | src/core/processor.py:251-260 | for a positive cooldown, a second pass at the same instant that sees the same primary reading raises no alert once the first pass raised one |
| Processor.Tally | src/core/processor.py:285-293 | one more result is appended under its resort name and resorts_processed grows by one |
| Processor.Extend | src/core/processor.py:283-293 | one more resort appends its result under its name and adds one to the processed count |
| Processor.AllSpec | src/core/processor.py:268-295 | resorts_processed is the number of resorts and of results; alerts_triggered and errors count the results whose alert flag or non-empty error is set |
| Processor.AllSpecStep | src/core/processor.py:283-293 | the run over one more resort is the previous run extended by that resort's step, with the log and call count the previous resorts left |
| Processor.OneResultPerResort | src/core/processor.py:283-285 | result i is the result of resort i, under its name and with its data, so one failing resort does not stop the loop |
| Processor.ResultsAreDict | src/core/processor.py:280-285 | with distinct resort names, the results are a dictionary keyed by resort name |
| Processor.SnowfallProcessor.constructor | src/core/processor.py:36-45 | uses the given resorts, or else the enabled resorts of the configured table; the cooldown log starts empty |
| Processor.SnowfallProcessor.UpdateLastAlertTime | src/core/processor.py:92-104 | the log becomes `Record` of the old log: only that resort and category is restamped |
| Processor.SnowfallProcessor.Assess | src/core/processor.py:223-260 | the result, the log and the call count are those of `AssessSpec`; exactly one pacing sleep when the second source is asked, none otherwise |
| Processor.SnowfallProcessor.Decide | src/core/processor.py:236-260 | for a primary reading already fetched, the result, the log and the call count are those of `DecideSpec`; exactly one pacing sleep when the second source is asked |
| Processor.SnowfallProcessor.ProcessResort | src/core/processor.py:193-266 | the result, the new log and the new call count are those of `ProcessSpec`; the pacing sleeps are counted as there |
| Processor.SnowfallProcessor.CountResult | src/core/processor.py:285-293 | the counters updated for one result are `Tally`'s: processed plus one, alerts plus one iff the alert flag is set, errors plus one iff the error is present and non-empty |
| Processor.SnowfallProcessor.ProcessAllResorts | src/core/processor.py:268-295 | the summary, the new log and the new call count are those of `AllSpec` over the processor's resorts |
| ApiClients.CacheKey | src/weather/client.py:50-65 | the key holds the endpoint and the parameters sorted by name, with the same parameters |
| ApiClients.CacheKeyCanonical | src/weather/client.py:50-65 | two requests have the same key exactly when their endpoints match and their parameter sets match, whatever the parameter order |
| ApiClients.Retry | src/weather/client.py:131-164 | at most max_retries attempts; every attempt before the last one failed; success is the first successful reply; total failure raises the last attempt's error after max_retries attempts; no attempt raises the generic error |
| ApiClients.Request | src/weather/client.py:120-125 | a cache hit returns the cached payload with zero network attempts |
| ApiClients.NoAttemptsAllowed | src/weather/client.py:161-164 | with max_retries <= 0, no attempt is made and the generic "Request to <url> failed for unknown reason" error is raised |
| ApiClients.AllAttemptsFail | src/weather/client.py:131-164 | when every attempt fails, exactly max_retries attempts are made and the last failure is raised |
| ApiClients.RetryAllFail | src/weather/client.py:131-161 | from any retry count below max_retries, all-failing replies end in the last failure after max_retries attempts |
| ApiClients.BackoffSchedule | src/weather/client.py:150-157 | sleep j of the loop lasts retry_delay * 2^j seconds |
| ApiClients.BackoffDoubles | src/weather/client.py:150-157 | each backoff sleep is twice the previous one |
| ApiClients.BackoffHasNoPacing | src/weather/client.py:150-157 | the retry loop's sleeps are all backoff sleeps, never pacing sleeps |
| ApiClients.ApiClient.constructor | src/weather/client.py:31-48 | the key, base URL and cache flag are stored; the TTL is the configured `CACHE_TTL`; both cache dictionaries start empty |
| ApiClients.ApiClient.IsCacheValid | src/weather/client.py:67-82 | an entry is valid exactly when the key is cached, has an expiry, and that expiry is still ahead |
| ApiClients.ApiClient.Lookup | src/weather/client.py:67-82 | a cached payload is served exactly when caching is on, the key is in both dictionaries and now < expiry (strict) |
| ApiClients.ApiClient.CacheResponse | src/weather/client.py:84-93 | that key gets the payload and the expiry now + TTL; it is valid exactly before that expiry; every other key's validity is unchanged |
| ApiClients.ApiClient.RetryLoop | src/weather/client.py:131-164 | the result and the number of calls are those of `Retry`; the sleeps made are the backoff schedule with no sleep after the last attempt |
| ApiClients.ApiClient.MakeRequest | src/weather/client.py:95-164 | a valid cache entry is answered with no call; otherwise the result is the retry loop's, and a success is cached when caching is on; no pacing sleep is made |
| SnowPayload.CurrentSnowAsWritten | src/weather/client.py:267-269 | as written: the reader fails unless the reply and its `snow` are dicts, and no `snow` reads as 0 |
| SnowPayload.PeriodSnowAsWritten | src/weather/client.py:276-278 | as written: the reader fails unless the period and its `snow` are dicts |
| SnowPayload.PeriodSnowAsWrittenIsThreeHour | src/weather/client.py:276-278 | as written, whatever the period reader yields is `snow.3h`; the `isinstance` branch never contributes |
| SnowPayload.SnowReading | src/weather/client.py:266-278 | corrected: the reading succeeds exactly for a dict whose `snow` is absent, a number, or a dict with a numeric window entry; absent snow is 0 and a bare number is taken as is |
| SnowPayload.CurrentSnow | src/weather/client.py:267-269 | corrected: the current snow is the reading under the `1h` window |
| SnowPayload.PeriodSnow | src/weather/client.py:276-278 | corrected: a period's snow is the reading under the `3h` window |
| SnowPayload.CurrentSnowAgrees | src/weather/client.py:267-269 | wherever the published current-snow reader yields a number, the corrected one yields the same |
| SnowPayload.PeriodSnowAgrees | src/weather/client.py:276-278 | wherever the published period reader yields a number, the corrected one yields the same |
| SnowPayload.CurrentSnowObjectLeaks | src/weather/client.py:267-269 | for the reply {"snow": {"3h": 1.5}}, the published reader returns the whole `snow` object; the corrected one returns 0 |
| SnowPayload.ScalarSnowRejected | src/weather/client.py:267-278 | for {"snow": 2.0}, both published readers raise; the corrected ones read 2.0 |
| SnowPayload.NonNumericHourLeaks | src/weather/client.py:267-269 | a `1h` list is returned as the current snow, and an empty `1h` dict brings back the whole `snow` object; the corrected reader fails on both |
| SnowPayload.Periods | src/weather/client.py:275 | the loop visits at most 8 periods: the first 8 entries of `list`, all of them when there are fewer, none when `list` is absent |
| SnowPayload.SumSnow | src/weather/client.py:272-279 | the forecast total over the periods in order, on the corrected period reader, failing at the first period that does not read |
| SnowPayload.SumSnowOk | src/weather/client.py:272-279 | the total succeeds exactly when every period reads successfully |
| SnowPayload.SumSnowLast | src/weather/client.py:275-279 | the last period's snow is added to the total of the others |
| SnowPayload.SumSnowSnoc | src/weather/client.py:275-279 | one more readable period adds its reading to a readable total |
| SnowPayload.SumSnowAppend | src/weather/client.py:272-279 | totals add up over consecutive stretches of periods |
| SnowPayload.SumSnowNoSnow | src/weather/client.py:276 | periods without `snow` add up to 0 |
| SnowPayload.SumSnowNonNegative | src/weather/client.py:272-279 | with non-negative period readings, the total is non-negative |
| SnowPayload.SumForecastPeriods | src/weather/client.py:272-279 | the accumulating `for` loop computes `SumSnow`, stopping at the first period that raises |
| SnowPayload.SumSnowPrefixErr | src/weather/client.py:275-279 | once a prefix of the periods fails, the whole total fails with the same error |
| SnowPayload.OwmExtract | src/weather/client.py:266-292 | success exactly when current snow, the periods, their total, the temperature and the conditions all read; the record then holds the current snow, the forecast total and the OpenWeatherMap source |
| SnowPayload.SumSnowAsWritten | src/weather/client.py:272-279 | as written: `forecast_snow += period_snow` over the published period reader, raising on a reading that is not a number |
| SnowPayload.SumSnowAgrees | src/weather/client.py:272-279 | wherever the published loop adds up, the corrected total is the same |
| SnowPayload.OwmExtractAsWritten | src/weather/client.py:266-292 | as written: the record holds whatever the published current-snow reader returned |
| SnowPayload.OwmExtractAgrees | src/weather/client.py:266-292 | wherever the published extraction succeeds with a number as the current snow, the corrected one gives the same record |
| SnowPayload.ScalarPeriodFallsBack | src/weather/client.py:275-279 | a forecast period {"snow": 1.0} makes the published extraction raise, where the corrected one counts 1.0 |
| SnowPayload.WeatherApiExtract | src/weather/client.py:384-406 | snow_inches * 2.54 == snow_cm, where snow_cm is `forecast.forecastday[0].day.totalsnow_cm`; success exactly when that path, the temperature and the conditions read and the snow is a number |
| SnowPayload.WeatherApiNoForecast | src/weather/client.py:387-397 | a reply without `forecast` and `current` reads as no snow, temperature 0 and empty conditions |
| SnowPayload.WeatherApiEmptyForecastDays | src/weather/client.py:387-389 | an empty `forecastday` list raises IndexError |
| WeatherClient.OwmParamsKeys | src/weather/client.py:195-200 | the OpenWeatherMap request carries exactly lat, lon, units and appid |
| WeatherClient.WeatherApiParams | src/weather/client.py:369 | the WeatherAPI.com request carries exactly q, days and key |
| WeatherClient.Degrade | src/weather/client.py:285-322 | a primary reading is returned as is; otherwise the WeatherAPI.com inches become the current snow with forecast 0 and the fallback source; if that also failed, every amount is 0 and the source is the default one |
| WeatherClient.Fallback | src/weather/client.py:294-322 | after a failed primary reading: no forecast snow; the WeatherAPI.com source exactly when a fresh WeatherAPI.com client read its reply, otherwise the default record |
| WeatherClient.PrimaryAfterCurrent | src/weather/client.py:261-265 | a failed `weather` request ends the primary path with its error; otherwise the path goes on with the forecast step from the next reply |
| WeatherClient.OwmPrimary | src/weather/client.py:261-292 | a successful `try` block gives a record with the OpenWeatherMap source |
| WeatherClient.ForecastStep | src/weather/client.py:264-292 | the rest of the `try` block once the current weather is in: the forecast request, then `OwmExtract` |
| WeatherClient.SnowAfterPrimary | src/weather/client.py:250-322 | a successful primary path is the reading; otherwise a fresh WeatherAPI.com client is asked from the next reply and the result degraded |
| WeatherClient.OwmSnow | src/weather/client.py:250-322 | the OpenWeatherMap reading never raises: its source is primary exactly when the primary path succeeded (and the record is then the primary reading), fallback exactly when the primary failed and WeatherAPI.com succeeded, otherwise the default record |
| WeatherClient.OwmSnowFromCache | src/weather/client.py:120-125 | with both OpenWeatherMap replies cached and readable, the reading is the extracted record with no network call |
| WeatherClient.VerifySpec | src/weather/client.py:449-500 | the secondary data is absent exactly when the WeatherAPI.com reading failed; verified iff it is present and abs(primary - snow_inches) <= threshold (inclusive); the data carries the resort name and snow_inches * 2.54 == snow_cm |
| WeatherClient.WeatherApiClient.constructor | src/weather/client.py:325-340 | the given key, or else the configured one, and the WeatherAPI.com base URL; an empty cache |
| WeatherClient.WeatherApiClient.GetSnowData | src/weather/client.py:373-406 | the result is the extracted WeatherAPI.com reading of the `forecast.json` request, or its error; no pacing sleep |
| WeatherClient.AskWeatherApi | src/weather/client.py:297-299 | the fallback builds a fresh WeatherAPI.com client and returns its reading, with no pacing sleep |
| WeatherClient.ReadPrimary | src/weather/client.py:266-292 | the reading of the two replies equals `OwmExtract`, on the corrected snow readers |
| WeatherClient.OpenWeatherMapClient.constructor | src/weather/client.py:167-182 | the given key, or else the configured one, and the OpenWeatherMap base URL; an empty cache |
| WeatherClient.OpenWeatherMapClient.Ask | src/weather/client.py:184-222 | `get_current_weather`/`get_forecast`: the result and the calls are `Request`'s for that endpoint from the cache state found; the cache changes at most at that request's key; no pacing sleep |
| WeatherClient.OpenWeatherMapClient.ReadOwm | src/weather/client.py:261-292 | the `weather` then `forecast` requests and the reading equal `OwmPrimary` from the cache state the method started with |
| WeatherClient.OpenWeatherMapClient.ReadForecast | src/weather/client.py:264-292 | the `forecast` request and the reading equal the forecast step from the cache state found |
| WeatherClient.OpenWeatherMapClient.GetSnowData | src/weather/client.py:250-322 | the record and the call count are those of `OwmSnow` from the starting cache state; no pacing sleep |
| WeatherClient.GetResortSnowData | src/weather/client.py:412-446 | a fresh client's `OwmSnow` reading, labelled with the resort name; never raises |
| WeatherClient.VerifyWithSecondarySource | src/weather/client.py:449-500 | the verdict and secondary data are `VerifySpec`'s; exactly one pacing sleep comes first |
| LegacyApis.DailySnow | src/weather/apis.py:63-64 | current snow is `daily[0].snow`, 0 when `daily` or `snow` is absent; an empty `daily` raises IndexError |
| LegacyApis.SecondOnly | src/weather/apis.py:67-69 | `daily[1:2]` holds at most one day: the second one when there are at least two |
| LegacyApis.TomorrowSnow | src/weather/apis.py:67-69 | forecast snow is the second day's snow, and 0 when `daily` is absent or has fewer than two days |
| LegacyApis.LegacyExtract | src/weather/apis.py:61-94 | success exactly when every lookup succeeds, and the record then holds those values; otherwise the first failing lookup's error |
| LegacyApis.MapError | src/weather/apis.py:96-101 | request errors are re-raised as "Failed to retrieve weather data: ...", KeyError/IndexError/ValueError as "Failed to parse weather data: ...", anything else unchanged |
| LegacyApis.LegacySnowData | src/weather/apis.py:28-101 | a transport failure raises the retrieve message; a reply gives the extracted record or the mapped parsing error |
| LegacyApis.EmptyDailyIsParseError | src/weather/apis.py:63-101 | an empty `daily` list is reported as a parsing failure |
| LegacyApis.NoDailyNoSnow | src/weather/apis.py:63-75 | a reply without `daily` and `current` reads as zero snow, temperature 0 and empty conditions |
| LegacyApis.LegacySecondaryReading | src/weather/apis.py:137-166 | success exactly when the reply arrived and its total snow is a number; snow_inches * 2.54 == snow_cm |
| LegacyApis.LegacyVerify | src/weather/apis.py:104-181 | the secondary record is absent exactly when reading it failed; verified iff it is present and abs(primary - snow_inches) <= threshold; the record is returned whether or not it agrees |
| ResortValidator.AbsentMembers | src/utils/resort_validator.py:38-40 | a field is listed as absent exactly when it is one of the fields and not in the settings |
| ResortValidator.MissingErrorsNameAbsent | src/utils/resort_validator.py:36-40 | one "Missing required field: f" message per absent field, in the declared order |
| ResortValidator.CoordinateErrors | src/utils/resort_validator.py:43-52 | no error exactly when the coordinates are absent or a numeric in-range pair (inclusive bounds); at most one error, with precedence shape, then type, then range |
| ResortValidator.ElevationErrors | src/utils/resort_validator.py:55-60 | no error exactly when the elevation is absent or a number in [0, 30000]; otherwise exactly one error: the type error iff it is not numeric |
| ResortValidator.WebsiteErrors | src/utils/resort_validator.py:63-68 | no error exactly when the website is absent or a string starting with http:// or https://; otherwise exactly one error: the type error iff it is not a string |
| ResortValidator.OptionalError | src/utils/resort_validator.py:71-80 | at most one error; none exactly when the field is absent, or `vertical_drop` is numeric, or `region`/`type` is a string |
| ResortValidator.OptionalErrorsEmpty | src/utils/resort_validator.py:71-80 | the optional checks report nothing exactly when each field's check reports nothing |
| ResortValidator.NoOptionalErrorsEach | src/utils/resort_validator.py:71-80 | an empty optional-error list means every field's check passed |
| ResortValidator.SomeOptionalError | src/utils/resort_validator.py:71-80 | a non-empty optional-error list names a field whose check failed |
| ResortValidator.NoneMissing | src/utils/resort_validator.py:38-40 | no required field is missing exactly when all three are present |
| ResortValidator.ResortErrorsEmptyIff | src/utils/resort_validator.py:20-88 | the error list is empty exactly when the settings are well formed, extra unknown keys allowed |
| ResortValidator.MissingReportedFirst | src/utils/resort_validator.py:38-40 | the absent required fields are reported first, one message each, in the declared order |
| ResortValidator.ResortErrors | src/utils/resort_validator.py:20-88 | the errors in the order the source finds them: missing required fields, coordinates, elevation, website, optional fields |
| ResortValidator.CheckCoordinates | src/utils/resort_validator.py:43-52 | the coordinates block appends exactly `CoordinateErrors` |
| ResortValidator.CheckElevation | src/utils/resort_validator.py:55-60 | the elevation block appends exactly `ElevationErrors` |
| ResortValidator.CheckWebsite | src/utils/resort_validator.py:63-68 | the website block appends exactly `WebsiteErrors` |
| ResortValidator.CheckRequired | src/utils/resort_validator.py:38-40 | the required-field loop yields the missing-field messages |
| ResortValidator.CheckOptional | src/utils/resort_validator.py:71-80 | the optional-field loop appends the optional errors in the fields' order |
| ResortValidator.ValidateResortData | src/utils/resort_validator.py:20-88 | is_valid iff the error list is empty iff the settings are well formed; the list is every error in reporting order |
| ResortValidator.Failures | src/utils/resort_validator.py:91-115 | the failing resorts in table order, each with its error list |
| ResortValidator.FailuresGet | src/utils/resort_validator.py:104-108 | a resort is listed exactly when its error list is not empty, mapped to that list |
| ResortValidator.FailuresStep | src/utils/resort_validator.py:104-108 | one more resort adds its entry exactly when it fails |
| ResortValidator.ValidateAllResorts | src/utils/resort_validator.py:91-115 | the loop returns exactly the failing resorts, each with its own error list |
| ResortValidator.ResortEntryValid | src/utils/resort_validator.py:20-88 | settings built from in-range numbers and an https address pass validation |
| ResortValidator.ConfiguredEntryValid | src/config/resorts.py:9-90 | each configured resort passes validation |
| ResortValidator.RowsInRange | src/config/resorts.py:9-90 | every configured resort has in-range coordinates, an elevation in [0, 30000] and an https website |
| ResortValidator.ConfiguredResortsValid | src/utils/resort_validator.py:91-115 | validating the configured table reports no failure |
| ResortValidator.AllValidNoFailures | src/utils/resort_validator.py:104-108 | a table whose every entry validates reports no failure |
| Resorts.ResortTableData | src/config/resorts.py:9-90 | ten resorts, in declaration order, with distinct names |
| Resorts.NamesDistinct | src/config/resorts.py:9-90 | no two configured resorts share a name |
| ResortConfig.EnabledResorts | src/config/resort_config.py:18-21 | an empty setting means unset; otherwise the comma-separated names, each stripped |
| ResortConfig.EnabledResortsJoin | src/config/resort_config.py:18-21 | names without commas or stray whitespace, joined with commas, read back as the same names |
| ResortConfig.EnabledFrom | src/config/resort_config.py:35-46 | the enabled names the table knows, in the order given, each with its table entry |
| ResortConfig.EnabledFromGet | src/config/resort_config.py:35-46 | an enabled name known to the table maps to its table entry; any other name is absent |
| ResortConfig.EnabledFromKeys | src/config/resort_config.py:35-46 | the enabled resorts are exactly the enabled names the table knows, so they are a subset of the table |
| ResortConfig.GetEnabledResorts | src/config/resort_config.py:24-46 | the whole table when the setting is unset or empty, otherwise what the loop collects |
| ResortConfig.ResortsByRegion | src/config/resort_config.py:49-61 | exactly the table entries whose region is the given one |
| ResortConfig.ResortCoordinates | src/config/resort_config.py:64-80 | KeyError with the "not found in configuration" message for an unknown resort; otherwise the stored coordinates, or KeyError("coordinates") when there are none |
| EnvValidator.GetEnvironment | src/config/env_validator.py:68-79 | the result is always a known environment: the lower-cased ENVIRONMENT (default "development") when known, else "development" |
| EnvValidator.EnvironmentIgnoresCase | src/config/env_validator.py:75 | two values of ENVIRONMENT that differ only in letter case select the same environment |
| EnvValidator.UnsetVars | src/config/env_validator.py:100 | a variable is listed exactly when it is in the group and unset or empty |
| EnvValidator.MissingFrom | src/config/env_validator.py:82-105 | the known groups asked for that have an unset variable, in the order asked, each with its unset variables |
| EnvValidator.MissingFromGet | src/config/env_validator.py:92-105 | a group is listed exactly when it was asked for, is known and has an unset variable, mapped to its unset variables in declared order |
| EnvValidator.GetMissingVariables | src/config/env_validator.py:82-105 | the loop, skipping unknown groups, yields `MissingFrom` |
| EnvValidator.NothingMissingIff | src/config/env_validator.py:92-105 | nothing is missing exactly when every variable of every known group asked for is set |
| EnvValidator.ValidateEnvironmentVariables | src/config/env_validator.py:108-140 | True exactly when every variable of every group the current environment requires is set |
| EnvValidator.FirstPattern | src/config/env_validator.py:171-174 | the first pattern, in list order, that occurs in the text, or none |
| EnvValidator.VarFindings | src/config/env_validator.py:169-178 | at most two findings per variable, and none for an empty value |
| EnvValidator.Findings | src/config/env_validator.py:167-178 | at most two findings per variable examined |
| EnvValidator.AtMostSixFindings | src/config/env_validator.py:167-178 | the three credentials give at most six findings |
| EnvValidator.UnsetReportsNothing | src/config/env_validator.py:168-169 | unset or empty variables are not reported at all |
| EnvValidator.FindingsStep | src/config/env_validator.py:167-178 | one more variable appends its own findings at the end |
| EnvValidator.CheckVariable | src/config/env_validator.py:167-178 | one pass of the outer loop appends exactly that variable's findings |
| EnvValidator.PatternFinding | src/config/env_validator.py:171-174 | the pattern scan reports the first matching pattern, then stops |
| EnvValidator.PatternIsFirst | src/config/env_validator.py:171-174 | any index whose pattern occurs, with no earlier pattern occurring, is the first pattern |
| EnvValidator.CheckForDefaultValues | src/config/env_validator.py:143-180 | the findings for the three credentials, in order |

## Left out

- Logging, `ExecutionTimer`, the Lambda handler and Slack posting, the live
  coordinate probes, and the import-time reads of settings: they are I/O or
  wall-clock concerns. The settings they read (thresholds, cooldown, the
  API keys and `CACHE_TTL`) are parameters instead.
- The md5 digest of the cache key. The key is the canonical
  (endpoint, sorted parameters) value that the digest is computed from.
  `json.dumps` prints a tuple and a list with the same items alike, so the
  source gives such parameters one key where `ApiClients.CacheKey` keeps them
  apart. No request the system builds has a list-valued parameter, so this
  changes no cache hit.
- Real sleeping and a clock that moves. The clock does not advance during
  sleeps, so cache expiry cannot pass in the middle of a call.
- Timestamps (`datetime.now().isoformat()`) in the returned records, and the
  processor's "timestamp" fields.
- JSON booleans. The model also does not tell Python ints from floats in the
  payloads; numbers are exact reals, so Python float rounding is not modelled.
- Unicode beyond what `Strings.Lower` and `Strings.Strip` handle: ASCII case
  folding and ASCII whitespace only.
- The WeatherAPI.com `q` parameter is the coordinate pair itself, not its
  "lat,lon" text.
- `get_one_call_data` and `WeatherApiClient.get_current_weather`: nothing in
  the core calls them. The WeatherAPI.com `get_forecast` wrapper is folded
  into `WeatherClient.WeatherApiClient.GetSnowData`; the OpenWeatherMap
  wrappers are `WeatherClient.OpenWeatherMapClient.Ask`.
- A reply body that is not JSON (a ValueError from `response.json()`). It is
  treated as a transport failure of the scripted network.
- `export_resorts_to_json`, `import_resorts_from_json` and `save_resort_data`:
  file I/O and a stub.
- `sys.exit` and the error logging in `validate_environment_variables`.
- The re-raise in the client's `get_resort_snow_data`. The OpenWeatherMap
  reading never raises, so that branch cannot be reached.
- The legacy module's pacing sleep and its own HTTP request. Each legacy
  function takes the one reply its request received.
- The threshold ordering light <= moderate <= heavy is never checked by the
  system. It appears only as a `requires` of the lemmas that need it.
- `ResortConfig.ResortCoordinates`: the KeyError carries the exception's
  argument, not its `str()` rendering with quotes.
- The `historical_data` argument of `calculate_time_window_data`. The source
  ignores it.
- `Processor.ProcessSpec`: the processor is modelled on the corrected snow
  readers. With the readers as written, a `snow` object without a non-zero
  `1h`, or with a `1h` that is not a number (a string, null, list or dict),
  reaches `calculate_time_window_data`, where adding it to a number raises a
  TypeError that ends up in the resort's `error`.
- `Processor.ProcessSpec`: an exception raised while reading the primary data
  is not modelled, since that reading cannot raise. On the corrected readers
  the only per-resort errors are then missing coordinates and coordinates
  that do not unpack into two values; the source as written also raises the
  TypeError above.
- The OpenWeatherMap snow readers are modelled as corrected (see Findings),
  and everything above them uses the corrected ones.
  `SnowPayload.OwmExtractAgrees` proves that the two agree wherever the
  published extraction succeeds with a number as the current snow. Outside
  that, the published code differs on three kinds of reply. (a) A bare
  numeric `snow` in the `weather` reply or in a forecast period raises
  AttributeError, so the published client falls back to WeatherAPI.com: one
  more request, forecast 0, source "Fallback: WeatherAPI.com". The model
  reads the amount instead. (b) A `weather` reply whose `snow` object has no
  `1h`, or a zero one, makes the whole object `current_snow`; the processor
  then raises a TypeError at src/core/processor.py:143-144 after the requests
  were made, so the resort's `error` is set and `errors` grows. The model
  reads 0 with no error. (c) A `1h` that is not a number (a string,
  null, list or dict) is returned by the published reader, or, when it is
  falsy (an empty string, list or dict, or null), the whole `snow` object is
  returned; either way the processor raises the same TypeError. The model's primary
  reading fails instead and falls back to WeatherAPI.com.
- `SnowPayload.OwmExtract`: states the corrected extraction; it differs from
  the published one on replies (a)-(c) above.
- `SnowPayload.SumForecastPeriods`: computes the corrected total `SumSnow`; for
  a bare numeric period `snow` (case (a)) the published loop raises instead.
- `WeatherClient.ForecastStep`: extracts with `OwmExtract`, so cases (a)-(c)
  differ as for that function.
- `WeatherClient.OwmPrimary`: succeeds on replies (a) and (b), where the
  published `try` block raises or yields a non-numeric current snow.
- `WeatherClient.OwmSnow`: on reply (a) gives the primary record, where the
  published client falls back to WeatherAPI.com with one more request.
- `WeatherClient.ReadPrimary`: equals `OwmExtract` on the corrected readers,
  not the published statements, on replies (a)-(c).
- `WeatherClient.OpenWeatherMapClient.ReadOwm`: its reading is `OwmPrimary`'s,
  so cases (a)-(c) differ as for that function.
- `WeatherClient.OpenWeatherMapClient.ReadForecast`: its reading is
  `ForecastStep`'s, so cases (a)-(c) differ as for that function.
- `WeatherClient.OpenWeatherMapClient.GetSnowData`: its record and call count
  are `OwmSnow`'s, so on reply (a) it makes one request fewer than the
  published client and reports the primary source.
- `WeatherClient.GetResortSnowData`: labels `OwmSnow`'s record, so cases
  (a)-(c) differ as for that function.
- `Processor.ErrorMeansNoAlert`: on the published readers, replies (b) and
  (c) set the resort's error after requests were made; the model promises
  "no request" only on the corrected readers.
- `Processor.AllSpec`: counts errors on the corrected readers; the published
  code also counts the TypeErrors of replies (b) and (c).

## Findings

| source | as written | input that shows it | evidently intended | confidence | as-written member | corrected member |
|---|---|---|---|---|---|---|
| src/weather/client.py:267-269 | when `snow.1h` is missing or zero, the whole `snow` value becomes `current_snow`, even when that value is a dict | a `weather` reply {"snow": {"3h": 1.5}} gives current_snow = {"3h": 1.5} | a missing `1h` reading counts as 0 inches | not executed | SnowPayload.CurrentSnowAsWritten, SnowPayload.CurrentSnowObjectLeaks, SnowPayload.NonNumericHourLeaks | SnowPayload.SnowReading |
| src/weather/client.py:267-278 | `.get` is called on `snow` before the "alternate format" fallback, so a bare numeric `snow` raises AttributeError and the `isinstance` branch never yields a number | a `weather` reply or forecast period {"snow": 2.0} raises, and the client falls back to WeatherAPI.com | a bare numeric `snow` is read as that amount | not executed | SnowPayload.PeriodSnowAsWritten, SnowPayload.ScalarSnowRejected, SnowPayload.ScalarPeriodFallsBack | SnowPayload.SnowReading |
