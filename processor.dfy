/**
 * The snowfall processor: for each resort it reads the primary snow data,
 * asks the second source to confirm amounts at or above the light
 * threshold, decides whether to alert and stamps the cooldown log; a
 * failure inside one resort is recorded in that resort's result and the run
 * goes on.  Every network exchange goes through one scripted `Network`, so
 * a run is pinned down by the script, the call count it starts at and `now`.
 */
module Processor {
  import opened Wrappers
  import opened Dicts
  import opened Fields
  import opened JsonValues
  import opened Net
  import opened SnowPayload
  import opened Resorts
  import opened ResortConfig
  import opened WeatherClient
  import opened Alerts

  const MISSING_COORDINATES := "Missing coordinates"

  /** `data.get(key)`: the stored value, or None. */
  function FieldOrNone(data: ResortData, key: string): Field {
    if key in data then data[key] else FNone
  }

  /** The primary reading with the resort's elevation and region added to it. */
  datatype PrimaryData = PrimaryData(snow: ResortSnow, elevation: Field, region: Field)

  /** The result dictionary `process_resort` builds; the optional keys are Options. */
  datatype ResortResult = ResortResult(
    resort: string,
    resortData: ResortData,
    alertTriggered: bool,
    alertCategory: Option<Category>,
    verified: bool,
    error: Option<string>,
    coordinates: Option<Field>,
    primary: Option<PrimaryData>,
    windows: Option<Windows>,
    secondary: Option<SecondaryData>)

  /** The result before anything has been looked at. */
  function Initial(name: string, data: ResortData): ResortResult {
    ResortResult(name, data, false, None, false, None, None, None, None, None)
  }

  /** `if resort_result.get("error")`: an error that is a non-empty message. */
  predicate HasError(r: ResortResult) {
    r.error.Some? && r.error.value != []
  }

  /**
   * One resort processed: its result, the cooldown log afterwards, the
   * network call count afterwards, and whether the second source was asked.
   */
  datatype Step = Step(result: ResortResult, log: AlertLog, calls: nat, paced: bool)

  /** The part of `process_resort` after the coordinates were unpacked. */
  function AssessSpec(s: Settings, log: AlertLog, script: seq<Reply>, start: nat,
                      name: string, data: ResortData, coords: Field, now: int): (st: Step)
    ensures st.calls >= start
  {
    var f := OwmSnow(None, None, script, start, OWM_BASE_URL);
    DecideSpec(s, log, script, start + f.attempts, name, data, coords, f.report, now)
  }

  /** Once the primary reading is in, what is left is the decision from the reply it stopped at. */
  lemma AssessAfterFetch(s: Settings, log: AlertLog, script: seq<Reply>, start: nat,
                         name: string, data: ResortData, coords: Field, now: int, report: SnowReport, at: nat)
    requires var f := OwmSnow(None, None, script, start, OWM_BASE_URL); report == f.report && at == start + f.attempts
    ensures AssessSpec(s, log, script, start, name, data, coords, now) == DecideSpec(s, log, script, at, name, data, coords, report, now)
  {
  }

  /**
   * The rest of it once the primary reading is in, with the replies from
   * `at` on: the second source is asked at or above the light threshold,
   * then the alert decision and the log stamp.
   */
  function DecideSpec(s: Settings, log: AlertLog, script: seq<Reply>, at: nat,
                      name: string, data: ResortData, coords: Field, report: SnowReport, now: int): (st: Step)
    ensures st.calls >= at
  {
    var primary := PrimaryData(ResortSnow(name, report), FieldOrNone(data, "elevation"), FieldOrNone(data, "region"));
    var w := TimeWindows(Some(report.currentSnow), Some(report.forecastSnow));
    var v :=
      if w.current24h >= s.light then
        VerifySpec(script, at, name, w.current24h, s.verificationThreshold)
      else Verification(false, None, 0);
    var t := ShouldTrigger(s, log, name, w.current24h, v.verified, now);
    var log' := if t.0 then Record(log, name, t.1.value, now) else log;
    Step(ResortResult(name, data, t.0, t.1, v.verified, None, Some(coords), Some(primary), Some(w), v.secondary),
         log', at + v.attempts, w.current24h >= s.light)
  }

  /** `process_resort` on the replies from `start` on. */
  function ProcessSpec(s: Settings, log: AlertLog, script: seq<Reply>, start: nat,
                       name: string, data: ResortData, now: int): (st: Step)
    ensures st.calls >= start
    ensures st.result.resort == name && st.result.resortData == data
  {
    if "coordinates" !in data then
      Step(Initial(name, data).(error := Some(MISSING_COORDINATES)), log, start, false)
    else
      var coords := data["coordinates"];
      match Unpack2(coords)
      case Err(e) => Step(Initial(name, data).(coordinates := Some(coords), error := Some(e.msg)), log, start, false)
      case Ok(_) => AssessSpec(s, log, script, start, name, data, coords, now)
  }

  /** A resort without coordinates is reported as such, with no request, no alert and no log change. */
  lemma MissingCoordinatesNoFetch(s: Settings, log: AlertLog, script: seq<Reply>, start: nat,
                                  name: string, data: ResortData, now: int)
    requires "coordinates" !in data
    ensures var st := ProcessSpec(s, log, script, start, name, data, now);
      st.result.error == Some(MISSING_COORDINATES) && !st.result.alertTriggered &&
      st.calls == start && st.log == log && !st.paced
  {
  }

  /** A failure inside the resort is reported in the result, and nothing is alerted, logged or requested. */
  lemma ErrorMeansNoAlert(s: Settings, log: AlertLog, script: seq<Reply>, start: nat,
                          name: string, data: ResortData, now: int)
    ensures var st := ProcessSpec(s, log, script, start, name, data, now);
      st.result.error.Some? ==> !st.result.alertTriggered && st.log == log && st.calls == start
  {
  }

  /**
   * The second source is asked exactly when the coordinates unpack and the
   * primary amount reaches the light threshold, and the result's verified
   * flag is then the agreement test's verdict.
   */
  lemma VerifiesOnlyAboveLight(s: Settings, log: AlertLog, script: seq<Reply>, start: nat,
                               name: string, data: ResortData, now: int)
    ensures var st := ProcessSpec(s, log, script, start, name, data, now);
      st.paced <==>
        ("coordinates" in data && Unpack2(data["coordinates"]).Ok? &&
         OwmSnow(None, None, script, start, OWM_BASE_URL).report.currentSnow >= s.light)
    ensures var st := ProcessSpec(s, log, script, start, name, data, now);
      !st.paced ==> !st.result.verified && st.result.secondary.None?
  {
  }

  /**
   * An alert is raised only for the category of the primary amount, only
   * when that category was not in cooldown, and the log then records it at
   * `now`; without an alert the log is unchanged.
   */
  lemma AlertRecordsCooldown(s: Settings, log: AlertLog, script: seq<Reply>, start: nat,
                             name: string, data: ResortData, now: int)
    ensures var st := ProcessSpec(s, log, script, start, name, data, now);
      st.result.alertTriggered ==>
        (st.result.windows.Some? && st.result.alertCategory == Some(Classify(s, st.result.windows.value.current24h)) &&
         !InCooldown(log, name, st.result.alertCategory.value, now, s.cooldownHours) &&
         st.log == Record(log, name, st.result.alertCategory.value, now))
    ensures var st := ProcessSpec(s, log, script, start, name, data, now);
      !st.result.alertTriggered ==> st.log == log && st.result.alertCategory.None?
  {
  }

  /** With ordered thresholds, an alert is raised only on data the second source confirmed. */
  lemma AlertOnlyWhenVerified(s: Settings, log: AlertLog, script: seq<Reply>, start: nat,
                              name: string, data: ResortData, now: int)
    requires Ordered(s)
    ensures var st := ProcessSpec(s, log, script, start, name, data, now);
      st.result.alertTriggered ==> st.result.verified && st.paced
  {
    if "coordinates" in data && Unpack2(data["coordinates"]).Ok? {
      AssessAlertVerified(s, log, script, start, name, data, data["coordinates"], now);
    }
  }

  /** The same, once the coordinates were unpacked. */
  lemma AssessAlertVerified(s: Settings, log: AlertLog, script: seq<Reply>, start: nat,
                            name: string, data: ResortData, coords: Field, now: int)
    requires Ordered(s)
    ensures var st := AssessSpec(s, log, script, start, name, data, coords, now);
      st.result.alertTriggered ==> st.result.verified && st.paced
  {
    var f := OwmSnow(None, None, script, start, OWM_BASE_URL);
    AssessAfterFetch(s, log, script, start, name, data, coords, now, f.report, start + f.attempts);
    DecideAlertVerified(s, log, script, start + f.attempts, name, data, coords, f.report, now);
  }

  /** The same, whatever the primary reading. */
  lemma DecideAlertVerified(s: Settings, log: AlertLog, script: seq<Reply>, at: nat,
                            name: string, data: ResortData, coords: Field, report: SnowReport, now: int)
    requires Ordered(s)
    ensures var st := DecideSpec(s, log, script, at, name, data, coords, report, now);
      st.result.alertTriggered ==> st.result.verified && st.paced
  {
    var w := TimeWindows(Some(report.currentSnow), Some(report.forecastSnow));
    var v :=
      if w.current24h >= s.light then
        VerifySpec(script, at, name, w.current24h, s.verificationThreshold)
      else Verification(false, None, 0);
    if ShouldTrigger(s, log, name, w.current24h, v.verified, now).0 {
      TriggerMeansVerified(s, log, name, w.current24h, v.verified, now);
    }
  }

  /**
   * A second pass over the same resort at the same instant, seeing the same
   * primary reading, raises no alert once the first pass raised one.
   */
  lemma SecondPassQuiet(s: Settings, log: AlertLog, script: seq<Reply>, start: nat, script2: seq<Reply>, start2: nat,
                        name: string, data: ResortData, now: int)
    requires s.cooldownHours > 0
    requires OwmSnow(None, None, script2, start2, OWM_BASE_URL).report == OwmSnow(None, None, script, start, OWM_BASE_URL).report
    requires ProcessSpec(s, log, script, start, name, data, now).result.alertTriggered
    ensures var first := ProcessSpec(s, log, script, start, name, data, now);
      !ProcessSpec(s, first.log, script2, start2, name, data, now).result.alertTriggered
  {
    var first := ProcessSpec(s, log, script, start, name, data, now);
    var c := first.result.alertCategory.value;
    RecordStartsCooldown(log, name, c, now, s.cooldownHours);
  }

  // ---------------------------------------------------------------------
  // A whole run

  /** The counters and per-resort results `process_all_resorts` returns. */
  datatype Summary = Summary(processed: nat, alerts: nat, errors: nat, results: seq<(string, ResortResult)>)

  /** A run over some resorts: its summary, the log and call count afterwards, and how many pacing sleeps it made. */
  datatype Run = Run(summary: Summary, log: AlertLog, calls: nat, pacings: nat)

  function CountAlerts(results: seq<(string, ResortResult)>): nat {
    if results == [] then 0
    else CountAlerts(results[..|results| - 1]) + (if results[|results| - 1].1.alertTriggered then 1 else 0)
  }

  function CountErrors(results: seq<(string, ResortResult)>): nat {
    if results == [] then 0
    else CountErrors(results[..|results| - 1]) + (if HasError(results[|results| - 1].1) then 1 else 0)
  }

  /** The summary with one more resort's result counted in. */
  function Tally(prev: Summary, name: string, r: ResortResult): (t: Summary)
    ensures t.results == prev.results + [(name, r)]
    ensures t.processed == prev.processed + 1
  {
    Summary(prev.processed + 1,
            prev.alerts + (if r.alertTriggered then 1 else 0),
            prev.errors + (if HasError(r) then 1 else 0),
            prev.results + [(name, r)])
  }

  /** A run extended by one more resort's step. */
  function Extend(prev: Run, name: string, st: Step): (run: Run)
    ensures run.summary.results == prev.summary.results + [(name, st.result)]
    ensures run.summary.processed == prev.summary.processed + 1
  {
    Run(Tally(prev.summary, name, st.result), st.log, st.calls, prev.pacings + (if st.paced then 1 else 0))
  }

  /** `process_all_resorts` over the resorts in table order, each resort seeing the log and replies its predecessors left. */
  function AllSpec(s: Settings, log: AlertLog, script: seq<Reply>, start: nat,
                   resorts: seq<(string, ResortData)>, now: int): (run: Run)
    ensures run.summary.processed == |resorts| == |run.summary.results|
    ensures run.summary.alerts == CountAlerts(run.summary.results)
    ensures run.summary.errors == CountErrors(run.summary.results)
    ensures run.calls >= start
  {
    if resorts == [] then Run(Summary(0, 0, 0, []), log, start, 0)
    else
      var prev := AllSpec(s, log, script, start, resorts[..|resorts| - 1], now);
      var last := resorts[|resorts| - 1];
      var run := Extend(prev, last.0, ProcessSpec(s, prev.log, script, prev.calls, last.0, last.1, now));
      assert run.summary.results[..|resorts| - 1] == prev.summary.results;
      run
  }

  /** One more resort extends a run by that resort's step. */
  lemma AllSpecStep(s: Settings, log: AlertLog, script: seq<Reply>, start: nat,
                    resorts: seq<(string, ResortData)>, i: nat, now: int)
    requires i < |resorts|
    ensures var prev := AllSpec(s, log, script, start, resorts[..i], now);
      AllSpec(s, log, script, start, resorts[..i + 1], now) ==
        Extend(prev, resorts[i].0, ProcessSpec(s, prev.log, script, prev.calls, resorts[i].0, resorts[i].1, now))
  {
    var upto := resorts[..i + 1];
    assert upto[..|upto| - 1] == resorts[..i];
    assert upto[|upto| - 1] == resorts[i];
  }

  /** A run yields one result per resort, in table order, under the resort's own name and with its own data. */
  lemma {:induction false} OneResultPerResort(s: Settings, log: AlertLog, script: seq<Reply>, start: nat,
                                              resorts: seq<(string, ResortData)>, now: int)
    ensures var results := AllSpec(s, log, script, start, resorts, now).summary.results;
      forall i :: 0 <= i < |resorts| ==>
        results[i].0 == resorts[i].0 == results[i].1.resort && results[i].1.resortData == resorts[i].1
  {
    if resorts != [] {
      var init := resorts[..|resorts| - 1];
      OneResultPerResort(s, log, script, start, init, now);
      var prev := AllSpec(s, log, script, start, init, now).summary.results;
      var results := AllSpec(s, log, script, start, resorts, now).summary.results;
      assert results[..|results| - 1] == prev;
      forall i | 0 <= i < |resorts| - 1
        ensures results[i].0 == resorts[i].0 == results[i].1.resort && results[i].1.resortData == resorts[i].1
      {
        assert results[i] == prev[i] && resorts[i] == init[i];
      }
    }
  }

  /** The results are a dictionary keyed by resort name whenever the resort names are distinct. */
  lemma ResultsAreDict(s: Settings, log: AlertLog, script: seq<Reply>, start: nat, resorts: ResortTable, now: int)
    ensures DistinctKeys(AllSpec(s, log, script, start, resorts, now).summary.results)
  {
    var results := AllSpec(s, log, script, start, resorts, now).summary.results;
    OneResultPerResort(s, log, script, start, resorts, now);
    SameKeysDistinct(resorts, results);
  }

  /** Distinct keys depend only on the keys, position by position. */
  lemma {:induction false} SameKeysDistinct<V, W>(a: seq<(string, V)>, b: seq<(string, W)>)
    requires DistinctKeys(a) && |a| == |b|
    requires forall i :: 0 <= i < |a| ==> a[i].0 == b[i].0
    ensures DistinctKeys(b)
  {
    if a != [] {
      SameKeysDistinct(a[1..], b[1..]);
      assert Keys(a[1..]) == Keys(b[1..]) by {
        forall k | k in Keys(b[1..]) ensures k in Keys(a[1..]) {
          var p :| p in b[1..] && p.0 == k;
          var j :| 0 <= j < |b[1..]| && b[1..][j] == p;
          assert a[1..][j].0 == k;
        }
        forall k | k in Keys(a[1..]) ensures k in Keys(b[1..]) {
          var p :| p in a[1..] && p.0 == k;
          var j :| 0 <= j < |a[1..]| && a[1..][j] == p;
          assert b[1..][j].0 == k;
        }
      }
    }
  }

  class SnowfallProcessor {
    const resorts: ResortTable
    const settings: Settings
    const env: ClientEnv
    const net: Network
    var lastAlerts: AlertLog

    /** The given resorts, or the enabled ones of the configured table; no alert has been sent yet. */
    constructor(resorts: Option<ResortTable>, enabledNames: Option<seq<string>>, settings: Settings,
                env: ClientEnv, net: Network)
      ensures resorts.Some? ==> this.resorts == resorts.value
      ensures resorts.None? && (enabledNames.None? || enabledNames.value == []) ==> this.resorts == RESORTS
      ensures resorts.None? && enabledNames.Some? && enabledNames.value != [] ==>
        this.resorts == EnabledFrom(enabledNames.value, RESORTS)
      ensures this.settings == settings && this.env == env && this.net == net
      ensures lastAlerts == map[]
    {
      var table: ResortTable;
      if resorts.Some? {
        table := resorts.value;
      } else {
        table := GetEnabledResorts(enabledNames, RESORTS);
      }
      this.resorts := table;
      this.settings := settings;
      this.env := env;
      this.net := net;
      lastAlerts := map[];
    }

    /** `update_last_alert_time`. */
    method UpdateLastAlertTime(resort: string, c: Category, now: int)
      modifies this
      ensures lastAlerts == Record(old(lastAlerts), resort, c, now)
    {
      if resort !in lastAlerts {
        lastAlerts := lastAlerts[resort := map[]];
      }
      lastAlerts := lastAlerts[resort := lastAlerts[resort][c := now]];
    }

    /** The fetch, verification and alert part of `process_resort`. */
    method Assess(name: string, data: ResortData, coords: Field, lat: Field, lon: Field, now: int)
      returns (r: ResortResult)
      modifies this, net
      ensures var st := AssessSpec(settings, old(lastAlerts), net.script, old(net.calls), name, data, coords, now);
        r == st.result && lastAlerts == st.log && net.calls == st.calls &&
        PacingCount(net.pauses) == PacingCount(old(net.pauses)) + (if st.paced then 1 else 0)
    {
      ghost var start := net.calls;
      var snow := GetResortSnowData(name, lat, lon, env, net, now);
      AssessAfterFetch(settings, lastAlerts, net.script, start, name, data, coords, now, snow.report, net.calls);
      r := Decide(name, data, coords, lat, lon, snow, now);
    }

    /** Verification and the alert decision for a primary reading already fetched. */
    method Decide(name: string, data: ResortData, coords: Field, lat: Field, lon: Field, snow: ResortSnow, now: int)
      returns (r: ResortResult)
      requires snow.resort == name
      modifies this, net
      ensures var st := DecideSpec(settings, old(lastAlerts), net.script, old(net.calls), name, data, coords, snow.report, now);
        r == st.result && lastAlerts == st.log && net.calls == st.calls &&
        PacingCount(net.pauses) == PacingCount(old(net.pauses)) + (if st.paced then 1 else 0)
    {
      var primary := PrimaryData(snow, FieldOrNone(data, "elevation"), FieldOrNone(data, "region"));
      var w := TimeWindows(Some(snow.report.currentSnow), Some(snow.report.forecastSnow));
      var verified := false;
      var secondary: Option<SecondaryData> := None;
      if w.current24h >= settings.light {
        verified, secondary := VerifyWithSecondarySource(name, lat, lon, w.current24h, settings.verificationThreshold,
                                                         env, net, now);
      }
      var t := ShouldTrigger(settings, lastAlerts, name, w.current24h, verified, now);
      if t.0 {
        UpdateLastAlertTime(name, t.1.value, now);
      }
      r := ResortResult(name, data, t.0, t.1, verified, None, Some(coords), Some(primary), Some(w), secondary);
    }

    /** `process_resort`. */
    method ProcessResort(name: string, data: ResortData, now: int) returns (r: ResortResult)
      modifies this, net
      ensures var st := ProcessSpec(settings, old(lastAlerts), net.script, old(net.calls), name, data, now);
        r == st.result && lastAlerts == st.log && net.calls == st.calls &&
        PacingCount(net.pauses) == PacingCount(old(net.pauses)) + (if st.paced then 1 else 0)
    {
      r := Initial(name, data);
      if "coordinates" !in data {
        r := r.(error := Some(MISSING_COORDINATES));
        return;
      }
      var coords := data["coordinates"];
      r := r.(coordinates := Some(coords));
      var unpacked := Unpack2(coords);
      if unpacked.Err? {
        r := r.(error := Some(unpacked.error.msg));
        return;
      }
      var (lat, lon) := unpacked.value;
      r := Assess(name, data, coords, lat, lon, now);
    }

    /** The counters `process_all_resorts` keeps, updated for one resort's result. */
    method CountResult(summary: Summary, name: string, r: ResortResult) returns (t: Summary)
      ensures t == Tally(summary, name, r)
    {
      t := summary.(results := summary.results + [(name, r)], processed := summary.processed + 1);
      if r.alertTriggered {
        t := t.(alerts := t.alerts + 1);
      }
      if r.error.Some? && r.error.value != [] {
        t := t.(errors := t.errors + 1);
      }
    }

    /** `process_all_resorts`. */
    method ProcessAllResorts(now: int) returns (summary: Summary)
      modifies this, net
      ensures var run := AllSpec(settings, old(lastAlerts), net.script, old(net.calls), resorts, now);
        summary == run.summary && lastAlerts == run.log && net.calls == run.calls &&
        PacingCount(net.pauses) == PacingCount(old(net.pauses)) + run.pacings
    {
      ghost var log0 := lastAlerts;
      ghost var calls0 := net.calls;
      ghost var pauses0 := net.pauses;
      summary := Summary(0, 0, 0, []);
      for i := 0 to |resorts|
        invariant var run := AllSpec(settings, log0, net.script, calls0, resorts[..i], now);
          summary == run.summary && lastAlerts == run.log && net.calls == run.calls &&
          PacingCount(net.pauses) == PacingCount(pauses0) + run.pacings
      {
        AllSpecStep(settings, log0, net.script, calls0, resorts, i, now);
        var name, data := resorts[i].0, resorts[i].1;
        var r := ProcessResort(name, data, now);
        summary := CountResult(summary, name, r);
      }
      assert resorts[..|resorts|] == resorts;
    }
  }
}
