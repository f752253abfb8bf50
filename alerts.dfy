/**
 * The alert decision rules of the snowfall processor: snow amounts are
 * classified against three thresholds, the 24/48-hour windows are derived
 * from one reading, and an alert fires only for verified data in a
 * category whose cooldown has run out.  The cooldown log maps a resort and
 * a category to the time (in seconds) of the last alert sent for them.
 */
module Alerts {
  import opened Wrappers

  datatype Category = NoAlert | Light | Moderate | Heavy

  /** The category names the processor returns. */
  function CategoryName(c: Category): string {
    match c
    case NoAlert => "none"
    case Light => "light"
    case Moderate => "moderate"
    case Heavy => "heavy"
  }

  /** Categories in increasing order of severity. */
  function Rank(c: Category): nat {
    match c
    case NoAlert => 0
    case Light => 1
    case Moderate => 2
    case Heavy => 3
  }

  /**
   * The settings the processor reads from the environment: the three
   * thresholds (inches), the tolerance of the two-source agreement test
   * (inches) and the cooldown (hours).
   */
  datatype Settings = Settings(
    light: real,
    moderate: real,
    heavy: real,
    verificationThreshold: real,
    cooldownHours: int)

  /** The values used when the environment sets none of them. */
  const DEFAULT_SETTINGS := Settings(2.0, 6.0, 12.0, 2.0, 12)

  const SECONDS_PER_HOUR := 3600

  /** The thresholds increase with severity; nothing in the system enforces this. */
  predicate Ordered(s: Settings) {
    s.light <= s.moderate <= s.heavy
  }

  /** `determine_alert_category`: heavy, then moderate, then light, each compared with `>=`. */
  function Classify(s: Settings, amount: real): (c: Category)
    ensures c == Heavy <==> amount >= s.heavy
    ensures c == Moderate <==> amount < s.heavy && amount >= s.moderate
    ensures c == Light <==> amount < s.heavy && amount < s.moderate && amount >= s.light
    ensures c == NoAlert <==> amount < s.heavy && amount < s.moderate && amount < s.light
  {
    if amount >= s.heavy then Heavy
    else if amount >= s.moderate then Moderate
    else if amount >= s.light then Light
    else NoAlert
  }

  /** With ordered thresholds, more snow never gives a lower category. */
  lemma ClassifyMonotone(s: Settings, a: real, b: real)
    requires Ordered(s) && a <= b
    ensures Rank(Classify(s, a)) <= Rank(Classify(s, b))
  {
  }

  /** With ordered thresholds, an alert category means at least the light threshold of snow. */
  lemma AlertMeansLightReached(s: Settings, amount: real)
    requires Ordered(s)
    ensures Classify(s, amount) != NoAlert <==> amount >= s.light
  {
  }

  /** The default thresholds put 2, 6 and 12 inches in the higher of the two adjoining categories. */
  lemma DefaultBoundaries()
    ensures Classify(DEFAULT_SETTINGS, 1.9) == NoAlert
    ensures Classify(DEFAULT_SETTINGS, 2.0) == Light
    ensures Classify(DEFAULT_SETTINGS, 6.0) == Moderate
    ensures Classify(DEFAULT_SETTINGS, 12.0) == Heavy
  {
  }

  /** The snow amounts the processor reasons about. */
  datatype Windows = Windows(current24h: real, forecast24h: real, total48h: real)

  /**
   * `calculate_time_window_data`: the current and forecast amounts of one
   * reading (0 when absent) and their sum.
   */
  function TimeWindows(current: Option<real>, forecast: Option<real>): (w: Windows)
    ensures w.current24h == (if current.Some? then current.value else 0.0)
    ensures w.forecast24h == (if forecast.Some? then forecast.value else 0.0)
    ensures w.total48h == w.current24h + w.forecast24h
  {
    var c := current.GetOr(0.0);
    var f := forecast.GetOr(0.0);
    Windows(c, f, c + f)
  }

  /** Time of the last alert per resort and category. */
  type AlertLog = map<string, map<Category, int>>

  /** The time of the last alert for a resort and category, if there was one. */
  function LastAlert(log: AlertLog, resort: string, c: Category): Option<int> {
    if resort in log && c in log[resort] then Some(log[resort][c]) else None
  }

  /** `is_in_cooldown`: an alert was sent, and the cooldown after it has not yet run out. */
  predicate InCooldown(log: AlertLog, resort: string, c: Category, now: int, hours: int) {
    match LastAlert(log, resort, c)
    case None => false
    case Some(last) => now < last + hours * SECONDS_PER_HOUR
  }

  /** `update_last_alert_time`: the resort's inner map is created if needed, then the category is stamped. */
  function Record(log: AlertLog, resort: string, c: Category, now: int): (r: AlertLog)
    ensures LastAlert(r, resort, c) == Some(now)
    ensures forall res, k :: res != resort || k != c ==> LastAlert(r, res, k) == LastAlert(log, res, k)
    ensures r.Keys == log.Keys + {resort}
  {
    var inner := if resort in log then log[resort] else map[];
    log[resort := inner[c := now]]
  }

  /** Right after an alert is recorded, its category is in cooldown, for any positive cooldown. */
  lemma RecordStartsCooldown(log: AlertLog, resort: string, c: Category, now: int, hours: int)
    requires hours > 0
    ensures InCooldown(Record(log, resort, c, now), resort, c, now, hours)
  {
  }

  /** The cooldown ends exactly the given number of hours after the alert. */
  lemma CooldownExpires(log: AlertLog, resort: string, c: Category, at: int, hours: int, later: int)
    ensures InCooldown(Record(log, resort, c, at), resort, c, later, hours) <==>
      later < at + hours * SECONDS_PER_HOUR
  {
  }

  /** Recording one category leaves the cooldown of every other resort and category as it was. */
  lemma RecordKeepsOthers(log: AlertLog, resort: string, c: Category, at: int,
                          other: string, k: Category, now: int, hours: int)
    requires other != resort || k != c
    ensures InCooldown(Record(log, resort, c, at), other, k, now, hours) == InCooldown(log, other, k, now, hours)
  {
  }

  /**
   * `should_trigger_alert`: unverified data at or above the light threshold
   * is held back; otherwise an alert fires for a real category that is not
   * in cooldown.  The log is only read.
   */
  function ShouldTrigger(s: Settings, log: AlertLog, resort: string, current24h: real, verified: bool, now: int)
    : (r: (bool, Option<Category>))
    ensures r.0 <==> r.1.Some?
    ensures current24h >= s.light && !verified ==> r == (false, None)
    ensures r.0 <==>
      ((verified || current24h < s.light) && Classify(s, current24h) != NoAlert &&
       !InCooldown(log, resort, Classify(s, current24h), now, s.cooldownHours))
    ensures r.0 ==> r.1 == Some(Classify(s, current24h))
  {
    if current24h >= s.light && !verified then (false, None)
    else
      var c := Classify(s, current24h);
      if c == NoAlert then (false, None)
      else if InCooldown(log, resort, c, now, s.cooldownHours) then (false, None)
      else (true, Some(c))
  }

  /** With ordered thresholds, every alert that fires was verified by the second source. */
  lemma TriggerMeansVerified(s: Settings, log: AlertLog, resort: string, current24h: real, verified: bool, now: int)
    requires Ordered(s)
    requires ShouldTrigger(s, log, resort, current24h, verified, now).0
    ensures verified
  {
    AlertMeansLightReached(s, current24h);
  }

  /**
   * Once an alert has fired and been recorded, the same reading at the same
   * instant does not fire it again (for a positive cooldown).
   */
  lemma NoRepeatAlert(s: Settings, log: AlertLog, resort: string, current24h: real, verified: bool, now: int)
    requires s.cooldownHours > 0
    requires ShouldTrigger(s, log, resort, current24h, verified, now).0
    ensures var c := ShouldTrigger(s, log, resort, current24h, verified, now).1.value;
      !ShouldTrigger(s, Record(log, resort, c, now), resort, current24h, verified, now).0
  {
    var c := ShouldTrigger(s, log, resort, current24h, verified, now).1.value;
    RecordStartsCooldown(log, resort, c, now, s.cooldownHours);
  }
}
