/**
 * The start-up check of the environment: which deployment this is, which
 * required variables of its groups are unset, and which credentials look
 * like placeholder or test values.  The environment is a map from variable
 * name to value.
 */
module EnvValidator {
  import opened Wrappers
  import opened Dicts
  import opened Strings

  type Env = map<string, string>

  /** A group of required variables. */
  datatype Group = Group(description: string, variables: seq<string>)

  /** The required variable groups by name. */
  const REQUIRED_VARS: map<string, Group> := map[
    "API_KEYS" := Group("API Keys for weather data providers", ["OPENWEATHER_API_KEY", "WEATHERAPI_KEY"]),
    "NOTIFICATION" := Group("Notification service credentials", ["SLACK_WEBHOOK_URL", "SLACK_MONITORING_WEBHOOK_URL"]),
    "AWS" := Group("AWS configuration", ["AWS_REGION", "AWS_ENDPOINT_URL"]),
    "DATABASE" := Group("Database configuration", ["DB_USER", "DB_PASSWORD", "DB_NAME", "DB_PORT"]),
    "LAMBDA" := Group("Lambda configuration",
                      ["LAMBDA_FUNCTION_NAME", "LAMBDA_RUNTIME", "LAMBDA_HANDLER", "LAMBDA_ROLE"])]

  /** The groups each environment requires. */
  const ENV_SPECIFIC_VARS: map<string, seq<string>> := map[
    "development" := ["API_KEYS", "NOTIFICATION", "AWS", "DATABASE"],
    "test" := ["API_KEYS", "AWS", "DATABASE"],
    "production" := ["API_KEYS", "NOTIFICATION", "AWS", "LAMBDA"]]

  const DEFAULT_ENVIRONMENT := "development"

  /** Placeholder fragments, in the order they are tried. */
  const SUSPICIOUS_PATTERNS: seq<string> := [
    "your_", "example", "change_me", "change_this", "changeme", "xxxx", "test", "secret", "password123", "123456"]

  /** The credentials inspected for placeholder values, in order. */
  const CHECKED_VARS: seq<string> := ["OPENWEATHER_API_KEY", "WEATHERAPI_KEY", "SLACK_WEBHOOK_URL"]

  /** `os.environ.get(name, default)`. */
  function GetOr(env: Env, name: string, default: string): string {
    if name in env then env[name] else default
  }

  /** `os.environ.get(name)` is truthy: the variable is present and not empty. */
  predicate IsSet(env: Env, name: string) {
    name in env && env[name] != []
  }

  /**
   * `get_environment`: ENVIRONMENT lower-cased (development when unset);
   * a value that names no known environment means development.
   */
  function GetEnvironment(env: Env): (r: string)
    ensures r in ENV_SPECIFIC_VARS
    ensures Lower(GetOr(env, "ENVIRONMENT", DEFAULT_ENVIRONMENT)) in ENV_SPECIFIC_VARS ==>
      r == Lower(GetOr(env, "ENVIRONMENT", DEFAULT_ENVIRONMENT))
    ensures Lower(GetOr(env, "ENVIRONMENT", DEFAULT_ENVIRONMENT)) !in ENV_SPECIFIC_VARS ==> r == DEFAULT_ENVIRONMENT
  {
    var name := Lower(GetOr(env, "ENVIRONMENT", DEFAULT_ENVIRONMENT));
    if name in ENV_SPECIFIC_VARS then name else DEFAULT_ENVIRONMENT
  }

  /** Two settings of ENVIRONMENT that differ only in letter case select the same environment. */
  lemma EnvironmentIgnoresCase(env: Env, value: string)
    requires "ENVIRONMENT" in env && Lower(env["ENVIRONMENT"]) == Lower(value)
    ensures GetEnvironment(env["ENVIRONMENT" := value]) == GetEnvironment(env)
  {
    assert GetOr(env["ENVIRONMENT" := value], "ENVIRONMENT", DEFAULT_ENVIRONMENT) == value;
  }

  /** The unset variables of a group, in declared order. */
  function UnsetVars(vars: seq<string>, env: Env): (r: seq<string>)
    ensures forall v :: v in r <==> v in vars && !IsSet(env, v)
    ensures |r| <= |vars|
  {
    if vars == [] then []
    else (if IsSet(env, vars[0]) then [] else [vars[0]]) + UnsetVars(vars[1..], env)
  }

  /** What the loop of `get_missing_variables` has collected after the given groups. */
  function MissingFrom(groups: seq<string>, env: Env): Dict<string, seq<string>> {
    if groups == [] then []
    else
      var group := groups[|groups| - 1];
      var missing := MissingFrom(groups[..|groups| - 1], env);
      if group in REQUIRED_VARS && UnsetVars(REQUIRED_VARS[group].variables, env) != [] then
        Set(missing, group, UnsetVars(REQUIRED_VARS[group].variables, env))
      else missing
  }

  /**
   * A group appears exactly when it was asked for, is known, and has an
   * unset variable, and it then lists its unset variables.
   */
  lemma {:induction false} MissingFromGet(groups: seq<string>, env: Env, g: string)
    ensures Get(MissingFrom(groups, env), g) ==
      if g in groups && g in REQUIRED_VARS && UnsetVars(REQUIRED_VARS[g].variables, env) != [] then
        Some(UnsetVars(REQUIRED_VARS[g].variables, env))
      else None
  {
    if groups != [] {
      var init := groups[..|groups| - 1];
      var group := groups[|groups| - 1];
      assert groups == init + [group];
      MissingFromGet(init, env, g);
      if group in REQUIRED_VARS && UnsetVars(REQUIRED_VARS[group].variables, env) != [] {
        SetGet(MissingFrom(init, env), group, UnsetVars(REQUIRED_VARS[group].variables, env), g);
      }
    }
  }

  /** `get_missing_variables`: unknown groups are skipped; a group is listed only if something in it is unset. */
  method GetMissingVariables(groups: seq<string>, env: Env) returns (missing: Dict<string, seq<string>>)
    ensures missing == MissingFrom(groups, env)
  {
    missing := [];
    for i := 0 to |groups|
      invariant missing == MissingFrom(groups[..i], env)
    {
      assert groups[..i + 1][..i] == groups[..i];
      var group := groups[i];
      if group !in REQUIRED_VARS {
        continue;
      }
      var unset := UnsetVars(REQUIRED_VARS[group].variables, env);
      if unset != [] {
        missing := Set(missing, group, unset);
      }
    }
    assert groups[..|groups|] == groups;
  }

  /** Nothing is missing exactly when every variable of every known group asked for is set. */
  lemma NothingMissingIff(groups: seq<string>, env: Env)
    ensures MissingFrom(groups, env) == [] <==>
      forall g, v :: g in groups && g in REQUIRED_VARS && v in REQUIRED_VARS[g].variables ==> IsSet(env, v)
  {
    var missing := MissingFrom(groups, env);
    if missing != [] {
      var g := missing[0].0;
      MissingFromGet(groups, env, g);
      assert g in Keys(missing);
      var v := UnsetVars(REQUIRED_VARS[g].variables, env)[0];
      assert v in UnsetVars(REQUIRED_VARS[g].variables, env);
    } else {
      forall g, v | g in groups && g in REQUIRED_VARS && v in REQUIRED_VARS[g].variables ensures IsSet(env, v) {
        MissingFromGet(groups, env, g);
      }
    }
  }

  /**
   * `validate_environment_variables` without the exit: true exactly when
   * every variable the current environment's groups require is set.
   */
  method ValidateEnvironmentVariables(env: Env) returns (ok: bool)
    ensures ok <==>
      forall g, v ::
        (g in ENV_SPECIFIC_VARS[GetEnvironment(env)] && g in REQUIRED_VARS && v in REQUIRED_VARS[g].variables) ==>
        IsSet(env, v)
  {
    var environment := GetEnvironment(env);
    var missing := GetMissingVariables(ENV_SPECIFIC_VARS[environment], env);
    NothingMissingIff(ENV_SPECIFIC_VARS[environment], env);
    ok := missing == [];
  }

  /** Index of the first pattern that occurs in `text`, or |patterns| when none does. */
  function FirstPattern(text: string, patterns: seq<string>): (k: nat)
    ensures k <= |patterns|
    ensures k < |patterns| ==> Contains(text, patterns[k])
    ensures forall j :: 0 <= j < k ==> !Contains(text, patterns[j])
  {
    if patterns == [] then 0
    else if Contains(text, patterns[0]) then 0
    else 1 + FirstPattern(text, patterns[1..])
  }

  /** A value shorter than 8 characters that is not one of the harmless literals. */
  predicate TooShort(value: string) {
    |value| < 8 && value !in ["", "0", "false", "true"]
  }

  /** What `check_for_default_values` reports for one variable. */
  function VarFindings(name: string, value: string): (r: seq<string>)
    ensures |r| <= 2
    ensures value == [] ==> r == []
  {
    if value == [] then []
    else
      var k := FirstPattern(Lower(value), SUSPICIOUS_PATTERNS);
      (if k < |SUSPICIOUS_PATTERNS| then [name + " (contains '" + SUSPICIOUS_PATTERNS[k] + "')"] else []) +
      (if TooShort(value) then [name + " (suspiciously short)"] else [])
  }

  /** The findings for the given variables, in order. */
  function Findings(names: seq<string>, env: Env): (r: seq<string>)
    ensures |r| <= 2 * |names|
  {
    if names == [] then []
    else Findings(names[..|names| - 1], env) + VarFindings(names[|names| - 1], GetOr(env, names[|names| - 1], ""))
  }

  /** At most six findings: one pattern and one length finding for each of the three credentials. */
  lemma AtMostSixFindings(env: Env)
    ensures |Findings(CHECKED_VARS, env)| <= 6
  {
  }

  /** Variables that are unset or empty are not reported at all. */
  lemma {:induction false} UnsetReportsNothing(names: seq<string>, env: Env)
    requires forall v :: v in names ==> !IsSet(env, v)
    ensures Findings(names, env) == []
  {
    if names != [] {
      var init := names[..|names| - 1];
      var last := names[|names| - 1];
      assert forall v :: v in init ==> v in names;
      assert last in names;
      UnsetReportsNothing(init, env);
      assert GetOr(env, last, "") == [];
    }
  }

  /** One more variable adds its own findings at the end. */
  lemma FindingsStep(names: seq<string>, i: nat, env: Env)
    requires i < |names|
    ensures Findings(names[..i + 1], env) == Findings(names[..i], env) + VarFindings(names[i], GetOr(env, names[i], ""))
  {
    assert names[..i + 1][..i] == names[..i];
  }

  /** The pattern scan of one value: the first matching pattern is reported, then the scan stops. */
  method PatternFinding(name: string, value: string, suspicious: seq<string>) returns (r: seq<string>)
    ensures var k := FirstPattern(Lower(value), SUSPICIOUS_PATTERNS);
      r == suspicious + (if k < |SUSPICIOUS_PATTERNS| then [name + " (contains '" + SUSPICIOUS_PATTERNS[k] + "')"] else [])
  {
    r := suspicious;
    var lower := Lower(value);
    for j := 0 to |SUSPICIOUS_PATTERNS|
      invariant r == suspicious
      invariant forall i :: 0 <= i < j ==> !Contains(lower, SUSPICIOUS_PATTERNS[i])
    {
      var pattern := SUSPICIOUS_PATTERNS[j];
      if Contains(lower, pattern) {
        r := r + [name + " (contains '" + pattern + "')"];
        PatternIsFirst(lower, SUSPICIOUS_PATTERNS, j);
        return;
      }
    }
    PatternIsFirst(lower, SUSPICIOUS_PATTERNS, |SUSPICIOUS_PATTERNS|);
  }

  /** FirstPattern is the first index whose pattern occurs, or |patterns| if there is none. */
  lemma {:induction false} PatternIsFirst(text: string, patterns: seq<string>, k: nat)
    requires k <= |patterns|
    requires k < |patterns| ==> Contains(text, patterns[k])
    requires forall j :: 0 <= j < k ==> !Contains(text, patterns[j])
    ensures FirstPattern(text, patterns) == k
  {
    if patterns != [] && k > 0 {
      assert !Contains(text, patterns[0]);
      PatternIsFirst(text, patterns[1..], k - 1);
    }
  }

  /** The body of the outer loop: both checks of one variable, skipped when its value is empty. */
  method CheckVariable(name: string, value: string, suspicious: seq<string>) returns (r: seq<string>)
    ensures r == suspicious + VarFindings(name, value)
  {
    r := suspicious;
    if value != [] {
      r := PatternFinding(name, value, r);
      if TooShort(value) {
        r := r + [name + " (suspiciously short)"];
      }
    }
  }

  /** `check_for_default_values`. */
  method CheckForDefaultValues(env: Env) returns (suspicious: seq<string>)
    ensures suspicious == Findings(CHECKED_VARS, env)
  {
    suspicious := [];
    for i := 0 to |CHECKED_VARS|
      invariant suspicious == Findings(CHECKED_VARS[..i], env)
    {
      FindingsStep(CHECKED_VARS, i, env);
      suspicious := CheckVariable(CHECKED_VARS[i], GetOr(env, CHECKED_VARS[i], ""), suspicious);
    }
    assert CHECKED_VARS[..|CHECKED_VARS|] == CHECKED_VARS;
  }
}
