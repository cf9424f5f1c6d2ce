/** The server's configuration, read once from the process environment when
    the configuration module loads: the node environment (validated), the
    port, and the two token settings, with a production check that refuses
    to start when a required variable is missing. */
module ServerEnv {
  import opened Wrappers
  import opened Strings
  import opened Environment

  const DEFAULT_APP_PORT: int := 4000
  const DEFAULT_JWT_SECRET: string := "local-development-secret"
  const DEFAULT_JWT_EXPIRES_IN: string := "1h"

  const NODE_ENV: string := "NODE_ENV"
  const PORT: string := "PORT"
  const JWT_SECRET: string := "JWT_SECRET"
  const JWT_EXPIRES_IN: string := "JWT_EXPIRES_IN"

  const PRODUCTION: string := "production"
  const TEST: string := "test"
  const DEVELOPMENT: string := "development"

  datatype AppConfig = AppConfig(
    port: int, jwtExpiresIn: string, jwtSecret: string,
    isDevelopment: bool, isProduction: bool, isTest: bool, nodeEnv: string)

  /** `resolveNodeEnv`: one of the three known names, the given one when it
      is known and "development" otherwise. */
  function ResolveNodeEnv(value: Option<string>): (r: string)
    ensures r == PRODUCTION || r == TEST || r == DEVELOPMENT
    ensures value.Some? && (value.value == PRODUCTION || value.value == TEST) ==> r == value.value
    ensures !(value.Some? && (value.value == PRODUCTION || value.value == TEST)) ==> r == DEVELOPMENT
  {
    if value.Some? && (value.value == PRODUCTION || value.value == TEST || value.value == DEVELOPMENT)
    then value.value
    else DEVELOPMENT
  }

  // ------------------------------------------------------------ parseInt

  predicate IsDigit(c: char) {
    '0' <= c <= '9'
  }

  predicate AllDigits(s: string) {
    forall i :: 0 <= i < |s| ==> IsDigit(s[i])
  }

  /** The length of the run of decimal digits at the start of `s`. */
  function DigitRun(s: string): (n: nat)
    ensures n <= |s|
    ensures forall i :: 0 <= i < n ==> IsDigit(s[i])
    ensures n < |s| ==> !IsDigit(s[n])
  {
    if s == [] || !IsDigit(s[0]) then 0 else 1 + DigitRun(s[1..])
  }

  /** The value of a string of decimal digits. */
  function DigitsValue(ds: string): nat
    requires AllDigits(ds)
  {
    if ds == [] then 0
    else DigitsValue(ds[..|ds| - 1]) * 10 + (ds[|ds| - 1] as int - '0' as int)
  }

  /** `Number.parseInt(value, 10)`: leading white space skipped, an optional
      sign, then the longest run of decimal digits; no digit at all is
      `NaN` (here `None`). */
  function ParseInt(s: string): (r: Option<int>)
    ensures r.None? <==> DigitRun(Unsigned(s[Leading(s)..])) == 0
  {
    ParseSigned(s[Leading(s)..])
  }

  /** The part of `parseInt` after the white space. */
  function ParseSigned(t: string): (r: Option<int>)
    ensures r.None? <==> DigitRun(Unsigned(t)) == 0
  {
    var body := Unsigned(t);
    var n := DigitRun(body);
    if n == 0 then None
    else
      assert AllDigits(body[..n]);
      var v: int := DigitsValue(body[..n]);
      Some(if t[0] == '-' then -v else v)
  }

  /** `s` without its sign character, if it has one. */
  function Unsigned(t: string): (r: string)
    ensures |r| <= |t|
  {
    if t != [] && (t[0] == '-' || t[0] == '+') then t[1..] else t
  }

  lemma {:induction false} DigitRunOfDigits(ds: string, rest: string)
    requires AllDigits(ds)
    requires rest == [] || !IsDigit(rest[0])
    ensures DigitRun(ds + rest) == |ds|
  {
    if ds != [] {
      assert (ds + rest)[1..] == ds[1..] + rest;
      DigitRunOfDigits(ds[1..], rest);
    } else {
      assert ds + rest == rest;
    }
  }

  lemma {:induction false} DigitsValueOfNat(n: nat)
    ensures AllDigits(NatToString(n)) && DigitsValue(NatToString(n)) == n
  {
    if n >= 10 {
      DigitsValueOfNat(n / 10);
      var s := NatToString(n);
      assert s[..|s| - 1] == NatToString(n / 10);
    }
  }

  /** `parseInt` reads back what `String(n)` writes, and stops at the
      first character after the digits that is not a digit. */
  lemma ParseIntRoundTrip(n: int, rest: string)
    requires rest == [] || !IsDigit(rest[0])
    ensures ParseInt(IntToString(n) + rest) == Some(n)
  {
    var s := IntToString(n) + rest;
    var m := if n < 0 then -n else n;
    DigitsValueOfNat(m);
    var ds := NatToString(m);
    if n < 0 {
      assert s == "-" + (ds + rest);
      NoLeadingSpace(s);
      ParseNegative(ds, rest);
    } else {
      assert s == ds + rest;
      NoLeadingSpace(s);
      ParseNonNegative(ds, rest);
    }
  }

  lemma ParseNonNegative(ds: string, rest: string)
    requires AllDigits(ds) && ds != []
    requires rest == [] || !IsDigit(rest[0])
    ensures ParseSigned(ds + rest) == Some(DigitsValue(ds))
  {
    assert Unsigned(ds + rest) == ds + rest;
    DigitRunOfDigits(ds, rest);
    assert (ds + rest)[..|ds|] == ds;
  }

  lemma ParseNegative(ds: string, rest: string)
    requires AllDigits(ds) && ds != []
    requires rest == [] || !IsDigit(rest[0])
    ensures ParseSigned("-" + (ds + rest)) == Some(-(DigitsValue(ds) as int))
  {
    assert Unsigned("-" + (ds + rest)) == ds + rest;
    DigitRunOfDigits(ds, rest);
    assert (ds + rest)[..|ds|] == ds;
  }

  lemma NoLeadingSpace(s: string)
    requires s != [] && (s[0] == '-' || IsDigit(s[0]))
    ensures s[Leading(s)..] == s
  {
    assert !IsSpace(s[0]);
  }

  /** A value with no digit after its white space and sign is not a number. */
  lemma ParseIntNoDigits(s: string)
    requires forall i :: 0 <= i < |s| ==> !IsDigit(s[i])
    ensures ParseInt(s).None?
  {
    var t := s[Leading(s)..];
    var body := Unsigned(t);
    if body != [] {
      assert body[0] in s;
    }
  }

  // --------------------------------------------------------------- reads

  function NotAnInteger(key: string): string {
    "Environment variable " + key + " must be a valid integer."
  }

  /** `readNumber`: the fallback when the variable is unset or empty, its
      parsed value when it parses, and an error naming the variable
      otherwise. */
  function ReadNumber(env: Env, key: string, fallback: int): (r: Result<int, string>)
    ensures Unset(env, key) ==> r == Ok(fallback)
    ensures !Unset(env, key) ==> (r.Ok? <==> ParseInt(env[key]).Some?)
    ensures !Unset(env, key) && r.Ok? ==> r.value == ParseInt(env[key]).value
    ensures r.Err? ==> r.error == NotAnInteger(key)
  {
    var value := Get(env, key);
    if value.None? || value.value == "" then Ok(fallback)
    else
      var parsed := ParseInt(value.value);
      if parsed.None? then Err(NotAnInteger(key)) else Ok(parsed.value)
  }

  /** A port written with `String(n)` is read back as `n`. */
  lemma ReadNumberRoundTrip(env: Env, key: string, fallback: int, n: int)
    ensures ReadNumber(env[key := IntToString(n)], key, fallback) == Ok(n)
  {
    ParseIntRoundTrip(n, "");
    assert IntToString(n) + "" == IntToString(n);
  }

  /** The module's list of missing required variables, and the required
      reads that fill it. */
  class EnvLoader {
    const env: Env
    const isProduction: bool
    var missingRequired: seq<string>

    constructor(env: Env, isProduction: bool)
      ensures this.env == env && this.isProduction == isProduction && missingRequired == []
    {
      this.env := env;
      this.isProduction := isProduction;
      missingRequired := [];
    }

    /** `trackMissing`: records `key` unless it is already recorded. */
    method TrackMissing(key: string)
      modifies this
      ensures missingRequired == Tracked(old(missingRequired), key)
    {
      if key !in missingRequired {
        missingRequired := missingRequired + [key];
      }
    }

    /** `readRequired`. */
    method ReadRequired(key: string, fallback: Option<string>) returns (value: string)
      modifies this
      ensures value == RequiredValue(env, key, fallback)
      ensures Reported(env, key, fallback, isProduction) ==>
        missingRequired == Tracked(old(missingRequired), key)
      ensures !Reported(env, key, fallback, isProduction) ==> missingRequired == old(missingRequired)
    {
      var raw := Get(env, key);
      if raw.None? || raw.value == "" {
        if fallback.Some? && !isProduction {
          return fallback.value;
        }
        TrackMissing(key);
        return fallback.GetOr("");
      }
      return raw.value;
    }
  }

  /** The required variables that are unset, in the order they are read. */
  function MissingKeys(env: Env): (r: seq<string>)
    ensures NoDuplicates(r)
    ensures forall k :: k in r <==> (k == JWT_SECRET && Unset(env, JWT_SECRET)) ||
                                    (k == JWT_EXPIRES_IN && Unset(env, JWT_EXPIRES_IN))
  {
    (if Unset(env, JWT_SECRET) then [JWT_SECRET] else []) +
    (if Unset(env, JWT_EXPIRES_IN) then [JWT_EXPIRES_IN] else [])
  }

  /** Loading the configuration module. A port that is set but not an
      integer fails first. Outside production loading never fails
      otherwise; in production it fails exactly when a required variable
      is unset, and the message lists those variables. */
  method Load(env: Env) returns (r: Result<AppConfig, string>)
    ensures ReadNumber(env, PORT, DEFAULT_APP_PORT).Err? ==> r == Err(NotAnInteger(PORT))
    ensures ReadNumber(env, PORT, DEFAULT_APP_PORT).Ok? ==>
      (r.Err? <==> ResolveNodeEnv(Get(env, NODE_ENV)) == PRODUCTION && MissingKeys(env) != [])
    ensures ReadNumber(env, PORT, DEFAULT_APP_PORT).Ok? && r.Err? ==>
      r.error == MissingMessage(MissingKeys(env))
    ensures r.Ok? ==> ConfiguredBy(r.value, env)
  {
    var nodeEnv := ResolveNodeEnv(Get(env, NODE_ENV));
    var isDevelopment := nodeEnv == DEVELOPMENT;
    var isProduction := nodeEnv == PRODUCTION;
    var isTest := nodeEnv == TEST;
    var appPort := ReadNumber(env, PORT, DEFAULT_APP_PORT);
    if appPort.Err? {
      return Err(appPort.error);
    }
    var loader := new EnvLoader(env, isProduction);
    var jwtSecret := loader.ReadRequired(JWT_SECRET, Some(DEFAULT_JWT_SECRET));
    var jwtExpiresIn := loader.ReadRequired(JWT_EXPIRES_IN, Some(DEFAULT_JWT_EXPIRES_IN));
    assert isProduction ==> loader.missingRequired == MissingKeys(env);
    assert !isProduction ==> loader.missingRequired == [];
    if isProduction && |loader.missingRequired| > 0 {
      return Err(MissingMessage(loader.missingRequired));
    }
    r := Ok(AppConfig(appPort.value, jwtExpiresIn, jwtSecret, isDevelopment, isProduction, isTest, nodeEnv));
  }

  /** What a loaded configuration holds: the validated node environment
      with exactly one of its three flags set, the port, and each token
      setting from its variable or its fallback. */
  predicate ConfiguredBy(config: AppConfig, env: Env) {
    config.nodeEnv == ResolveNodeEnv(Get(env, NODE_ENV)) &&
    config.isDevelopment == (config.nodeEnv == DEVELOPMENT) &&
    config.isProduction == (config.nodeEnv == PRODUCTION) &&
    config.isTest == (config.nodeEnv == TEST) &&
    ReadNumber(env, PORT, DEFAULT_APP_PORT) == Ok(config.port) &&
    config.jwtSecret == RequiredValue(env, JWT_SECRET, Some(DEFAULT_JWT_SECRET)) &&
    config.jwtExpiresIn == RequiredValue(env, JWT_EXPIRES_IN, Some(DEFAULT_JWT_EXPIRES_IN))
  }

  /** Exactly one of the three flags of a loaded configuration is set. */
  lemma OneFlag(config: AppConfig, env: Env)
    requires ConfiguredBy(config, env)
    ensures (config.isDevelopment && !config.isProduction && !config.isTest) ||
            (!config.isDevelopment && config.isProduction && !config.isTest) ||
            (!config.isDevelopment && !config.isProduction && config.isTest)
  {
  }
}
