/** What the two configuration readers share: the process environment as a
    map from variable names to values (a name outside the map is unset),
    the lookup rule for required variables and the de-duplicating list of
    missing names. */
module Environment {
  import opened Wrappers
  import opened Strings

  type Env = map<string, string>

  const MISSING_PREFIX: string := "Missing required environment variables: "
  const MISSING_SEPARATOR: string := ", "

  /** `process.env[key]`. */
  function Get(env: Env, key: string): (r: Option<string>)
    ensures r.Some? <==> key in env
    ensures r.Some? ==> r.value == env[key]
  {
    if key in env then Some(env[key]) else None
  }

  /** `value === undefined || value === ""`. */
  predicate Unset(env: Env, key: string) {
    key !in env || env[key] == ""
  }

  /** The optional readers: an unset or empty variable reads as absent. */
  function Optional(env: Env, key: string): (r: Option<string>)
    ensures r.None? <==> Unset(env, key)
    ensures r.Some? ==> r.value == env[key] && r.value != ""
  {
    if Unset(env, key) then None else Some(env[key])
  }

  /** The value a required read returns: the variable when set, otherwise
      the fallback, or the empty string when there is none. In production
      the fallback is returned as well; the key is then reported missing. */
  function RequiredValue(env: Env, key: string, fallback: Option<string>): (r: string)
    ensures !Unset(env, key) ==> r == env[key]
    ensures Unset(env, key) && fallback.Some? ==> r == fallback.value
    ensures Unset(env, key) && fallback.None? ==> r == ""
  {
    if !Unset(env, key) then env[key] else fallback.GetOr("")
  }

  /** Whether a required read records its key as missing: the variable is
      unset and either there is no fallback or this is production. */
  predicate Reported(env: Env, key: string, fallback: Option<string>, isProduction: bool) {
    Unset(env, key) && (fallback.None? || isProduction)
  }

  /** `trackMissing`: the list with `key` added unless already there. */
  function Tracked(missing: seq<string>, key: string): (r: seq<string>)
    ensures missing <= r
    ensures forall x :: x in r <==> x in missing || x == key
    ensures NoDuplicates(missing) ==> NoDuplicates(r)
  {
    if key in missing then missing else missing + [key]
  }

  /** Tracking a key twice is tracking it once. */
  lemma TrackedIdempotent(missing: seq<string>, key: string)
    ensures Tracked(Tracked(missing, key), key) == Tracked(missing, key)
  {
  }

  /** The message the production check throws: it names every missing
      key, the last one at its end. */
  function MissingMessage(missing: seq<string>): (r: string)
    ensures MISSING_PREFIX <= r
    ensures |missing| == 1 ==> r == MISSING_PREFIX + missing[0]
    ensures missing != [] ==> EndsWith(r, missing[|missing| - 1])
    ensures forall k :: k in missing ==> Contains(r, k)
  {
    var joined := Join(missing, MISSING_SEPARATOR);
    var r := MISSING_PREFIX + joined;
    assert missing != [] ==> EndsWith(r, missing[|missing| - 1]) by {
      if missing != [] {
        JoinEndsWith(missing, MISSING_SEPARATOR);
        var last := missing[|missing| - 1];
        assert r[|r| - |joined|..] == joined;
        assert r[|r| - |last|..] == joined[|joined| - |last|..];
      }
    }
    forall k | k in missing ensures Contains(r, k) {
      var j :| 0 <= j < |missing| && missing[j] == k;
      var i := JoinPartAt(missing, MISSING_SEPARATOR, j);
      OccursAfter(MISSING_PREFIX, joined, k, i);
      ContainsIff(r, k);
    }
    r
  }
}
