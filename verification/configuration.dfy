/**
 * The environment policy cache: two known boolean-ish environment flags,
 * read from the process environment at most once each and memoized in a
 * process-wide table.
 *
 * The process environment is an input: `None` when there is no `process`
 * or no `process.env`, otherwise `Some(vars)` with the variables defined.
 */
module Configuration {
  import opened Wrappers
  import opened Text

  /** The keys of the environment variables the bridge looks up. */
  datatype KnownEnvironmentKey = AzureHttpTracingChildrenDisabled | AzureTracingDisabled {
    function Name(): string {
      match this
      case AzureHttpTracingChildrenDisabled => "AZURE_HTTP_TRACING_CHILDREN_DISABLED"
      case AzureTracingDisabled => "AZURE_TRACING_DISABLED"
    }
  }

  /** What `process.env` looks like from the bridge: absent, or a table of variables. */
  type ProcessEnv = Option<map<string, string>>

  /** The cache contents: a key is either missing, or cached with a value that may be undefined. */
  type CacheEntries = map<KnownEnvironmentKey, Option<string>>

  /** `vars[name] ?? vars[name.toLowerCase()]`. */
  function Lookup(vars: map<string, string>, name: string): (r: Option<string>)
    // the exact key wins whenever it is defined, even as ""
    ensures name in vars ==> r == Some(vars[name])
    // the lower-cased key is consulted only when the exact key is undefined
    ensures name !in vars && ToLower(name) in vars ==> r == Some(vars[ToLower(name)])
    ensures r.None? <==> name !in vars && ToLower(name) !in vars
  {
    if name in vars then Some(vars[name])
    else if ToLower(name) in vars then Some(vars[ToLower(name)])
    else None
  }

  /** `environmentCache.get(key)`: undefined for a key not in the table. */
  function Get(entries: CacheEntries, key: KnownEnvironmentKey): Option<string> {
    if key in entries then entries[key] else None
  }

  /** The table after `loadEnvironmentVariable(key)`. */
  function Loaded(entries: CacheEntries, key: KnownEnvironmentKey, env: ProcessEnv): (r: CacheEntries)
    ensures env.None? ==> r == entries
    ensures env.Some? ==> key in r && r[key] == Lookup(env.value, key.Name())
    ensures forall k :: k != key ==> Get(r, k) == Get(entries, k) && (k in r <==> k in entries)
  {
    if env.Some? then entries[key := Lookup(env.value, key.Name())] else entries
  }

  /** The table after the memoizing part of `envVarToBoolean(key)`. */
  function Resolved(entries: CacheEntries, key: KnownEnvironmentKey, env: ProcessEnv): (r: CacheEntries)
    // an entry once cached is never re-read, whatever the environment holds now
    ensures key in entries ==> r == entries
    // with an environment, the key is cached afterwards, even when its value is undefined
    ensures env.Some? ==> key in r
    ensures key !in entries && env.Some? ==> r[key] == Lookup(env.value, key.Name())
    // without an environment nothing is cached
    ensures env.None? ==> r == entries
    // no other entry changes
    ensures forall k :: k != key ==> Get(r, k) == Get(entries, k) && (k in r <==> k in entries)
  {
    if key !in entries then Loaded(entries, key, env) else entries
  }

  /** The boolean coercion: `(raw ?? '').toLowerCase()` is neither "false", "0" nor empty. */
  function Coerce(raw: Option<string>): (r: bool)
    // false exactly for absent, "", "0" and "false" in any letter case
    ensures r == !IsOffValue(raw)
  {
    var value := ToLower(raw.GetOr(""));
    value != "false" && value != "0" && value != ""
  }

  /** Reference definition of the values that mean "off". */
  predicate IsOffValue(raw: Option<string>) {
    match raw
    case None => true
    case Some(s) => s == "" || s == "0" || EqualsIgnoreCase(s, "false")
  }

  /** The result of `envVarToBoolean(key)` against the table as it was before the call. */
  function Flag(entries: CacheEntries, key: KnownEnvironmentKey, env: ProcessEnv): (r: bool)
    // a cached key answers from the cache alone
    ensures key in entries ==> r == !IsOffValue(entries[key])
    // an uncached key answers from the environment as looked up now
    ensures key !in entries && env.Some? ==> r == !IsOffValue(Lookup(env.value, key.Name()))
    // with neither, the answer is false
    ensures key !in entries && env.None? ==> !r
  {
    Coerce(Get(Resolved(entries, key, env), key))
  }

  /**
   * The process-wide `environmentCache` map together with the two
   * functions that fill and read it.
   */
  class EnvironmentCache {
    var entries: CacheEntries

    constructor()
      ensures entries == map[]
    {
      entries := map[];
    }

    /** `loadEnvironmentVariable`: store what the environment holds for `key`, if there is an environment. */
    method LoadEnvironmentVariable(key: KnownEnvironmentKey, env: ProcessEnv)
      modifies this
      ensures entries == Loaded(old(entries), key, env)
    {
      if env.Some? {
        var rawValue := Lookup(env.value, key.Name());
        entries := entries[key := rawValue];
      }
    }

    /** `envVarToBoolean`: load `key` unless cached, then coerce the cached value. */
    method EnvVarToBoolean(key: KnownEnvironmentKey, env: ProcessEnv) returns (b: bool)
      modifies this
      ensures entries == Resolved(old(entries), key, env)
      ensures b == Flag(old(entries), key, env)
      ensures b == !IsOffValue(Get(entries, key))
    {
      if key !in entries {
        LoadEnvironmentVariable(key, env);
      }
      b := Coerce(Get(entries, key));
    }
  }

  /** Sample values from the coercion table. */
  lemma CoerceExamples()
    ensures !Coerce(Some("false")) && !Coerce(Some("FALSE")) && !Coerce(Some("False"))
    ensures !Coerce(Some("0")) && !Coerce(Some("")) && !Coerce(None)
    ensures Coerce(Some("true")) && Coerce(Some("1")) && Coerce(Some("yes")) && Coerce(Some(" 0"))
  {
  }

  /**
   * Once a call found an environment (or the key was already cached), a
   * second call neither changes the table nor gives another answer, even
   * against a different environment.
   */
  lemma FlagIsStable(entries: CacheEntries, key: KnownEnvironmentKey, env1: ProcessEnv, env2: ProcessEnv)
    requires key in entries || env1.Some?
    ensures Resolved(Resolved(entries, key, env1), key, env2) == Resolved(entries, key, env1)
    ensures Flag(Resolved(entries, key, env1), key, env2) == Flag(entries, key, env1)
  {
  }

  /** Without a process environment the flag is false and nothing is cached, so a later call loads again. */
  lemma NoEnvironmentIsFalse(entries: CacheEntries, key: KnownEnvironmentKey, env2: ProcessEnv)
    requires key !in entries
    ensures !Flag(entries, key, None)
    ensures key !in Resolved(entries, key, None)
    ensures Resolved(Resolved(entries, key, None), key, env2) == Loaded(entries, key, env2)
  {
  }
}
