/** The environment translation of platformsh-laravel-env.php as functions
    from the stores before a call to the stores after it (and how it ended).
    Bridge.Environment runs the same steps in place and is proved equal to
    these; module Properties states what they promise. */
module Mapping {
  import opened Values

  const DbNames: set<string> :=
    {"DB_CONNECTION", "DB_HOST", "DB_PORT", "DB_DATABASE", "DB_USERNAME", "DB_PASSWORD"}

  const CacheNames: set<string> := {"CACHE_DRIVER", "REDIS_HOST", "REDIS_PORT"}

  /** Every variable the translation can write. */
  const OutputNames: set<string> := {"APP_KEY", "SESSION_SECURE_COOKIE"} + DbNames + CacheNames

  /** The output names split into four disjoint groups, none of them an
      input the translation reads. */
  lemma NameFacts()
    ensures DbNames !! CacheNames
    ensures "APP_KEY" != "SESSION_SECURE_COOKIE"
    ensures "APP_KEY" !in DbNames + CacheNames && "SESSION_SECURE_COOKIE" !in DbNames + CacheNames
    ensures "DB_DATABASE" in DbNames && "REDIS_HOST" in CacheNames
    ensures "PLATFORM_RELATIONSHIPS" !in OutputNames
  {
  }

  /** setEnvVar(name, v): putenv first (fatal if refused), then `$_ENV` when
      `variables_order` enables it, then `$_SERVER` when enabled, except that a
      name containing "HTTP_" is refused there with an exception, after the
      raw store and `$_ENV` were written. */
  function SetVar(st: Stores, cfg: Config, name: string, v: Value): (r: Run)
    ensures r.outcome == Thrown(PutenvFailed(name)) <==> name in cfg.putenvRefuses
    ensures name in cfg.putenvRefuses ==> r.stores == st
    ensures r.outcome == Thrown(AmbiguousServerVar(name)) <==>
              name !in cfg.putenvRefuses && MirrorsServer(cfg) && ContainsSub(name, "HTTP_")
    ensures r.outcome.Thrown? ==> !r.outcome.error.DecodeTypeError? && r.outcome.error.name == name
    ensures Confined(cfg, st, r.stores, {name})
    ensures name !in cfg.putenvRefuses ==> name in r.stores.raw && r.stores.raw[name] == Interpolate(v)
    ensures name !in cfg.putenvRefuses && MirrorsEnv(cfg) ==> name in r.stores.env && r.stores.env[name] == v
    ensures name !in cfg.putenvRefuses && MirrorsServer(cfg) && !ContainsSub(name, "HTTP_") ==>
              name in r.stores.server && r.stores.server[name] == v
    ensures ContainsSub(name, "HTTP_") ==> r.stores.server == st.server
    ensures r.outcome == Done ==> Holds(r.stores, cfg, name, v)
  {
    if name in cfg.putenvRefuses then Run(st, Thrown(PutenvFailed(name)))
    else
      var raw := st.raw[name := Interpolate(v)];
      var env := if MirrorsEnv(cfg) then st.env[name := v] else st.env;
      if !MirrorsServer(cfg) then Run(Stores(raw, env, st.server), Done)
      else if ContainsSub(name, "HTTP_") then Run(Stores(raw, env, st.server), Thrown(AmbiguousServerVar(name)))
      else Run(Stores(raw, env, st.server[name := v]), Done)
  }

  /** The names a list of (name, value) writes touches. */
  function Names(pairs: seq<(string, Value)>): set<string>
  {
    set i | 0 <= i < |pairs| :: pairs[i].0
  }

  /** A straight run of setEnvVar calls; the first exception ends it. */
  function SetVars(st: Stores, cfg: Config, pairs: seq<(string, Value)>): (r: Run)
    ensures Confined(cfg, st, r.stores, Names(pairs))
    ensures r.outcome.Thrown? ==> !r.outcome.error.DecodeTypeError? && r.outcome.error.name in Names(pairs)
    decreases |pairs|
  {
    if pairs == [] then Run(st, Done)
    else
      var w := SetVar(st, cfg, pairs[0].0, pairs[0].1);
      assert Names(pairs) == {pairs[0].0} + Names(pairs[1..]) by {
        forall k | k in Names(pairs) ensures k in {pairs[0].0} + Names(pairs[1..]) {
          var i :| 0 <= i < |pairs| && pairs[i].0 == k;
          if i > 0 { assert pairs[1..][i - 1].0 == k; }
        }
        forall k | k in Names(pairs[1..]) ensures k in Names(pairs) {
          var i :| 0 <= i < |pairs[1..]| && pairs[1..][i].0 == k;
          assert pairs[i + 1].0 == k;
        }
      }
      if w.outcome.Thrown? then w else SetVars(w.stores, cfg, pairs[1..])
  }

  /** The first step of SetVars, for callers that take the writes one by one. */
  lemma SetVarsHead(st: Stores, cfg: Config, pairs: seq<(string, Value)>)
    requires pairs != []
    ensures SetVars(st, cfg, pairs) ==
              var w := SetVar(st, cfg, pairs[0].0, pairs[0].1);
              if w.outcome.Thrown? then w else SetVars(w.stores, cfg, pairs[1..])
  {
  }

  /** The six writes of lines 85-91, in source order. */
  function DbPairs(e: Endpoint): (pairs: seq<(string, Value)>)
    ensures Names(pairs) == DbNames
    ensures forall i, j :: 0 <= i < j < |pairs| ==> pairs[i].0 != pairs[j].0
  {
    var p := [("DB_CONNECTION", e.scheme), ("DB_HOST", e.host), ("DB_PORT", e.port),
     ("DB_DATABASE", e.path), ("DB_USERNAME", e.username), ("DB_PASSWORD", e.password)];
    assert p[0].0 == "DB_CONNECTION" && p[1].0 == "DB_HOST" && p[2].0 == "DB_PORT";
    assert p[3].0 == "DB_DATABASE" && p[4].0 == "DB_USERNAME" && p[5].0 == "DB_PASSWORD";
    p
  }

  /** The foreach of mapPlatformShDatabase: skip endpoints whose is_master
      is empty, write the six DB_* variables for every other one. */
  function ApplyMasters(st: Stores, cfg: Config, eps: seq<Endpoint>): (r: Run)
    ensures Confined(cfg, st, r.stores, DbNames)
    decreases |eps|
  {
    if eps == [] then Run(st, Done)
    else if !Truthy(eps[0].isMaster) then ApplyMasters(st, cfg, eps[1..])
    else
      var w := SetVars(st, cfg, DbPairs(eps[0]));
      if w.outcome.Thrown? then w else ApplyMasters(w.stores, cfg, eps[1..])
  }

  /** Looking a relationship up: not there (a silent no-op for the caller),
      its endpoints, or the TypeError json_decode raises. */
  datatype Lookup = Absent | Found(endpoints: seq<Endpoint>) | Undecodable

  /** Lines 77-79 (and 99-101): the relationship `name` of a truthy
      PLATFORM_RELATIONSHIPS. It is absent when the variable is falsy, is
      not JSON, or lacks the key, and the lookup fails when it is not base64. */
  function Relationship(st: Stores, decode: Decoder, name: string): (l: Lookup)
    ensures l.Undecodable? <==>
              Truthy(GetEnv(st, "PLATFORM_RELATIONSHIPS")) && decode(st.raw["PLATFORM_RELATIONSHIPS"]).NotBase64?
    ensures l.Found? <==>
              && Truthy(GetEnv(st, "PLATFORM_RELATIONSHIPS"))
              && decode(st.raw["PLATFORM_RELATIONSHIPS"]).Object?
              && name in decode(st.raw["PLATFORM_RELATIONSHIPS"]).relationships
    ensures l.Found? ==> l.endpoints == decode(st.raw["PLATFORM_RELATIONSHIPS"]).relationships[name]
  {
    if !Truthy(GetEnv(st, "PLATFORM_RELATIONSHIPS")) then Absent
    else
      match decode(st.raw["PLATFORM_RELATIONSHIPS"])
      case NotBase64 => Undecodable
      case NotJson => Absent
      case Object(rels) => if name in rels then Found(rels[name]) else Absent
  }

  /** mapPlatformShDatabase(name). */
  function MapDatabase(st: Stores, cfg: Config, decode: Decoder, name: string): (r: Run)
    ensures Relationship(st, decode, name).Absent? ==> r == Run(st, Done)
    ensures Relationship(st, decode, name).Undecodable? ==> r == Run(st, Thrown(DecodeTypeError))
    ensures Confined(cfg, st, r.stores, DbNames)
  {
    match Relationship(st, decode, name)
    case Absent => Run(st, Done)
    case Undecodable => Run(st, Thrown(DecodeTypeError))
    case Found(eps) => ApplyMasters(st, cfg, eps)
  }

  /** The body of mapPlatformShRedisCache once the relationship is found:
      CACHE_DRIVER first, then host and port of the first endpoint only. */
  function ApplyCache(st: Stores, cfg: Config, eps: seq<Endpoint>): (r: Run)
    ensures Confined(cfg, st, r.stores, CacheNames)
  {
    var d := SetVar(st, cfg, "CACHE_DRIVER", Str("redis"));
    if d.outcome.Thrown? || eps == [] then d
    else
      var pairs := [("REDIS_HOST", eps[0].host), ("REDIS_PORT", eps[0].port)];
      assert Names(pairs) == {"REDIS_HOST", "REDIS_PORT"} by {
        assert pairs[0].0 == "REDIS_HOST" && pairs[1].0 == "REDIS_PORT";
      }
      var w := SetVars(d.stores, cfg, pairs);
      ConfinedTrans(cfg, st, d.stores, w.stores, {"CACHE_DRIVER"}, Names(pairs), CacheNames);
      w
  }

  /** mapPlatformShRedisCache(name). */
  function MapRedisCache(st: Stores, cfg: Config, decode: Decoder, name: string): (r: Run)
    ensures Relationship(st, decode, name).Absent? ==> r == Run(st, Done)
    ensures Relationship(st, decode, name).Undecodable? ==> r == Run(st, Thrown(DecodeTypeError))
    ensures Confined(cfg, st, r.stores, CacheNames)
  {
    match Relationship(st, decode, name)
    case Absent => Run(st, Done)
    case Undecodable => Run(st, Thrown(DecodeTypeError))
    case Found(eps) => ApplyCache(st, cfg, eps)
  }

  /** `getenv('APP_KEY') ?: getenv('PLATFORM_PROJECT_ENTROPY') ?: null` */
  function Secret(st: Stores): (v: Value)
    ensures Truthy(GetEnv(st, "APP_KEY")) ==> v == GetEnv(st, "APP_KEY")
    ensures !Truthy(GetEnv(st, "APP_KEY")) && Truthy(GetEnv(st, "PLATFORM_PROJECT_ENTROPY")) ==>
              v == GetEnv(st, "PLATFORM_PROJECT_ENTROPY")
    ensures !Truthy(GetEnv(st, "APP_KEY")) && !Truthy(GetEnv(st, "PLATFORM_PROJECT_ENTROPY")) ==> v == Null
  {
    Elvis(Elvis(GetEnv(st, "APP_KEY"), GetEnv(st, "PLATFORM_PROJECT_ENTROPY")), Null)
  }

  /** `getenv('SESSION_SECURE_COOKIE') ?: 1` */
  function SecureCookie(st: Stores): (v: Value)
    ensures Truthy(v)
    ensures Truthy(GetEnv(st, "SESSION_SECURE_COOKIE")) ==> v == GetEnv(st, "SESSION_SECURE_COOKIE")
    ensures !Truthy(GetEnv(st, "SESSION_SECURE_COOKIE")) ==> v == Str("1")
  {
    Elvis(GetEnv(st, "SESSION_SECURE_COOKIE"), Str("1"))
  }

  /** mapPlatformShEnvironment(), with the relationship names of lines 35 and 39. */
  function MapEnvironment(st: Stores, cfg: Config, decode: Decoder): (r: Run)
    ensures !Truthy(GetEnv(st, "PLATFORM_APPLICATION")) ==> r == Run(st, Done)
    ensures Confined(cfg, st, r.stores, OutputNames)
    ensures Truthy(GetEnv(st, "DB_DATABASE")) ==>
              Confined(cfg, st, r.stores, {"APP_KEY", "SESSION_SECURE_COOKIE"} + CacheNames)
    ensures Truthy(GetEnv(st, "REDIS_HOST")) ==>
              Confined(cfg, st, r.stores, {"APP_KEY", "SESSION_SECURE_COOKIE"} + DbNames)
  {
    NameFacts();
    if !Truthy(GetEnv(st, "PLATFORM_APPLICATION")) then Run(st, Done)
    else
      var k := SetVar(st, cfg, "APP_KEY", Secret(st));
      if k.outcome.Thrown? then k
      else
        var a := AfterAppKey(k.stores, cfg, decode);
        assert SameAt(st, k.stores, "DB_DATABASE") && SameAt(st, k.stores, "REDIS_HOST");
        ConfinedTrans(cfg, st, k.stores, a.stores, {"APP_KEY"}, {"SESSION_SECURE_COOKIE"} + DbNames + CacheNames, OutputNames);
        assert Truthy(GetEnv(st, "DB_DATABASE")) ==>
                 Confined(cfg, st, a.stores, {"APP_KEY", "SESSION_SECURE_COOKIE"} + CacheNames) by {
          if Truthy(GetEnv(st, "DB_DATABASE")) {
            ConfinedTrans(cfg, st, k.stores, a.stores, {"APP_KEY"}, {"SESSION_SECURE_COOKIE"} + CacheNames,
                          {"APP_KEY", "SESSION_SECURE_COOKIE"} + CacheNames);
          }
        }
        assert Truthy(GetEnv(st, "REDIS_HOST")) ==>
                 Confined(cfg, st, a.stores, {"APP_KEY", "SESSION_SECURE_COOKIE"} + DbNames) by {
          if Truthy(GetEnv(st, "REDIS_HOST")) {
            ConfinedTrans(cfg, st, k.stores, a.stores, {"APP_KEY"}, {"SESSION_SECURE_COOKIE"} + DbNames,
                          {"APP_KEY", "SESSION_SECURE_COOKIE"} + DbNames);
          }
        }
        a
  }

  /** Lines 31-40 of mapPlatformShEnvironment: the secure-cookie default, then
      the service mappers. */
  function AfterAppKey(st: Stores, cfg: Config, decode: Decoder): (r: Run)
    ensures Confined(cfg, st, r.stores, {"SESSION_SECURE_COOKIE"} + DbNames + CacheNames)
    ensures Truthy(GetEnv(st, "DB_DATABASE")) ==> Confined(cfg, st, r.stores, {"SESSION_SECURE_COOKIE"} + CacheNames)
    ensures Truthy(GetEnv(st, "REDIS_HOST")) ==> Confined(cfg, st, r.stores, {"SESSION_SECURE_COOKIE"} + DbNames)
  {
    NameFacts();
    var c := SetVar(st, cfg, "SESSION_SECURE_COOKIE", SecureCookie(st));
    if c.outcome.Thrown? then c
    else
      var m := MapServices(c.stores, cfg, decode);
      assert SameAt(st, c.stores, "DB_DATABASE") && SameAt(st, c.stores, "REDIS_HOST");
      ConfinedTrans(cfg, st, c.stores, m.stores, {"SESSION_SECURE_COOKIE"}, DbNames + CacheNames,
                    {"SESSION_SECURE_COOKIE"} + DbNames + CacheNames);
      assert Truthy(GetEnv(st, "DB_DATABASE")) ==>
               Confined(cfg, st, m.stores, {"SESSION_SECURE_COOKIE"} + CacheNames) by {
        if Truthy(GetEnv(st, "DB_DATABASE")) {
          ConfinedTrans(cfg, st, c.stores, m.stores, {"SESSION_SECURE_COOKIE"}, CacheNames,
                        {"SESSION_SECURE_COOKIE"} + CacheNames);
        }
      }
      assert Truthy(GetEnv(st, "REDIS_HOST")) ==>
               Confined(cfg, st, m.stores, {"SESSION_SECURE_COOKIE"} + DbNames) by {
        if Truthy(GetEnv(st, "REDIS_HOST")) {
          ConfinedTrans(cfg, st, c.stores, m.stores, {"SESSION_SECURE_COOKIE"}, DbNames,
                        {"SESSION_SECURE_COOKIE"} + DbNames);
        }
      }
      m
  }

  /** Lines 34-40 of mapPlatformShEnvironment: each mapper runs only while
      the variable it would set first is not already truthy. */
  function MapServices(st: Stores, cfg: Config, decode: Decoder): (r: Run)
    ensures Confined(cfg, st, r.stores, DbNames + CacheNames)
    ensures Truthy(GetEnv(st, "DB_DATABASE")) ==> Confined(cfg, st, r.stores, CacheNames)
    ensures Truthy(GetEnv(st, "REDIS_HOST")) ==> Confined(cfg, st, r.stores, DbNames)
  {
    NameFacts();
    var d := if !Truthy(GetEnv(st, "DB_DATABASE")) then MapDatabase(st, cfg, decode, "database")
             else Run(st, Done);
    if d.outcome.Thrown? then d
    else if !Truthy(GetEnv(d.stores, "REDIS_HOST")) then
      var c := MapRedisCache(d.stores, cfg, decode, "rediscache");
      ConfinedTrans(cfg, st, d.stores, c.stores, DbNames, CacheNames, DbNames + CacheNames);
      assert SameAt(st, d.stores, "REDIS_HOST");
      c
    else d
  }
}
