/** What the translation of platformsh-laravel-env.php promises, proved about
    the functions of module Mapping (and so, through the ensures clauses of
    Bridge.Environment, about the in-place methods). */
module Properties {
  import opened Values
  import opened Mapping

  /** The names of a list of writes are pairwise distinct. */
  ghost predicate DistinctNames(pairs: seq<(string, Value)>)
  {
    forall i, j :: 0 <= i < j < |pairs| ==> pairs[i].0 != pairs[j].0
  }

  /** Endpoint i is a master and no later endpoint is. */
  ghost predicate IsLastMaster(eps: seq<Endpoint>, i: int)
  {
    && 0 <= i < |eps|
    && Truthy(eps[i].isMaster)
    && forall j :: i < j < |eps| ==> !Truthy(eps[j].isMaster)
  }

  /** The six DB_* variables hold the fields of endpoint e. */
  ghost predicate DbHolds(st: Stores, cfg: Config, e: Endpoint)
  {
    && Holds(st, cfg, "DB_CONNECTION", e.scheme)
    && Holds(st, cfg, "DB_HOST", e.host)
    && Holds(st, cfg, "DB_PORT", e.port)
    && Holds(st, cfg, "DB_DATABASE", e.path)
    && Holds(st, cfg, "DB_USERNAME", e.username)
    && Holds(st, cfg, "DB_PASSWORD", e.password)
  }

  /** A name in which no 'H' is directly followed by 'T' cannot contain "HTTP_". */
  lemma NoHttpWithoutHT(name: string)
    requires forall i :: 0 <= i < |name| - 1 ==> !(name[i] == 'H' && name[i + 1] == 'T')
    ensures !ContainsSub(name, "HTTP_")
  {
    forall i | 0 <= i <= |name| ensures !OccursAt(name, "HTTP_", i) {
      if i + 5 <= |name| {
        assert name[i..i + 5][0] == name[i] && name[i..i + 5][1] == name[i + 1];
      }
    }
  }

  /** None of the eleven output variables is refused by the `$_SERVER` guard. */
  lemma OutputNamesUnambiguous()
    ensures forall n :: n in OutputNames ==> !ContainsSub(n, "HTTP_")
  {
    NoHttpWithoutHT("APP_KEY");
    NoHttpWithoutHT("SESSION_SECURE_COOKIE");
    NoHttpWithoutHT("DB_CONNECTION");
    NoHttpWithoutHT("DB_HOST");
    NoHttpWithoutHT("DB_PORT");
    NoHttpWithoutHT("DB_DATABASE");
    NoHttpWithoutHT("DB_USERNAME");
    NoHttpWithoutHT("DB_PASSWORD");
    NoHttpWithoutHT("CACHE_DRIVER");
    NoHttpWithoutHT("REDIS_HOST");
    NoHttpWithoutHT("REDIS_PORT");
  }

  /** PLATFORM_RELATIONSHIPS is truthy but not base64, so both mappers fail
      with json_decode's TypeError. */
  ghost predicate RelationshipsUndecodable(st: Stores, decode: Decoder)
  {
    Truthy(GetEnv(st, "PLATFORM_RELATIONSHIPS")) && decode(st.raw["PLATFORM_RELATIONSHIPS"]).NotBase64?
  }

  /** A run of writes to distinct names that completes leaves every name
      holding the value written to it. */
  lemma {:induction false} SetVarsHold(st: Stores, cfg: Config, pairs: seq<(string, Value)>)
    requires DistinctNames(pairs)
    requires SetVars(st, cfg, pairs).outcome == Done
    ensures forall i :: 0 <= i < |pairs| ==> Holds(SetVars(st, cfg, pairs).stores, cfg, pairs[i].0, pairs[i].1)
    decreases |pairs|
  {
    if pairs != [] {
      var w := SetVar(st, cfg, pairs[0].0, pairs[0].1);
      var rest := pairs[1..];
      assert DistinctNames(rest) by {
        forall i, j | 0 <= i < j < |rest| ensures rest[i].0 != rest[j].0 {
          assert rest[i] == pairs[i + 1] && rest[j] == pairs[j + 1];
        }
      }
      SetVarsHold(w.stores, cfg, rest);
      var r := SetVars(w.stores, cfg, rest);
      assert pairs[0].0 !in Names(rest) by {
        forall i | 0 <= i < |rest| ensures rest[i].0 != pairs[0].0 {
          assert rest[i] == pairs[i + 1];
        }
      }
      assert SameAt(w.stores, r.stores, pairs[0].0);
      forall i | 0 <= i < |pairs| ensures Holds(r.stores, cfg, pairs[i].0, pairs[i].1) {
        if i > 0 {
          assert pairs[i] == rest[i - 1];
        }
      }
    }
  }

  /** A run of writes none of whose names contains "HTTP_" completes exactly
      when putenv accepts every name, and otherwise fails on a refused one. */
  lemma {:induction false} SetVarsOutcome(st: Stores, cfg: Config, pairs: seq<(string, Value)>)
    requires forall i :: 0 <= i < |pairs| ==> !ContainsSub(pairs[i].0, "HTTP_")
    ensures SetVars(st, cfg, pairs).outcome == Done <==> Names(pairs) !! cfg.putenvRefuses
    ensures SetVars(st, cfg, pairs).outcome.Thrown? ==>
              SetVars(st, cfg, pairs).outcome.error.PutenvFailed? &&
              SetVars(st, cfg, pairs).outcome.error.name in cfg.putenvRefuses
    decreases |pairs|
  {
    if pairs != [] {
      var w := SetVar(st, cfg, pairs[0].0, pairs[0].1);
      var rest := pairs[1..];
      SetVarsOutcome(w.stores, cfg, rest);
      assert Names(pairs) == {pairs[0].0} + Names(rest) by {
        forall k | k in Names(pairs) ensures k in {pairs[0].0} + Names(rest) {
          var i :| 0 <= i < |pairs| && pairs[i].0 == k;
          if i > 0 { assert rest[i - 1].0 == k; }
        }
        forall k | k in Names(rest) ensures k in Names(pairs) {
          var i :| 0 <= i < |rest| && rest[i].0 == k;
          assert pairs[i + 1].0 == k;
        }
      }
    }
  }

  /** With no master endpoint, the database foreach writes nothing. */
  lemma {:induction false} NoMasterNoWrite(st: Stores, cfg: Config, eps: seq<Endpoint>)
    requires forall j :: 0 <= j < |eps| ==> !Truthy(eps[j].isMaster)
    ensures ApplyMasters(st, cfg, eps) == Run(st, Done)
    decreases |eps|
  {
    if eps != [] {
      NoMasterNoWrite(st, cfg, eps[1..]);
    }
  }

  /** An endpoint with an empty is_master never contributes: dropping it
      from the list changes nothing. */
  lemma {:induction false} NonMasterIgnored(st: Stores, cfg: Config, eps: seq<Endpoint>, i: nat)
    requires i < |eps| && !Truthy(eps[i].isMaster)
    ensures ApplyMasters(st, cfg, eps) == ApplyMasters(st, cfg, eps[..i] + eps[i + 1..])
    decreases |eps|
  {
    var dropped := eps[..i] + eps[i + 1..];
    if i == 0 {
      assert dropped == eps[1..];
    } else {
      var rest := eps[1..];
      assert dropped[0] == eps[0];
      assert dropped[1..] == rest[..i - 1] + rest[i..];
      if Truthy(eps[0].isMaster) {
        var w := SetVars(st, cfg, DbPairs(eps[0]));
        if w.outcome.Done? {
          NonMasterIgnored(w.stores, cfg, rest, i - 1);
        }
      } else {
        NonMasterIgnored(st, cfg, rest, i - 1);
      }
    }
  }

  /** The database foreach completes exactly when there is no master
      endpoint or putenv accepts all six DB_* names; it never trips the
      "HTTP_" guard. */
  lemma {:induction false} MastersOutcome(st: Stores, cfg: Config, eps: seq<Endpoint>)
    ensures ApplyMasters(st, cfg, eps).outcome == Done <==>
              (forall j :: 0 <= j < |eps| ==> !Truthy(eps[j].isMaster)) || DbNames !! cfg.putenvRefuses
    ensures ApplyMasters(st, cfg, eps).outcome.Thrown? ==>
              ApplyMasters(st, cfg, eps).outcome.error.PutenvFailed? &&
              ApplyMasters(st, cfg, eps).outcome.error.name in DbNames * cfg.putenvRefuses
    decreases |eps|
  {
    if eps != [] {
      if Truthy(eps[0].isMaster) {
        assert DistinctNames(DbPairs(eps[0]));
        OutputNamesUnambiguous();
        SetVarsOutcome(st, cfg, DbPairs(eps[0]));
        var w := SetVars(st, cfg, DbPairs(eps[0]));
        if w.outcome.Done? {
          MastersOutcome(w.stores, cfg, eps[1..]);
        }
      } else {
        MastersOutcome(st, cfg, eps[1..]);
        assert forall j :: 1 <= j < |eps| ==> eps[j] == eps[1..][j - 1];
      }
    }
  }

  /** Several masters: the six DB_* variables end up holding the fields of
      the last one. */
  lemma {:induction false} LastMasterWins(st: Stores, cfg: Config, eps: seq<Endpoint>, i: int)
    requires IsLastMaster(eps, i)
    requires ApplyMasters(st, cfg, eps).outcome == Done
    ensures DbHolds(ApplyMasters(st, cfg, eps).stores, cfg, eps[i])
    decreases |eps|
  {
    if Truthy(eps[0].isMaster) {
      var w := SetVars(st, cfg, DbPairs(eps[0]));
      if i == 0 {
        NoMasterNoWrite(w.stores, cfg, eps[1..]);
        assert DistinctNames(DbPairs(eps[0]));
        SetVarsHold(st, cfg, DbPairs(eps[0]));
        var p := DbPairs(eps[0]);
        assert Holds(w.stores, cfg, p[0].0, p[0].1) && Holds(w.stores, cfg, p[1].0, p[1].1);
        assert Holds(w.stores, cfg, p[2].0, p[2].1) && Holds(w.stores, cfg, p[3].0, p[3].1);
        assert Holds(w.stores, cfg, p[4].0, p[4].1) && Holds(w.stores, cfg, p[5].0, p[5].1);
      } else {
        LastMasterWins(w.stores, cfg, eps[1..], i - 1);
      }
    } else {
      LastMasterWins(st, cfg, eps[1..], i - 1);
    }
  }

  /** Only the first endpoint of the cache relationship is read: two lists
      that agree on it give the same run. */
  lemma CacheFirstEndpointOnly(st: Stores, cfg: Config, eps: seq<Endpoint>, other: seq<Endpoint>)
    requires eps != [] && other != [] && eps[0] == other[0]
    ensures ApplyCache(st, cfg, eps) == ApplyCache(st, cfg, other)
  {
  }

  /** The cache mapping completes exactly when putenv accepts the names it
      writes (CACHE_DRIVER always, REDIS_HOST and REDIS_PORT when there is an
      endpoint), and otherwise fails on one of them. */
  lemma CacheOutcome(st: Stores, cfg: Config, eps: seq<Endpoint>)
    ensures ApplyCache(st, cfg, eps).outcome == Done <==>
              "CACHE_DRIVER" !in cfg.putenvRefuses &&
              (eps != [] ==> "REDIS_HOST" !in cfg.putenvRefuses && "REDIS_PORT" !in cfg.putenvRefuses)
    ensures ApplyCache(st, cfg, eps).outcome.Thrown? ==>
              ApplyCache(st, cfg, eps).outcome.error.PutenvFailed? &&
              ApplyCache(st, cfg, eps).outcome.error.name in CacheNames * cfg.putenvRefuses
  {
    OutputNamesUnambiguous();
    var d := SetVar(st, cfg, "CACHE_DRIVER", Str("redis"));
    if d.outcome.Done? && eps != [] {
      var pairs := [("REDIS_HOST", eps[0].host), ("REDIS_PORT", eps[0].port)];
      assert Names(pairs) == {"REDIS_HOST", "REDIS_PORT"} by {
        assert pairs[0].0 == "REDIS_HOST" && pairs[1].0 == "REDIS_PORT";
      }
      SetVarsOutcome(d.stores, cfg, pairs);
    }
  }

  /** A completed cache mapping leaves CACHE_DRIVER = "redis" (even for an
      empty endpoint list, which then writes nothing else) and the first
      endpoint's host and port in REDIS_HOST and REDIS_PORT. */
  lemma CacheWrites(st: Stores, cfg: Config, eps: seq<Endpoint>)
    requires ApplyCache(st, cfg, eps).outcome == Done
    ensures Holds(ApplyCache(st, cfg, eps).stores, cfg, "CACHE_DRIVER", Str("redis"))
    ensures eps != [] ==> Holds(ApplyCache(st, cfg, eps).stores, cfg, "REDIS_HOST", eps[0].host)
    ensures eps != [] ==> Holds(ApplyCache(st, cfg, eps).stores, cfg, "REDIS_PORT", eps[0].port)
    ensures eps == [] ==> Confined(cfg, st, ApplyCache(st, cfg, eps).stores, {"CACHE_DRIVER"})
  {
    var d := SetVar(st, cfg, "CACHE_DRIVER", Str("redis"));
    if eps != [] {
      var pairs := [("REDIS_HOST", eps[0].host), ("REDIS_PORT", eps[0].port)];
      var r := SetVars(d.stores, cfg, pairs);
      assert Names(pairs) == {"REDIS_HOST", "REDIS_PORT"} && DistinctNames(pairs) by {
        assert pairs[0].0 == "REDIS_HOST" && pairs[1].0 == "REDIS_PORT";
      }
      SetVarsHold(d.stores, cfg, pairs);
      assert Holds(r.stores, cfg, pairs[0].0, pairs[0].1) && Holds(r.stores, cfg, pairs[1].0, pairs[1].1);
      assert SameAt(d.stores, r.stores, "CACHE_DRIVER");
    }
  }

  /** The platform gate (lines 19-21): off the platform nothing is touched. */
  lemma OffPlatformNoOp(st: Stores, cfg: Config, decode: Decoder)
    requires !Truthy(GetEnv(st, "PLATFORM_APPLICATION"))
    ensures MapEnvironment(st, cfg, decode) == Run(st, Done)
  {
  }

  /** APP_KEY after an on-platform run whose APP_KEY write went through: the
      prior APP_KEY if truthy, else PLATFORM_PROJECT_ENTROPY if truthy, else
      null (the raw store then holds ""). Later steps never undo it. */
  lemma AppKeyDerived(st: Stores, cfg: Config, decode: Decoder)
    requires Truthy(GetEnv(st, "PLATFORM_APPLICATION")) && "APP_KEY" !in cfg.putenvRefuses
    ensures Truthy(GetEnv(st, "APP_KEY")) ==>
              Holds(MapEnvironment(st, cfg, decode).stores, cfg, "APP_KEY", GetEnv(st, "APP_KEY"))
    ensures !Truthy(GetEnv(st, "APP_KEY")) && Truthy(GetEnv(st, "PLATFORM_PROJECT_ENTROPY")) ==>
              Holds(MapEnvironment(st, cfg, decode).stores, cfg, "APP_KEY", GetEnv(st, "PLATFORM_PROJECT_ENTROPY"))
    ensures !Truthy(GetEnv(st, "APP_KEY")) && !Truthy(GetEnv(st, "PLATFORM_PROJECT_ENTROPY")) ==>
              Holds(MapEnvironment(st, cfg, decode).stores, cfg, "APP_KEY", Null)
  {
    NameFacts();
    OutputNamesUnambiguous();
    var k := SetVar(st, cfg, "APP_KEY", Secret(st));
    assert k.outcome == Done;
    var a := AfterAppKey(k.stores, cfg, decode);
    assert "APP_KEY" !in {"SESSION_SECURE_COOKIE"} + DbNames + CacheNames;
    assert SameAt(k.stores, a.stores, "APP_KEY");
  }

  /** SESSION_SECURE_COOKIE after an on-platform run whose first two writes
      went through: its prior value if truthy, else "1". */
  lemma SecureCookieDefault(st: Stores, cfg: Config, decode: Decoder)
    requires Truthy(GetEnv(st, "PLATFORM_APPLICATION"))
    requires "APP_KEY" !in cfg.putenvRefuses && "SESSION_SECURE_COOKIE" !in cfg.putenvRefuses
    ensures Truthy(GetEnv(st, "SESSION_SECURE_COOKIE")) ==>
              Holds(MapEnvironment(st, cfg, decode).stores, cfg, "SESSION_SECURE_COOKIE",
                    GetEnv(st, "SESSION_SECURE_COOKIE"))
    ensures !Truthy(GetEnv(st, "SESSION_SECURE_COOKIE")) ==>
              Holds(MapEnvironment(st, cfg, decode).stores, cfg, "SESSION_SECURE_COOKIE", Str("1"))
  {
    NameFacts();
    OutputNamesUnambiguous();
    var k := SetVar(st, cfg, "APP_KEY", Secret(st));
    assert k.outcome == Done;
    assert SameAt(st, k.stores, "SESSION_SECURE_COOKIE");
    assert SecureCookie(k.stores) == SecureCookie(st);
    var c := SetVar(k.stores, cfg, "SESSION_SECURE_COOKIE", SecureCookie(k.stores));
    assert c.outcome == Done;
    var m := MapServices(c.stores, cfg, decode);
    assert "SESSION_SECURE_COOKIE" !in DbNames + CacheNames;
    assert SameAt(c.stores, m.stores, "SESSION_SECURE_COOKIE");
  }

  /** An explicit DB_DATABASE wins (line 34): no DB_* variable changes. */
  lemma ExplicitDatabaseWins(st: Stores, cfg: Config, decode: Decoder)
    requires Truthy(GetEnv(st, "DB_DATABASE"))
    ensures forall n :: n in DbNames ==> SameAt(st, MapEnvironment(st, cfg, decode).stores, n)
  {
    NameFacts();
    var r := MapEnvironment(st, cfg, decode);
    assert Confined(cfg, st, r.stores, {"APP_KEY", "SESSION_SECURE_COOKIE"} + CacheNames);
  }

  /** An explicit REDIS_HOST wins (line 38): CACHE_DRIVER, REDIS_HOST and
      REDIS_PORT do not change. */
  lemma ExplicitRedisWins(st: Stores, cfg: Config, decode: Decoder)
    requires Truthy(GetEnv(st, "REDIS_HOST"))
    ensures forall n :: n in CacheNames ==> SameAt(st, MapEnvironment(st, cfg, decode).stores, n)
  {
    NameFacts();
    var r := MapEnvironment(st, cfg, decode);
    assert Confined(cfg, st, r.stores, {"APP_KEY", "SESSION_SECURE_COOKIE"} + DbNames);
  }

  /** The on-platform run when putenv accepts APP_KEY and SESSION_SECURE_COOKIE:
      the first two writes complete and leave the relationship lookup,
      DB_DATABASE and REDIS_HOST as they were. */
  lemma OnPlatformPrefix(st: Stores, cfg: Config, decode: Decoder)
    requires Truthy(GetEnv(st, "PLATFORM_APPLICATION"))
    requires "APP_KEY" !in cfg.putenvRefuses && "SESSION_SECURE_COOKIE" !in cfg.putenvRefuses
    ensures var k := SetVar(st, cfg, "APP_KEY", Secret(st));
            var c := SetVar(k.stores, cfg, "SESSION_SECURE_COOKIE", SecureCookie(k.stores));
            && k.outcome == Done && c.outcome == Done
            && MapEnvironment(st, cfg, decode) == MapServices(c.stores, cfg, decode)
            && SameAt(st, c.stores, "PLATFORM_RELATIONSHIPS")
            && SameAt(st, c.stores, "DB_DATABASE")
            && SameAt(st, c.stores, "REDIS_HOST")
  {
    NoHttpWithoutHT("APP_KEY");
    NoHttpWithoutHT("SESSION_SECURE_COOKIE");
    var k := SetVar(st, cfg, "APP_KEY", Secret(st));
    assert k.outcome == Done;
    var c := SetVar(k.stores, cfg, "SESSION_SECURE_COOKIE", SecureCookie(k.stores));
    assert c.outcome == Done;
    assert SameAt(st, k.stores, "PLATFORM_RELATIONSHIPS") && SameAt(k.stores, c.stores, "PLATFORM_RELATIONSHIPS");
    assert SameAt(st, k.stores, "DB_DATABASE") && SameAt(k.stores, c.stores, "DB_DATABASE");
    assert SameAt(st, k.stores, "REDIS_HOST") && SameAt(k.stores, c.stores, "REDIS_HOST");
  }

  /** DB_* values survive a step that leaves the six names alone. */
  lemma DbHoldsKept(a: Stores, b: Stores, cfg: Config, e: Endpoint)
    requires DbHolds(a, cfg, e)
    requires forall n :: n in DbNames ==> SameAt(a, b, n)
    ensures DbHolds(b, cfg, e)
  {
    assert SameAt(a, b, "DB_CONNECTION") && SameAt(a, b, "DB_HOST") && SameAt(a, b, "DB_PORT");
    assert SameAt(a, b, "DB_DATABASE") && SameAt(a, b, "DB_USERNAME") && SameAt(a, b, "DB_PASSWORD");
  }

  /** Lines 34-40 with DB_DATABASE not truthy: the cache step after a
      completed database mapping leaves the DB_* variables alone. */
  lemma ServicesKeepDatabase(st: Stores, cfg: Config, decode: Decoder)
    requires !Truthy(GetEnv(st, "DB_DATABASE"))
    requires MapDatabase(st, cfg, decode, "database").outcome == Done
    ensures forall n :: n in DbNames ==>
              SameAt(MapDatabase(st, cfg, decode, "database").stores, MapServices(st, cfg, decode).stores, n)
  {
    NameFacts();
    var d := MapDatabase(st, cfg, decode, "database");
    var m := MapServices(st, cfg, decode);
    assert Confined(cfg, d.stores, m.stores, CacheNames);
  }

  /** End to end: on the platform, with DB_DATABASE not yet truthy and the
      "database" relationship present, the DB_* variables hold the fields of
      its last master endpoint, whatever the cache step does afterwards. */
  lemma DatabaseMapped(st: Stores, cfg: Config, decode: Decoder, eps: seq<Endpoint>, i: int)
    requires Truthy(GetEnv(st, "PLATFORM_APPLICATION"))
    requires ({"APP_KEY", "SESSION_SECURE_COOKIE"} + DbNames) !! cfg.putenvRefuses
    requires !Truthy(GetEnv(st, "DB_DATABASE"))
    requires Relationship(st, decode, "database") == Found(eps) && IsLastMaster(eps, i)
    ensures DbHolds(MapEnvironment(st, cfg, decode).stores, cfg, eps[i])
  {
    NameFacts();
    OnPlatformPrefix(st, cfg, decode);
    var k := SetVar(st, cfg, "APP_KEY", Secret(st));
    var c := SetVar(k.stores, cfg, "SESSION_SECURE_COOKIE", SecureCookie(k.stores));
    assert Relationship(c.stores, decode, "database") == Found(eps);
    var d := MapDatabase(c.stores, cfg, decode, "database");
    assert d == ApplyMasters(c.stores, cfg, eps);
    MastersOutcome(c.stores, cfg, eps);
    LastMasterWins(c.stores, cfg, eps, i);
    ServicesKeepDatabase(c.stores, cfg, decode);
    DbHoldsKept(d.stores, MapServices(c.stores, cfg, decode).stores, cfg, eps[i]);
  }

  /** End to end: on the platform, with REDIS_HOST not yet truthy and the
      "rediscache" relationship present, CACHE_DRIVER is "redis" and
      REDIS_HOST and REDIS_PORT come from its first endpoint. */
  lemma RedisCacheMapped(st: Stores, cfg: Config, decode: Decoder, eps: seq<Endpoint>)
    requires Truthy(GetEnv(st, "PLATFORM_APPLICATION")) && OutputNames !! cfg.putenvRefuses
    requires !Truthy(GetEnv(st, "REDIS_HOST"))
    requires Relationship(st, decode, "rediscache") == Found(eps)
    ensures Holds(MapEnvironment(st, cfg, decode).stores, cfg, "CACHE_DRIVER", Str("redis"))
    ensures eps != [] ==> Holds(MapEnvironment(st, cfg, decode).stores, cfg, "REDIS_HOST", eps[0].host)
    ensures eps != [] ==> Holds(MapEnvironment(st, cfg, decode).stores, cfg, "REDIS_PORT", eps[0].port)
  {
    NameFacts();
    OnPlatformPrefix(st, cfg, decode);
    var k := SetVar(st, cfg, "APP_KEY", Secret(st));
    var c := SetVar(k.stores, cfg, "SESSION_SECURE_COOKIE", SecureCookie(k.stores));
    var d := if !Truthy(GetEnv(c.stores, "DB_DATABASE")) then MapDatabase(c.stores, cfg, decode, "database")
             else Run(c.stores, Done);
    if !Truthy(GetEnv(c.stores, "DB_DATABASE")) {
      assert !Relationship(c.stores, decode, "database").Undecodable?;
      match Relationship(c.stores, decode, "database")
      case Absent =>
      case Found(dbEps) => MastersOutcome(c.stores, cfg, dbEps);
    }
    assert d.outcome == Done;
    assert SameAt(c.stores, d.stores, "REDIS_HOST") && SameAt(c.stores, d.stores, "PLATFORM_RELATIONSHIPS");
    assert Relationship(d.stores, decode, "rediscache") == Found(eps);
    CacheOutcome(d.stores, cfg, eps);
    CacheWrites(d.stores, cfg, eps);
  }

  /** Lines 34-40: an exception out of the mapper stage is a refused putenv
      of a DB_* or cache name, or json_decode's TypeError on a
      PLATFORM_RELATIONSHIPS that is not base64. */
  lemma ServicesOutcome(st: Stores, cfg: Config, decode: Decoder)
    ensures MapServices(st, cfg, decode).outcome.Thrown? ==>
              || (MapServices(st, cfg, decode).outcome.error.PutenvFailed? &&
                  MapServices(st, cfg, decode).outcome.error.name in (DbNames + CacheNames) * cfg.putenvRefuses)
              || (MapServices(st, cfg, decode).outcome.error == DecodeTypeError &&
                  RelationshipsUndecodable(st, decode))
    ensures (DbNames + CacheNames) !! cfg.putenvRefuses && !RelationshipsUndecodable(st, decode) ==>
              MapServices(st, cfg, decode).outcome == Done
  {
    NameFacts();
    var d := if !Truthy(GetEnv(st, "DB_DATABASE")) then MapDatabase(st, cfg, decode, "database")
             else Run(st, Done);
    if !Truthy(GetEnv(st, "DB_DATABASE")) {
      match Relationship(st, decode, "database")
      case Absent =>
      case Undecodable =>
      case Found(dbEps) => MastersOutcome(st, cfg, dbEps);
    }
    if d.outcome.Done? && !Truthy(GetEnv(d.stores, "REDIS_HOST")) {
      assert SameAt(st, d.stores, "PLATFORM_RELATIONSHIPS");
      match Relationship(d.stores, decode, "rediscache")
      case Absent =>
      case Undecodable =>
      case Found(cacheEps) => CacheOutcome(d.stores, cfg, cacheEps);
    }
  }

  /** The translation never trips the "HTTP_" guard. An exception out of it
      is a refused putenv of one of the output names, or json_decode's
      TypeError on a PLATFORM_RELATIONSHIPS that is not base64. When putenv
      accepts every output name and the relationships decode, the run completes. */
  lemma EnvironmentOutcome(st: Stores, cfg: Config, decode: Decoder)
    ensures MapEnvironment(st, cfg, decode).outcome.Thrown? ==>
              || (MapEnvironment(st, cfg, decode).outcome.error.PutenvFailed? &&
                  MapEnvironment(st, cfg, decode).outcome.error.name in OutputNames * cfg.putenvRefuses)
              || (MapEnvironment(st, cfg, decode).outcome.error == DecodeTypeError &&
                  RelationshipsUndecodable(st, decode))
    ensures OutputNames !! cfg.putenvRefuses && !RelationshipsUndecodable(st, decode) ==>
              MapEnvironment(st, cfg, decode).outcome == Done
  {
    if Truthy(GetEnv(st, "PLATFORM_APPLICATION")) {
      NoHttpWithoutHT("APP_KEY");
      NoHttpWithoutHT("SESSION_SECURE_COOKIE");
      var k := SetVar(st, cfg, "APP_KEY", Secret(st));
      if k.outcome.Done? {
        var c := SetVar(k.stores, cfg, "SESSION_SECURE_COOKIE", SecureCookie(k.stores));
        if c.outcome.Done? {
          assert SameAt(st, k.stores, "PLATFORM_RELATIONSHIPS") && SameAt(k.stores, c.stores, "PLATFORM_RELATIONSHIPS");
          ServicesOutcome(c.stores, cfg, decode);
        }
      }
    }
  }

  /** On the platform, once APP_KEY and SESSION_SECURE_COOKIE are written, a
      PLATFORM_RELATIONSHIPS that is not base64 ends the run with json_decode's
      TypeError exactly when one of the two mappers runs, that is unless both
      DB_DATABASE and REDIS_HOST were already truthy. */
  lemma UndecodableRelationshipsThrow(st: Stores, cfg: Config, decode: Decoder)
    requires Truthy(GetEnv(st, "PLATFORM_APPLICATION"))
    requires "APP_KEY" !in cfg.putenvRefuses && "SESSION_SECURE_COOKIE" !in cfg.putenvRefuses
    requires RelationshipsUndecodable(st, decode)
    ensures MapEnvironment(st, cfg, decode).outcome == Thrown(DecodeTypeError) <==>
              !Truthy(GetEnv(st, "DB_DATABASE")) || !Truthy(GetEnv(st, "REDIS_HOST"))
    ensures MapEnvironment(st, cfg, decode).outcome == Done <==>
              Truthy(GetEnv(st, "DB_DATABASE")) && Truthy(GetEnv(st, "REDIS_HOST"))
  {
    OnPlatformPrefix(st, cfg, decode);
    var k := SetVar(st, cfg, "APP_KEY", Secret(st));
    var c := SetVar(k.stores, cfg, "SESSION_SECURE_COOKIE", SecureCookie(k.stores));
    assert Relationship(c.stores, decode, "database").Undecodable?;
    assert Relationship(c.stores, decode, "rediscache").Undecodable?;
  }
}
