/** The mapper as the PHP code runs it: three stores updated in place, step
    by step, each method proved to end in the state (and with the outcome)
    that its counterpart in module Mapping describes. */
module Bridge {
  import opened Values
  import opened Mapping

  class Environment {
    /** The raw process environment (getenv/putenv). */
    var raw: map<string, string>
    /** `$_ENV` */
    var env: map<string, Value>
    /** `$_SERVER` */
    var server: map<string, Value>
    /** `ini_get('variables_order')` */
    const variablesOrder: string
    /** Names whose putenv the operating system refuses. */
    const putenvRefuses: set<string>

    constructor (raw: map<string, string>, env: map<string, Value>, server: map<string, Value>,
                 variablesOrder: string, putenvRefuses: set<string>)
      ensures Snapshot() == Stores(raw, env, server)
      ensures Cfg() == Config(variablesOrder, putenvRefuses)
    {
      this.raw := raw;
      this.env := env;
      this.server := server;
      this.variablesOrder := variablesOrder;
      this.putenvRefuses := putenvRefuses;
    }

    function Snapshot(): Stores
      reads this`raw, this`env, this`server
    {
      Stores(raw, env, server)
    }

    function Cfg(): Config
    {
      Config(variablesOrder, putenvRefuses)
    }

    /** setEnvVar (platformsh-laravel-env.php:58-73). */
    method SetEnvVar(name: string, value: Value) returns (out: Outcome)
      modifies this`raw, this`env, this`server
      ensures Run(Snapshot(), out) == SetVar(old(Snapshot()), Cfg(), name, value)
    {
      if name in putenvRefuses {
        return Thrown(PutenvFailed(name));
      }
      raw := raw[name := Interpolate(value)];
      var order := variablesOrder;
      if 'e' in order || 'E' in order {
        env := env[name := value];
      }
      if 's' in order || 'S' in order {
        if ContainsSub(name, "HTTP_") {
          return Thrown(AmbiguousServerVar(name));
        }
        server := server[name := value];
      }
      return Done;
    }

    /** The relationship lookup both mappers open with (lines 77-79 and 99-101). */
    method FindRelationship(decode: Decoder, name: string) returns (found: Lookup)
      ensures found == Relationship(Snapshot(), decode, name)
    {
      found := Absent;
      if Truthy(GetEnv(Snapshot(), "PLATFORM_RELATIONSHIPS")) {
        var relationships := decode(raw["PLATFORM_RELATIONSHIPS"]);
        match relationships {
          case NotBase64 =>
            found := Undecodable;
          case NotJson =>
          case Object(rels) =>
            if name in rels {
              found := Found(rels[name]);
            }
        }
      }
    }

    /** The six writes of one master endpoint (platformsh-laravel-env.php:85-91). */
    method WriteDbVars(endpoint: Endpoint) returns (out: Outcome)
      modifies this`raw, this`env, this`server
      ensures Run(Snapshot(), out) == SetVars(old(Snapshot()), Cfg(), DbPairs(endpoint))
    {
      ghost var rest := DbPairs(endpoint);
      assert rest[0] == ("DB_CONNECTION", endpoint.scheme);
      SetVarsHead(Snapshot(), Cfg(), rest);
      out := SetEnvVar("DB_CONNECTION", endpoint.scheme);
      if out.Thrown? { return; }
      rest := rest[1..];
      assert rest[0] == ("DB_HOST", endpoint.host);
      SetVarsHead(Snapshot(), Cfg(), rest);
      out := SetEnvVar("DB_HOST", endpoint.host);
      if out.Thrown? { return; }
      rest := rest[1..];
      assert rest[0] == ("DB_PORT", endpoint.port);
      SetVarsHead(Snapshot(), Cfg(), rest);
      out := SetEnvVar("DB_PORT", endpoint.port);
      if out.Thrown? { return; }
      rest := rest[1..];
      assert rest[0] == ("DB_DATABASE", endpoint.path);
      SetVarsHead(Snapshot(), Cfg(), rest);
      out := SetEnvVar("DB_DATABASE", endpoint.path);
      if out.Thrown? { return; }
      rest := rest[1..];
      assert rest[0] == ("DB_USERNAME", endpoint.username);
      SetVarsHead(Snapshot(), Cfg(), rest);
      out := SetEnvVar("DB_USERNAME", endpoint.username);
      if out.Thrown? { return; }
      rest := rest[1..];
      assert rest[0] == ("DB_PASSWORD", endpoint.password);
      SetVarsHead(Snapshot(), Cfg(), rest);
      out := SetEnvVar("DB_PASSWORD", endpoint.password);
      if out.Thrown? { return; }
      rest := rest[1..];
      assert rest == [];
    }

    /** mapPlatformShDatabase (platformsh-laravel-env.php:75-95). */
    method MapPlatformShDatabase(decode: Decoder, name: string) returns (out: Outcome)
      modifies this`raw, this`env, this`server
      ensures Run(Snapshot(), out) == MapDatabase(old(Snapshot()), Cfg(), decode, name)
    {
      out := Done;
      var found := FindRelationship(decode, name);
      if found.Undecodable? {
        return Thrown(DecodeTypeError);
      }
      if found.Absent? {
        return;
      }
      var eps := found.endpoints;
      ghost var start := Snapshot();
      var i := 0;
      while i < |eps|
        invariant 0 <= i <= |eps|
        invariant ApplyMasters(start, Cfg(), eps) == ApplyMasters(Snapshot(), Cfg(), eps[i..])
        invariant out == Done
      {
        var endpoint := eps[i];
        assert eps[i..][0] == endpoint && eps[i..][1..] == eps[i + 1..];
        if !Truthy(endpoint.isMaster) {
          i := i + 1;
          continue;
        }
        out := WriteDbVars(endpoint);
        if out.Thrown? { return; }
        i := i + 1;
      }
      assert eps[i..] == [];
    }

    /** mapPlatformShRedisCache (platformsh-laravel-env.php:97-110). */
    method MapPlatformShRedisCache(decode: Decoder, name: string) returns (out: Outcome)
      modifies this`raw, this`env, this`server
      ensures Run(Snapshot(), out) == MapRedisCache(old(Snapshot()), Cfg(), decode, name)
    {
      out := Done;
      var found := FindRelationship(decode, name);
      if found.Undecodable? {
        return Thrown(DecodeTypeError);
      }
      if found.Absent? {
        return;
      }
      var eps := found.endpoints;
      out := SetEnvVar("CACHE_DRIVER", Str("redis"));
      if out.Thrown? {
        return;
      }
      ghost var driverSet := Snapshot();
      for i := 0 to |eps|
        invariant i == 0 && Snapshot() == driverSet && out == Done
      {
        ghost var rest := [("REDIS_HOST", eps[i].host), ("REDIS_PORT", eps[i].port)];
        SetVarsHead(Snapshot(), Cfg(), rest);
        out := SetEnvVar("REDIS_HOST", eps[i].host);
        if out.Thrown? { return; }
        rest := rest[1..];
        SetVarsHead(Snapshot(), Cfg(), rest);
        out := SetEnvVar("REDIS_PORT", eps[i].port);
        if out.Thrown? { return; }
        assert rest[1..] == [];
        break;
      }
    }

    /** mapPlatformShEnvironment (platformsh-laravel-env.php:15-48). */
    method MapPlatformShEnvironment(decode: Decoder) returns (out: Outcome)
      modifies this`raw, this`env, this`server
      ensures Run(Snapshot(), out) == MapEnvironment(old(Snapshot()), Cfg(), decode)
    {
      out := Done;
      if !Truthy(GetEnv(Snapshot(), "PLATFORM_APPLICATION")) {
        return;
      }
      var secret := Secret(Snapshot());
      out := SetEnvVar("APP_KEY", secret);
      if out.Thrown? { return; }
      var secureCookie := SecureCookie(Snapshot());
      out := SetEnvVar("SESSION_SECURE_COOKIE", secureCookie);
      if out.Thrown? { return; }
      if !Truthy(GetEnv(Snapshot(), "DB_DATABASE")) {
        out := MapPlatformShDatabase(decode, "database");
        if out.Thrown? { return; }
      }
      if !Truthy(GetEnv(Snapshot(), "REDIS_HOST")) {
        out := MapPlatformShRedisCache(decode, "rediscache");
      }
    }
  }
}
