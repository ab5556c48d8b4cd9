# Platform.sh to Laravel environment mapping, in Dafny

This project models `platformsh-laravel-env.php` of the Laravel bridge for
Platform.sh. The file maps the environment variables the hosting platform
injects onto the variables Laravel's configuration reads. The model proves
what that mapping promises.

The PHP routine keeps every variable in three places:

- the raw process environment (`getenv` / `putenv`);
- the `$_ENV` mirror;
- the `$_SERVER` mirror.

It has four functions:

- `setEnvVar` writes one variable into these three stores.
- `mapPlatformShDatabase` copies the master endpoint(s) of the `database`
  relationship into the six `DB_*` variables.
- `mapPlatformShRedisCache` sets `CACHE_DRIVER=redis`. It then copies host
  and port of the first `rediscache` endpoint into `REDIS_HOST` and
  `REDIS_PORT`.
- `mapPlatformShEnvironment` checks the platform gate, derives `APP_KEY`,
  defaults `SESSION_SECURE_COOKIE`, and runs the two mappers. Each mapper
  runs only when `DB_DATABASE` or `REDIS_HOST` (respectively) is not
  already truthy.

Layout:

- `values.dfy` (module `Values`): PHP values and their truthiness,
  endpoint records, the three stores (`Stores`), the configuration
  (`Config`: `variables_order` and the names whose `putenv` fails), and
  the outcome of a call (`Done`, or `Thrown` with one of the two
  `RuntimeException`s or json_decode's `TypeError`). It also defines the frame predicates `SameAt`,
  `Confined` and `Holds`.
- `mapping.dfy` (module `Mapping`): each PHP function as a function from
  the stores before a call to the stores after it, plus how the call
  ended. An exception stops the run and keeps the writes already made.
- `bridge.dfy` (module `Bridge`): class `Environment`, whose fields are the
  three stores (`map`s, reassigned in place) and the configuration. Its
  methods run the PHP steps one by one. The database method has the
  `foreach`/`continue` loop; the cache method has the `foreach`/`break`
  loop. Each method is proved to end in exactly the state and outcome its
  `Mapping` function gives.
- `properties.dfy` (module `Properties`): lemmas about the `Mapping`
  functions. They cover the gate, fallback precedence, master-only
  filtering with last-master-wins, first-endpoint-only, "explicit value
  wins", the frame (only the eleven output variables ever change), and
  when a run completes.

Modelling choices:

- **Truthiness.** `Truthy(v)` is PHP truthiness of a string or null: null
  (also `getenv`'s `false` for an unset variable), `""` and `"0"` are
  falsy. It decides every `!getenv(...)`, `?:` and `empty(...)` test.
- **Null values.** `"$name=$value"` turns null into `""`, so the raw store
  receives `Interpolate(v)`. The mirrors receive `v` itself. So when
  `APP_KEY` falls through to null, the raw store holds `""` and the
  mirrors hold null. The doc comment at line 56 says "Null to unset it",
  but nothing is unset. The model follows the code.
- **Relationships.** The base64-and-JSON decoding of
  `PLATFORM_RELATIONSHIPS` is the parameter `decode`. It reports one of
  three results (`Decoded`):
  - `NotBase64`: `base64_decode(…, true)` returned `false`. The file
    declares `strict_types=1` (line 3), so `json_decode(false, true)` at
    line 78 or 100 raises a `TypeError`. The model throws
    `DecodeTypeError`; the writes made before it stay.
  - `NotJson`: `json_decode` returned null. `isset` is false, so the
    mapper does nothing.
  - `Object(relationships)`: the decoded map. A relationship whose value
    is JSON `null` is absent from it, because `isset` is false for it.

In these cases the code does something other than what its names and
comments suggest, and the model follows the code:

- A variable counts as "already set" only when its value is truthy. A
  `DB_DATABASE` of `"0"` does not stop the database mapping.
- With no usable `APP_KEY` or entropy, `APP_KEY` is written as `""` / null.
  It is not left unset.
- `CACHE_DRIVER` is written whenever the `rediscache` key exists, even
  when its endpoint list is empty.
- Off the platform, nothing is touched. Variables already set stay as
  they were; they are not cleared.

## Model

| member | source | states |
|---|---|---|
| `Values.Truthy` | platformsh-laravel-env.php:19 | PHP truthiness of a string or null, as used by `!getenv(…)`, `?:` and `empty(…)`. Null and `""` are falsy. Every string of two or more characters is truthy. A one-character string is falsy exactly when it is `"0"`. |
| `Values.Elvis` | platformsh-laravel-env.php:26 | `a ?: b` is `a` when `a` is truthy and `b` otherwise. The result is truthy exactly when one of the two is. |
| `Values.Interpolate` | platformsh-laravel-env.php:60 | `"$name=$value"` contributes the string itself, and `""` for null. Reading that back with `getenv` is truthy exactly when the value was. |
| `Values.GetEnv` | platformsh-laravel-env.php:19 | `getenv(name)` is a string exactly when the raw store has the name, and then it is the stored text. Otherwise it is null (PHP's `false`). |
| `Values.MirrorsEnv` | platformsh-laravel-env.php:64 | `stripos($order, 'e') !== false` holds exactly when some character of `variables_order` is `e` or `E`. |
| `Values.MirrorsServer` | platformsh-laravel-env.php:67 | `stripos($order, 's') !== false` holds exactly when some character of `variables_order` is `s` or `S`. |
| `Values.ContainsSub` | platformsh-laravel-env.php:68 | `strpos($s, $t) !== false` needs the needle to be no longer than the haystack. An empty needle is always found (PHP 8). |
| `Mapping.SetVar` | platformsh-laravel-env.php:58-73 | When putenv refuses the name, the call throws `PutenvFailed(name)` and no store changes. Otherwise the raw store gets the interpolated value (null becomes `""`). `$_ENV` gets the value exactly when `variables_order` contains `e` or `E`. `$_SERVER` gets it exactly when the order contains `s` or `S` and the name does not contain `HTTP_` (case-sensitive). With `s`/`S` and `HTTP_` the call throws `AmbiguousServerVar(name)` after the raw store and `$_ENV` were written, and `$_SERVER` is unchanged. No other key changes, and a disabled mirror is untouched. |
| `Bridge.Environment.SetEnvVar` | platformsh-laravel-env.php:58-73 | The in-place setter ends in exactly the stores and outcome of `SetVar`. |
| `Mapping.Relationship` | platformsh-laravel-env.php:77-79 | The lookup fails (the `TypeError`) exactly when `PLATFORM_RELATIONSHIPS` is truthy and not base64, whatever the name. It finds endpoints exactly when the variable is truthy, decodes to an object, and has the key; they are that key's value. In every other case (falsy, not JSON, key missing) the relationship is absent. |
| `Bridge.Environment.FindRelationship` | platformsh-laravel-env.php:77-79 | The in-place lookup gives exactly `Relationship` of the current stores. |
| `Mapping.SetVars` | platformsh-laravel-env.php:85-91 | A straight run of `setEnvVar` calls changes only the names it writes and leaves disabled mirrors alone. An exception from it names one of those variables. |
| `Mapping.DbPairs` | platformsh-laravel-env.php:85-91 | The six database writes target six distinct names, exactly the `DB_*` set. |
| `Bridge.Environment.WriteDbVars` | platformsh-laravel-env.php:85-91 | The six in-place `DB_*` writes for one endpoint equal `SetVars` over `DB_CONNECTION`, `DB_HOST`, `DB_PORT`, `DB_DATABASE`, `DB_USERNAME`, `DB_PASSWORD` ← scheme, host, port, path, username, password, in that order. |
| `Mapping.ApplyMasters` | platformsh-laravel-env.php:80-92 | The database `foreach` changes no variable outside the six `DB_*` names. |
| `Mapping.MapDatabase` | platformsh-laravel-env.php:75-95 | `mapPlatformShDatabase` is a silent no-op when `PLATFORM_RELATIONSHIPS` is unset or falsy, is not JSON, or lacks the relationship. It throws `DecodeTypeError`, with no store changed, when the variable is not base64. It never writes outside the `DB_*` names. |
| `Bridge.Environment.MapPlatformShDatabase` | platformsh-laravel-env.php:75-95 | The loop with `continue` ends in exactly the stores and outcome of `MapDatabase`. |
| `Mapping.ApplyCache` | platformsh-laravel-env.php:101-108 | The body of the cache mapper writes nothing outside `CACHE_DRIVER`, `REDIS_HOST` and `REDIS_PORT`. |
| `Mapping.MapRedisCache` | platformsh-laravel-env.php:97-110 | `mapPlatformShRedisCache` is a silent no-op when the relationship is absent (falsy variable, not JSON, key missing). It throws `DecodeTypeError`, with no store changed, when the variable is not base64. It never writes outside the three cache names. |
| `Bridge.Environment.MapPlatformShRedisCache` | platformsh-laravel-env.php:97-110 | The loop with `break` ends in exactly the stores and outcome of `MapRedisCache`. |
| `Mapping.Secret` | platformsh-laravel-env.php:26 | The secret is the prior `APP_KEY` if truthy, else `PLATFORM_PROJECT_ENTROPY` if truthy, else null. |
| `Mapping.SecureCookie` | platformsh-laravel-env.php:31 | The cookie flag is the prior `SESSION_SECURE_COOKIE` if truthy, else `"1"`. It is always truthy. |
| `Mapping.MapServices` | platformsh-laravel-env.php:34-40 | The mapper stage writes only `DB_*` and cache names. A truthy `DB_DATABASE` confines it to the cache names. A truthy `REDIS_HOST` confines it to the `DB_*` names. |
| `Mapping.AfterAppKey` | platformsh-laravel-env.php:31-40 | Everything after the `APP_KEY` write touches only `SESSION_SECURE_COOKIE`, `DB_*` and cache names. The same two confinements hold as for `MapServices`. |
| `Mapping.MapEnvironment` | platformsh-laravel-env.php:15-48 | Off the platform (`PLATFORM_APPLICATION` not truthy), the stores are unchanged and the run completes. It writes only the eleven output variables and leaves disabled mirrors untouched. A truthy `DB_DATABASE` means no `DB_*` variable is written. A truthy `REDIS_HOST` means no cache variable is written. |
| `Bridge.Environment.MapPlatformShEnvironment` | platformsh-laravel-env.php:15-48 | The in-place orchestrator ends in exactly the stores and outcome of `MapEnvironment`. |
| `Properties.OutputNamesUnambiguous` | platformsh-laravel-env.php:68 | None of the eleven output names contains `HTTP_`. |
| `Properties.SetVarsHold` | platformsh-laravel-env.php:85-91 | Take a completed run of writes to distinct names. Afterwards, every name holds its value in every store the setter writes. |
| `Properties.SetVarsOutcome` | platformsh-laravel-env.php:60-62 | Take a run of writes whose names avoid `HTTP_`. It completes exactly when putenv accepts every name. Otherwise it throws `PutenvFailed` for a refused one. |
| `Properties.NoMasterNoWrite` | platformsh-laravel-env.php:81-83 | With no endpoint whose `query.is_master` is truthy, the database loop changes nothing and completes. |
| `Properties.NonMasterIgnored` | platformsh-laravel-env.php:81-83 | An endpoint with an empty `is_master` never contributes: removing it from the list gives the same run. |
| `Properties.MastersOutcome` | platformsh-laravel-env.php:80-92 | The database loop completes exactly when there is no master or putenv accepts all six `DB_*` names. Any exception is `PutenvFailed` for a refused `DB_*` name. |
| `Properties.LastMasterWins` | platformsh-laravel-env.php:80-92 | After a completed loop, the six `DB_*` variables hold the scheme, host, port, path, username and password of the last master endpoint. |
| `Properties.CacheFirstEndpointOnly` | platformsh-laravel-env.php:103-107 | Two endpoint lists with the same first endpoint give the same cache run. Later endpoints are never read. |
| `Properties.CacheOutcome` | platformsh-laravel-env.php:101-107 | The cache mapping completes exactly when putenv accepts `CACHE_DRIVER` and, for a non-empty list, `REDIS_HOST` and `REDIS_PORT`. |
| `Properties.CacheWrites` | platformsh-laravel-env.php:101-107 | After a completed cache mapping, `CACHE_DRIVER` holds `"redis"`, even for an empty list. `REDIS_HOST`/`REDIS_PORT` hold the first endpoint's host and port. An empty list writes nothing else. |
| `Properties.OffPlatformNoOp` | platformsh-laravel-env.php:19-21 | Without a truthy `PLATFORM_APPLICATION`, the raw store, `$_ENV` and `$_SERVER` are left exactly as they were. |
| `Properties.AppKeyDerived` | platformsh-laravel-env.php:26-27 | This holds on the platform, once the `APP_KEY` write goes through. `APP_KEY` ends as the prior `APP_KEY` if truthy, else `PLATFORM_PROJECT_ENTROPY` if truthy. Otherwise the raw store holds `""` and the enabled mirrors hold null. |
| `Properties.SecureCookieDefault` | platformsh-laravel-env.php:31-32 | This holds on the platform, once the first two writes go through. `SESSION_SECURE_COOKIE` keeps its prior truthy value, and otherwise becomes `"1"`. |
| `Properties.ExplicitDatabaseWins` | platformsh-laravel-env.php:34-36 | If `DB_DATABASE` is truthy before the run, no `DB_*` variable changes in any store. |
| `Properties.ExplicitRedisWins` | platformsh-laravel-env.php:38-40 | If `REDIS_HOST` is truthy before the run, `CACHE_DRIVER`, `REDIS_HOST` and `REDIS_PORT` do not change. |
| `Properties.OnPlatformPrefix` | platformsh-laravel-env.php:25-32 | On the platform, with putenv accepting `APP_KEY` and `SESSION_SECURE_COOKIE`, the two first writes complete. They leave `PLATFORM_RELATIONSHIPS`, `DB_DATABASE` and `REDIS_HOST` as they were. |
| `Properties.ServicesKeepDatabase` | platformsh-laravel-env.php:34-40 | The cache step after a completed database mapping leaves the `DB_*` variables alone. |
| `Properties.DatabaseMapped` | platformsh-laravel-env.php:34-36 | This holds on the platform, when putenv accepts `APP_KEY`, `SESSION_SECURE_COOKIE` and the `DB_*` names, `DB_DATABASE` is not yet truthy, and the `database` relationship is found. The cache names may be refused. After the run, the `DB_*` variables hold the fields of its last master endpoint. |
| `Properties.RedisCacheMapped` | platformsh-laravel-env.php:38-40 | This holds on the platform, when `REDIS_HOST` is not yet truthy and the `rediscache` relationship is present. After the run, `CACHE_DRIVER` is `"redis"`, and `REDIS_HOST`/`REDIS_PORT` come from its first endpoint. |
| `Properties.ServicesOutcome` | platformsh-laravel-env.php:34-40 | An exception out of the mapper stage is `PutenvFailed` for a refused `DB_*` or cache name, or `DecodeTypeError` when `PLATFORM_RELATIONSHIPS` is truthy and not base64. When neither can happen, the stage completes. |
| `Properties.EnvironmentOutcome` | platformsh-laravel-env.php:15-48 | The translation never trips the `HTTP_` guard. Any exception is `PutenvFailed` for a refused output name, or `DecodeTypeError` when `PLATFORM_RELATIONSHIPS` is truthy and not base64. When putenv accepts every output name and the relationships are base64, the run completes. |
| `Properties.UndecodableRelationshipsThrow` | platformsh-laravel-env.php:77-78 | This holds on the platform, with `APP_KEY` and `SESSION_SECURE_COOKIE` accepted and `PLATFORM_RELATIONSHIPS` truthy but not base64. The run ends in `DecodeTypeError` exactly when `DB_DATABASE` or `REDIS_HOST` is not yet truthy, so that a mapper runs. It completes exactly when both are truthy. |

## Left out

- Base64 and JSON decoding of `PLATFORM_RELATIONSHIPS` (lines 78, 100) are PHP library calls. They are the parameter `decode`, which tells apart text that is not base64, text that is not JSON, and a decoded object. Valid JSON that is not an object counts as an object with no keys, since `isset` is false on it.
- Mapping.SetVar: takes any name, but PHP's `putenv` raises a `ValueError` for an empty name and cuts the name at the first `=`. The routine only ever passes its eleven fixed names, none of which is empty or holds `=`.
- Why `putenv` fails (line 60) belongs to the operating system. The model only records which names it refuses (`putenvRefuses`).
- `ini_get('variables_order')` (line 63) is a fixed configuration string, a constant field of the class.
- The load-time call at line 7 is not logic. The model exposes the orchestrator as a method instead.
- PHP type juggling. JSON numbers (`port`) and booleans (`is_master`) are given as strings: true is `"1"` and false is `""`. The literal `1` of line 31 is the string `"1"`, although PHP puts the integer 1 into the mirrors.
- Endpoints or relationship values that are not JSON arrays are out of scope. In PHP these produce warnings. A missing endpoint field reads as null.
- Exception message texts. An exception is represented by its kind and the variable name.
- Idempotence of two successive runs is not proved. In PHP it holds only up to the integer-versus-string difference above: a second run puts `"1"` where the first put `1`.
- The mail mapping exercised by tests/LaravelBridgeMailTest.php:28-40 does not exist in the code (only a TODO at line 42). That test sets `PLATFORM_APPLICATION_NAME`, not `PLATFORM_APPLICATION`, so the routine returns at line 19. The off-platform half of that test is `Properties.OffPlatformNoOp`.
- The `APP_URL`, redisqueue and redissession TODOs (lines 23, 44, 46) are not implemented in the source.
