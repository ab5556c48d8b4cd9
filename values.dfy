/** PHP-level values, the endpoint records of the platform relationships,
    and the three places a PHP process keeps its environment variables. */
module Values {

  datatype Option<+T> = None | Some(value: T)

  /** A value handed to the setter: a PHP string, or null. Numbers (a JSON
      port, the literal 1 of the secure-cookie default) are their decimal
      strings here. */
  datatype Value = Null | Str(s: string)

  /** PHP truthiness of a string-or-null (and of getenv's `false` for an
      unset variable): null, "" and "0" are falsy, every other string is truthy. */
  predicate Truthy(v: Value)
    ensures Truthy(v) ==> v.Str? && |v.s| > 0
    ensures v.Str? && |v.s| > 1 ==> Truthy(v)
    ensures v.Str? && |v.s| == 1 ==> (Truthy(v) <==> v.s[0] != '0')
  {
    v.Str? && v.s != "" && v.s != "0"
  }

  /** PHP's `a ?: b`: `a` when it is truthy, `b` otherwise. */
  function Elvis(a: Value, b: Value): (r: Value)
    ensures Truthy(a) ==> r == a
    ensures !Truthy(a) ==> r == b
    ensures Truthy(r) <==> Truthy(a) || Truthy(b)
  {
    if Truthy(a) then a else b
  }

  /** What interpolating a value into "$name=$value" contributes: null becomes "". */
  function Interpolate(v: Value): (s: string)
    ensures v.Str? ==> s == v.s
    ensures Truthy(Str(s)) <==> Truthy(v)
  {
    if v.Str? then v.s else ""
  }

  /** One endpoint of a relationship; a missing JSON field reads as Null.
      `isMaster` is `query.is_master`. */
  datatype Endpoint = Endpoint(
    scheme: Value, host: Value, port: Value, path: Value,
    username: Value, password: Value, isMaster: Value)

  /** The decoded PLATFORM_RELATIONSHIPS object: relationship name to endpoints. */
  type Relationships = map<string, seq<Endpoint>>

  /** What `json_decode(base64_decode($s, true), true)` makes of a string:
      base64_decode's `false` for text that is not base64 (json_decode then
      raises a TypeError, the file declaring strict_types), json_decode's null
      for text that is not JSON, or the decoded relationships. */
  datatype Decoded = NotBase64 | NotJson | Object(relationships: Relationships)

  /** The decoding of PLATFORM_RELATIONSHIPS, a PHP library call. */
  type Decoder = string -> Decoded

  /** The two RuntimeExceptions the setter throws, and the TypeError of
      json_decode when handed `false`. */
  datatype Error = PutenvFailed(name: string) | AmbiguousServerVar(name: string) | DecodeTypeError

  /** How a call ended: normally, or by a thrown exception. */
  datatype Outcome = Done | Thrown(error: Error)

  /** The raw process environment (what getenv reads and putenv writes), the
      `$_ENV` mirror and the `$_SERVER` mirror. */
  datatype Stores = Stores(raw: map<string, string>, env: map<string, Value>, server: map<string, Value>)

  /** The `variables_order` ini setting, and the names whose putenv the
      operating system refuses. */
  datatype Config = Config(variablesOrder: string, putenvRefuses: set<string>)

  /** The stores after a call, and how the call ended. */
  datatype Run = Run(stores: Stores, outcome: Outcome)

  /** getenv(name): the raw value, or Null (PHP's `false`) when unset. */
  function GetEnv(st: Stores, name: string): (v: Value)
    ensures v.Str? <==> name in st.raw
    ensures v.Str? ==> v.s == st.raw[name]
  {
    if name in st.raw then Str(st.raw[name]) else Null
  }

  /** `stripos($order, 'e') !== false` */
  predicate MirrorsEnv(cfg: Config)
    ensures MirrorsEnv(cfg) <==>
              exists i :: 0 <= i < |cfg.variablesOrder| && (cfg.variablesOrder[i] == 'e' || cfg.variablesOrder[i] == 'E')
  {
    'e' in cfg.variablesOrder || 'E' in cfg.variablesOrder
  }

  /** `stripos($order, 's') !== false` */
  predicate MirrorsServer(cfg: Config)
    ensures MirrorsServer(cfg) <==>
              exists i :: 0 <= i < |cfg.variablesOrder| && (cfg.variablesOrder[i] == 's' || cfg.variablesOrder[i] == 'S')
  {
    's' in cfg.variablesOrder || 'S' in cfg.variablesOrder
  }

  /** `strpos($s, $t) !== false`: case-sensitive substring test. */
  predicate ContainsSub(s: string, t: string)
    ensures ContainsSub(s, t) ==> |t| <= |s|
    ensures t == [] ==> ContainsSub(s, t)
  {
    assert t == [] ==> OccursAt(s, t, 0);
    exists i :: 0 <= i <= |s| && OccursAt(s, t, i)
  }

  /** t occurs in s starting at index i. */
  predicate OccursAt(s: string, t: string, i: nat)
  {
    i + |t| <= |s| && s[i..i + |t|] == t
  }

  /** The three stores agree at key k (both absent or both equal). */
  ghost predicate SameAt(a: Stores, b: Stores, k: string)
  {
    && (k in a.raw <==> k in b.raw) && (k in a.raw ==> a.raw[k] == b.raw[k])
    && (k in a.env <==> k in b.env) && (k in a.env ==> a.env[k] == b.env[k])
    && (k in a.server <==> k in b.server) && (k in a.server ==> a.server[k] == b.server[k])
  }

  /** Going from a to b changed nothing outside `names`, and left each mirror
      alone that `variables_order` does not enable. */
  ghost predicate Confined(cfg: Config, a: Stores, b: Stores, names: set<string>)
  {
    && (forall k :: k !in names ==> SameAt(a, b, k))
    && (!MirrorsEnv(cfg) ==> b.env == a.env)
    && (!MirrorsServer(cfg) ==> b.server == a.server)
  }

  /** Two confined steps make a step confined to (a superset of) both name sets. */
  lemma ConfinedTrans(cfg: Config, a: Stores, b: Stores, c: Stores, n1: set<string>, n2: set<string>, n: set<string>)
    requires Confined(cfg, a, b, n1) && Confined(cfg, b, c, n2) && n1 + n2 <= n
    ensures Confined(cfg, a, c, n)
  {
    forall k | k !in n ensures SameAt(a, c, k) {
      assert SameAt(a, b, k) && SameAt(b, c, k);
    }
  }

  /** name holds v everywhere the setter puts it: interpolated in the raw
      store, as is in each enabled mirror. */
  ghost predicate Holds(st: Stores, cfg: Config, name: string, v: Value)
  {
    && name in st.raw && st.raw[name] == Interpolate(v)
    && (MirrorsEnv(cfg) ==> name in st.env && st.env[name] == v)
    && (MirrorsServer(cfg) ==> name in st.server && st.server[name] == v)
  }
}
