/** Object stores: what a store is built from, and the key it is cached under. */
module StoreBuild {
  import opened Wrappers

  /** A parsed URL. A port equal to the scheme's default has been dropped by the parser. */
  datatype Url = Url(scheme: string, host: Option<string>, port: Option<string>, path: string) {
    predicate WellFormed() {
      && ':' !in scheme
      && (host.Some? ==> host.value != [] && (':' in host.value ==> Last(host.value) == ']'))
      && (port.Some? ==> host.Some? && port.value != [] && forall i | 0 <= i < |port.value| :: '0' <= port.value[i] <= '9')
    }
  }

  function Last(s: string): char
    requires s != []
  {
    s[|s| - 1]
  }

  datatype S3Config = S3Config(
    accessKeyId: Option<string>, secretAccessKey: Option<string>, sessionToken: Option<string>,
    region: Option<string>, endpoint: Option<string>, allowHttp: Option<bool>)

  datatype StoreKey = StoreKey(url: string, s3Config: Option<S3Config>)

  function PortText(u: Url): string {
    if u.port.Some? then ":" + u.port.value else ""
  }

  function Authority(u: Url): string {
    if u.host.Some? then u.host.value + PortText(u) else ""
  }

  function KeyFor(u: Url, cfg: Option<S3Config>): StoreKey {
    StoreKey(u.scheme + "://" + Authority(u), cfg)
  }

  /** The settings an S3 store ends up with. */
  datatype S3Settings = S3Settings(
    bucket: string, accessKeyId: Option<string>, secretAccessKey: Option<string>, token: Option<string>,
    region: Option<string>, endpoint: Option<string>, allowHttp: Option<bool>)

  datatype Store = S3Store(settings: S3Settings) | HttpStore(origin: string)

  /** What the process takes as given: the environment variables, and which settings the
      store library accepts. */
  datatype World = World(
    environment: S3Settings, isHttpUrl: string -> bool,
    acceptsS3: S3Settings -> bool, acceptsHttp: string -> bool)

  function S3Builder(w: World, u: Url, cfg: S3Config): Option<S3Settings> {
    if u.host.None? then None
    else
      var b := w.environment.(bucket := u.host.value);
      var b := if cfg.accessKeyId.Some? && cfg.secretAccessKey.Some? then
          var keyed := b.(accessKeyId := cfg.accessKeyId, secretAccessKey := cfg.secretAccessKey);
          if cfg.sessionToken.Some? then keyed.(token := cfg.sessionToken) else keyed
        else b;
      var b := if cfg.region.Some? then b.(region := cfg.region) else b;
      if cfg.endpoint.Some? && w.isHttpUrl(cfg.endpoint.value) && cfg.allowHttp != Some(true) then None
      else
        var b := if cfg.endpoint.Some? then b.(endpoint := cfg.endpoint) else b;
        Some(if cfg.allowHttp.Some? then b.(allowHttp := cfg.allowHttp) else b)
  }

  /** Building a store afresh; `None` when that fails. */
  function Build(w: World, u: Url, cfg: Option<S3Config>): Option<Store> {
    match cfg
    case None =>
      var origin := u.scheme + "://" + Authority(u);
      if w.acceptsHttp(origin) then Some(HttpStore(origin)) else None
    case Some(c) =>
      var b := S3Builder(w, u, c);
      if b.Some? && w.acceptsS3(b.value) then Some(S3Store(b.value)) else None
  }

  // ---------------------------------------------------------------------------
  // The key holds all that a build depends on
  // ---------------------------------------------------------------------------

  lemma SplitAtColon(a: string, x: string, b: string, y: string)
    requires ':' !in a && ':' !in b && a + ":" + x == b + ":" + y
    ensures a == b && x == y
  {
    var s := a + ":" + x;
    assert s[|a|] == ':' && s[|b|] == ':';
    assert forall i | 0 <= i < |a| :: s[i] == a[i] && a[i] in a;
    assert forall i | 0 <= i < |b| :: s[i] == b[i] && b[i] in b;
    assert |a| == |b|;
    assert a == s[..|a|] == b;
    assert x == s[|a| + 1..] == y;
  }

  /** How to find the port in an authority: after the last colon, unless a bracket ends it. */
  lemma PortIsVisible(u: Url)
    requires u.WellFormed() && u.host.Some?
    ensures var s, h := Authority(u), |u.host.value|;
      && s != [] && s[..h] == u.host.value && s[h..] == PortText(u)
      && (u.port.Some? <==> ':' in s && Last(s) != ']')
      && (u.port.Some? ==> s[h] == ':' && forall i | h < i < |s| :: s[i] != ':')
  {
    var s, h := Authority(u), |u.host.value|;
    if u.port.Some? {
      var p := u.port.value;
      assert s[h] == ':' && Last(s) == Last(p);
      assert forall i | h < i < |s| :: s[i] == p[i - h - 1];
    } else {
      assert s == u.host.value;
    }
  }

  /** Host and port can be told apart again, bracketed IPv6 hosts included. */
  lemma AuthorityInjective(u: Url, v: Url)
    requires u.WellFormed() && v.WellFormed() && Authority(u) == Authority(v)
    ensures u.host == v.host && u.port == v.port
  {
    if u.host.Some? { PortIsVisible(u); }
    if v.host.Some? { PortIsVisible(v); }
    if u.host.Some? && u.port.Some? {
      assert u.port.value == PortText(u)[1..] && v.port.value == PortText(v)[1..];
    }
  }

  /** Two requests with one key would build the same store, so a cached store is as good as a
      new one; and with S3 the key also fixes every option. */
  lemma KeyDeterminesBuild(w: World, u: Url, v: Url, c: Option<S3Config>, d: Option<S3Config>)
    requires u.WellFormed() && v.WellFormed()
    requires KeyFor(u, c) == KeyFor(v, d)
    ensures c == d && u.scheme == v.scheme && u.host == v.host && u.port == v.port
    ensures Build(w, u, c) == Build(w, v, d)
  {
    assert u.scheme + "://" + Authority(u) == u.scheme + ":" + ("//" + Authority(u));
    assert v.scheme + "://" + Authority(v) == v.scheme + ":" + ("//" + Authority(v));
    SplitAtColon(u.scheme, "//" + Authority(u), v.scheme, "//" + Authority(v));
    assert Authority(u) == ("//" + Authority(u))[2..] == ("//" + Authority(v))[2..] == Authority(v);
    AuthorityInjective(u, v);
  }
}
