/**
 * The settings `config.py` derives from the process environment when the
 * application starts. The environment is a map from variable name to value;
 * PORT arrives already converted to a number.
 */
module Config {
  import opened Wrappers
  import opened Strings
  import Decimal

  type Env = map<string, string>

  const DefaultAuthProvider := "entraid"
  const DefaultHost := "http://localhost"
  const DefaultPort: nat := 8080
  const DefaultCallbackPath := "/login/callback"
  const DefaultLoginPath := "/login"
  const DefaultCognitoRegion := "eu-south-1"

  /** `os.getenv(key, default)`: a variable that is set, even to the empty string, wins. */
  function Getenv(env: Env, key: string, default: string): (r: string)
    ensures key in env ==> r == env[key]
    ensures key !in env ==> r == default
  {
    if key in env then env[key] else default
  }

  /** `os.getenv(key)` without a default: `None` when the variable is unset. */
  function Lookup(env: Env, key: string): (r: Option<string>)
    ensures r.Some? <==> key in env
    ensures r.Some? ==> r.value == env[key]
  {
    if key in env then Some(env[key]) else None
  }

  /** How an f-string renders an optional setting: Python prints `None` for an unset one. */
  function Show(v: Option<string>): string {
    v.GetOr("None")
  }

  predicate HasScheme(s: string) {
    IsPrefix("http://", s) || IsPrefix("https://", s)
  }

  /** COGNITO_DOMAIN: kept when it has a scheme, given `https://` otherwise, and `None` when empty. */
  function NormalizeCognitoDomain(raw: string): (r: Option<string>)
    ensures r.None? <==> raw == ""
    ensures r.Some? ==> HasScheme(r.value)
    ensures HasScheme(raw) ==> r == Some(raw)
    ensures r.Some? && !HasScheme(raw) ==> r.value == "https://" + raw
  {
    if HasScheme(raw) then Some(raw)
    else if raw != "" then
      PrefixOfConcat("https://", raw);
      Some("https://" + raw)
    else None
  }

  /** Normalising a normalised domain changes nothing. */
  lemma NormalizeIdempotent(raw: string)
    ensures NormalizeCognitoDomain(raw).Some? ==>
      NormalizeCognitoDomain(NormalizeCognitoDomain(raw).value) == NormalizeCognitoDomain(raw)
  {
  }

  /** `HOST:PORT`, the common start of both computed URIs. */
  function Origin(host: string, port: nat): string {
    host + ":" + Decimal.FromNat(port)
  }

  datatype Settings = Settings(
    authProvider: string,
    clientId: Option<string>,
    clientSecret: Option<string>,
    tenantId: Option<string>,
    cognitoDomain: Option<string>,
    cognitoRegion: string,
    host: string,
    port: nat,
    callbackPath: string,
    loginPath: string,
    redirectUri: string,
    logoutUri: string)

  /**
   * The settings for environment `env`; `port` is PORT as `int()` read it,
   * `None` when PORT is unset.
   */
  function Load(env: Env, port: Option<nat>): (c: Settings)
    ensures c.clientId == Lookup(env, "CLIENT_ID")
    ensures c.clientSecret == Lookup(env, "CLIENT_SECRET")
    ensures c.tenantId == Lookup(env, "TENANT_ID")
    ensures c.cognitoDomain == NormalizeCognitoDomain(Getenv(env, "COGNITO_DOMAIN", ""))
    ensures c.authProvider == Lower(Getenv(env, "AUTH_PROVIDER", DefaultAuthProvider))
    ensures c.cognitoRegion == Getenv(env, "COGNITO_REGION", DefaultCognitoRegion)
    ensures c.host == Getenv(env, "HOST", DefaultHost)
    ensures c.port == port.GetOr(DefaultPort)
    ensures c.callbackPath == Getenv(env, "CALLBACK_PATH", DefaultCallbackPath)
    ensures c.loginPath == Getenv(env, "LOGIN_PATH", DefaultLoginPath)
    ensures c.redirectUri == Origin(c.host, c.port) + c.callbackPath
    ensures c.logoutUri == Origin(c.host, c.port) + "/"
  {
    var host := Getenv(env, "HOST", DefaultHost);
    var portNumber := port.GetOr(DefaultPort);
    var callbackPath := Getenv(env, "CALLBACK_PATH", DefaultCallbackPath);
    Settings(
      authProvider := Lower(Getenv(env, "AUTH_PROVIDER", DefaultAuthProvider)),
      clientId := Lookup(env, "CLIENT_ID"),
      clientSecret := Lookup(env, "CLIENT_SECRET"),
      tenantId := Lookup(env, "TENANT_ID"),
      cognitoDomain := NormalizeCognitoDomain(Getenv(env, "COGNITO_DOMAIN", "")),
      cognitoRegion := Getenv(env, "COGNITO_REGION", DefaultCognitoRegion),
      host := host,
      port := portNumber,
      callbackPath := callbackPath,
      loginPath := Getenv(env, "LOGIN_PATH", DefaultLoginPath),
      redirectUri := host + ":" + Decimal.FromNat(portNumber) + callbackPath,
      logoutUri := host + ":" + Decimal.FromNat(portNumber) + "/")
  }

  /** AUTH_PROVIDER is the lower-cased variable, `entraid` when unset. */
  lemma AuthProviderLowered(env: Env, port: Option<nat>)
    ensures var p := Load(env, port).authProvider;
      && (forall i :: 0 <= i < |p| ==> !IsUpper(p[i]))
      && ("AUTH_PROVIDER" !in env ==> p == "entraid")
      && ("AUTH_PROVIDER" in env ==> p == Lower(env["AUTH_PROVIDER"]))
  {
  }

  /** With nothing set, the computed URIs are the local development ones. */
  lemma DefaultUris()
    ensures Load(map[], None).redirectUri == "http://localhost:8080/login/callback"
    ensures Load(map[], None).logoutUri == "http://localhost:8080/"
    ensures Load(map[], None).authProvider == "entraid"
    ensures Load(map[], None).cognitoDomain == None
  {
  }

  lemma {:induction false} PrefixIffSlash(o: string, path: string)
    ensures IsPrefix(o + "/", o + path) <==> IsPrefix("/", path)
  {
    if IsPrefix("/", path) {
      assert path == "/" + path[1..];
      assert o + path == (o + "/") + path[1..];
      PrefixOfConcat(o + "/", path[1..]);
    }
    if IsPrefix(o + "/", o + path) {
      assert (o + path)[|o|] == (o + "/")[|o|] == '/';
      assert path[..1] == [path[0]];
    }
  }

  /** LOGOUT_URI starts REDIRECT_URI exactly when CALLBACK_PATH starts with `/`. */
  lemma LogoutUriPrefixesRedirectUri(env: Env, port: Option<nat>)
    ensures var c := Load(env, port);
      IsPrefix(c.logoutUri, c.redirectUri) <==> IsPrefix("/", c.callbackPath)
  {
    var c := Load(env, port);
    PrefixIffSlash(Origin(c.host, c.port), c.callbackPath);
  }

  /**
   * The port can be read back from REDIRECT_URI: when CALLBACK_PATH does not
   * start with a digit, the longest run of digits after `HOST:` is the
   * decimal text of PORT.
   */
  lemma PortInRedirectUri(env: Env, port: Option<nat>)
    ensures var c := Load(env, port);
      var run := Decimal.DigitRun(c.redirectUri[|c.host| + 1..]);
      (|c.callbackPath| == 0 || !Decimal.IsDigit(c.callbackPath[0])) ==>
        run == Decimal.FromNat(c.port) && Decimal.ToNat(run) == c.port
  {
    var c := Load(env, port);
    if |c.callbackPath| == 0 || !Decimal.IsDigit(c.callbackPath[0]) {
      var digits := Decimal.FromNat(c.port);
      assert c.redirectUri == c.host + ":" + digits + c.callbackPath;
      assert c.redirectUri[|c.host| + 1..] == digits + c.callbackPath;
      Decimal.DigitRunOfDigits(digits, c.callbackPath);
      Decimal.ToNatFromNat(c.port);
    }
  }
}
