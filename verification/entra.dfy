/**
 * The Entra ID requests of `app/auth.py`: the authorization URL, the
 * token-exchange form, the logout URL and the Graph requests, built by plain
 * string concatenation from the settings. String literals are written cut at
 * their separators (`"client_id" + "="` for `"client_id="`), which does not
 * change the strings.
 */
module Entra {
  import opened Wrappers
  import opened Strings
  import opened Json
  import opened Query
  import opened Http
  import opened Config

  const LoginAuthority := "https://login.microsoftonline.com/"
  const GraphMe := "https://graph.microsoft.com/v1.0/me"
  const GraphMemberOf := "https://graph.microsoft.com/v1.0/me/memberOf"
  const Scope := "openid" + " " + "profile" + " " + "email" + " " + "User.Read" + " " + "GroupMember.Read.All"

  /** `https://login.microsoftonline.com/<tenant>/oauth2/v2.0/<kind>`. */
  function Endpoint(tenant: string, kind: string): string {
    LoginAuthority + tenant + "/oauth2/v2.0/" + kind
  }

  lemma EndpointHasNoQuery(tenant: string, kind: string)
    requires '?' !in tenant && '?' !in kind
    ensures '?' !in Endpoint(tenant, kind)
  {
  }

  /** The tenant segment of a login endpoint: the path up to the next `/`. */
  function TenantOf(url: string): Option<string> {
    if !IsPrefix(LoginAuthority, url) then None
    else
      match Cut(url[|LoginAuthority|..], '/')
      case None => None
      case Some((tenant, _)) => Some(tenant)
  }

  lemma TenantOfEndpoint(tenant: string, kind: string, rest: string)
    requires '/' !in tenant
    ensures TenantOf(Endpoint(tenant, kind) + rest) == Some(tenant)
  {
    var tail := "oauth2/v2.0/" + kind + rest;
    assert "/oauth2/v2.0/" == "/" + "oauth2/v2.0/";
    var url := Endpoint(tenant, kind) + rest;
    assert url == LoginAuthority + (tenant + ['/'] + tail);
    PrefixOfConcat(LoginAuthority, tenant + ['/'] + tail);
    assert url[|LoginAuthority|..] == tenant + ['/'] + tail;
    CutConcat(tenant, '/', tail);
  }

  /** The authorization request of section 4.1.1 of RFC 6749, plus `response_mode=query`, written out by hand. */
  function AuthorizeUrl(tenant: string, clientId: string, redirectUri: string, scope: string): string {
    LoginAuthority + tenant + "/oauth2/v2.0/" + "authorize" + "?"
    + "client_id" + "=" + clientId
    + "&" + "response_type" + "=" + "code"
    + "&" + "redirect_uri" + "=" + redirectUri
    + "&" + "scope" + "=" + scope
    + "&" + "response_mode" + "=" + "query"
  }

  /** The parameters of that request, in order. */
  function AuthorizeParams(clientId: string, redirectUri: string, scope: string): seq<Param> {
    [ ("client_id", clientId),
      ("response_type", "code"),
      ("redirect_uri", redirectUri),
      ("scope", scope),
      ("response_mode", "query") ]
  }

  /** Regrouping a left-nested concatenation of five `name=value` pairs; every piece a variable. */
  lemma Regroup(e: string, q: string, eq: string, amp: string,
                k0: string, v0: string, k1: string, v1: string, k2: string, v2: string,
                k3: string, v3: string, k4: string, v4: string)
    ensures e + q + k0 + eq + v0 + amp + k1 + eq + v1 + amp + k2 + eq + v2 + amp + k3 + eq + v3 + amp + k4 + eq + v4
         == e + q + ((k0 + eq + v0) + amp + ((k1 + eq + v1) + amp + ((k2 + eq + v2) + amp
            + ((k3 + eq + v3) + amp + (k4 + eq + v4)))))
  {
  }

  lemma RegroupOne(e: string, q: string, eq: string, k: string, v: string)
    ensures e + q + k + eq + v == e + q + (k + eq + v)
    ensures e + q + k + eq + v == e + (q + k + eq + v)
  {
  }

  /** The hand-written URL is the authorize endpoint followed by the query string of exactly those parameters. */
  lemma AuthorizeUrlIsQuery(tenant: string, clientId: string, redirectUri: string, scope: string)
    ensures AuthorizeUrl(tenant, clientId, redirectUri, scope)
         == Endpoint(tenant, "authorize") + "?" + QueryString(AuthorizeParams(clientId, redirectUri, scope))
  {
    var ps := AuthorizeParams(clientId, redirectUri, scope);
    Regroup(Endpoint(tenant, "authorize"), "?", "=", "&",
            "client_id", clientId, "response_type", "code", "redirect_uri", redirectUri,
            "scope", scope, "response_mode", "query");
    QueryStringCons(ps);
    QueryStringCons(ps[1..]);
    QueryStringCons(ps[2..]);
    QueryStringCons(ps[3..]);
    assert ps[4..] == [("response_mode", "query")];
    QueryStringOne(("response_mode", "query"));
  }

  /**
   * When no value carries `&` and the tenant carries no `?`, a reader of the
   * authorization URL finds exactly the five parameters, and in particular the
   * client, the response type and the redirect URI as given.
   */
  lemma AuthorizeUrlParses(tenant: string, clientId: string, redirectUri: string, scope: string)
    requires '?' !in tenant
    requires '&' !in clientId && '&' !in redirectUri && '&' !in scope
    ensures ParseUrl(AuthorizeUrl(tenant, clientId, redirectUri, scope))
         == (Endpoint(tenant, "authorize"), AuthorizeParams(clientId, redirectUri, scope))
    ensures Find(ParseUrl(AuthorizeUrl(tenant, clientId, redirectUri, scope)).1, "client_id") == Some(clientId)
    ensures Find(ParseUrl(AuthorizeUrl(tenant, clientId, redirectUri, scope)).1, "response_type") == Some("code")
    ensures Find(ParseUrl(AuthorizeUrl(tenant, clientId, redirectUri, scope)).1, "redirect_uri") == Some(redirectUri)
  {
    var ps := AuthorizeParams(clientId, redirectUri, scope);
    AuthorizeUrlIsQuery(tenant, clientId, redirectUri, scope);
    EndpointHasNoQuery(tenant, "authorize");
    ParseUrlBuild(Endpoint(tenant, "authorize"), ps);
    FindAt(ps, 0);
    FindAt(ps, 1);
    FindAt(ps, 2);
  }

  /** The token request body of section 4.1.3 of RFC 6749, in the order the dictionary lists it. */
  function TokenForm(clientId: Option<string>, clientSecret: Option<string>, code: string, redirectUri: string): (f: Form)
    ensures |f| == 5
    ensures Find(f, "grant_type") == Some(Some("authorization_code"))
    ensures Find(f, "client_id") == Some(clientId)
    ensures Find(f, "client_secret") == Some(clientSecret)
    ensures Find(f, "code") == Some(Some(code))
    ensures Find(f, "redirect_uri") == Some(Some(redirectUri))
  {
    var f := [ ("grant_type", Some("authorization_code")),
               ("client_id", clientId),
               ("client_secret", clientSecret),
               ("code", Some(code)),
               ("redirect_uri", Some(redirectUri)) ];
    FindAt(f, 0);
    FindAt(f, 1);
    FindAt(f, 2);
    FindAt(f, 3);
    FindAt(f, 4);
    f
  }

  /** The value sent in the `Authorization` header of a Graph request, for a string token. */
  function AuthorizationHeader(bearer: Value): Option<string> {
    if bearer.Str? then Some("Bearer " + bearer.s) else None
  }

  /** Reads the token back out of an `Authorization` header value. */
  function BearerToken(header: string): Option<string> {
    if IsPrefix("Bearer ", header) then Some(header[|"Bearer "|..]) else None
  }

  /** The header carries the token unchanged. */
  lemma BearerRoundTrip(token: string)
    ensures AuthorizationHeader(Str(token)).Some?
    ensures BearerToken(AuthorizationHeader(Str(token)).value) == Some(token)
  {
  }

  // The functions below read the application's settings, as the module does through `current_app.config`.

  function TokenUrl(c: Settings): string {
    Endpoint(Show(c.tenantId), "token")
  }

  /** `get_auth_url`. */
  function AuthUrl(c: Settings): string {
    AuthorizeUrl(Show(c.tenantId), Show(c.clientId), c.redirectUri, Scope)
  }

  /** `get_logout_url`: the end-session request of section 2 of OpenID Connect RP-Initiated Logout 1.0. */
  function LogoutUrl(c: Settings): string {
    LoginAuthority + Show(c.tenantId) + "/oauth2/v2.0/" + "logout" + "?"
    + "post_logout_redirect_uri" + "=" + c.logoutUri
  }

  /** The POST that `exchange_code_for_token(code)` sends. */
  function TokenRequest(c: Settings, code: string): Call {
    TokenPost(TokenUrl(c), TokenForm(c.clientId, c.clientSecret, code, c.redirectUri))
  }

  /** `exchange_code_for_token`: one POST, whose decoded answer is returned as it is. */
  function ExchangeCode(c: Settings, code: string, net: Network): map<string, Value> {
    net(TokenRequest(c, code))
  }

  /** `get_user_info`. */
  function GetUserInfo(token: Value, net: Network): map<string, Value> {
    net(GraphGet(GraphMe, token))
  }

  /** `get_user_groups`. */
  function GetUserGroups(token: Value, net: Network): map<string, Value> {
    net(GraphGet(GraphMemberOf, token))
  }

  /** The `redirect_uri` of the token request is, byte for byte, the one a reader finds in the authorization URL. */
  lemma RedirectUriAgreement(c: Settings, code: string)
    requires '?' !in Show(c.tenantId)
    requires '&' !in Show(c.clientId) && '&' !in c.redirectUri
    ensures Find(ParseUrl(AuthUrl(c)).1, "redirect_uri") == Some(c.redirectUri)
    ensures Find(TokenRequest(c, code).form, "redirect_uri") == Some(Some(c.redirectUri))
  {
    assert '&' !in "User.Read" && '&' !in "GroupMember.Read.All";
    AuthorizeUrlParses(Show(c.tenantId), Show(c.clientId), c.redirectUri, Scope);
  }

  /** The logout URL reads as the tenant's logout endpoint with the single parameter `post_logout_redirect_uri`. */
  lemma LogoutUrlParses(c: Settings)
    requires '?' !in Show(c.tenantId)
    requires '&' !in c.logoutUri
    ensures ParseUrl(LogoutUrl(c)) == (Endpoint(Show(c.tenantId), "logout"), [("post_logout_redirect_uri", c.logoutUri)])
  {
    var ps := [("post_logout_redirect_uri", c.logoutUri)];
    QueryStringOne(ps[0]);
    RegroupOne(Endpoint(Show(c.tenantId), "logout"), "?", "=", "post_logout_redirect_uri", c.logoutUri);
    EndpointHasNoQuery(Show(c.tenantId), "logout");
    ParseUrlBuild(Endpoint(Show(c.tenantId), "logout"), ps);
  }

  /** The token, authorize and logout endpoints name the same tenant. */
  lemma SameTenant(c: Settings)
    requires '/' !in Show(c.tenantId)
    ensures TenantOf(TokenUrl(c)) == Some(Show(c.tenantId))
    ensures TenantOf(AuthUrl(c)) == Some(Show(c.tenantId))
    ensures TenantOf(LogoutUrl(c)) == Some(Show(c.tenantId))
  {
    var t := Show(c.tenantId);
    assert TokenUrl(c) == Endpoint(t, "token") + "";
    TenantOfEndpoint(t, "token", "");
    var q := QueryString(AuthorizeParams(Show(c.clientId), c.redirectUri, Scope));
    AuthorizeUrlIsQuery(t, Show(c.clientId), c.redirectUri, Scope);
    assert AuthUrl(c) == Endpoint(t, "authorize") + ("?" + q);
    TenantOfEndpoint(t, "authorize", "?" + q);
    RegroupOne(Endpoint(t, "logout"), "?", "=", "post_logout_redirect_uri", c.logoutUri);
    TenantOfEndpoint(t, "logout", "?" + "post_logout_redirect_uri" + "=" + c.logoutUri);
  }
}
