/**
 * The single-file variant `app.py`: fixed settings, the same authorization URL
 * and token request shapes with a shorter scope, and a callback that answers
 * with the user record instead of writing the session.
 */
module Standalone {
  import opened Wrappers
  import opened Json
  import opened Query
  import opened Http
  import Decimal
  import Config
  import Entra

  const TenantId := "your-tenant-id"
  const ClientId := "your-client-id"
  const ClientSecret := "your-super-secret-client-secret"
  const CallbackPath := "/login/callback"
  const LoginPath := "/login"
  const Port: nat := 8080
  const RedirectUri := "http://localhost:" + Decimal.FromNat(Port) + CallbackPath
  const StandaloneScope := "openid" + " " + "profile" + " " + "email"

  function AuthUrl(): string {
    Entra.AuthorizeUrl(TenantId, ClientId, RedirectUri, StandaloneScope)
  }

  function TokenRequest(code: string): Call {
    TokenPost(Entra.Endpoint(TenantId, "token"), Entra.TokenForm(Some(ClientId), Some(ClientSecret), code, RedirectUri))
  }

  /** `login`: a redirect to the authorization URL. */
  function Login(s: Session): (o: Outcome)
    ensures o.session == s && o.calls == [] && o.response == Redirect(AuthUrl())
  {
    Outcome(Redirect(AuthUrl()), s, [], None)
  }

  /**
   * `callback`: the same two rejections as the application's callback, and
   * on success the `/me` record as a JSON reply; the session is never written
   * and group membership is never requested.
   */
  function Callback(code: Option<string>, net: Network, s: Session): (o: Outcome)
    ensures o.session == s
    ensures o.calls == [] <==> !HasCode(code)
    ensures !HasCode(code) ==> o.response == Status(400, Plain(MissingCodeText))
    ensures HasCode(code) ==> o.calls[0] == TokenRequest(code.value)
    ensures o.response.JsonReply? <==> HasCode(code) && "access_token" in net(TokenRequest(code.value))
    ensures !o.response.JsonReply? ==> o.response.Status? && o.response.code == 400 && |o.calls| <= 1
    ensures forall i :: 0 <= i < |o.calls| && o.calls[i].GraphGet? ==> o.calls[i].url == Entra.GraphMe
  {
    if !HasCode(code) then
      Outcome(Status(400, Plain(MissingCodeText)), s, [], None)
    else
      var tokenData := net(TokenRequest(code.value));
      if "access_token" !in tokenData then
        Outcome(Status(400, TokenError(tokenData)), s, [TokenRequest(code.value)], None)
      else
        var token := tokenData["access_token"];
        var userInfo := net(GraphGet(Entra.GraphMe, token));
        Outcome(JsonReply(Obj(userInfo)), s, [TokenRequest(code.value), GraphGet(Entra.GraphMe, token)], None)
  }

  /** On success the reply is what `/me` returned for the access token. */
  lemma CallbackRepliesUserInfo(code: string, net: Network, s: Session)
    requires code != ""
    requires "access_token" in net(TokenRequest(code))
    ensures var token := net(TokenRequest(code))["access_token"];
      Callback(Some(code), net, s).response == JsonReply(Obj(net(GraphGet(Entra.GraphMe, token))))
  {
  }

  /** The fixed redirect URI is the local development one, the same as the configured application's default. */
  lemma RedirectUriValue()
    ensures RedirectUri == "http://localhost:8080/login/callback"
    ensures RedirectUri == Config.Load(map[], None).redirectUri
  {
  }

  /** The redirect URI a reader finds in the authorization URL is the one the token request carries. */
  lemma RedirectUriAgreement(code: string)
    ensures Find(ParseUrl(AuthUrl()).1, "redirect_uri") == Some(RedirectUri)
    ensures Find(TokenRequest(code).form, "redirect_uri") == Some(Some(RedirectUri))
    ensures Find(TokenRequest(code).form, "grant_type") == Some(Some("authorization_code"))
  {
    RedirectUriHasNoAmpersand();
    assert '?' !in TenantId && '&' !in ClientId;
    assert '&' !in "openid" && '&' !in "profile" && '&' !in "email";
    Entra.AuthorizeUrlParses(TenantId, ClientId, RedirectUri, StandaloneScope);
  }

  lemma RedirectUriHasNoAmpersand()
    ensures '&' !in RedirectUri
  {
  }
}
