/**
 * The route handlers of `app/routes.py` as transition functions: each takes
 * the request's inputs, the remote side and the session before, and gives the
 * response, the session after and the requests sent.
 */
module Routes {
  import opened Wrappers
  import opened Json
  import opened Query
  import opened Http
  import opened Config
  import opened Entra

  const UserDataKey := "user_data"
  const UserGroupsKey := "user_groups"

  /** The user identifier the handlers log: `userPrincipalName`, or the literal `unknown`. */
  function UserIdentifier(info: map<string, Value>): (r: Value)
    ensures "userPrincipalName" in info ==> r == info["userPrincipalName"]
    ensures "userPrincipalName" !in info ==> r == Str("unknown")
  {
    if "userPrincipalName" in info then info["userPrincipalName"] else Str("unknown")
  }

  /** `home`: shows what the session holds under the two keys and changes nothing. */
  function Home(s: Session): (o: Outcome)
    ensures o.session == s && o.calls == []
    ensures o.response.Page?
    ensures o.response.userData.Some? <==> UserDataKey in s
    ensures o.response.userGroups.Some? <==> UserGroupsKey in s
    ensures UserDataKey in s ==> o.response.userData.value == s[UserDataKey]
    ensures UserGroupsKey in s ==> o.response.userGroups.value == s[UserGroupsKey]
  {
    var userData := if UserDataKey in s then Some(s[UserDataKey]) else None;
    var userGroups := if UserGroupsKey in s then Some(s[UserGroupsKey]) else None;
    Outcome(Page(userData, userGroups), s, [], None)
  }

  /** `login`: a redirect to the authorization URL. */
  function Login(c: Settings, s: Session): (o: Outcome)
    ensures o.session == s && o.calls == []
    ensures o.response == Redirect(AuthUrl(c))
  {
    Outcome(Redirect(AuthUrl(c)), s, [], None)
  }

  /**
   * `callback`: rejects a request without a code before any request is sent,
   * rejects a token response without `access_token` before any Graph request,
   * and otherwise stores the Graph results under the two session keys.
   */
  function Callback(c: Settings, code: Option<string>, net: Network, s: Session): (o: Outcome)
    ensures o.calls == [] <==> !HasCode(code)
    ensures !HasCode(code) ==> o.response == Status(400, Plain(MissingCodeText))
    ensures HasCode(code) ==> o.calls[0] == TokenRequest(c, code.value)
    ensures o.response.Redirect? <==> HasCode(code) && "access_token" in ExchangeCode(c, code.value, net)
    ensures o.response.Redirect? ==> o.response.location == "/" && |o.calls| == 3
    ensures !o.response.Redirect? ==> o.response.Status? && o.response.code == 400
    ensures o.response.Status? ==> o.session == s && |o.calls| <= 1 && o.logged == None
    ensures o.session - {UserDataKey, UserGroupsKey} == s - {UserDataKey, UserGroupsKey}
  {
    if !HasCode(code) then
      Outcome(Status(400, Plain(MissingCodeText)), s, [], None)
    else
      var tokenData := ExchangeCode(c, code.value, net);
      if "access_token" !in tokenData then
        Outcome(Status(400, TokenError(tokenData)), s, [TokenRequest(c, code.value)], None)
      else
        var token := tokenData["access_token"];
        var userInfo := GetUserInfo(token, net);
        var userGroups := GetUserGroups(token, net);
        WritesOnlyUserKeys(s, Obj(userInfo), Obj(userGroups));
        Outcome(
          Redirect("/"),
          s[UserDataKey := Obj(userInfo)][UserGroupsKey := Obj(userGroups)],
          [TokenRequest(c, code.value), GraphGet(GraphMe, token), GraphGet(GraphMemberOf, token)],
          Some(UserIdentifier(userInfo)))
  }

  lemma WritesOnlyUserKeys(s: Session, userData: Value, userGroups: Value)
    ensures s[UserDataKey := userData][UserGroupsKey := userGroups] - {UserDataKey, UserGroupsKey}
         == s - {UserDataKey, UserGroupsKey}
  {
  }

  /** The identifier `logout` logs; `None` where `.get` is called on a stored value that is not a dictionary. */
  function LoggedOutUser(s: Session): (r: Option<Value>)
    ensures r.None? <==> UserDataKey in s && !s[UserDataKey].Obj?
    ensures UserDataKey !in s ==> r == Some(Str("unknown"))
    ensures UserDataKey in s && s[UserDataKey].Obj? ==> r == Some(UserIdentifier(s[UserDataKey].fields))
  {
    if UserDataKey !in s then Some(UserIdentifier(map[]))
    else
      match s[UserDataKey]
      case Obj(info) => Some(UserIdentifier(info))
      case _ => None
  }

  /**
   * `logout`: empties the session and redirects to the logout URL; when the
   * stored user data is not a dictionary the handler fails before the session
   * is cleared.
   */
  function Logout(c: Settings, s: Session): (o: Outcome)
    ensures o.calls == []
    ensures o.response.Redirect? <==> UserDataKey !in s || s[UserDataKey].Obj?
    ensures o.response.Redirect? ==> o.session == map[] && o.response.location == LogoutUrl(c)
    ensures !o.response.Redirect? ==> o.response == ServerError && o.session == s
    ensures o.logged == LoggedOutUser(s)
  {
    match LoggedOutUser(s)
    case None => Outcome(ServerError, s, [], None)
    case Some(user) => Outcome(Redirect(LogoutUrl(c)), map[], [], Some(user))
  }

  /** A token response that is refused is echoed in the 400 body. */
  lemma TokenRejectionEchoed(c: Settings, code: string, net: Network, s: Session)
    requires code != ""
    requires "access_token" !in ExchangeCode(c, code, net)
    ensures Callback(c, Some(code), net, s).response == Status(400, TokenError(ExchangeCode(c, code, net)))
    ensures Callback(c, Some(code), net, s).calls == [TokenRequest(c, code)]
  {
  }

  /**
   * On success the session holds exactly what Graph returned for the access
   * token, both Graph requests carry that same token, and the logged
   * identifier is taken from the user record.
   */
  lemma CallbackSuccess(c: Settings, code: string, net: Network, s: Session)
    requires code != ""
    requires "access_token" in ExchangeCode(c, code, net)
    ensures var o := Callback(c, Some(code), net, s);
      var token := ExchangeCode(c, code, net)["access_token"];
      && o.response == Redirect("/")
      && o.calls == [TokenRequest(c, code), GraphGet(GraphMe, token), GraphGet(GraphMemberOf, token)]
      && o.session[UserDataKey] == Obj(GetUserInfo(token, net))
      && o.session[UserGroupsKey] == Obj(GetUserGroups(token, net))
      && o.session.Keys == s.Keys + {UserDataKey, UserGroupsKey}
      && o.logged == Some(UserIdentifier(GetUserInfo(token, net)))
  {
  }

  /**
   * The session written by a login depends only on the session before and on
   * what Graph returned: neither the token response nor the access token is
   * stored.
   */
  lemma SessionHoldsNoToken(c: Settings, code1: Option<string>, code2: Option<string>,
                            net1: Network, net2: Network, s: Session)
    ensures
      && HasCode(code1) && "access_token" in ExchangeCode(c, code1.value, net1)
      && HasCode(code2) && "access_token" in ExchangeCode(c, code2.value, net2)
      && GetUserInfo(ExchangeCode(c, code1.value, net1)["access_token"], net1)
         == GetUserInfo(ExchangeCode(c, code2.value, net2)["access_token"], net2)
      && GetUserGroups(ExchangeCode(c, code1.value, net1)["access_token"], net1)
         == GetUserGroups(ExchangeCode(c, code2.value, net2)["access_token"], net2)
      ==> Callback(c, code1, net1, s).session == Callback(c, code2, net2, s).session
  {
  }

  /**
   * The redirect URI that `login` sends the browser off with is, byte for
   * byte, the one the callback's token request carries.
   */
  lemma LoginCallbackRedirectUri(c: Settings, code: Option<string>, net: Network, s: Session)
    requires HasCode(code)
    requires '?' !in Show(c.tenantId)
    requires '&' !in Show(c.clientId) && '&' !in c.redirectUri
    ensures var u := Login(c, s).response.location;
      var form := Callback(c, code, net, s).calls[0].form;
      && Find(ParseUrl(u).1, "redirect_uri") == Some(c.redirectUri)
      && Find(form, "redirect_uri") == Some(Some(c.redirectUri))
  {
    RedirectUriAgreement(c, code.value);
  }

  /** Logging out after a login empties the session and logs the same user as the login did. */
  lemma LogoutAfterLogin(c: Settings, code: Option<string>, net: Network, s: Session)
    ensures var after := Callback(c, code, net, s);
      after.response.Redirect? ==>
      && Logout(c, after.session).response == Redirect(LogoutUrl(c))
      && Logout(c, after.session).session == map[]
      && Logout(c, after.session).logged == after.logged
  {
  }
}
