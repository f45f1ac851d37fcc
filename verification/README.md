# Entra ID sign-in for Flask, modelled in Dafny

This project models the deterministic core of a small Flask application that
signs users in with Microsoft Entra ID through the OAuth 2.0 authorization-code
flow (RFC 6749) and OpenID Connect:

- **Config** (`config.py`): the settings derived from the environment:
  `AUTH_PROVIDER` lower-cased with default `entraid`, the `COGNITO_DOMAIN`
  normalisation, and the computed `REDIRECT_URI` (`HOST:PORT` + callback path)
  and `LOGOUT_URI` (`HOST:PORT/`). An unset variable without a default is
  `None`, and an f-string prints it as `None`.
- **Entra** (`app/auth.py`): the authorization URL (section 4.1.1 of RFC 6749
  plus `response_mode=query`), the token-exchange form (section 4.1.3 of
  RFC 6749), the logout URL with `post_logout_redirect_uri` (section 2 of
  OpenID Connect RP-Initiated Logout 1.0), and the two Microsoft Graph
  requests with their `Bearer` token.
- **Routes** (`app/routes.py`): `home`, `login`, `callback` and `logout` as
  pure transition functions from the request's inputs, the remote side and the
  session before to the response, the session after, the requests sent and
  the user identifier logged.
- **Standalone** (`app.py`): the single-file variant with fixed settings, a
  shorter scope, and a callback that replies with the `/me` record and never
  writes the session.

The remote side (the token endpoint and Microsoft Graph) is one function
`Network = Call -> map<string, Value>`: every handler lists the requests it
sends, so "no request is sent" and "Graph is never asked" are statements about
that list. URLs are built by plain concatenation, as the code does; a
reference reader (`Query.ParseUrl`: cut at the first `?`, split at `&`, cut each
parameter at its first `=`) is proved to give back the parameters a URL was
built from, which is how the agreement of the two `redirect_uri` values is
stated. Supporting modules: `Wrappers` (Option), `Json` (JSON values, the
session's contents), `Strings` (prefix test, ASCII lower-casing, cutting,
split/join with round-trip proofs), `Decimal` (decimal text of a number and
its reading back) and `Http` (requests, responses, session, handler outcomes).

`AUTH_PROVIDER`, `COGNITO_DOMAIN` and `COGNITO_REGION` are read (config.py:11,
config.py:21-24) but no code uses them. Both Graph calls are made
unconditionally (app/routes.py:34-35). The only identifier lookup is
`userPrincipalName` with the default `unknown` (app/routes.py:36, 47).

## Model

| member | source | states |
|---|---|---|
| Decimal.FromNat | config.py:33-34 | the text of PORT in the URIs is digits only, with no leading zero unless PORT is 0 |
| Decimal.ToNatFromNat | config.py:33-34 | reading the decimal text of PORT back gives PORT |
| Decimal.FromNatInjective | config.py:33-34 | different ports have different decimal texts |
| Strings.Lower | config.py:11 | lower-casing keeps the length, leaves no upper-case letter, maps each upper-case letter to its partner and keeps every other character |
| Config.NormalizeCognitoDomain | config.py:21-23 | the domain is `None` exactly when the raw value is empty; a value with `http://` or `https://` is kept; any other gets `https://` in front; every result has a scheme |
| Config.NormalizeIdempotent | config.py:22-23 | normalising a normalised domain returns it unchanged |
| Config.AuthProviderLowered | config.py:11 | AUTH_PROVIDER has no upper-case letter, is `entraid` when unset and the lower-cased variable when set |
| Config.Load | config.py:7-34 | CLIENT_ID, CLIENT_SECRET and TENANT_ID are the variables or `None`; AUTH_PROVIDER is the lower-cased variable or `entraid`; COGNITO_DOMAIN is normalised; HOST, CALLBACK_PATH, LOGIN_PATH and COGNITO_REGION are the variables or their defaults; PORT is the given number or 8080; REDIRECT_URI is `HOST:PORT` followed by CALLBACK_PATH and LOGOUT_URI is `HOST:PORT/` |
| Config.DefaultUris | config.py:27-34 | with nothing set, REDIRECT_URI is `http://localhost:8080/login/callback`, LOGOUT_URI is `http://localhost:8080/`, AUTH_PROVIDER is `entraid` and COGNITO_DOMAIN is `None` |
| Config.LogoutUriPrefixesRedirectUri | config.py:33-34 | LOGOUT_URI is a prefix of REDIRECT_URI exactly when CALLBACK_PATH starts with `/` |
| Config.PortInRedirectUri | config.py:27-33 | when CALLBACK_PATH does not start with a digit, the longest run of digits right after `HOST:` in REDIRECT_URI is the decimal text of PORT and reads back as PORT |
| Entra.AuthorizeUrlIsQuery | app/auth.py:30-37 | the authorization URL is the tenant's authorize endpoint, `?`, and the query of exactly `client_id`, `response_type=code`, `redirect_uri`, `scope`, `response_mode=query` in that order |
| Entra.AuthorizeUrlParses | app/auth.py:33-37 | a reader of the authorization URL finds the authorize endpoint and those five parameters, with the client id, `code` and the redirect URI as given, when no value holds `&` |
| Entra.TokenForm | app/auth.py:7-13 | the token form has five fields: `grant_type=authorization_code`, the client id and secret, the callback code unchanged and the redirect URI |
| Entra.RedirectUriAgreement | app/auth.py:12-35 | the `redirect_uri` of the token request equals, byte for byte, the one a reader finds in the authorization URL; both are REDIRECT_URI |
| Entra.LogoutUrlParses | app/auth.py:39-44 | the logout URL reads as the tenant's logout endpoint with the single parameter `post_logout_redirect_uri` equal to LOGOUT_URI |
| Entra.SameTenant | app/auth.py:6-42 | the token, authorize and logout endpoints carry the same tenant segment, TENANT_ID |
| Entra.BearerRoundTrip | app/auth.py:20-26 | the `Authorization` header is `Bearer ` followed by the access token, which reads back unchanged |
| Routes.Home | app/routes.py:6-11 | the page shows exactly what the session holds under `user_data` and `user_groups`; the session is unchanged and nothing is sent |
| Routes.Login | app/routes.py:13-16 | login redirects to the authorization URL of `get_auth_url` without sending any request and without touching the session |
| Routes.Callback | app/routes.py:18-42 | no request is sent exactly when the code is missing or empty (400); the first request is the token exchange with the code; the login succeeds exactly when the token response has `access_token`; every rejection is a 400 that sends no Graph request, keeps the session and logs no user; keys other than `user_data` and `user_groups` are never changed |
| Routes.TokenRejectionEchoed | app/routes.py:29-31 | a token response without `access_token` is echoed in the 400 body and only the token request was sent |
| Routes.CallbackSuccess | app/routes.py:33-42 | on success the response redirects to `/`, the requests are the exchange, `/me` and `/me/memberOf` with the same token, `user_data` and `user_groups` hold the two Graph results, exactly those two keys are added, and the logged identifier comes from the user record |
| Routes.SessionHoldsNoToken | app/routes.py:34-40 | the session after a login depends only on the session before and the Graph results: the token response and the access token never enter it |
| Routes.LoginCallbackRedirectUri | app/routes.py:16-27 | the redirect URI in the login redirect is the one the callback's token request carries |
| Routes.UserIdentifier | app/routes.py:36 | the logged identifier is `userPrincipalName` when present and the literal `unknown` otherwise |
| Routes.LoggedOutUser | app/routes.py:47 | logout names `unknown` when no user is stored, the stored record's `userPrincipalName` (or `unknown`) when it is a dictionary, and fails exactly when the stored user data is not a dictionary |
| Routes.Logout | app/routes.py:44-50 | logout empties the session and redirects to the logout URL, unless the stored user data is not a dictionary, in which case it fails with the session untouched; it logs the stored user's identifier and sends no request |
| Routes.LogoutAfterLogin | app/routes.py:39-50 | after a successful login, logout succeeds, empties the session and logs the same user as the login |
| Standalone.Login | app.py:17-25 | login redirects to the fixed authorization URL without sending any request or touching the session |
| Standalone.Callback | app.py:27-55 | no request is sent exactly when the code is missing or empty (400); the first request is the token exchange with the code; a JSON reply comes exactly when the token response has `access_token`, otherwise a 400 after at most the token request; `/me/memberOf` is never asked and the session is never written |
| Standalone.CallbackRepliesUserInfo | app.py:50-55 | on success the reply is the `/me` record for the access token |
| Standalone.RedirectUriValue | app.py:12-15 | the fixed redirect URI is `http://localhost:8080/login/callback`, the configured application's default |
| Standalone.RedirectUriAgreement | app.py:20-42 | the `redirect_uri` of the token form equals the one a reader finds in the authorization URL, and `grant_type` is `authorization_code` |

## Left out

- HTTP transport: `requests.post`/`requests.get`, timeouts, transport errors and JSON decoding are the `Network` function; a response body that is not a JSON object is not modelled.
- Flask machinery: blueprints, `render_template`, `redirect`/`jsonify` internals and the signed-cookie session; the session is a map and responses a small datatype.
- SECRET_KEY generation with `secrets.token_hex` (config.py:8, app.py:6): randomness.
- Reading the environment and `.env` files, and `int()` parsing of PORT: the environment is a map and PORT arrives as an optional number.
- Negative PORT values: `int()` accepts `"-1"` and the f-string then writes `-1` into both URIs; PORT is modelled as a natural number, so such values are not modelled.
- Logging: only the user identifier the handlers log is modelled, not the messages or logger setup; `app/__init__.py` and `run.py` are wiring.
- Strings.Lower: lower-cases ASCII letters only, while Python's `str.lower()` also lower-cases other Unicode letters.
- Entra.AuthorizationHeader: the header text is modelled for string tokens only; Python's rendering of a non-string JSON token is not.
- Query.ParseUrl: the code does not percent-encode, so the reading-back lemmas require values without `&` (and a tenant without `?`); the model adds no encoding.
- JSON numbers are integers only.
- LOGIN_PATH, AUTH_PROVIDER, COGNITO_DOMAIN and COGNITO_REGION are derived but no code uses them, so the model only derives them.
