/**
 * What the routes exchange with the outside: the requests they send to the
 * identity provider and to Microsoft Graph, the responses they give the
 * browser, and the Flask session they read and write.
 */
module Http {
  import opened Wrappers
  import opened Json

  /** A form-encoded body in field order; a field may hold Python's `None`. */
  type Form = seq<(string, Option<string>)>

  /** One outgoing HTTP request. */
  datatype Call =
    | TokenPost(url: string, form: Form)
      /** A GET sent with `Authorization: Bearer <bearer>`. */
    | GraphGet(url: string, bearer: Value)

  /** The remote side: the decoded JSON object each request gets back. */
  type Network = Call -> map<string, Value>

  /** The Flask session: JSON values under string keys. */
  type Session = map<string, Value>

  datatype Body =
    | Plain(text: string)
      /** `"Token error: "` followed by the token response as received. */
    | TokenError(tokenData: map<string, Value>)

  datatype Response =
    | Redirect(location: string)
    | Status(code: nat, body: Body)
      /** The rendered home page, given what it read from the session. */
    | Page(userData: Option<Value>, userGroups: Option<Value>)
    | JsonReply(value: Value)
      /** An uncaught exception, which Flask answers with status 500. */
    | ServerError

  /**
   * What one route handler produces: the response, the session afterwards,
   * the requests it sent in order, and the user identifier it logged, if any.
   */
  datatype Outcome = Outcome(response: Response, session: Session, calls: seq<Call>, logged: Option<Value>)

  /** The 400 body both callbacks give when the request has no code. */
  const MissingCodeText := "Error: No authorization code received"

  /** `request.args.get('code')` is truthy: present and not empty. */
  predicate HasCode(code: Option<string>) {
    code.Some? && code.value != ""
  }
}
