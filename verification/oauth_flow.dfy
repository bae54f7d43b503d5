/**
 * What the two Flask clients share in the authorization-code grant of
 * RFC 6749: the authorization request they redirect the browser with
 * (section 4.1.1), the guards on the redirect back (sections 4.1.2 and
 * 10.12) and the form body of the code-for-token request (section 4.1.3).
 */
module OAuthFlow {
  import opened Wrappers
  import opened Json

  /** The client credentials each app reads from its environment at start-up. */
  datatype ClientConfig = ClientConfig(clientId: string, clientSecret: string)

  /** The query parameters of the redirect to the authorization endpoint (`auth_params`). */
  datatype AuthorizationRequest = AuthorizationRequest(
    responseType: string,
    clientId: string,
    redirectUri: string,
    scope: string,
    state: string)

  /** A form-encoded POST body sent to the token endpoint. */
  type FormBody = map<string, Json>

  /** What the callback's two guards decide. */
  datatype Guard = MissingCode | StateMismatch | Proceed(code: string)

  /**
   * The callback's guards on `request.args.get('code')` and
   * `request.args.get('state')` against `session.get('oauth_state')`:
   * a missing or empty code is refused before the state is looked at, and
   * the states are compared as optional values, so an absent state matches
   * an absent session entry.
   */
  function CheckCallback(code: Option<string>, state: Option<string>, held: Option<string>): (g: Guard)
    ensures g == MissingCode <==> code.None? || code.value == ""
    ensures g == StateMismatch <==> code.Some? && code.value != "" && state != held
    ensures g.Proceed? ==> code == Some(g.code)
  {
    if code.None? || code.value == "" then MissingCode
    else if state != held then StateMismatch
    else Proceed(code.value)
  }

  /** A missing code is refused whatever the states are. */
  lemma MissingCodeWins(state: Option<string>, held: Option<string>)
    ensures CheckCallback(None, state, held) == MissingCode
    ensures CheckCallback(Some(""), state, held) == MissingCode
  {
  }

  /** A returned state different from the one held in the session is refused, for every code. */
  lemma ForeignStateRefused(code: string, state: string, held: string)
    requires code != "" && state != held
    ensures CheckCallback(Some(code), Some(state), Some(held)) == StateMismatch
    ensures CheckCallback(Some(code), None, Some(held)) == StateMismatch
  {
  }

  /**
   * A callback without a `state` parameter passes the state guard in a
   * session where no login was started: `None != None` is false.
   */
  lemma AbsentStatePassesWithoutLogin(code: string)
    requires code != ""
    ensures CheckCallback(Some(code), None, None) == Proceed(code)
  {
  }

  /** The body of the authorization-code token request. */
  function AuthorizationCodeRequest(config: ClientConfig, code: string, redirectUri: string): (body: FormBody)
    ensures body.Keys == {"grant_type", "code", "client_id", "client_secret", "redirect_uri"}
    ensures body["grant_type"] == JStr("authorization_code")
    ensures body["code"] == JStr(code) && body["redirect_uri"] == JStr(redirectUri)
    ensures body["client_id"] == JStr(config.clientId)
    ensures body["client_secret"] == JStr(config.clientSecret)
  {
    map[
      "grant_type" := JStr("authorization_code"),
      "code" := JStr(code),
      "client_id" := JStr(config.clientId),
      "client_secret" := JStr(config.clientSecret),
      "redirect_uri" := JStr(redirectUri)
    ]
  }

  /** What came of a callback. */
  datatype CallbackOutcome =
    | CodeMissing        // flash and redirect to the index; nothing sent
    | StateRejected      // flash and redirect to the index; nothing sent
    | ExchangeFailed     // the token endpoint answered non-200, or the call raised
    | LoggedIn           // the reply was saved; redirect to the dashboard
}
