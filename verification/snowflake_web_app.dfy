/**
 * The Flask client of `python_web_app/app.py`, which signs users in with the
 * data warehouse's own OAuth server. It saves the token reply exactly as it
 * arrives (no `obtained_at`), never looks at expiry and never refreshes: any
 * non-empty stored record counts as being logged in.
 *
 * The token endpoint is an oracle as in the Cognito client: `reply` is the
 * JSON object of a 200 answer, or `None` when the answer was not 200 or the
 * call raised.
 */
module SnowflakeWebApp {
  import opened Wrappers
  import opened Json
  import opened Text
  import opened TokenStore
  import opened OAuthFlow

  /** The redirect URI written into the authorization request by `login`. */
  const LoginRedirectUri := "http://127.0.0.1:5000/callback"

  /** The redirect URI written, as a literal of its own, into the token request by `callback`. */
  const CallbackRedirectUri := "http://127.0.0.1:5000/callback"

  /** The only scope this client asks for. */
  const Scope := "refresh_token"

  /** `if token_data:` on what `load_token` returned: present and not an empty object. */
  function Authenticated(stored: Option<TokenRecord>): (b: bool)
    ensures b <==> stored.Some? && Truthy(JObject(stored.value))
  {
    stored.Some? && stored.value != map[]
  }

  /** The authorization request `login` redirects to. */
  function LoginRequest(config: ClientConfig, state: string): (request: AuthorizationRequest)
    ensures request.responseType == "code" && request.clientId == config.clientId
    ensures request.scope == Scope && request.state == state && request.redirectUri == LoginRedirectUri
  {
    AuthorizationRequest("code", config.clientId, LoginRedirectUri, Scope, state)
  }

  /**
   * Section 4.1.3 of RFC 6749: the token request repeats the `redirect_uri` of
   * the authorization request, and a callback that brings back the state the
   * login stored passes both guards.
   */
  lemma LoginAndCallbackAgree(config: ClientConfig, state: string, code: string)
    requires code != ""
    ensures AuthorizationCodeRequest(config, code, CallbackRedirectUri)["redirect_uri"]
         == JStr(LoginRequest(config, state).redirectUri)
    ensures CheckCallback(Some(code), Some(LoginRequest(config, state).state), Some(state)) == Proceed(code)
  {
  }

  /** What `execute_sql` does with a request. */
  datatype SqlOutcome =
    | NotAuthenticated                                               // redirect to the index
    | EmptyQuery                                                     // flash and redirect to the dashboard
    | Connect(accessToken: Option<Json>, query: string, warehouse: string)  // handed to the warehouse driver

  class WebApp {
    const config: ClientConfig
    /** `tokens.json`. */
    const file: TokenFile
    /** `session['oauth_state']`, the only session entry the flow reads. */
    var oauthState: Option<string>

    constructor (config: ClientConfig, file: TokenFile)
      ensures this.config == config && this.file == file && oauthState == None
    {
      this.config := config;
      this.file := file;
      oauthState := None;
    }

    /**
     * The test of `index`, `dashboard` and `execute_sql`: load the token and
     * take its truth value. Nothing about expiry is consulted.
     */
    method IsAuthenticated() returns (b: bool)
      ensures b <==> Authenticated(file.contents)
      ensures b ==> file.contents.Some? && file.contents.value != map[]
    {
      var token := file.Load();
      b := token.Some? && token.value != map[];
    }

    /** `login`: remembers `state` in the session and builds the authorization request. */
    method Login(state: string) returns (request: AuthorizationRequest)
      modifies this
      ensures request == LoginRequest(config, state) && oauthState == Some(state)
    {
      oauthState := Some(state);
      request := LoginRequest(config, state);
    }

    /**
     * `callback`: the two guards, then the code-for-token request; a 200 reply
     * is saved exactly as it arrived, so a 200 answer of `{}` is reported as a
     * success but leaves the user logged out. The session's state is left in place.
     */
    method Callback(code: Option<string>, state: Option<string>, reply: Option<TokenRecord>)
      returns (request: Option<FormBody>, outcome: CallbackOutcome)
      modifies file
      ensures oauthState == old(oauthState)
      ensures var g := CheckCallback(code, state, oauthState);
        && (g == MissingCode ==> outcome == CodeMissing && request.None? && file.contents == old(file.contents))
        && (g == StateMismatch ==> outcome == StateRejected && request.None? && file.contents == old(file.contents))
        && (g.Proceed? ==> request == Some(AuthorizationCodeRequest(config, g.code, CallbackRedirectUri)))
        && (g.Proceed? && reply.None? ==> outcome == ExchangeFailed && file.contents == old(file.contents))
        && (g.Proceed? && reply.Some? ==> outcome == LoggedIn && file.contents == reply)
      ensures outcome == LoggedIn ==> reply.Some? && (Authenticated(file.contents) <==> reply.value != map[])
    {
      if code.None? || code.value == "" {
        return None, CodeMissing;
      }
      if state != oauthState {
        return None, StateRejected;
      }
      request := Some(AuthorizationCodeRequest(config, code.value, CallbackRedirectUri));
      if reply.Some? {
        file.Save(reply.value);
        outcome := LoggedIn;
      } else {
        outcome := ExchangeFailed;
      }
    }

    /**
     * `execute_sql` up to the warehouse connection: an unauthenticated user is
     * sent back, a query that is blank once stripped is refused, and only then
     * is a connection attempted, with the stored `access_token`.
     */
    method ExecuteSql(sqlField: Option<string>, warehouseField: Option<string>) returns (r: SqlOutcome)
      ensures r == NotAuthenticated <==> !Authenticated(file.contents)
      ensures Authenticated(file.contents) && AllSpace(sqlField.GetOr("")) ==> r == EmptyQuery
      ensures Authenticated(file.contents) && !AllSpace(sqlField.GetOr("")) ==> r.Connect?
      ensures r.Connect? ==>
        && !AllSpace(sqlField.GetOr(""))
        && r.query == Strip(sqlField.GetOr("")) && r.query != ""
        && r.warehouse == Strip(warehouseField.GetOr(""))
        && r.accessToken == Get(file.contents.value, "access_token")
    {
      var token := file.Load();
      if token.None? || token.value == map[] {
        return NotAuthenticated;
      }
      var sqlQuery := Strip(sqlField.GetOr(""));
      var warehouse := Strip(warehouseField.GetOr(""));
      StripEmptyIffBlank(sqlField.GetOr(""));
      if sqlQuery == "" {
        return EmptyQuery;
      }
      r := Connect(Get(token.value, "access_token"), sqlQuery, warehouse);
    }

    /** `logout`: deletes the token file if there is one and clears the session. */
    method Logout()
      modifies this, file
      ensures file.contents == None && oauthState == None
    {
      var present := file.Exists();
      if present {
        file.Remove();
      }
      oauthState := None;
    }
  }
}
