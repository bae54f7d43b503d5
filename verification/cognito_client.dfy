/**
 * The Flask client that signs users in through an Amazon Cognito user pool
 * (`external_oauth/cognito/client_app/app.py`): it stamps every token set it
 * saves with the time of saving, treats a token as expired 300 seconds
 * before its declared lifetime ends, and refreshes an expired token once,
 * with the refresh-token grant of section 6 of RFC 6749, before handing it out.
 *
 * The clock is a parameter (`now`, `saveTime`), and the token endpoint is an
 * oracle: `reply` is the JSON object of a 200 answer, or `None` when the
 * answer was not 200 or the call raised.
 */
module CognitoClient {
  import opened Wrappers
  import opened Json
  import opened Text
  import opened TokenStore
  import opened OAuthFlow

  /** The default `buffer_seconds` of `is_token_expired`. */
  const DefaultBufferSeconds := 300

  /** The redirect URI written into the authorization request by `login`. */
  const LoginRedirectUri := "http://localhost:5000/callback"

  /** The redirect URI written, as a literal of its own, into the token request by `callback`. */
  const CallbackRedirectUri := "http://localhost:5000/callback"

  /** The scopes every login asks for before the role scope. */
  const BaseScopes: seq<string> := ["openid", "profile", "email"]

  /** The result of a Python call that may raise `TypeError` (arithmetic on a non-number). */
  datatype Checked<T> = Returns(value: T) | RaisesTypeError

  // ---------------------------------------------------------------------------
  // Token store and expiry policy
  // ---------------------------------------------------------------------------

  /**
   * What `save_token` writes: the record with `obtained_at` set to the time of
   * saving, whatever `obtained_at` it arrived with, and every other field kept.
   */
  function Stamp(record: TokenRecord, now: int): (r: TokenRecord)
    ensures "obtained_at" in r && r["obtained_at"] == JInt(now)
    ensures r - {"obtained_at"} == record - {"obtained_at"}
    ensures r.Keys == record.Keys + {"obtained_at"}
  {
    record["obtained_at" := JInt(now)]
  }

  /** Every record this client saves carries an integer `obtained_at`. */
  predicate Stamped(stored: Option<TokenRecord>) {
    stored.Some? ==> "obtained_at" in stored.value && stored.value["obtained_at"].JInt?
  }

  /** The token holds both fields the expiry arithmetic reads. */
  predicate HasTimes(token: Option<TokenRecord>) {
    token.Some? && "expires_in" in token.value && "obtained_at" in token.value
  }

  /**
   * `is_token_expired`: an absent or empty token, or one without `expires_in`
   * or `obtained_at`, is expired; otherwise the token is expired once the time
   * elapsed since `obtained_at` reaches `expires_in - bufferSeconds` (the
   * boundary counts as expired). A non-numeric `expires_in` or `obtained_at`
   * makes the subtraction raise.
   */
  function IsTokenExpired(token: Option<TokenRecord>, now: int, bufferSeconds: int): (r: Checked<bool>)
    ensures !HasTimes(token) ==> r == Returns(true)
    ensures HasTimes(token) ==>
      (r == RaisesTypeError <==>
         Numeric(token.value["expires_in"]).None? || Numeric(token.value["obtained_at"]).None?)
    ensures HasTimes(token) && r.Returns? ==>
      r.value == (now - Numeric(token.value["obtained_at"]).value
                  >= Numeric(token.value["expires_in"]).value - bufferSeconds)
  {
    if token.None? || token.value == map[] then Returns(true)
    else if "expires_in" !in token.value || "obtained_at" !in token.value then Returns(true)
    else
      var expiresIn := Numeric(token.value["expires_in"]);
      var obtainedAt := Numeric(token.value["obtained_at"]);
      if obtainedAt.None? || expiresIn.None? then RaisesTypeError
      else Returns(now - obtainedAt.value >= expiresIn.value - bufferSeconds)
  }

  /** Once expired, a token stays expired at every later time. */
  lemma ExpiryIsMonotone(token: Option<TokenRecord>, now: int, later: int, bufferSeconds: int)
    requires now <= later
    requires IsTokenExpired(token, now, bufferSeconds) == Returns(true)
    ensures IsTokenExpired(token, later, bufferSeconds) == Returns(true)
  {
  }

  /**
   * A record saved at `savedAt` with an integer lifetime `expires_in` counts
   * as usable exactly before `savedAt + expires_in - bufferSeconds`, whatever
   * `obtained_at` the server sent.
   */
  lemma SavedTokenExpiry(record: TokenRecord, savedAt: int, now: int, bufferSeconds: int)
    requires "expires_in" in record && record["expires_in"].JInt?
    ensures IsTokenExpired(Some(Stamp(record, savedAt)), now, bufferSeconds)
         == Returns(now >= savedAt + record["expires_in"].i - bufferSeconds)
  {
  }

  /** One hour of lifetime: usable 3000 s after saving, expired 3400 s after. */
  lemma ExpiryExamples(now: int)
    ensures IsTokenExpired(Some(map["expires_in" := JInt(3600), "obtained_at" := JInt(now - 3000)]),
                           now, DefaultBufferSeconds) == Returns(false)
    ensures IsTokenExpired(Some(map["expires_in" := JInt(3600), "obtained_at" := JInt(now - 3400)]),
                           now, DefaultBufferSeconds) == Returns(true)
  {
  }

  // ---------------------------------------------------------------------------
  // Refresh grant and the valid-token accessor
  // ---------------------------------------------------------------------------

  /** The body of `refresh_access_token`'s POST: the refresh-token grant. */
  function RefreshRequest(config: ClientConfig, refreshToken: Json): (body: FormBody)
    ensures body.Keys == {"grant_type", "refresh_token", "client_id", "client_secret"}
    ensures body["grant_type"] == JStr("refresh_token") && body["refresh_token"] == refreshToken
    ensures body["client_id"] == JStr(config.clientId)
    ensures body["client_secret"] == JStr(config.clientSecret)
  {
    map[
      "grant_type" := JStr("refresh_token"),
      "refresh_token" := refreshToken,
      "client_id" := JStr(config.clientId),
      "client_secret" := JStr(config.clientSecret)
    ]
  }

  /**
   * One call of `get_valid_token`: the refresh request it sent, if any, what it
   * returned, and what the token file holds afterwards.
   */
  datatype Access = Access(
    refresh: Option<FormBody>,
    result: Checked<Option<TokenRecord>>,
    stored: Option<TokenRecord>)

  /** The refresh token `get_valid_token` would use: `token_data.get('refresh_token')` when truthy. */
  function UsableRefreshToken(record: TokenRecord): (r: Option<Json>)
    ensures r.Some? <==> Get(record, "refresh_token").Some? && Truthy(Get(record, "refresh_token").value)
    ensures r.Some? ==> r == Get(record, "refresh_token")
  {
    if "refresh_token" in record && Truthy(record["refresh_token"]) then Some(record["refresh_token"])
    else None
  }

  /**
   * `get_valid_token` as a function of the stored token: load; an absent or
   * empty token gives `None`; a token that is not expired is returned as it
   * is; an expired one without a refresh token gives `None`; otherwise one
   * refresh, whose reply is saved (stamped at `saveTime`) and returned, or
   * whose failure deletes the file and gives `None`.
   */
  function ValidToken(
    config: ClientConfig, stored: Option<TokenRecord>, now: int,
    reply: Option<TokenRecord>, saveTime: int): (a: Access)
    ensures a.refresh.None? ==> a.stored == stored
    ensures a.refresh.Some? <==>
      && stored.Some? && IsTokenExpired(stored, now, DefaultBufferSeconds) == Returns(true)
      && UsableRefreshToken(stored.value).Some?
    ensures a.result == Returns(None) && a.refresh.Some? ==> a.stored == None
  {
    if stored.None? || stored.value == map[] then Access(None, Returns(None), stored)
    else
      match IsTokenExpired(stored, now, DefaultBufferSeconds)
      case RaisesTypeError => Access(None, RaisesTypeError, stored)
      case Returns(false) => Access(None, Returns(stored), stored)
      case Returns(true) =>
        match UsableRefreshToken(stored.value)
        case None => Access(None, Returns(None), stored)
        case Some(refreshToken) =>
          var request := RefreshRequest(config, refreshToken);
          if reply.Some? then
            var saved := Stamp(reply.value, saveTime);
            Access(Some(request), Returns(Some(saved)), Some(saved))
          else Access(Some(request), Returns(None), None)
  }

  /**
   * The ways `get_valid_token` answers without calling the token endpoint:
   * three answers, and the `TypeError` of the expiry check, which propagates.
   */
  lemma ValidTokenWithoutRefresh(
    config: ClientConfig, stored: Option<TokenRecord>, now: int,
    reply: Option<TokenRecord>, saveTime: int)
    ensures stored.None? || stored == Some(map[]) ==>
      ValidToken(config, stored, now, reply, saveTime) == Access(None, Returns(None), stored)
    ensures IsTokenExpired(stored, now, DefaultBufferSeconds) == Returns(false) ==>
      ValidToken(config, stored, now, reply, saveTime) == Access(None, Returns(stored), stored)
    ensures (IsTokenExpired(stored, now, DefaultBufferSeconds) == Returns(true) && stored.Some?
             && UsableRefreshToken(stored.value).None?) ==>
      ValidToken(config, stored, now, reply, saveTime) == Access(None, Returns(None), stored)
    ensures (stored.Some? && stored.value != map[]
             && IsTokenExpired(stored, now, DefaultBufferSeconds) == RaisesTypeError) ==>
      ValidToken(config, stored, now, reply, saveTime) == Access(None, RaisesTypeError, stored)
  {
  }

  /**
   * An expired token with a refresh token leads to exactly one refresh
   * request. On success the stamped reply is both returned and stored, and
   * its `refresh_token` field is the reply's own (the old one is not carried
   * over); on failure the file is deleted and nothing is returned.
   */
  lemma ValidTokenWithRefresh(
    config: ClientConfig, stored: Option<TokenRecord>, now: int,
    reply: Option<TokenRecord>, saveTime: int)
    requires stored.Some? && IsTokenExpired(stored, now, DefaultBufferSeconds) == Returns(true)
    requires UsableRefreshToken(stored.value).Some?
    ensures var a := ValidToken(config, stored, now, reply, saveTime);
      && a.refresh == Some(RefreshRequest(config, stored.value["refresh_token"]))
      && (reply.Some? ==>
            && a.result == Returns(Some(Stamp(reply.value, saveTime)))
            && a.stored == Some(Stamp(reply.value, saveTime))
            && ("refresh_token" in a.stored.value <==> "refresh_token" in reply.value))
      && (reply.None? ==> a.result == Returns(None) && a.stored == None)
  {
  }

  /**
   * What a caller receives is either the stored token, unexpired at `now`,
   * with no request sent, or the freshly saved reply to the one refresh
   * request, which is then also what the file holds.
   */
  lemma ReturnedTokenIsUsable(
    config: ClientConfig, stored: Option<TokenRecord>, now: int,
    reply: Option<TokenRecord>, saveTime: int, token: TokenRecord)
    requires ValidToken(config, stored, now, reply, saveTime).result == Returns(Some(token))
    ensures var a := ValidToken(config, stored, now, reply, saveTime);
      || (a.refresh.None? && stored == Some(token) && a.stored == stored
          && IsTokenExpired(stored, now, DefaultBufferSeconds) == Returns(false))
      || (a.refresh.Some? && reply.Some? && token == Stamp(reply.value, saveTime) && a.stored == Some(token))
  {
  }

  /**
   * The file after `get_valid_token` is unchanged, emptied after a failed
   * refresh, or the saved reply; a file of stamped records stays so.
   */
  lemma ValidTokenKeepsStamped(
    config: ClientConfig, stored: Option<TokenRecord>, now: int,
    reply: Option<TokenRecord>, saveTime: int)
    requires Stamped(stored)
    ensures var a := ValidToken(config, stored, now, reply, saveTime);
      && Stamped(a.stored)
      && (a.stored == stored || (a.refresh.Some? && (a.stored.None? || a.result == Returns(a.stored))))
  {
  }

  /**
   * The refresh grant's reply need not hold a new refresh token (section 6 of
   * RFC 6749 leaves that to the server). When it does not, the next time the
   * saved token expires `get_valid_token` gives up without a request: the
   * user has to log in again.
   */
  lemma RefreshedWithoutRefreshTokenEndsSession(
    config: ClientConfig, stored: Option<TokenRecord>, now: int,
    reply: Option<TokenRecord>, saveTime: int,
    later: int, reply2: Option<TokenRecord>, saveTime2: int)
    requires ValidToken(config, stored, now, reply, saveTime).refresh.Some?
    requires reply.Some? && "refresh_token" !in reply.value
    requires IsTokenExpired(Some(Stamp(reply.value, saveTime)), later, DefaultBufferSeconds) == Returns(true)
    ensures var a := ValidToken(config, stored, now, reply, saveTime);
      ValidToken(config, a.stored, later, reply2, saveTime2) == Access(None, Returns(None), a.stored)
  {
  }

  // ---------------------------------------------------------------------------
  // Login request
  // ---------------------------------------------------------------------------

  /** The role scope: `session/role:<role lower-cased>`, or `session/role-any` for no role. */
  function RoleScope(role: string): string {
    if role != "" then "session/role:" + Lower(role) else "session/role-any"
  }

  /** The `scopes` list built from the submitted `role` form field. */
  function LoginScopes(roleField: string): (scopes: seq<string>)
    ensures |scopes| == 4 && scopes[..3] == BaseScopes
    ensures Strip(roleField) != "" ==> scopes[3] == "session/role:" + Lower(Strip(roleField))
    ensures Strip(roleField) == "" ==> scopes[3] == "session/role-any"
  {
    BaseScopes + [RoleScope(Strip(roleField))]
  }

  /** The `scope` parameter: the scopes joined by single spaces. */
  function ScopeString(roleField: string): string {
    Join(LoginScopes(roleField))
  }

  /**
   * Read as section 3.3 of RFC 6749 prescribes, the scope parameter lists
   * exactly the four scopes, as long as the role holds no space.
   */
  lemma ScopeStringLists(roleField: string)
    requires ' ' !in Strip(roleField)
    ensures Split(ScopeString(roleField)) == LoginScopes(roleField)
  {
    var role := RoleScope(Strip(roleField));
    RoleScopeHasNoSpace(Strip(roleField));
    BaseScopesHaveNoSpace();
    NoSpaceInAppend(BaseScopes, role);
    SplitJoin(BaseScopes + [role]);
  }

  lemma BaseScopesHaveNoSpace()
    ensures NoSpaceIn(BaseScopes)
  {
  }

  lemma RoleScopeHasNoSpace(role: string)
    requires ' ' !in role
    ensures ' ' !in RoleScope(role)
  {
  }

  /**
   * A role with an inner space is sent as it is: read on spaces, the scope
   * parameter then asks for the role's second word as a scope of its own.
   */
  lemma RoleWithSpaceAddsScope(first: string, second: string)
    requires first != [] && second != [] && ' ' !in first && ' ' !in second
    requires !IsSpace(first[0]) && !IsSpace(second[|second| - 1])
    ensures Split(ScopeString(first + " " + second))
         == BaseScopes + ["session/role:" + Lower(first), Lower(second)]
  {
    var a, b := "session/role:" + Lower(first), Lower(second);
    RoleOfTwoWords(first, second);
    RoleScopeHasNoSpace(first);
    LowerKeepsSpaces(second);
    BaseScopesHaveNoSpace();
    SplitJoinLastTwo(BaseScopes, a, b);
  }

  /** The scope list for a role of two words carries them as one entry, joined by a space. */
  lemma RoleOfTwoWords(first: string, second: string)
    requires first != [] && second != []
    requires !IsSpace(first[0]) && !IsSpace(second[|second| - 1])
    ensures LoginScopes(first + " " + second) == BaseScopes + [("session/role:" + Lower(first)) + " " + Lower(second)]
  {
    StripUnchanged(first + " " + second);
    LowerAroundSpace(first, second);
    RoleScopeOfLowered(Lower(first), Lower(second));
  }

  lemma RoleScopeOfLowered(l1: string, l2: string)
    ensures "session/role:" + (l1 + " " + l2) == ("session/role:" + l1) + " " + l2
  {
  }

  /** The authorization request `login` redirects to. */
  function LoginRequest(config: ClientConfig, roleField: string, state: string): (request: AuthorizationRequest)
    ensures request.responseType == "code" && request.clientId == config.clientId
    ensures request.state == state && request.redirectUri == LoginRedirectUri
    ensures request.scope == ScopeString(roleField)
  {
    AuthorizationRequest("code", config.clientId, LoginRedirectUri, ScopeString(roleField), state)
  }

  /**
   * Section 4.1.3 of RFC 6749: the token request repeats the `redirect_uri` of
   * the authorization request, and the state sent is the one the callback
   * compares against.
   */
  lemma LoginAndCallbackAgree(config: ClientConfig, roleField: string, state: string, code: string)
    requires code != ""
    ensures AuthorizationCodeRequest(config, code, CallbackRedirectUri)["redirect_uri"]
         == JStr(LoginRequest(config, roleField, state).redirectUri)
    ensures CheckCallback(Some(code), Some(LoginRequest(config, roleField, state).state), Some(state))
         == Proceed(code)
  {
  }

  // ---------------------------------------------------------------------------
  // The application
  // ---------------------------------------------------------------------------

  class CognitoApp {
    const config: ClientConfig
    /** `tokens.json`. */
    const file: TokenFile
    /** `session['oauth_state']`, the only session entry the flow reads. */
    var oauthState: Option<string>

    constructor (config: ClientConfig, file: TokenFile)
      ensures this.config == config && this.file == file && oauthState == None
    {
      this.config := config;
      this.file := file;
      oauthState := None;
    }

    /**
     * `save_token`: stamps the record and overwrites the file with it. Python's
     * `save_token` returns `None`; `saved` stands for the caller's dictionary,
     * which the stamp updates in place and `refresh_access_token` then returns.
     */
    method SaveToken(record: TokenRecord, now: int) returns (saved: TokenRecord)
      modifies file
      ensures saved == Stamp(record, now)
      ensures file.contents == Some(saved)
    {
      saved := Stamp(record, now);
      file.Save(saved);
    }

    /** `refresh_access_token`: one POST of the refresh grant; the reply is saved on success. */
    method RefreshAccessToken(refreshToken: Json, reply: Option<TokenRecord>, saveTime: int)
      returns (request: FormBody, r: Option<TokenRecord>)
      modifies file
      ensures request == RefreshRequest(config, refreshToken)
      ensures reply.Some? ==> r == Some(Stamp(reply.value, saveTime)) && file.contents == r
      ensures reply.None? ==> r.None? && file.contents == old(file.contents)
    {
      request := RefreshRequest(config, refreshToken);
      if reply.Some? {
        var saved := SaveToken(reply.value, saveTime);
        r := Some(saved);
      } else {
        r := None;
      }
    }

    /**
     * `get_valid_token`: reads the file, checks the expiry at `now` and, for an
     * expired token with a refresh token, refreshes once.
     */
    method GetValidToken(now: int, reply: Option<TokenRecord>, saveTime: int)
      returns (refresh: Option<FormBody>, r: Checked<Option<TokenRecord>>)
      modifies file
      ensures var a := ValidToken(config, old(file.contents), now, reply, saveTime);
        refresh == a.refresh && r == a.result && file.contents == a.stored
    {
      refresh := None;
      var token := file.Load();
      if token.None? || token.value == map[] {
        return refresh, Returns(None);
      }
      var expired := IsTokenExpired(token, now, DefaultBufferSeconds);
      if expired.RaisesTypeError? {
        return refresh, RaisesTypeError;
      }
      if expired.value {
        var refreshToken := Get(token.value, "refresh_token");
        if refreshToken.Some? && Truthy(refreshToken.value) {
          var request, newToken := RefreshAccessToken(refreshToken.value, reply, saveTime);
          refresh := Some(request);
          if newToken.Some? {
            return refresh, Returns(newToken);
          } else {
            var present := file.Exists();
            if present {
              file.Remove();
            }
            return refresh, Returns(None);
          }
        } else {
          return refresh, Returns(None);
        }
      }
      r := Returns(token);
    }

    /**
     * `login`: a GET only shows the form; a POST remembers `state` in the
     * session and builds the authorization request from the `role` field.
     */
    method Login(isPost: bool, roleField: Option<string>, state: string)
      returns (request: Option<AuthorizationRequest>)
      modifies this
      ensures isPost ==> request == Some(LoginRequest(config, roleField.GetOr(""), state))
                         && oauthState == Some(state)
      ensures !isPost ==> request.None? && oauthState == old(oauthState)
    {
      if !isPost {
        return None;
      }
      var role := Strip(roleField.GetOr(""));
      oauthState := Some(state);
      var scopes := BaseScopes;
      if role != "" {
        scopes := scopes + ["session/role:" + Lower(role)];
      } else {
        scopes := scopes + ["session/role-any"];
      }
      request := Some(AuthorizationRequest("code", config.clientId, LoginRedirectUri, Join(scopes), state));
    }

    /**
     * `callback`: the two guards, then the code-for-token request; a 200 reply
     * is saved (stamped at `now`). The session's state is left in place.
     */
    method Callback(code: Option<string>, state: Option<string>, reply: Option<TokenRecord>, now: int)
      returns (request: Option<FormBody>, outcome: CallbackOutcome)
      modifies file
      ensures oauthState == old(oauthState)
      ensures var g := CheckCallback(code, state, oauthState);
        && (g == MissingCode ==> outcome == CodeMissing && request.None? && file.contents == old(file.contents))
        && (g == StateMismatch ==> outcome == StateRejected && request.None? && file.contents == old(file.contents))
        && (g.Proceed? ==> request == Some(AuthorizationCodeRequest(config, g.code, CallbackRedirectUri)))
        && (g.Proceed? && reply.None? ==> outcome == ExchangeFailed && file.contents == old(file.contents))
        && (g.Proceed? && reply.Some? ==> outcome == LoggedIn && file.contents == Some(Stamp(reply.value, now)))
    {
      if code.None? || code.value == "" {
        return None, CodeMissing;
      }
      if state != oauthState {
        return None, StateRejected;
      }
      var body := AuthorizationCodeRequest(config, code.value, CallbackRedirectUri);
      request := Some(body);
      if reply.Some? {
        var _ := SaveToken(reply.value, now);
        outcome := LoggedIn;
      } else {
        outcome := ExchangeFailed;
      }
    }

    /** `logout`: deletes the token file if there is one and clears the session. */
    method Logout()
      modifies this, file
      ensures file.contents == None && oauthState == None
    {
      var present := file.Exists();
      if present {
        file.Remove();
      }
      oauthState := None;
    }
  }
}
