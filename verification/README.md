# OAuth token lifecycle of the Cognito and warehouse demo clients, in Dafny

This project models the token handling of two small Flask OAuth 2.0 clients
and of one Amazon Cognito trigger, and proves properties of the model.

- **Cognito client** (`external_oauth/cognito/client_app/app.py`). It keeps one
  token set in `tokens.json` and stamps it with `obtained_at` when saving. It
  treats a token as expired 300 seconds before `obtained_at + expires_in`.
  `get_valid_token` refreshes an expired token at most once, with the
  refresh-token grant (section 6 of RFC 6749). On success it saves the new
  token; on failure it deletes the file. Login builds the scope string from an
  optional role. The callback checks the code and the CSRF `state`
  (section 10.12 of RFC 6749) before the code-for-token request
  (section 4.1.3 of RFC 6749).
- **Warehouse client** (`python_web_app/app.py`). It has the same login,
  callback and logout flow. It saves the token reply unchanged, with no
  timestamp. It never checks expiry: any non-empty stored record counts as
  logged in.
- **Pre-token-generation trigger**
  (`external_oauth/cognito/lambda/pre_token_generation.py`). It writes a fixed
  claim-override block into `event['response']` and returns the same event.

Modules, one per file:

| file | module | what it holds |
|---|---|---|
| `json.dfy` | `Wrappers`, `Json` | `Option`; JSON values as Python sees them (truth value, arithmetic, `dict.get`, nested lookup) |
| `text.dfy` | `Text` | `str.strip`, `str.lower`, `' '.join`, `str.split(' ')` and the split/join round trip |
| `token_store.dfy` | `TokenStore` | the token file as one optional slot, a class shared by both clients |
| `oauth_flow.dfy` | `OAuthFlow` | what both clients share: the authorization request, the callback guards, the code-for-token body |
| `cognito_client.dfy` | `CognitoClient` | expiry policy, stamping, refresh, `get_valid_token`, login, callback and logout of the Cognito client |
| `snowflake_web_app.dfy` | `SnowflakeWebApp` | login, callback, the "logged in" test, `execute_sql`'s guards and logout of the warehouse client |
| `pre_token_generation.dfy` | `PreTokenGeneration` | the trigger as a function on the event and as an in-place method |

How the environment is modelled:

- The clock is an `int` parameter. `now` is the time `is_token_expired` reads.
  `saveTime` is the later reading taken by `save_token` after a refresh.
- The token endpoint is an oracle. `reply: Option<TokenRecord>` is the JSON
  object of a 200 answer, or `None` for a non-200 answer or a raised exception.
  A 200 answer whose body is not a JSON object cannot be expressed (see "## Left out").
- Each operation returns the request body it sends (`Option<FormBody>`). So
  "no request was made" is `None`, and "exactly one refresh" is `Some`.
- The CSRF state is a parameter. It stands for what `secrets.token_urlsafe(32)` returns.
- The session is modelled by the only entry the flow reads, `session['oauth_state']`.
- Token records are JSON objects (`map<string, Json>`), so fields the model
  does not name are carried along unchanged.
- Python's truth values (`if refresh_token:`, `not token_data`) are modelled.
  So is arithmetic on `bool`. A non-numeric `expires_in` or `obtained_at` makes
  `is_token_expired` raise `TypeError`, which propagates out of
  `get_valid_token`.

Behaviour of the code that the model keeps as written:

- Neither client uses PKCE. The code sends no `code_verifier` and no `code_challenge`.
- The trigger's `aud` is the literal `cognite-client-id`. It is not read from configuration.
- `load_token` returns `None` for a missing file and for a file holding `null`; a file holding invalid JSON makes it raise.
  A file holding a falsy JSON value (`null`, `[]`, `0`, `""`, `false`, `{}`) is
  read without error, and every caller then treats it as "no token"
  (`external_oauth/cognito/client_app/app.py:84`, `python_web_app/app.py:40`, `:103`, `:112`).
- The callback does not consume the session's state. It stays in the session until logout or the next login.
- The state guard compares optional values. A callback without `state`, in a
  session where no login was started, passes the guard
  (`OAuthFlow.AbsentStatePassesWithoutLogin`).
- The role goes into the scope list after `strip()` and `lower()`, and nothing rejects an inner space.
  `urlencode` only encodes it for the URL, and the server decodes it back. A role with an inner space becomes two
  scopes when the server reads the scope string
  (`CognitoClient.RoleWithSpaceAddsScope`).

## Model

| member | source | states |
|---|---|---|
| `TokenStore.TokenFile.Load` | external_oauth/cognito/client_app/app.py:40-46 | `load_token` returns exactly what the file holds, and `None` when there is no file (same code at python_web_app/app.py:29-35) |
| `TokenStore.TokenFile.Save` | python_web_app/app.py:24-27 | the warehouse client's `save_token`: the file then holds exactly the record, with no timestamp added |
| `TokenStore.TokenFile.Exists` | python_web_app/app.py:164 | `os.path.exists` is true exactly when the slot is filled |
| `TokenStore.TokenFile.Remove` | python_web_app/app.py:165 | `os.remove` empties the slot; it is only called on an existing file |
| `CognitoClient.Stamp` | external_oauth/cognito/client_app/app.py:34-38 | the saved record has `obtained_at = now` whatever it arrived with, and every other field unchanged |
| `CognitoClient.CognitoApp.SaveToken` | external_oauth/cognito/client_app/app.py:34-38 | the file then holds exactly the stamped record; the result stands for the caller's dictionary, which `save_token` stamps in place and `refresh_access_token` returns (Python's `save_token` itself returns `None`) |
| `CognitoClient.IsTokenExpired` | external_oauth/cognito/client_app/app.py:48-57 | absent or empty token, or no `expires_in` or `obtained_at`: expired; otherwise expired iff `now - obtained_at >= expires_in - buffer` (the boundary is expired); non-numeric fields raise `TypeError` |
| `CognitoClient.ExpiryIsMonotone` | external_oauth/cognito/client_app/app.py:48-57 | a token expired at `now` is expired at every later time |
| `CognitoClient.SavedTokenExpiry` | external_oauth/cognito/client_app/app.py:34-57 | a record saved at `t` with lifetime `e` is usable exactly before `t + e - buffer`, whatever `obtained_at` the server sent |
| `CognitoClient.ExpiryExamples` | external_oauth/cognito/client_app/app.py:48-57 | with `expires_in = 3600` and the default buffer of 300: not expired 3000 s after `obtained_at`, expired 3400 s after |
| `Json.Truthy` | external_oauth/cognito/client_app/app.py:84-89 | Python's truth value as `if not token_data:` and `if refresh_token:` read it: false exactly for `None`, `False`, `0`, `""`, `[]` and `{}` |
| `Json.Numeric` | external_oauth/cognito/client_app/app.py:57 | the operand the subtraction sees: an integer for `int` and `bool` values (the integer itself for an `int`), and `TypeError` for every other JSON value |
| `CognitoClient.RefreshRequest` | external_oauth/cognito/client_app/app.py:61-66 | the refresh POST has exactly `grant_type=refresh_token`, `refresh_token`, `client_id` and `client_secret` |
| `CognitoClient.CognitoApp.RefreshAccessToken` | external_oauth/cognito/client_app/app.py:59-79 | sends that body; on a 200 reply saves and returns the stamped reply; on failure returns `None` and leaves the file as it was |
| `CognitoClient.UsableRefreshToken` | external_oauth/cognito/client_app/app.py:88-89 | a refresh token is used exactly when `token_data.get('refresh_token')` is present and truthy, and it is that value |
| `CognitoClient.ValidToken` | external_oauth/cognito/client_app/app.py:81-100 | the decision of `get_valid_token`: a refresh request is sent exactly when the stored token is present, expired at `now` and holds a usable refresh token; without a request the file is untouched; a refresh that gives `None` leaves no file |
| `CognitoClient.CognitoApp.GetValidToken` | external_oauth/cognito/client_app/app.py:81-100 | the request sent, the result and the new file contents are those of the state machine `ValidToken` on the old file contents |
| `CognitoClient.ValidTokenWithoutRefresh` | external_oauth/cognito/client_app/app.py:83-100 | no request is made in three cases. Empty store: `None`. Unexpired token: returned unchanged. Expired token without refresh token: `None`. The file is untouched in all three. A non-numeric `expires_in` or `obtained_at` makes it raise `TypeError`, with no request and the file untouched |
| `CognitoClient.ValidTokenWithRefresh` | external_oauth/cognito/client_app/app.py:88-96 | an expired token with a refresh token sends exactly one refresh request. On success the stamped reply is returned and stored, and its `refresh_token` is the reply's own. On failure the file is deleted and `None` is returned |
| `CognitoClient.ReturnedTokenIsUsable` | external_oauth/cognito/client_app/app.py:81-100 | a returned token is either the stored one, unexpired at `now`, with no request sent, or the saved reply to the one refresh request |
| `CognitoClient.ValidTokenKeepsStamped` | external_oauth/cognito/client_app/app.py:81-100 | the file afterwards is unchanged, deleted after a refresh, or the returned reply; a file of stamped records stays stamped |
| `CognitoClient.RefreshedWithoutRefreshTokenEndsSession` | external_oauth/cognito/client_app/app.py:88-96 | if the refresh reply has no `refresh_token`, the next expiry returns `None` without a request |
| `CognitoClient.LoginScopes` | external_oauth/cognito/client_app/app.py:130-141 | `openid profile email` plus `session/role:<stripped role, lower-cased>`, or `session/role-any` when the stripped role is empty |
| `CognitoClient.ScopeStringLists` | external_oauth/cognito/client_app/app.py:136-146 | the space-joined `scope`, split on spaces (section 3.3 of RFC 6749), is exactly that list when the role has no space |
| `CognitoClient.RoleWithSpaceAddsScope` | external_oauth/cognito/client_app/app.py:130-146 | a role `first second` is read back as five scopes, the last being the lower-cased `second` |
| `CognitoClient.LoginRequest` | external_oauth/cognito/client_app/app.py:142-148 | `response_type=code`, the client id, the fixed redirect URI, the composed scope and the given state |
| `CognitoClient.LoginAndCallbackAgree` | external_oauth/cognito/client_app/app.py:145-175 | the two separately written redirect-URI literals (login and callback) agree, so the token request carries the authorization request's `redirect_uri`; and a callback returning the stored state with a code passes both guards |
| `CognitoClient.CognitoApp.Login` | external_oauth/cognito/client_app/app.py:123-151 | a GET changes nothing and sends nothing; a POST stores the state in the session and returns `LoginRequest` for the submitted role |
| `CognitoClient.CognitoApp.Callback` | external_oauth/cognito/client_app/app.py:153-189 | missing code, then state mismatch: no request and the file unchanged; otherwise the code-for-token request is sent and the stamped 200 reply saved; the session state is kept |
| `CognitoClient.CognitoApp.Logout` | external_oauth/cognito/client_app/app.py:281-288 | afterwards no token file exists and the session holds no state, also when there was no file |
| `OAuthFlow.CheckCallback` | external_oauth/cognito/client_app/app.py:156-165 | a missing or empty code is refused first; otherwise a state different from the session's is refused; only then does the code go on |
| `OAuthFlow.MissingCodeWins` | python_web_app/app.py:67-69 | a missing or empty code is refused whatever the two states are |
| `OAuthFlow.ForeignStateRefused` | python_web_app/app.py:71-73 | for every code and every pair of distinct states (or an absent returned state), the callback is refused |
| `OAuthFlow.AbsentStatePassesWithoutLogin` | python_web_app/app.py:71-73 | with no state in the session, a callback that carries no state passes the state guard |
| `OAuthFlow.AuthorizationCodeRequest` | python_web_app/app.py:75-81 | the token request has exactly `grant_type=authorization_code`, `code`, `client_id`, `client_secret` and `redirect_uri` |
| `SnowflakeWebApp.LoginRequest` | python_web_app/app.py:50-56 | `response_type=code`, scope `refresh_token`, redirect URI `http://127.0.0.1:5000/callback`, and the given state |
| `SnowflakeWebApp.LoginAndCallbackAgree` | python_web_app/app.py:50-81 | the two separately written redirect-URI literals (login and callback) agree, so the token request repeats the authorization request's `redirect_uri`; and the stored state lets a callback with a code through |
| `SnowflakeWebApp.Authenticated` | python_web_app/app.py:39-42 | logged in exactly when `load_token` gave a record whose Python truth value is true |
| `SnowflakeWebApp.WebApp.IsAuthenticated` | python_web_app/app.py:39-42 | logged in iff the stored record exists and is non-empty; no expiry is checked (the same test is at lines 102-104 and 111-113) |
| `SnowflakeWebApp.WebApp.Login` | python_web_app/app.py:44-59 | stores the state in the session and returns `LoginRequest` with that state |
| `SnowflakeWebApp.WebApp.Callback` | python_web_app/app.py:61-97 | the same guards in the same order; a rejected callback sends nothing and saves nothing; the 200 reply is saved exactly as it arrived, so after a reported success the user is logged in exactly when the reply was a non-empty object (`{}` leaves them logged out) |
| `SnowflakeWebApp.WebApp.ExecuteSql` | python_web_app/app.py:108-139 | not logged in: sent back; a query that is blank after `strip()` is refused before any connection; a logged-in user with a non-blank query always reaches the warehouse driver, which gets the stored `access_token` and the stripped query and warehouse |
| `SnowflakeWebApp.WebApp.Logout` | python_web_app/app.py:161-168 | afterwards no token file exists and the session holds no state, also when there was no file |
| `Text.TrimStart` | external_oauth/cognito/client_app/app.py:130 | the leading part of `strip()`: a suffix, everything removed is whitespace, and it does not start with whitespace |
| `Text.TrimEnd` | external_oauth/cognito/client_app/app.py:130 | the trailing part of `strip()`: a prefix, everything removed is whitespace, and it does not end with whitespace |
| `Text.Strip` | python_web_app/app.py:115-116 | `strip()` returns a slice of its input with only whitespace removed on either side, and the result neither starts nor ends with whitespace (also `external_oauth/cognito/client_app/app.py:130`) |
| `Text.StripEmptyIffBlank` | python_web_app/app.py:115-120 | `strip()` gives the empty string exactly when the input is whitespace only |
| `Text.Lower` | external_oauth/cognito/client_app/app.py:138 | `lower()` keeps the length and lower-cases each ASCII letter |
| `Text.Join` | external_oauth/cognito/client_app/app.py:146 | `' '.join` of no parts is empty; otherwise the result starts with the first part and ends with the last |
| `Text.SplitJoin` | external_oauth/cognito/client_app/app.py:146 | space-joining a list of space-free words and splitting on spaces gives back the list |
| `PreTokenGeneration.OverrideDetails` | external_oauth/cognito/lambda/pre_token_generation.py:17-44 | exactly the keys `idTokenGeneration` and `accessTokenGeneration`. ID token: exactly `claimsToAddOrOverride` (`scp=session:role-any`) and an empty `claimsToSuppress`. Access token: exactly `claimsToAddOrOverride` (`scp` and `aud=cognite-client-id`) and empty `claimsToSuppress`, `scopesToAdd` and `scopesToSuppress` |
| `PreTokenGeneration.HandledEvent` | external_oauth/cognito/lambda/pre_token_generation.py:28-53 | `response` always exists afterwards. When it was missing, `None` or an object, it holds the override block in place of any earlier one, with its other entries kept. Otherwise the event is unchanged. All other event fields are unchanged |
| `PreTokenGeneration.HandlerIsIdempotent` | external_oauth/cognito/lambda/pre_token_generation.py:29-44 | applying the trigger twice gives the same event as applying it once |
| `PreTokenGeneration.ClaimsAfterHandler` | external_oauth/cognito/lambda/pre_token_generation.py:17-44 | after the trigger, the access token's claims hold `scp` and `aud`, and the ID token's claims hold `scp` and no `aud` |
| `PreTokenGeneration.LambdaHandler` | external_oauth/cognito/lambda/pre_token_generation.py:7-53 | updates the event in place to `HandledEvent` of its old contents and returns the same object |

## Left out

- Flask routing, `render_template`, `flash`, `redirect` and `url_for` are left out, as are `.env` loading and environment reads. The client id and secret are a `ClientConfig` value. A variable missing from the environment (`None`) is not modelled.
- `urlencode` and the endpoint URLs are left out. Login returns the authorization parameters, not the URL string.
- The HTTP calls (`requests.post`) are left out. Their outcome is the `reply` oracle. The error text shown to the user is not modelled.
- `secrets.token_urlsafe` is left out. The state is a parameter.
- JSON serialisation and the file system are left out. The file is one optional JSON object. Write failures and JSON floats are not modelled.
- A token file holding invalid JSON is not represented. `load_token` raises on it in both clients.
- A token file holding a JSON value that is not an object is not represented. The code does not raise on it at load. A falsy one reads as "no token" everywhere. A truthy list or string counts as logged in for the warehouse client's `index`, `dashboard` and `execute_sql` guards; `execute_sql` then fails at `token_data.get`, inside its `try`. The Cognito client's `get_valid_token` raises on such a file, at the first `.get` (line 53 or 88 of `external_oauth/cognito/client_app/app.py`), or at `in` on a number.
- A 200 token reply that is not a JSON object is not represented. The `reply` oracle only carries objects. The warehouse client's `save_token` would write such a reply to the file as it arrived, and the Cognito client's `save_token` would raise on the item assignment.
- `str.lower` is modelled for ASCII letters only. Unicode case mapping is not. `strip()` uses Python's full whitespace set.
- The Snowflake connector calls in `execute_sql` are left out: connect, `USE WAREHOUSE`, the query and the fetch. So is its error handling. The model stops at the connection parameters.
- The Cognito client's `index`, `dashboard` and `execute_sql` routes are left out (their code is not part of this model). They call `get_valid_token`, which is modelled.
- `decode_jwt_claims` is left out. It is a foreign JWT library call used only for display.
- Flashed messages are left out. They are session entries too, and `session.clear()` removes them.
- The trigger's logging and its unused `context` argument are left out.
- `external_oauth/gas/get_token.js` is not part of this model. It is a thin wrapper over a foreign OAuth library.
- Concurrent requests racing on the token file are left out. The model runs one request at a time.
