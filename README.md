# WeCom application client: token cache and request bodies

This project models the core of `WxWorkApp`, a Go client for the WeCom (WeChat Work) application API, and proves properties of the model in Dafny.

The client caches an access token and the time at which it expires. Every endpoint call first checks the cache. When the token is absent or expired, it fetches a new one from the token endpoint. The token travels as the `access_token` query parameter. Every call then inspects the response envelope: `errcode` 0 is success, and 42001 means the platform considers the token expired, so the client clears it and the next call refreshes. The client also builds the JSON bodies of its application messages, group messages and group-chat calls.

Modules:

- `Protocol` (protocol.dfy): endpoints, requests on the wire (`Call`), the outcome of one HTTP exchange (`HttpOutcome`), the error stages, the decoded envelopes, the status and decode checks (`Receive`) and the query string (`Query`).
- `TokenCache` (token_cache.dfy): the token state as a value, and the functions that specify the refresh (`Refresh`), the check-then-refresh prologue (`EnsureToken`), `fireRequest`/`uploadFile` (`Fire`), the envelope check (`Classify`) and one whole wrapper call (`Dispatch`).
- `WxWorkApp` (wxwork_app.dfy): the class `App`. Its fields `accessToken` and `expiredAt` are updated in place. Each method is proved to produce exactly the state, results and requests that the matching `TokenCache` function computes from the old state.
- `Sessions` (sessions.dfy): properties of sequences of calls. They cover idempotence while the token is valid, the single refresh of a fresh client, refresh after invalidation, and retry after a failed refresh.
- `Messages` (messages.dfy): the message builders, as functions returning a key/value object, with `strings.Join` of recipient lists and its inverse.
- `ParseInt` (parse_int.dfy): `strconv.ParseInt(s, 10, 64)` as `UploadMedia` uses it for `created_at`.
- `Wrappers`, `JsonValue`: `Option`/`Result` and the JSON value type.

The clock is a parameter: `now` is an integer number of seconds. The network is a parameter too. Each operation receives the outcome of the token request it would make (`fetch`) and of its endpoint request (`reply`). Each outcome is one of three things:

- the request could not be built;
- the transport failed;
- a response arrived with a status and, if the body was JSON, the decoded body.

Each operation returns the requests it actually sent (`calls`). This makes "no endpoint request after a failed refresh" and "exactly one token request" statable.

Two boundaries of the code that the model keeps exactly:

- Expiry boundary: at exactly `expiredAt` the token is still valid, because the check is `time.Now().After(expiredAt)` (wechat/wxwork_app.go:189).
- HTTP status: only status 200 is accepted, so any other status, including other 2xx codes, is a transport error (wechat/wxwork_app.go:764, 899, 955).

## Model

| member | source | states |
|---|---|---|
| `Protocol.Receive` | wechat/wxwork_app.go:954-966 | An exchange succeeds exactly when the status is 200 and the body decodes. A non-200 body is never inspected. Each failure stage gives its own error. |
| `Protocol.Query` | wechat/wxwork_app.go:927-933 | The query holds `access_token` with the token first, plus every caller parameter under its own key, and no other key. |
| `TokenCache.Refresh` | wechat/wxwork_app.go:750-784 | Sends one token request unless the request could not be built. Succeeds exactly when the answer is 200, decodes and has `errcode` 0. Success sets the token and `expiredAt = now + expires_in`. Every failure leaves both fields unchanged and reports its stage. A non-empty new token stays valid through `now + expires_in`. |
| `TokenCache.EnsureToken` | wechat/wxwork_app.go:913-925 | Refreshes if and only if the token is empty or expired. Otherwise the state is unchanged and nothing is sent. A failed refresh is wrapped as a refresh error and changes nothing. |
| `TokenCache.Fire` | wechat/wxwork_app.go:913-967 | Runs the prologue. After a failed refresh no endpoint request is made. Otherwise the endpoint request carries the token the prologue left, and the decoded envelope or the transport error is returned. The token state is the prologue's. |
| `TokenCache.Classify` | wechat/wxwork_app.go:548-556 | Code 0 gives no error and leaves the state alone. Any other code is an API error with that code and message. 42001 also clears the token but keeps `expiredAt`, after which a refresh is needed at every time. |
| `TokenCache.Dispatch` | wechat/wxwork_app.go:543-557 | For a whole wrapper call: it refreshes if and only if the token is empty or expired. A valid token means exactly the endpoint request is sent, carrying the cached token. A failed refresh means state unchanged and no endpoint request. Transport failure leaves the prologue's state. For codes 0 / 42001 / other, the state is the prologue's, the prologue's with an empty token, or the prologue's. |
| `WxWorkApp.App.constructor` | wechat/wxwork_app.go:197-202 | A new client stores its credentials and starts with an empty token and Go's zero expiry time. |
| `WxWorkApp.App.IsAccessTokenExpired` | wechat/wxwork_app.go:188-190 | Expired only when `now` is strictly after `expiredAt`. At exactly `expiredAt` the token is not expired. |
| `WxWorkApp.App.RefreshAccessToken` | wechat/wxwork_app.go:750-784 | The fields become `TokenCache.Refresh` of the old state. On any error they keep their old values. |
| `WxWorkApp.App.EnsureAccessToken` | wechat/wxwork_app.go:914-925 | The fields, error and requests are those of `TokenCache.EnsureToken`. Without a refresh nothing changes and nothing is sent. |
| `WxWorkApp.App.Perform` | wechat/wxwork_app.go:927-966 | The fields, decoded envelope, error and requests are those of `TokenCache.Fire`. |
| `WxWorkApp.App.FireRequest` | wechat/wxwork_app.go:913-967 | This is `TokenCache.Fire` with a JSON body, or no body when the caller passes nil. |
| `WxWorkApp.App.UploadFile` | wechat/wxwork_app.go:843-911 | This is `TokenCache.Fire` with a body holding the file as the single multipart field `media`. |
| `WxWorkApp.App.HandleEnvelope` | wechat/wxwork_app.go:793-800 | The fields become `TokenCache.Classify` of the old state. `expiredAt` is never touched. |
| `WxWorkApp.App.SendMessage` | wechat/wxwork_app.go:543-557 | Fields, response, error and requests equal `TokenCache.Dispatch` of a POST to message/send with the message as JSON body. |
| `WxWorkApp.App.SendAppMessage` | wechat/wxwork_app.go:209-540 | Each `Send*Message` is `SendMessage` of the body that `Messages.BuildAppMessage` builds with the client's agent id. |
| `WxWorkApp.App.SendGroupMessage` | wechat/wxwork_app.go:786-802 | Fields, error and requests equal `TokenCache.Dispatch` of a POST to appchat/send. |
| `WxWorkApp.App.SendGroupAppMessage` | wechat/wxwork_app.go:628-748 | Each `SendGroup*Message` is `SendGroupMessage` of `Messages.BuildGroupMessageAsWritten`, so a group text card sends its button text under `btntext` as line 716 does. |
| `WxWorkApp.App.CreateGroupChat` | wechat/wxwork_app.go:560-583 | Behaves as `TokenCache.Dispatch` of the create body. The new chat id is returned only on success, otherwise "". |
| `WxWorkApp.App.UpdateGroupChat` | wechat/wxwork_app.go:585-608 | Behaves as `TokenCache.Dispatch` of the update body. |
| `WxWorkApp.App.GetGroupChat` | wechat/wxwork_app.go:610-626 | Behaves as `TokenCache.Dispatch` of a GET with `chatid` in the query and no body. The group is returned on success, otherwise the zero group. |
| `WxWorkApp.App.UploadMedia` | wechat/wxwork_app.go:804-822 | Behaves as `TokenCache.Dispatch` of a multipart upload with `type` in the query. On success it returns the media id and `ParseInt64` of `created_at`, otherwise "" and 0. `createdAt` is always within int64. |
| `WxWorkApp.App.UploadImage` | wechat/wxwork_app.go:824-841 | Behaves as `TokenCache.Dispatch` of a multipart upload. The image URL is returned on success, otherwise "". |
| `WxWorkApp.FreshClientScenario` | wechat/wxwork_app.go:913-925 | A fresh client granted token "abc" for 10 s sends a token request then the endpoint request. A second call within 10 s sends no token request, and its request carries "abc". |
| `Sessions.NoRefreshWhileValid` | wechat/wxwork_app.go:915-925 | Calls no later than `expiredAt` on a cached non-empty token, without a 42001 reply, refresh nothing. They keep the state, and every request carries the cached token. |
| `Sessions.SingleRefreshWithinLifetime` | wechat/wxwork_app.go:776-782 | The first call refreshes with a granted non-empty token. Later calls up to `now + expires_in` then refresh nothing. The session sends exactly one token request, first, and all other requests carry the new token. |
| `Sessions.InvalidatedTokenRefreshedNext` | wechat/wxwork_app.go:548-556 | After a 42001 reply the token is empty and an error is returned. The next call, at any time, refreshes first. |
| `Sessions.FailedRefreshRetried` | wechat/wxwork_app.go:764-779 | A failed refresh leaves the state unchanged and returns a refresh error. Any later call refreshes again. |
| `Messages.SplitJoin` | wechat/wxwork_app.go:212-214 | Joining a non-empty list of ids that contain no separator, then splitting, gives back the list. |
| `Messages.RecipientsRecoverable` | wechat/wxwork_app.go:212-214 | The `touser`/`toparty`/`totag` value determines the recipient list when no id contains `|`. |
| `Messages.BuildAppMessage` | wechat/wxwork_app.go:209-235 | `touser`/`toparty`/`totag` are the lists joined with `|`. `msgtype` is the builder's constant, `agentid` the agent id, and the content sits under the `msgtype` key. `safe`, `enable_id_trans` and `enable_duplicate_check` are present, as 1, exactly when options are given and the flag is set. `duplicate_check_interval` is present exactly when it is > 0. With nil options no option key is present, and there are no other keys. |
| `Messages.BuildGroupMessageAsWritten` | wechat/wxwork_app.go:628-748 | Keys are exactly `chatid`, `msgtype` (the builder's constant) and the content, plus `safe` = 1 exactly when options are non-nil and `Safe` is set. The text card content is as written, with `btntext`. |
| `Messages.GroupTextCardButtonMisplaced` | wechat/wxwork_app.go:708-722 | The as-written group text card has no `btntxt` key; the button text sits under `btntext`. The application text card from the same fields has it under `btntxt`. |
| `Messages.BuildGroupMessage` | wechat/wxwork_app.go:628-748 | The same keys and `safe` rule, with the content object the application builder uses. |
| `Messages.GroupAgreesWithApp` | wechat/wxwork_app.go:385-398 | With the correction, group and application messages of the same content carry the same content object, `msgtype` and `safe` decision. The correction changes only the text card. |
| `Messages.CreateGroupBody` | wechat/wxwork_app.go:560-567 | Keys are `name`, `owner`, `userlist`, plus `chatid` exactly when options are given (even an empty id). |
| `Messages.UpdateGroupBody` | wechat/wxwork_app.go:585-593 | Keys are `chatid`, plus all four update fields exactly when options are given. |
| `ParseInt.ScanDecimal` | wechat/wxwork_app.go:820 | The unsigned decimal scan never yields a value beyond 2^64-1. |
| `ParseInt.ParseInt64` | wechat/wxwork_app.go:820 | The result is always within int64. An empty string or a leading non-digit other than a sign gives 0. |
| `ParseInt.ParseFormatRoundTrip` | wechat/wxwork_app.go:820 | Parsing the decimal rendering of any int64 gives the number back. |

## Left out

- The `sync.RWMutex` and everything concurrent. The check, lock, re-check and refresh sequence is modelled as one check then refresh, which is what it does for a single caller. The "one refresh for many concurrent callers" guarantee is not modelled. Neither are the unlocked writes of `accessToken = ""`, which race with readers.
- HTTP transport, the client timeout and request construction. Each exchange is an `HttpOutcome` input: request not built, transport error, or status plus optional decoded body. The response body draining is not modelled.
- JSON encoding and decoding. A decoded envelope is an input, and request bodies are `JsonValue.Value` objects. A response that fails to decode yields no envelope, although Go may keep a partially decoded struct.
- The distinction between a nil slice (JSON `null`) and an empty one (`[]`) in `userlist`, `add_user_list`, `del_user_list`, article, item and button lists.
- `multipart.Writer` body construction. Its three error returns write to an in-memory buffer and are not modelled. The body is the field name `media`, the file name and the bytes.
- `url.Values.Encode` rendering. The query is a key to list-of-values map, not a string.
- Error messages. Each error is a constructor naming its stage, endpoint, code and message, not the formatted text.
- Wall-clock time and `time.Duration`. Times are integer seconds, so sub-second precision is not modelled. Neither is the int64 nanosecond overflow of `time.Second * time.Duration(expires_in)` for `expires_in` beyond about 9.2e9.
- The second clock reading in `refreshAccessToken` (wechat/wxwork_app.go:782). The program sets `expiredAt` from the time after the token exchange returns, which can be up to the client timeout (10 s, lines 43 and 200) later than the expiry check (lines 845, 915). The model takes the exchange to finish in the same second as the check, so `TokenCache.Refresh` sets `expiredAt = now + expires_in` with the same `now`. Its `expiredAt` can therefore be earlier than the program's, and the model may refresh in a window where the program does not.
- Endpoint URL constants are the `Endpoint` enumeration. `NewWxWorkAppWithTimeout` and `NewWxWorkAppWithClient` only differ in the HTTP client, so one constructor stands for all three.
- The eleven `Send*Message` and nine `SendGroup*Message` methods are each one method over the tagged variant `Messages.Content`. Their bodies differ only in `msgtype` and the content object, which `Messages.MsgType` and `Messages.Payload` give per variant.

## Findings

| source | as written | input that shows it | evidently intended | confidence | as-written member | corrected member |
|---|---|---|---|---|---|---|
| wechat/wxwork_app.go:716 | `SendGroupTextCardMessage` stores the button text under `btntext` | any group text card, e.g. button text "More": the body has no `btntxt` key (`Messages.GroupTextCardButtonMisplaced`) | `btntxt`, the key `SendTextCardMessage` uses at line 397 and that the platform's text card reads | medium, not executed | `Messages.BuildGroupMessageAsWritten` | `Messages.BuildGroupMessage` |
