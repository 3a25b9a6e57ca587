/**
 * The access-token cache of `WxWorkApp` as a specification over values: the
 * two cached fields, the expiry test, the refresh that the token endpoint's
 * answer drives, the check-then-refresh prologue of every endpoint call, and
 * the classification of the endpoint's response envelope.
 *
 * The class in module `WxWorkApp` updates its fields in place and is proved to
 * move between exactly the states these functions compute.
 */
module TokenCache {
  import opened Wrappers
  import opened Protocol

  /** Go's zero `time.Time` (0001-01-01 00:00:00 UTC) in Unix seconds: the expiry of a new client. */
  const ZeroTime: int := -62135596800

  /** The cached token (`""` means absent) and the second at which it stops being valid. */
  datatype TokenState = TokenState(accessToken: string, expiredAt: int)

  /** The state of a newly constructed client. */
  function Initial(): TokenState
  {
    TokenState("", ZeroTime)
  }

  /** `time.Now().After(expiredAt)`: at exactly `expiredAt` the token is not expired yet. */
  predicate IsExpired(s: TokenState, now: int)
  {
    now > s.expiredAt
  }

  /** The test that guards the refresh in `fireRequest` and `uploadFile`. */
  predicate NeedsRefresh(s: TokenState, now: int)
  {
    s.accessToken == "" || IsExpired(s, now)
  }

  /** The requests a refresh puts on the wire: one token request, unless it could not be built. */
  function TokenCalls(creds: Credentials, fetch: HttpOutcome<TokenResp>): seq<Call>
  {
    if Sent(fetch) then [TokenCall(creds.corpID, creds.corpSecret)] else []
  }

  /** The token endpoint answered 200 with a decodable body whose `errcode` is 0. */
  predicate Granted(fetch: HttpOutcome<TokenResp>)
  {
    fetch.Response? && fetch.status == HttpOK && fetch.decoded.Some? && fetch.decoded.value.errCode == StatusOK
  }

  datatype Refreshed = Refreshed(state: TokenState, err: Option<Error>, calls: seq<Call>)

  /**
   * `refreshAccessToken`: only a granted answer changes the state, and then
   * both fields; every other answer is an error and leaves the state as it was.
   */
  function Refresh(s: TokenState, now: int, creds: Credentials, fetch: HttpOutcome<TokenResp>): (r: Refreshed)
    ensures r.calls == TokenCalls(creds, fetch)
    ensures r.err.None? <==> Granted(fetch)
    ensures Granted(fetch) ==>
      r.state == TokenState(fetch.decoded.value.accessToken, now + fetch.decoded.value.expiresIn)
    ensures !Granted(fetch) ==> r.state == s
    ensures Receive(fetch).Failure? ==> r.err == Some(Receive(fetch).error)
    ensures Receive(fetch).Success? && !Granted(fetch) ==>
      r.err == Some(ApiError(TokenApi, fetch.decoded.value.errCode, fetch.decoded.value.errMessage))
    ensures Granted(fetch) && fetch.decoded.value.accessToken != "" ==>
      forall later :: later <= now + fetch.decoded.value.expiresIn ==> !NeedsRefresh(r.state, later)
  {
    var calls := TokenCalls(creds, fetch);
    match Receive(fetch)
    case Failure(e) => Refreshed(s, Some(e), calls)
    case Success(t) =>
      if t.errCode != StatusOK then
        Refreshed(s, Some(ApiError(TokenApi, t.errCode, t.errMessage)), calls)
      else
        Refreshed(TokenState(t.accessToken, now + t.expiresIn), None, calls)
  }

  datatype Prepared = Prepared(state: TokenState, err: Option<Error>, refreshed: bool, calls: seq<Call>)

  /**
   * The prologue of `fireRequest` and `uploadFile`: refresh exactly when the
   * token is absent or expired; otherwise keep the cached token and send
   * nothing. A failed refresh is reported wrapped and changes nothing.
   */
  function EnsureToken(s: TokenState, now: int, creds: Credentials, fetch: HttpOutcome<TokenResp>): (r: Prepared)
    ensures r.refreshed <==> NeedsRefresh(s, now)
    ensures !r.refreshed ==> r.state == s && r.err.None? && r.calls == []
    ensures r.refreshed ==> r.calls == TokenCalls(creds, fetch)
    ensures r.err.Some? <==> r.refreshed && !Granted(fetch)
    ensures r.err.Some? ==> r.state == s && r.err == Some(RefreshError(Refresh(s, now, creds, fetch).err.value))
    ensures r.refreshed && Granted(fetch) ==>
      r.state == TokenState(fetch.decoded.value.accessToken, now + fetch.decoded.value.expiresIn)
  {
    if NeedsRefresh(s, now) then
      var f := Refresh(s, now, creds, fetch);
      Prepared(f.state, if f.err.Some? then Some(RefreshError(f.err.value)) else None, true, f.calls)
    else
      Prepared(s, None, false, [])
  }

  /** The endpoint request as it goes on the wire, carrying `token`. */
  function Attach(token: string, req: Request): Call
  {
    EndpointCall(req.verb, req.endpoint, Query(token, req.params), req.body)
  }

  datatype Exchange<P> = Exchange(state: TokenState, reply: Option<Envelope<P>>, err: Option<Error>, refreshed: bool, calls: seq<Call>)

  /**
   * `fireRequest` / `uploadFile`: the prologue, then, unless it failed, the
   * endpoint request with the token the prologue left in the cache. The
   * envelope is decoded but not inspected, and the token state is the
   * prologue's.
   */
  function Fire<P>(s: TokenState, now: int, creds: Credentials, req: Request,
                   fetch: HttpOutcome<TokenResp>, reply: HttpOutcome<Envelope<P>>): (r: Exchange<P>)
    ensures var p := EnsureToken(s, now, creds, fetch);
      && r.state == p.state
      && r.refreshed == p.refreshed
      && (p.err.Some? ==> r.err == p.err && r.reply.None? && r.calls == p.calls)
      && (p.err.None? ==>
            && r.calls == p.calls + (if Sent(reply) then [Attach(p.state.accessToken, req)] else [])
            && r.reply == Receive(reply).ToOption()
            && r.err == Receive(reply).ErrorOption())
  {
    var p := EnsureToken(s, now, creds, fetch);
    if p.err.Some? then
      Exchange(p.state, None, p.err, p.refreshed, p.calls)
    else
      var calls := p.calls + (if Sent(reply) then [Attach(p.state.accessToken, req)] else []);
      match Receive(reply)
      case Failure(e) => Exchange(p.state, None, Some(e), p.refreshed, calls)
      case Success(env) => Exchange(p.state, Some(env), None, p.refreshed, calls)
  }

  datatype Verdict = Verdict(state: TokenState, err: Option<Error>)

  /**
   * The envelope check repeated by every endpoint wrapper: code 0 is success;
   * any other code is an API error, and code 42001 also clears the token so
   * that the next call refreshes whatever `expiredAt` says.
   */
  function Classify<P>(s: TokenState, endpoint: Endpoint, env: Envelope<P>): (r: Verdict)
    ensures r.err.None? <==> env.errCode == StatusOK
    ensures r.err.Some? ==> r.err == Some(ApiError(endpoint, env.errCode, env.errMessage))
    ensures env.errCode == CodeAccessTokenExpired ==> r.state == TokenState("", s.expiredAt)
    ensures env.errCode != CodeAccessTokenExpired ==> r.state == s
    ensures env.errCode == CodeAccessTokenExpired ==> forall later :: NeedsRefresh(r.state, later)
  {
    if env.errCode == StatusOK then
      Verdict(s, None)
    else if env.errCode == CodeAccessTokenExpired then
      Verdict(s.(accessToken := ""), Some(ApiError(endpoint, env.errCode, env.errMessage)))
    else
      Verdict(s, Some(ApiError(endpoint, env.errCode, env.errMessage)))
  }

  /**
   * One endpoint call as a wrapper (`sendMessage`, `CreateGroupChat`, ...,
   * `UploadImage`) performs it: `Fire`, then `Classify` on a decoded envelope.
   */
  function Dispatch<P>(s: TokenState, now: int, creds: Credentials, req: Request,
                       fetch: HttpOutcome<TokenResp>, reply: HttpOutcome<Envelope<P>>): (r: Exchange<P>)
    ensures r.refreshed <==> NeedsRefresh(s, now)
    // A valid cached token is used as it is: no token request, at most the endpoint request.
    ensures !NeedsRefresh(s, now) ==>
      r.calls == (if Sent(reply) then [Attach(s.accessToken, req)] else [])
    // A failed refresh: wrapped error, state untouched, no endpoint request.
    ensures NeedsRefresh(s, now) && !Granted(fetch) ==>
      && r.state == s && r.reply.None? && r.calls == TokenCalls(creds, fetch)
      && r.err == Some(RefreshError(Refresh(s, now, creds, fetch).err.value))
    ensures var p := EnsureToken(s, now, creds, fetch);
      p.err.None? ==>
        && r.calls == p.calls + (if Sent(reply) then [Attach(p.state.accessToken, req)] else [])
        && r.reply == Receive(reply).ToOption()
    // Transport or decoding failure of the endpoint call: the error, and the prologue's state.
    ensures var p := EnsureToken(s, now, creds, fetch);
      p.err.None? && Receive(reply).Failure? ==>
        r.state == p.state && r.err == Some(Receive(reply).error)
    // A decoded envelope: success, token-expired (token cleared) or a generic API error.
    ensures var p := EnsureToken(s, now, creds, fetch);
      p.err.None? && Receive(reply).Success? ==>
        var env := Receive(reply).value;
        && (env.errCode == StatusOK ==> r.err.None? && r.state == p.state)
        && (env.errCode != StatusOK ==> r.err == Some(ApiError(req.endpoint, env.errCode, env.errMessage)))
        && (env.errCode == CodeAccessTokenExpired ==> r.state == TokenState("", p.state.expiredAt))
        && (env.errCode != CodeAccessTokenExpired ==> r.state == p.state)
  {
    var x := Fire(s, now, creds, req, fetch, reply);
    if x.reply.Some? then
      var v := Classify(x.state, req.endpoint, x.reply.value);
      Exchange(v.state, x.reply, v.err, x.refreshed, x.calls)
    else
      x
  }
}
