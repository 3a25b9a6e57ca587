/**
 * Sequences of endpoint calls on one client, one after another: how many token
 * refreshes they cause and which token each endpoint request carries.
 */
module Sessions {
  import opened Protocol
  import opened TokenCache

  /** One endpoint call of a session: its time, its request and what the network answered. */
  datatype Attempt<P> = Attempt(now: int, req: Request, fetch: HttpOutcome<TokenResp>, reply: HttpOutcome<Envelope<P>>)

  /** The state after a session, the number of refreshes it ran and every request it sent. */
  datatype Trace = Trace(state: TokenState, refreshes: nat, calls: seq<Call>)

  /** The calls of `script`, each wrapper call as `Dispatch` performs it. */
  function Run<P>(s: TokenState, creds: Credentials, script: seq<Attempt<P>>): Trace
    decreases |script|
  {
    if script == [] then
      Trace(s, 0, [])
    else
      var a := script[0];
      var x := Dispatch(s, a.now, creds, a.req, a.fetch, a.reply);
      var rest := Run(x.state, creds, script[1..]);
      Trace(rest.state, rest.refreshes + (if x.refreshed then 1 else 0), x.calls + rest.calls)
  }

  /** The endpoint answered with the token-expired code. */
  predicate Invalidates<P>(reply: HttpOutcome<Envelope<P>>)
  {
    Receive(reply).Success? && Receive(reply).value.errCode == CodeAccessTokenExpired
  }

  /** An endpoint request that carries `token` as its first `access_token`. */
  predicate CarriesToken(c: Call, token: string)
  {
    c.EndpointCall? && AccessTokenParam in c.query && |c.query[AccessTokenParam]| > 0
    && c.query[AccessTokenParam][0] == token
  }

  /**
   * Idempotence while the token is valid: as long as every call happens no
   * later than `expiredAt` and no endpoint reports the token expired, a
   * session with a cached token refreshes nothing, keeps the state, and every
   * request it sends is an endpoint request carrying the cached token.
   */
  lemma {:induction false} NoRefreshWhileValid<P>(s: TokenState, creds: Credentials, script: seq<Attempt<P>>)
    requires s.accessToken != ""
    requires forall i :: 0 <= i < |script| ==> script[i].now <= s.expiredAt && !Invalidates(script[i].reply)
    ensures Run(s, creds, script).state == s
    ensures Run(s, creds, script).refreshes == 0
    ensures forall i :: 0 <= i < |Run(s, creds, script).calls| ==> CarriesToken(Run(s, creds, script).calls[i], s.accessToken)
    decreases |script|
  {
    if script != [] {
      var a := script[0];
      assert !NeedsRefresh(s, a.now);
      var x := Dispatch(s, a.now, creds, a.req, a.fetch, a.reply);
      assert x.state == s;
      NoRefreshWhileValid(s, creds, script[1..]);
    }
  }

  /**
   * A fresh client's first call refreshes once,
   * and every later call up to `expires_in` seconds after it refreshes
   * nothing, so the whole session sends exactly one token request, first.
   */
  lemma SingleRefreshWithinLifetime<P>(s: TokenState, creds: Credentials, first: Attempt<P>, later: seq<Attempt<P>>)
    requires NeedsRefresh(s, first.now)
    requires Granted(first.fetch) && first.fetch.decoded.value.accessToken != ""
    requires !Invalidates(first.reply)
    requires forall i :: 0 <= i < |later| ==>
      later[i].now <= first.now + first.fetch.decoded.value.expiresIn && !Invalidates(later[i].reply)
    ensures var t := Run(s, creds, [first] + later);
      && t.refreshes == 1
      && t.calls[0] == TokenCall(creds.corpID, creds.corpSecret)
      && forall i :: 1 <= i < |t.calls| ==> CarriesToken(t.calls[i], first.fetch.decoded.value.accessToken)
  {
    var script := [first] + later;
    assert script[0] == first && script[1..] == later;
    var x := Dispatch(s, first.now, creds, first.req, first.fetch, first.reply);
    var token := TokenState(first.fetch.decoded.value.accessToken, first.now + first.fetch.decoded.value.expiresIn);
    assert x.state == token;
    NoRefreshWhileValid(token, creds, later);
  }

  /**
   * Invalidation: once an endpoint reports 42001, the token is absent and the
   * next call, at any time and whatever `expiredAt` says, refreshes first.
   */
  lemma InvalidatedTokenRefreshedNext<P, Q>(s: TokenState, creds: Credentials, a: Attempt<P>, b: Attempt<Q>)
    requires Invalidates(a.reply)
    requires !NeedsRefresh(s, a.now) || Granted(a.fetch)
    ensures var x := Dispatch(s, a.now, creds, a.req, a.fetch, a.reply);
      var y := Dispatch(x.state, b.now, creds, b.req, b.fetch, b.reply);
      && x.state.accessToken == "" && x.err.Some?
      && y.refreshed
      && (Sent(b.fetch) ==> y.calls[0] == TokenCall(creds.corpID, creds.corpSecret))
  {
  }

  /**
   * A failed refresh does not stick: the state is unchanged, so any later
   * call refreshes again.
   */
  lemma FailedRefreshRetried<P, Q>(s: TokenState, creds: Credentials, a: Attempt<P>, b: Attempt<Q>)
    requires NeedsRefresh(s, a.now) && !Granted(a.fetch)
    requires a.now <= b.now
    ensures var x := Dispatch(s, a.now, creds, a.req, a.fetch, a.reply);
      && x.state == s && x.err.Some? && x.err.value.RefreshError?
      && Dispatch(x.state, b.now, creds, b.req, b.fetch, b.reply).refreshed
  {
  }
}
