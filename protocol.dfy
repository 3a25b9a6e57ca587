/**
 * What the WeCom client exchanges with the platform: the endpoints it calls,
 * the requests it puts on the wire, the decoded response envelopes and the
 * errors it reports. The HTTP transport and the JSON decoder are not modelled;
 * their result for one exchange is an `HttpOutcome` given to the model.
 */
module Protocol {
  import opened Wrappers
  import opened JsonValue

  /** `errcode` of a successful call (WxWorkAppStatusOK). */
  const StatusOK: int := 0

  /** `errcode` by which the platform reports an expired access token (WxWorkCodeAccessTokenExpired). */
  const CodeAccessTokenExpired: int := 42001

  /** The only HTTP status the client accepts (http.StatusOK). */
  const HttpOK: int := 200

  /** Query parameter that carries the cached token on every endpoint call. */
  const AccessTokenParam: string := "access_token"

  /** Name of the single multipart field that carries an uploaded file. */
  const MediaField: string := "media"

  datatype Method = Get | Post

  /** The platform endpoints the client calls (the URL constants of the source). */
  datatype Endpoint =
    | TokenApi
    | MessageSendApi
    | GroupMessageSendApi
    | GroupCreateApi
    | GroupUpdateApi
    | GroupGetApi
    | MediaUploadApi
    | ImageUploadApi

  datatype Body =
    | NoBody
    | Json(document: Value)
    | Multipart(field: string, fileName: string, content: seq<bv8>)

  /** The application's long-lived credentials, used only by the token request. */
  datatype Credentials = Credentials(corpID: string, corpSecret: string)

  /** An endpoint request before the token is attached. */
  datatype Request = Request(verb: Method, endpoint: Endpoint, params: map<string, string>, body: Body)

  /** A request that was put on the wire. */
  datatype Call =
    | TokenCall(corpID: string, corpSecret: string)
    | EndpointCall(verb: Method, endpoint: Endpoint, query: map<string, seq<string>>, body: Body)

  /**
   * What one HTTP exchange produced: the request could not be built
   * (`http.NewRequest` failed, nothing was sent), the transport failed
   * (`client.Do` returned an error), or a response arrived with a status and,
   * when its body was valid JSON, the decoded value.
   */
  datatype HttpOutcome<T> =
    | RequestFailure
    | NoResponse
    | Response(status: int, decoded: Option<T>)

  /** The stages at which a call can fail; `RefreshError` wraps a failed token refresh. */
  datatype Error =
    | RequestError
    | ResponseError
    | StatusError(status: int)
    | ParseError
    | ApiError(endpoint: Endpoint, code: int, message: string)
    | RefreshError(cause: Error)

  /** Decoded body of the token endpoint (WxWorkAppTokenResp). */
  datatype TokenResp = TokenResp(errCode: int, errMessage: string, accessToken: string, expiresIn: int)

  /** Decoded body of an endpoint: the common `errcode`/`errmsg` pair and the endpoint's own fields. */
  datatype Envelope<P> = Envelope(errCode: int, errMessage: string, payload: P)

  /** Whether the request of an exchange reached the wire. */
  predicate Sent<T>(o: HttpOutcome<T>)
  {
    !o.RequestFailure?
  }

  /**
   * Transport and decoding of one exchange: anything but status 200 with a
   * decodable body is an error, and a non-200 body is never inspected.
   */
  function Receive<T>(o: HttpOutcome<T>): (r: Result<T, Error>)
    ensures r.Success? <==> o.Response? && o.status == HttpOK && o.decoded.Some?
    ensures r.Success? ==> r.value == o.decoded.value
    ensures o.Response? && o.status != HttpOK ==> r == Failure(StatusError(o.status))
    ensures o.Response? && o.status == HttpOK && o.decoded.None? ==> r == Failure(ParseError)
    ensures o.RequestFailure? ==> r == Failure(RequestError)
    ensures o.NoResponse? ==> r == Failure(ResponseError)
  {
    match o
    case RequestFailure => Failure(RequestError)
    case NoResponse => Failure(ResponseError)
    case Response(status, decoded) =>
      if status != HttpOK then Failure(StatusError(status))
      else if decoded.None? then Failure(ParseError)
      else Success(decoded.value)
  }

  /**
   * The query string of an endpoint call, as `url.Values`: the token is added
   * first under `access_token`, then every caller parameter is added under its
   * own key (a caller's `access_token` would come second under that key).
   */
  function Query(token: string, params: map<string, string>): (q: map<string, seq<string>>)
    ensures q.Keys == params.Keys + {AccessTokenParam}
    ensures |q[AccessTokenParam]| > 0 && q[AccessTokenParam][0] == token
    ensures forall k :: k in params && k != AccessTokenParam ==> q[k] == [params[k]]
    ensures AccessTokenParam !in params ==> q[AccessTokenParam] == [token]
    ensures AccessTokenParam in params ==> q[AccessTokenParam] == [token, params[AccessTokenParam]]
  {
    map k | k in params.Keys + {AccessTokenParam} ::
      if k == AccessTokenParam then
        [token] + (if k in params then [params[k]] else [])
      else
        [params[k]]
  }
}
