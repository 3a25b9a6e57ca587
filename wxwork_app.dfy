/**
 * The WeCom application client `WxWorkApp`: the cached token and its expiry
 * are fields that the refresh sets and the endpoint wrappers clear in place.
 *
 * The clock and the network are parameters: every operation takes the current
 * second `now`, the outcome of the token request it would make (`fetch`, used
 * only if a refresh happens) and the outcome of its endpoint request
 * (`reply`). Every operation returns the requests it put on the wire (`calls`)
 * and is proved to leave the fields in the state the matching function of
 * module `TokenCache` computes from the old state.
 */
module WxWorkApp {
  import opened Wrappers
  import opened JsonValue
  import opened Protocol
  import opened TokenCache
  import opened Messages
  import opened ParseInt
  import opened Sessions

  /** The fields of WxWorkAppMessageResp besides `errcode`/`errmsg`. */
  datatype MessageInfo = MessageInfo(invalidUser: string, invalidParty: string, invalidTag: string)

  /** Responses that carry nothing but `errcode`/`errmsg`. */
  datatype NoFields = NoFields

  /** WxWorkAppCreateGroupResp's `chatid`. */
  datatype CreatedGroup = CreatedGroup(chatID: string)

  /** WxWorkAppGroup, the `chat_info` of a group lookup. */
  datatype Group = Group(chatID: string, name: string, owner: string, userList: seq<string>)

  /** The zero value of WxWorkAppGroup, returned when a lookup fails. */
  const ZeroGroup: Group := Group("", "", "", [])

  /** The fields of WxWorkAppUploadMediaResp besides `errcode`/`errmsg`. */
  datatype UploadedMedia = UploadedMedia(mediaType: string, mediaID: string, createdAt: string)

  /** WxWorkAppUploadImageResp's `url`. */
  datatype UploadedImage = UploadedImage(url: string)

  class App {
    const corpID: string
    const corpSecret: string
    const agentID: string
    var accessToken: string
    var expiredAt: int

    /** `NewWxWorkApp`: the credentials are fixed, the token absent. */
    constructor (corpID: string, corpSecret: string, agentID: string)
      ensures this.corpID == corpID && this.corpSecret == corpSecret && this.agentID == agentID
      ensures State() == Initial()
    {
      this.corpID := corpID;
      this.corpSecret := corpSecret;
      this.agentID := agentID;
      accessToken := "";
      expiredAt := ZeroTime;
    }

    function State(): TokenState
      reads this
    {
      TokenState(accessToken, expiredAt)
    }

    function Creds(): Credentials
    {
      Credentials(corpID, corpSecret)
    }

    /** `IsAccessTokenExpired`: expired only strictly after `expiredAt`. */
    function IsAccessTokenExpired(now: int): (expired: bool)
      reads this
      ensures expired <==> IsExpired(State(), now)
      ensures now <= expiredAt ==> !expired
    {
      now > expiredAt
    }

    /**
     * `refreshAccessToken`: on a granted answer both fields take the new token
     * and `now + expires_in`; on any failure they keep their values.
     */
    method RefreshAccessToken(now: int, fetch: HttpOutcome<TokenResp>) returns (err: Option<Error>, calls: seq<Call>)
      modifies this
      ensures var r := Refresh(old(State()), now, Creds(), fetch);
        State() == r.state && err == r.err && calls == r.calls
      ensures err.Some? ==> accessToken == old(accessToken) && expiredAt == old(expiredAt)
    {
      calls := if Sent(fetch) then [TokenCall(corpID, corpSecret)] else [];
      match fetch {
        case RequestFailure =>
          err := Some(RequestError);
        case NoResponse =>
          err := Some(ResponseError);
        case Response(status, decoded) =>
          if status != HttpOK {
            err := Some(StatusError(status));
            return;
          }
          if decoded.None? {
            err := Some(ParseError);
            return;
          }
          var t := decoded.value;
          if t.errCode != StatusOK {
            err := Some(ApiError(TokenApi, t.errCode, t.errMessage));
            return;
          }
          accessToken := t.accessToken;
          expiredAt := now + t.expiresIn;
          err := None;
      }
    }

    /**
     * The token prologue of `fireRequest` and `uploadFile`. The source tests,
     * takes the lock, tests again and refreshes; run by one caller at a time
     * the second test repeats the first, so one test guards the refresh.
     */
    method EnsureAccessToken(now: int, fetch: HttpOutcome<TokenResp>) returns (err: Option<Error>, refreshed: bool, calls: seq<Call>)
      modifies this
      ensures var p := EnsureToken(old(State()), now, Creds(), fetch);
        State() == p.state && err == p.err && refreshed == p.refreshed && calls == p.calls
      ensures !refreshed ==> unchanged(this) && calls == []
    {
      refreshed := false;
      err := None;
      calls := [];
      if accessToken == "" || IsAccessTokenExpired(now) {
        refreshed := true;
        err, calls := RefreshAccessToken(now, fetch);
        if err.Some? {
          err := Some(RefreshError(err.value));
        }
      }
    }

    /** What `fireRequest` and `uploadFile` share once their body is built. */
    method Perform<P>(now: int, req: Request, fetch: HttpOutcome<TokenResp>, reply: HttpOutcome<Envelope<P>>)
      returns (resp: Option<Envelope<P>>, err: Option<Error>, calls: seq<Call>)
      modifies this
      ensures var x := Fire(old(State()), now, Creds(), req, fetch, reply);
        State() == x.state && resp == x.reply && err == x.err && calls == x.calls
    {
      var refreshed;
      resp := None;
      err, refreshed, calls := EnsureAccessToken(now, fetch);
      if err.Some? {
        return;
      }
      if Sent(reply) {
        calls := calls + [EndpointCall(req.verb, req.endpoint, Query(accessToken, req.params), req.body)];
      }
      match reply {
        case RequestFailure =>
          err := Some(RequestError);
        case NoResponse =>
          err := Some(ResponseError);
        case Response(status, decoded) =>
          if status != HttpOK {
            err := Some(StatusError(status));
          } else if decoded.None? {
            err := Some(ParseError);
          } else {
            resp := decoded;
          }
      }
    }

    /** `fireRequest`: a JSON body, or none when the caller passes `nil`. */
    method FireRequest<P>(now: int, verb: Method, endpoint: Endpoint, params: map<string, string>, body: Option<Value>,
                          fetch: HttpOutcome<TokenResp>, reply: HttpOutcome<Envelope<P>>)
      returns (resp: Option<Envelope<P>>, err: Option<Error>, calls: seq<Call>)
      modifies this
      ensures var x := Fire(old(State()), now, Creds(), Request(verb, endpoint, params, if body.Some? then Json(body.value) else NoBody), fetch, reply);
        State() == x.state && resp == x.reply && err == x.err && calls == x.calls
    {
      resp, err, calls := Perform(now, Request(verb, endpoint, params, if body.Some? then Json(body.value) else NoBody), fetch, reply);
    }

    /** `uploadFile`: the file travels as the single multipart field `media`. */
    method UploadFile<P>(now: int, verb: Method, endpoint: Endpoint, params: map<string, string>,
                         fileBody: seq<bv8>, fileName: string,
                         fetch: HttpOutcome<TokenResp>, reply: HttpOutcome<Envelope<P>>)
      returns (resp: Option<Envelope<P>>, err: Option<Error>, calls: seq<Call>)
      modifies this
      ensures var x := Fire(old(State()), now, Creds(), Request(verb, endpoint, params, Multipart(MediaField, fileName, fileBody)), fetch, reply);
        State() == x.state && resp == x.reply && err == x.err && calls == x.calls
    {
      resp, err, calls := Perform(now, Request(verb, endpoint, params, Multipart(MediaField, fileName, fileBody)), fetch, reply);
    }

    /**
     * The envelope check every wrapper repeats: a non-zero code is an error,
     * and 42001 also clears the token; `expiredAt` is never touched.
     */
    method HandleEnvelope<P>(endpoint: Endpoint, env: Envelope<P>) returns (err: Option<Error>)
      modifies this
      ensures var v := Classify(old(State()), endpoint, env);
        State() == v.state && err == v.err
      ensures expiredAt == old(expiredAt)
    {
      err := None;
      if env.errCode != StatusOK {
        if env.errCode == CodeAccessTokenExpired {
          accessToken := "";
        }
        err := Some(ApiError(endpoint, env.errCode, env.errMessage));
      }
    }

    /** `sendMessage`: POST a built message to message/send. */
    method SendMessage(now: int, message: map<string, Value>,
                       fetch: HttpOutcome<TokenResp>, reply: HttpOutcome<Envelope<MessageInfo>>)
      returns (resp: Option<Envelope<MessageInfo>>, err: Option<Error>, calls: seq<Call>)
      modifies this
      ensures var x := Dispatch(old(State()), now, Creds(), Request(Post, MessageSendApi, map[], Json(Obj(message))), fetch, reply);
        State() == x.state && resp == x.reply && err == x.err && calls == x.calls
    {
      resp, err, calls := FireRequest(now, Post, MessageSendApi, map[], Some(Obj(message)), fetch, reply);
      if err.Some? {
        return;
      }
      err := HandleEnvelope(MessageSendApi, resp.value);
    }

    /** `SendTextMessage` ... `SendTaskCardMessage`: build the message for `content`, then `sendMessage`. */
    method SendAppMessage(now: int, userIDs: seq<string>, partyIDs: seq<string>, tagIDs: seq<string>,
                          content: Content, options: Option<SendOptions>,
                          fetch: HttpOutcome<TokenResp>, reply: HttpOutcome<Envelope<MessageInfo>>)
      returns (resp: Option<Envelope<MessageInfo>>, err: Option<Error>, calls: seq<Call>)
      modifies this
      ensures var body := Json(Obj(BuildAppMessage(agentID, userIDs, partyIDs, tagIDs, content, options)));
        var x := Dispatch(old(State()), now, Creds(), Request(Post, MessageSendApi, map[], body), fetch, reply);
        State() == x.state && resp == x.reply && err == x.err && calls == x.calls
    {
      resp, err, calls := SendMessage(now, BuildAppMessage(agentID, userIDs, partyIDs, tagIDs, content, options), fetch, reply);
    }

    /** `sendGroupMessage`: POST a built message to appchat/send. */
    method SendGroupMessage(now: int, message: map<string, Value>,
                            fetch: HttpOutcome<TokenResp>, reply: HttpOutcome<Envelope<NoFields>>)
      returns (err: Option<Error>, calls: seq<Call>)
      modifies this
      ensures var x := Dispatch(old(State()), now, Creds(), Request(Post, GroupMessageSendApi, map[], Json(Obj(message))), fetch, reply);
        State() == x.state && err == x.err && calls == x.calls
    {
      var resp;
      resp, err, calls := FireRequest(now, Post, GroupMessageSendApi, map[], Some(Obj(message)), fetch, reply);
      if err.Some? {
        return;
      }
      err := HandleEnvelope(GroupMessageSendApi, resp.value);
    }

    /** `SendGroupTextMessage` ... `SendGroupMpNewsMessage`, as written (text card button under `btntext`): build, then `sendGroupMessage`. */
    method SendGroupAppMessage(now: int, chatID: string, content: Content, options: Option<SendOptions>,
                               fetch: HttpOutcome<TokenResp>, reply: HttpOutcome<Envelope<NoFields>>)
      returns (err: Option<Error>, calls: seq<Call>)
      requires GroupSupported(content)
      modifies this
      ensures var body := Json(Obj(BuildGroupMessageAsWritten(chatID, content, options)));
        var x := Dispatch(old(State()), now, Creds(), Request(Post, GroupMessageSendApi, map[], body), fetch, reply);
        State() == x.state && err == x.err && calls == x.calls
    {
      err, calls := SendGroupMessage(now, BuildGroupMessageAsWritten(chatID, content, options), fetch, reply);
    }

    /** `CreateGroupChat`: the new chat id on success, "" otherwise. */
    method CreateGroupChat(now: int, name: string, ownerID: string, userIDs: seq<string>, options: Option<CreateGroupOptions>,
                           fetch: HttpOutcome<TokenResp>, reply: HttpOutcome<Envelope<CreatedGroup>>)
      returns (newChatID: string, err: Option<Error>, calls: seq<Call>)
      modifies this
      ensures var body := Json(Obj(CreateGroupBody(name, ownerID, userIDs, options)));
        var x := Dispatch(old(State()), now, Creds(), Request(Post, GroupCreateApi, map[], body), fetch, reply);
        && State() == x.state && err == x.err && calls == x.calls
        && newChatID == (if x.err.None? then x.reply.value.payload.chatID else "")
    {
      newChatID := "";
      var resp;
      resp, err, calls := FireRequest(now, Post, GroupCreateApi, map[], Some(Obj(CreateGroupBody(name, ownerID, userIDs, options))), fetch, reply);
      if err.Some? {
        return;
      }
      err := HandleEnvelope(GroupCreateApi, resp.value);
      if err.Some? {
        return;
      }
      newChatID := resp.value.payload.chatID;
    }

    /** `UpdateGroupChat`. */
    method UpdateGroupChat(now: int, chatID: string, options: Option<UpdateGroupOptions>,
                           fetch: HttpOutcome<TokenResp>, reply: HttpOutcome<Envelope<NoFields>>)
      returns (err: Option<Error>, calls: seq<Call>)
      modifies this
      ensures var body := Json(Obj(UpdateGroupBody(chatID, options)));
        var x := Dispatch(old(State()), now, Creds(), Request(Post, GroupUpdateApi, map[], body), fetch, reply);
        State() == x.state && err == x.err && calls == x.calls
    {
      var resp;
      resp, err, calls := FireRequest(now, Post, GroupUpdateApi, map[], Some(Obj(UpdateGroupBody(chatID, options))), fetch, reply);
      if err.Some? {
        return;
      }
      err := HandleEnvelope(GroupUpdateApi, resp.value);
    }

    /** `GetGroupChat`: a GET with `chatid` in the query and no body; the group on success, the zero group otherwise. */
    method GetGroupChat(now: int, chatID: string,
                        fetch: HttpOutcome<TokenResp>, reply: HttpOutcome<Envelope<Group>>)
      returns (group: Group, err: Option<Error>, calls: seq<Call>)
      modifies this
      ensures var x := Dispatch(old(State()), now, Creds(), Request(Get, GroupGetApi, map["chatid" := chatID], NoBody), fetch, reply);
        && State() == x.state && err == x.err && calls == x.calls
        && group == (if x.err.None? then x.reply.value.payload else ZeroGroup)
    {
      group := ZeroGroup;
      var resp;
      resp, err, calls := FireRequest(now, Get, GroupGetApi, map["chatid" := chatID], None, fetch, reply);
      if err.Some? {
        return;
      }
      err := HandleEnvelope(GroupGetApi, resp.value);
      if err.Some? {
        return;
      }
      group := resp.value.payload;
    }

    /**
     * `UploadMedia`: the file with `type` in the query; on success the media
     * id and `created_at` read by `strconv.ParseInt`, otherwise "" and 0.
     */
    method UploadMedia(now: int, fileBody: seq<bv8>, fileName: string, fileType: string,
                       fetch: HttpOutcome<TokenResp>, reply: HttpOutcome<Envelope<UploadedMedia>>)
      returns (mediaID: string, createdAt: int, err: Option<Error>, calls: seq<Call>)
      modifies this
      ensures var body := Multipart(MediaField, fileName, fileBody);
        var x := Dispatch(old(State()), now, Creds(), Request(Post, MediaUploadApi, map["type" := fileType], body), fetch, reply);
        && State() == x.state && err == x.err && calls == x.calls
        && mediaID == (if x.err.None? then x.reply.value.payload.mediaID else "")
        && createdAt == (if x.err.None? then ParseInt64(x.reply.value.payload.createdAt) else 0)
      ensures MinInt64 <= createdAt <= MaxInt64
    {
      mediaID, createdAt := "", 0;
      var resp;
      resp, err, calls := UploadFile(now, Post, MediaUploadApi, map["type" := fileType], fileBody, fileName, fetch, reply);
      if err.Some? {
        return;
      }
      err := HandleEnvelope(MediaUploadApi, resp.value);
      if err.Some? {
        return;
      }
      mediaID := resp.value.payload.mediaID;
      createdAt := ParseInt64(resp.value.payload.createdAt);
    }

    /** `UploadImage`: the image URL on success, "" otherwise. */
    method UploadImage(now: int, fileBody: seq<bv8>, fileName: string,
                       fetch: HttpOutcome<TokenResp>, reply: HttpOutcome<Envelope<UploadedImage>>)
      returns (imageURL: string, err: Option<Error>, calls: seq<Call>)
      modifies this
      ensures var body := Multipart(MediaField, fileName, fileBody);
        var x := Dispatch(old(State()), now, Creds(), Request(Post, ImageUploadApi, map[], body), fetch, reply);
        && State() == x.state && err == x.err && calls == x.calls
        && imageURL == (if x.err.None? then x.reply.value.payload.url else "")
    {
      imageURL := "";
      var resp;
      resp, err, calls := UploadFile(now, Post, ImageUploadApi, map[], fileBody, fileName, fetch, reply);
      if err.Some? {
        return;
      }
      err := HandleEnvelope(ImageUploadApi, resp.value);
      if err.Some? {
        return;
      }
      imageURL := resp.value.payload.url;
    }
  }
  /**
   * A fresh client whose token request is granted ("abc", valid for 10
   * seconds) sends a message and, at most 10 seconds later, another: the
   * first call fetches the token before its endpoint request, the second
   * sends only its endpoint request, carrying the cached token.
   */
  method FreshClientScenario(now: int, elapsed: int, message: map<string, Value>,
                             reply1: HttpOutcome<Envelope<MessageInfo>>, reply2: HttpOutcome<Envelope<MessageInfo>>)
    returns (first: seq<Call>, second: seq<Call>)
    requires 0 <= elapsed <= 10
    requires !Invalidates(reply1)
    ensures 1 <= |first| <= 2 && first[0] == TokenCall("corp", "secret")
    ensures |first| == 2 ==> CarriesToken(first[1], "abc")
    ensures |second| <= 1
    ensures forall i :: 0 <= i < |second| ==> CarriesToken(second[i], "abc")
  {
    var app := new App("corp", "secret", "agent");
    var grant := Response(HttpOK, Some(TokenResp(StatusOK, "ok", "abc", 10)));
    var resp, err;
    resp, err, first := app.SendMessage(now, message, grant, reply1);
    resp, err, second := app.SendMessage(now + elapsed, message, NoResponse, reply2);
  }
}
