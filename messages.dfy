/**
 * The request bodies the client builds: the application-message builders
 * (`SendTextMessage` ... `SendTaskCardMessage`), the group-message builders
 * (`SendGroupTextMessage` ... `SendGroupMpNewsMessage`) and the bodies of the
 * group-chat create and update calls. Each fills a fresh key/value object and
 * has no other effect, so each is a function returning that object.
 *
 * The builders of one family differ only in `msgtype` and in the object stored
 * under it, so a message is a tagged variant, `Content`, with one constructor
 * per builder.
 */
module Messages {
  import opened Wrappers
  import opened JsonValue

  // ---------------------------------------------------------------------------
  // Recipient lists: strings.Join(ids, "|")
  // ---------------------------------------------------------------------------

  /** The separator between recipient ids. */
  const Separator: char := '|'

  /** `strings.Join`: the elements with `sep` between consecutive ones. */
  function Join(xs: seq<string>, sep: string): string
  {
    if |xs| == 0 then ""
    else if |xs| == 1 then xs[0]
    else xs[0] + sep + Join(xs[1..], sep)
  }

  /** `strings.Split` on a one-character separator: the pieces between separators. */
  function Split(s: string, sep: char): (pieces: seq<string>)
    ensures |pieces| >= 1
    ensures forall i :: 0 <= i < |pieces| ==> sep !in pieces[i]
  {
    if s == [] then [""]
    else
      var rest := Split(s[1..], sep);
      if s[0] == sep then [""] + rest
      else [[s[0]] + rest[0]] + rest[1..]
  }

  lemma {:induction false} SplitWithoutSeparator(x: string, sep: char)
    requires sep !in x
    ensures Split(x, sep) == [x]
  {
    if x != [] {
      SplitWithoutSeparator(x[1..], sep);
      assert [x[0]] + x[1..] == x;
    }
  }

  lemma {:induction false} SplitAtFirstSeparator(x: string, sep: char, tail: string)
    requires sep !in x
    ensures Split(x + [sep] + tail, sep) == [x] + Split(tail, sep)
  {
    var s := x + [sep] + tail;
    if x == [] {
      assert s[1..] == tail;
    } else {
      assert s[0] == x[0];
      assert s[1..] == x[1..] + [sep] + tail;
      SplitAtFirstSeparator(x[1..], sep, tail);
      assert [x[0]] + x[1..] == x;
    }
  }

  /**
   * A joined recipient list determines the list: when no id contains `|`,
   * splitting the joined string gives back the ids. (The empty list is the one
   * exception: it joins to "", which also stands for the list [""].)
   */
  lemma {:induction false} SplitJoin(xs: seq<string>, sep: char)
    requires |xs| > 0
    requires forall i :: 0 <= i < |xs| ==> sep !in xs[i]
    ensures Split(Join(xs, [sep]), sep) == xs
  {
    if |xs| == 1 {
      SplitWithoutSeparator(xs[0], sep);
    } else {
      SplitJoin(xs[1..], sep);
      SplitAtFirstSeparator(xs[0], sep, Join(xs[1..], [sep]));
      assert [xs[0]] + xs[1..] == xs;
    }
  }

  /** The value stored under `touser`, `toparty` and `totag`. */
  function Recipients(ids: seq<string>): Value
  {
    Str(Join(ids, [Separator]))
  }

  /** The recipients of a message can be read back from its `touser`/`toparty`/`totag` value. */
  lemma RecipientsRecoverable(ids: seq<string>)
    requires |ids| > 0
    requires forall i :: 0 <= i < |ids| ==> Separator !in ids[i]
    ensures Recipients(ids).Str? && Split(Recipients(ids).s, Separator) == ids
  {
    SplitJoin(ids, Separator);
  }

  // ---------------------------------------------------------------------------
  // Message contents
  // ---------------------------------------------------------------------------

  datatype SendOptions = SendOptions(safe: bool, enableIDTrans: bool, enableDuplicateCheck: bool, duplicateCheckInterval: int)

  datatype NewsArticle = NewsArticle(title: string, description: string, url: string, pictureURL: string)

  datatype MpNewsArticle = MpNewsArticle(title: string, thumbMediaID: string, author: string,
                                         contentSourceURL: string, content: string, digest: string)

  datatype NoticeItem = NoticeItem(key: string, value: string)

  datatype TaskCardButton = TaskCardButton(key: string, name: string, replaceName: string, color: string, isBold: bool)

  /** One constructor per message builder. */
  datatype Content =
    | Text(content: string)
    | Markdown(content: string)
    | Image(mediaID: string)
    | Voice(mediaID: string)
    | Video(mediaID: string, title: string, description: string)
    | File(mediaID: string)
    | TextCard(title: string, description: string, url: string, btnText: string)
    | News(articles: seq<NewsArticle>)
    | MpNews(mpArticles: seq<MpNewsArticle>)
    | MiniProgramNotice(appID: string, page: string, title: string, description: string,
                        emphasisFirstItem: bool, items: seq<NoticeItem>)
    | TaskCard(taskID: string, title: string, description: string, url: string, buttons: seq<TaskCardButton>)

  /** The `msgtype` of each builder (the WxWorkAppMessageType constants). */
  function MsgType(c: Content): string
  {
    match c
    case Text(_) => "text"
    case Markdown(_) => "markdown"
    case Image(_) => "image"
    case Voice(_) => "voice"
    case Video(_, _, _) => "video"
    case File(_) => "file"
    case TextCard(_, _, _, _) => "textcard"
    case News(_) => "news"
    case MpNews(_) => "mpnews"
    case MiniProgramNotice(_, _, _, _, _, _) => "miniprogram_notice"
    case TaskCard(_, _, _, _, _) => "taskcard"
  }

  /** The message kinds that also have a group-message builder. */
  predicate GroupSupported(c: Content)
  {
    !c.MiniProgramNotice? && !c.TaskCard?
  }

  function NewsArticleValue(a: NewsArticle): Value
  {
    Obj(map["title" := Str(a.title), "description" := Str(a.description), "url" := Str(a.url), "picurl" := Str(a.pictureURL)])
  }

  function MpNewsArticleValue(a: MpNewsArticle): Value
  {
    Obj(map["title" := Str(a.title), "thumb_media_id" := Str(a.thumbMediaID), "author" := Str(a.author),
            "content_source_url" := Str(a.contentSourceURL), "content" := Str(a.content), "digest" := Str(a.digest)])
  }

  function NoticeItemValue(i: NoticeItem): Value
  {
    Obj(map["key" := Str(i.key), "value" := Str(i.value)])
  }

  /** A task-card button; `color` and `is_bold` are `omitempty`. */
  function ButtonValue(b: TaskCardButton): Value
  {
    var fields := map["key" := Str(b.key), "name" := Str(b.name), "replace_name" := Str(b.replaceName)];
    var withColor := if b.color != "" then fields["color" := Str(b.color)] else fields;
    Obj(if b.isBold then withColor["is_bold" := Bool(true)] else withColor)
  }

  function StrList(xs: seq<string>): Value
  {
    List(seq(|xs|, i requires 0 <= i < |xs| => Str(xs[i])))
  }

  /** The object each application-message builder stores under its `msgtype`. */
  function Payload(c: Content): Value
  {
    match c
    case Text(content) => Obj(map["content" := Str(content)])
    case Markdown(content) => Obj(map["content" := Str(content)])
    case Image(mediaID) => Obj(map["media_id" := Str(mediaID)])
    case Voice(mediaID) => Obj(map["media_id" := Str(mediaID)])
    case Video(mediaID, title, description) =>
      Obj(map["media_id" := Str(mediaID), "title" := Str(title), "description" := Str(description)])
    case File(mediaID) => Obj(map["media_id" := Str(mediaID)])
    case TextCard(title, description, url, btnText) =>
      Obj(map["title" := Str(title), "description" := Str(description), "url" := Str(url), "btntxt" := Str(btnText)])
    case News(articles) =>
      Obj(map["articles" := List(seq(|articles|, i requires 0 <= i < |articles| => NewsArticleValue(articles[i])))])
    case MpNews(articles) =>
      Obj(map["articles" := List(seq(|articles|, i requires 0 <= i < |articles| => MpNewsArticleValue(articles[i])))])
    case MiniProgramNotice(appID, page, title, description, emphasisFirstItem, items) =>
      Obj(map["appid" := Str(appID), "page" := Str(page), "title" := Str(title), "description" := Str(description),
              "emphasis_first_item" := Bool(emphasisFirstItem),
              "content_item" := List(seq(|items|, i requires 0 <= i < |items| => NoticeItemValue(items[i])))])
    case TaskCard(taskID, title, description, url, buttons) =>
      Obj(map["task_id" := Str(taskID), "title" := Str(title), "description" := Str(description), "url" := Str(url),
              "btn" := List(seq(|buttons|, i requires 0 <= i < |buttons| => ButtonValue(buttons[i])))])
  }

  // ---------------------------------------------------------------------------
  // Application messages (message/send)
  // ---------------------------------------------------------------------------

  /** The keys an application message can carry only through its send options. */
  const OptionKeys: set<string> := {"safe", "enable_id_trans", "enable_duplicate_check", "duplicate_check_interval"}

  /** The keys every application message carries. */
  function AppKeys(c: Content): set<string>
  {
    {"touser", "toparty", "totag", "msgtype", "agentid", MsgType(c)}
  }

  /** The option block shared by all application-message builders. */
  function AddSendOptions(m: map<string, Value>, options: Option<SendOptions>): map<string, Value>
  {
    match options
    case None => m
    case Some(o) =>
      var m1 := if o.safe then m["safe" := Int(1)] else m;
      var m2 := if o.enableIDTrans then m1["enable_id_trans" := Int(1)] else m1;
      var m3 := if o.enableDuplicateCheck then m2["enable_duplicate_check" := Int(1)] else m2;
      if o.duplicateCheckInterval > 0 then m3["duplicate_check_interval" := Int(o.duplicateCheckInterval)] else m3
  }

  /**
   * The body built by the application-message builder for `c`: the joined
   * recipient lists, the fixed `msgtype`, the agent id, the content under the
   * `msgtype` key, and an option key exactly when its option asks for it.
   */
  function BuildAppMessage(agentID: string, userIDs: seq<string>, partyIDs: seq<string>, tagIDs: seq<string>,
                           c: Content, options: Option<SendOptions>): (m: map<string, Value>)
    ensures m.Keys == AppKeys(c) + (m.Keys * OptionKeys)
    ensures "touser" in m && m["touser"] == Recipients(userIDs)
    ensures "toparty" in m && m["toparty"] == Recipients(partyIDs)
    ensures "totag" in m && m["totag"] == Recipients(tagIDs)
    ensures "msgtype" in m && m["msgtype"] == Str(MsgType(c))
    ensures "agentid" in m && m["agentid"] == Str(agentID)
    ensures MsgType(c) in m && m[MsgType(c)] == Payload(c)
    ensures "safe" in m <==> options.Some? && options.value.safe
    ensures "enable_id_trans" in m <==> options.Some? && options.value.enableIDTrans
    ensures "enable_duplicate_check" in m <==> options.Some? && options.value.enableDuplicateCheck
    ensures "duplicate_check_interval" in m <==> options.Some? && options.value.duplicateCheckInterval > 0
    ensures "safe" in m ==> m["safe"] == Int(1)
    ensures "enable_id_trans" in m ==> m["enable_id_trans"] == Int(1)
    ensures "enable_duplicate_check" in m ==> m["enable_duplicate_check"] == Int(1)
    ensures "duplicate_check_interval" in m ==> m["duplicate_check_interval"] == Int(options.value.duplicateCheckInterval)
    ensures options.None? ==> m.Keys == AppKeys(c)
  {
    var base := map["touser" := Recipients(userIDs), "toparty" := Recipients(partyIDs), "totag" := Recipients(tagIDs),
                    "msgtype" := Str(MsgType(c)), "agentid" := Str(agentID), MsgType(c) := Payload(c)];
    AddSendOptions(base, options)
  }

  // ---------------------------------------------------------------------------
  // Group messages (appchat/send)
  // ---------------------------------------------------------------------------

  /**
   * The content object of the group builders as the source writes it: the
   * group text card stores the button text under `btntext`, where the
   * application text card, and the platform, use `btntxt`.
   */
  function GroupPayloadAsWritten(c: Content): Value
    requires GroupSupported(c)
  {
    match c
    case TextCard(title, description, url, btnText) =>
      Obj(map["title" := Str(title), "description" := Str(description), "url" := Str(url), "btntext" := Str(btnText)])
    case _ => Payload(c)
  }

  function GroupMessageWith(chatID: string, c: Content, content: Value, options: Option<SendOptions>): map<string, Value>
  {
    var base := map["chatid" := Str(chatID), "msgtype" := Str(MsgType(c)), MsgType(c) := content];
    if options.Some? && options.value.safe then base["safe" := Int(1)] else base
  }

  /** The group-message builders as written (`SendGroupTextMessage` ... `SendGroupMpNewsMessage`). */
  function BuildGroupMessageAsWritten(chatID: string, c: Content, options: Option<SendOptions>): (m: map<string, Value>)
    requires GroupSupported(c)
    ensures m.Keys == {"chatid", "msgtype", MsgType(c)} + (m.Keys * {"safe"})
    ensures m["chatid"] == Str(chatID) && m["msgtype"] == Str(MsgType(c))
    ensures m[MsgType(c)] == GroupPayloadAsWritten(c)
    ensures "safe" in m <==> options.Some? && options.value.safe
    ensures "safe" in m ==> m["safe"] == Int(1)
  {
    GroupMessageWith(chatID, c, GroupPayloadAsWritten(c), options)
  }

  /**
   * The group text card as written loses the button text under the key the
   * platform reads: its content has no `btntxt`, while the application text
   * card built from the same fields has it.
   */
  lemma GroupTextCardButtonMisplaced(chatID: string, agentID: string, title: string, description: string,
                                     url: string, btnText: string, options: Option<SendOptions>)
    ensures var c := TextCard(title, description, url, btnText);
      && "btntxt" !in BuildGroupMessageAsWritten(chatID, c, options)["textcard"].fields
      && BuildGroupMessageAsWritten(chatID, c, options)["textcard"].fields["btntext"] == Str(btnText)
      && BuildAppMessage(agentID, [], [], [], c, options)["textcard"].fields["btntxt"] == Str(btnText)
  {
  }

  /**
   * The group-message builders with the text card's button key corrected: the
   * chat id, the fixed `msgtype`, the same content object the application
   * builder stores, and `safe` only when the options are present and ask for it.
   */
  function BuildGroupMessage(chatID: string, c: Content, options: Option<SendOptions>): (m: map<string, Value>)
    requires GroupSupported(c)
    ensures m.Keys == {"chatid", "msgtype", MsgType(c)} + (m.Keys * {"safe"})
    ensures m["chatid"] == Str(chatID) && m["msgtype"] == Str(MsgType(c))
    ensures m[MsgType(c)] == Payload(c)
    ensures "safe" in m <==> options.Some? && options.value.safe
    ensures "safe" in m ==> m["safe"] == Int(1)
  {
    GroupMessageWith(chatID, c, Payload(c), options)
  }

  /**
   * With the correction, a group message and an application message of the
   * same content carry the same content object and agree on `safe`; the
   * builders differ only where the as-written text card does.
   */
  lemma GroupAgreesWithApp(chatID: string, agentID: string, userIDs: seq<string>, partyIDs: seq<string>,
                           tagIDs: seq<string>, c: Content, options: Option<SendOptions>)
    requires GroupSupported(c)
    ensures var g := BuildGroupMessage(chatID, c, options);
      var a := BuildAppMessage(agentID, userIDs, partyIDs, tagIDs, c, options);
      && g[MsgType(c)] == a[MsgType(c)]
      && g["msgtype"] == a["msgtype"]
      && ("safe" in g <==> "safe" in a)
    ensures !c.TextCard? ==> BuildGroupMessage(chatID, c, options) == BuildGroupMessageAsWritten(chatID, c, options)
  {
  }

  // ---------------------------------------------------------------------------
  // Group chat management bodies (appchat/create, appchat/update)
  // ---------------------------------------------------------------------------

  datatype CreateGroupOptions = CreateGroupOptions(chatID: string)

  datatype UpdateGroupOptions = UpdateGroupOptions(name: string, owner: string, addUserList: seq<string>, delUserList: seq<string>)

  /** `CreateGroupChat`'s body: `chatid` is sent exactly when options are given, even if empty. */
  function CreateGroupBody(name: string, ownerID: string, userIDs: seq<string>, options: Option<CreateGroupOptions>): (m: map<string, Value>)
    ensures m.Keys == {"name", "owner", "userlist"} + (if options.Some? then {"chatid"} else {})
    ensures m["name"] == Str(name) && m["owner"] == Str(ownerID) && m["userlist"] == StrList(userIDs)
    ensures options.Some? ==> m["chatid"] == Str(options.value.chatID)
  {
    var base := map["name" := Str(name), "owner" := Str(ownerID), "userlist" := StrList(userIDs)];
    if options.Some? then base["chatid" := Str(options.value.chatID)] else base
  }

  /** `UpdateGroupChat`'s body: the chat id, and all four update fields exactly when options are given. */
  function UpdateGroupBody(chatID: string, options: Option<UpdateGroupOptions>): (m: map<string, Value>)
    ensures m.Keys == {"chatid"} + (if options.Some? then {"name", "owner", "add_user_list", "del_user_list"} else {})
    ensures m["chatid"] == Str(chatID)
    ensures options.Some? ==>
      && m["name"] == Str(options.value.name) && m["owner"] == Str(options.value.owner)
      && m["add_user_list"] == StrList(options.value.addUserList)
      && m["del_user_list"] == StrList(options.value.delUserList)
  {
    match options
    case None => map["chatid" := Str(chatID)]
    case Some(o) =>
      map["chatid" := Str(chatID), "name" := Str(o.name), "owner" := Str(o.owner),
          "add_user_list" := StrList(o.addUserList), "del_user_list" := StrList(o.delUserList)]
  }
}
