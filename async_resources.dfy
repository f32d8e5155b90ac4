/**
 * The async services (huma_sdk/_async_resources.py): the variant of the
 * subscription client that closes the socket on a processed system frame,
 * its schema table, and `_AsyncServices`, which opens or reuses a chat,
 * sends a question and subscribes to the chat's updates.
 *
 * `on_open`, `construct_subscription_query`, `get_api_header` and
 * `construct_ws_connection_url` are the same code as in the helpers and
 * are the definitions of `AsyncHelpers`. `execute_gql` (an HTTP POST and
 * the decoding of its answer) is the parameter `gql`, from the request to
 * what it returns or raises; every request is also logged in the state.
 * `parse_json_response` of a frame's content is the parameter `parse`.
 * Starting the subscription thread is logged as a subscription request.
 */
module AsyncResources {
  import opened PyJson
  import AsyncHelpers

  // ---------------------------------------------------------------------
  // The close-on-processed message handler
  // ---------------------------------------------------------------------

  /** The system frame test: `contentType` is system and `contentsubType` is system or blocking. */
  function IsSystemFrame(payload: Json): (r: Outcome<bool>)
    ensures r.Raised? <==> !payload.JObj?
    ensures r.Returned? ==> (r.value <==>
      "contentType" in payload.fields && payload.fields["contentType"] == JStr("system")
      && "contentsubType" in payload.fields
      && payload.fields["contentsubType"] in [JStr("system"), JStr("blocking")])
  {
    match Get(payload, "contentType", JNull)
    case Raised(e) => Raised(e)
    case Returned(ct) =>
      if ct != JStr("system") then Returned(false)
      else
        match Get(payload, "contentsubType", JNull)
        case Raised(e) => Raised(e)
        case Returned(sub) => Returned(sub in [JStr("system"), JStr("blocking")])
  }

  /** `payload.get("content")`. */
  function ContentOf(payload: map<string, Json>): Json {
    if "content" in payload then payload["content"] else JNull
  }

  /** `is_processed` of a system frame's parsed content (None for any other frame). */
  function IsProcessed(payload: Json, parse: Json -> Outcome<Json>): Outcome<Json> {
    match IsSystemFrame(payload)
    case Raised(e) => Raised(e)
    case Returned(false) => Returned(JNull)
    case Returned(true) =>
      match parse(ContentOf(payload.fields))
      case Raised(e) => Raised(e)
      case Returned(content) => Get(content, "is_processed", JNull)
  }

  /**
   * `on_message` of this variant: `connection_ack` sends the start frame;
   * `data` computes `is_processed`, always calls the callback with the
   * subscription's entry and ignores its answer, then closes the socket
   * when `is_processed` is truthy.
   */
  function OnMessageReaction(c: AsyncHelpers.SubscriptionClient, netloc: Option<string> -> string, dumps: Json -> string,
                             query: string, variables: Json, callback: Json -> Outcome<Json>,
                             parse: Json -> Outcome<Json>, connectionName: string, message: Json): (r: Outcome<AsyncHelpers.Reaction>)
    ensures r.Returned? && r.value.send != [] ==> r.value.send == [AsyncHelpers.StartFrame(c, netloc, dumps, query, variables)]
    ensures r.Returned? ==> !(r.value.send != [] && r.value.close)
  {
    match Index(message, "type")
    case Raised(e) => Raised(e)
    case Returned(t) =>
      if t == JStr("connection_ack") then Returned(AsyncHelpers.Reaction([AsyncHelpers.StartFrame(c, netloc, dumps, query, variables)], false))
      else if t == JStr("data") then
        match Index2(message, "payload", "data")
        case Raised(e) => Raised(e)
        case Returned(data) =>
          match Get(data, connectionName, JNull)
          case Raised(e) => Raised(e)
          case Returned(payload) =>
            match IsProcessed(payload, parse)
            case Raised(e) => Raised(e)
            case Returned(processed) =>
              match callback(payload)
              case Raised(e) => Raised(e)
              case Returned(_) => Returned(AsyncHelpers.Reaction([], Truthy(processed)))
      else Returned(AsyncHelpers.Ignore)
  }

  /** `on_message` of this variant, acting on the socket; an exception leaves the socket as it was. */
  method OnMessage(c: AsyncHelpers.SubscriptionClient, netloc: Option<string> -> string, dumps: Json -> string,
                   query: string, variables: Json, callback: Json -> Outcome<Json>, parse: Json -> Outcome<Json>,
                   connectionName: string, ws: AsyncHelpers.Socket, message: Json)
      returns (out: Outcome<()>)
    modifies ws
    ensures var r := OnMessageReaction(c, netloc, dumps, query, variables, callback, parse, connectionName, message);
      && (r.Raised? ==> out == Raised(r.error) && ws.sent == old(ws.sent) && ws.closed == old(ws.closed))
      && (r.Returned? ==> out == Returned(()) && ws.sent == old(ws.sent) + r.value.send
                          && ws.closed == (old(ws.closed) || r.value.close))
  {
    var messageType := Index(message, "type");
    if messageType.Raised? {
      return Raised(messageType.error);
    }
    if messageType.value == JStr("connection_ack") {
      ws.Send(AsyncHelpers.StartFrame(c, netloc, dumps, query, variables));
    } else if messageType.value == JStr("data") {
      var data := Index2(message, "payload", "data");
      if data.Raised? {
        return Raised(data.error);
      }
      var payload := Get(data.value, connectionName, JNull);
      if payload.Raised? {
        return Raised(payload.error);
      }
      var processed := IsProcessed(payload.value, parse);
      if processed.Raised? {
        return Raised(processed.error);
      }
      var ignored := callback(payload.value);
      if ignored.Raised? {
        return Raised(ignored.error);
      }
      if Truthy(processed.value) {
        ws.Close();
      }
    }
    out := Returned(());
  }

  /**
   * For a `data` message, the socket is closed exactly for a system frame
   * (system or blocking subtype) whose parsed content has a truthy
   * `is_processed`, once the callback has run.
   */
  lemma ClosesExactlyOnProcessed(c: AsyncHelpers.SubscriptionClient, netloc: Option<string> -> string, dumps: Json -> string,
                                 query: string, variables: Json, callback: Json -> Outcome<Json>,
                                 parse: Json -> Outcome<Json>, connectionName: string, message: Json,
                                 payload: map<string, Json>)
    requires Index(message, "type") == Returned(JStr("data"))
    requires Index2(message, "payload", "data").Returned?
    requires Get(Index2(message, "payload", "data").value, connectionName, JNull) == Returned(JObj(payload))
    requires callback(JObj(payload)).Returned?
    ensures var r := OnMessageReaction(c, netloc, dumps, query, variables, callback, parse, connectionName, message);
      r.Returned? && r.value.close <==>
        && "contentType" in payload && payload["contentType"] == JStr("system")
        && "contentsubType" in payload && payload["contentsubType"] in [JStr("system"), JStr("blocking")]
        && parse(ContentOf(payload)).Returned? && parse(ContentOf(payload)).value.JObj?
        && var content := parse(ContentOf(payload)).value.fields;
           "is_processed" in content && Truthy(content["is_processed"])
  {
  }

  /** The callback's answer is ignored: two callbacks that both return give the same reaction. */
  lemma CallbackAnswerIgnored(c: AsyncHelpers.SubscriptionClient, netloc: Option<string> -> string, dumps: Json -> string,
                              query: string, variables: Json, cb1: Json -> Outcome<Json>, cb2: Json -> Outcome<Json>,
                              parse: Json -> Outcome<Json>, connectionName: string, message: Json)
    requires forall j :: cb1(j).Returned? && cb2(j).Returned?
    ensures OnMessageReaction(c, netloc, dumps, query, variables, cb1, parse, connectionName, message)
         == OnMessageReaction(c, netloc, dumps, query, variables, cb2, parse, connectionName, message)
  {
  }

  /** A data frame without a dict payload (a missing subscription entry is None) raises AttributeError. */
  lemma MissingEntryRaises(c: AsyncHelpers.SubscriptionClient, netloc: Option<string> -> string, dumps: Json -> string,
                           query: string, variables: Json, callback: Json -> Outcome<Json>,
                           parse: Json -> Outcome<Json>, connectionName: string, message: Json, data: map<string, Json>)
    requires Index(message, "type") == Returned(JStr("data"))
    requires Index2(message, "payload", "data") == Returned(JObj(data)) && connectionName !in data
    ensures OnMessageReaction(c, netloc, dumps, query, variables, callback, parse, connectionName, message)
         == Raised(AttributeError)
  {
  }

  // ---------------------------------------------------------------------
  // The schema table
  // ---------------------------------------------------------------------

  /** The seven `(type, version)` pairs of this table. */
  const ResourceSchemaPairs: set<(string, string)> := {
    ("NewChat", "v1"), ("NewChat", "v2"), ("SendMessage", "v1"), ("SendMessage", "v2"),
    ("ProcessUtterance", "v1"), ("GetMessages", "v1"), ("UpdateMessageSubscription", "v1")
  }

  /**
   * `AppsyncSchemaClient.get_schema` of the async resources: NewChat/v2 and
   * SendMessage/v2 give None (their bodies are `...`), the other entries
   * their text, any other pair "".
   */
  function GetSchema(type_: string, version: string, topic: Option<string>): (q: Option<AsyncHelpers.Query>)
    ensures q == None <==> (type_, version) in {("NewChat", "v2"), ("SendMessage", "v2")}
    ensures q == Some(AsyncHelpers.EmptyQuery) <==> (type_, version) !in ResourceSchemaPairs
    ensures (type_, version) == ("NewChat", "v1") ==> q == Some(AsyncHelpers.NewChatMutationV1(topic))
    ensures (type_, version) in ResourceSchemaPairs - {("NewChat", "v1"), ("NewChat", "v2"), ("SendMessage", "v2")} ==>
      q == Some(AsyncHelpers.Template(type_, version))
  {
    if (type_, version) == ("NewChat", "v1") then Some(AsyncHelpers.NewChatMutationV1(topic))
    else if (type_, version) in {("NewChat", "v2"), ("SendMessage", "v2")} then None
    else if (type_, version) in ResourceSchemaPairs then Some(AsyncHelpers.Template(type_, version))
    else Some(AsyncHelpers.EmptyQuery)
  }

  /** On its v1 entries, and outside both tables, this table agrees with the helpers' table. */
  lemma SchemaTablesAgreeOnV1(type_: string, version: string, topic: Option<string>)
    requires ((type_, version) in ResourceSchemaPairs && version == "v1")
             || (type_, version) !in ResourceSchemaPairs + AsyncHelpers.HelperSchemaPairs
    ensures AsyncHelpers.GetSchema(type_, version, topic) == Returned(GetSchema(type_, version, topic).value)
  {
  }

  // ---------------------------------------------------------------------
  // `_AsyncServices`
  // ---------------------------------------------------------------------

  /** One call of `execute_gql`: the POST's URL, headers and JSON body. */
  datatype GqlRequest = GqlRequest(url: Option<string>, headers: map<string, string>, query: Option<AsyncHelpers.Query>, variables: Json)

  /** One call of `handle_subscription`. */
  datatype SubscriptionRequest = SubscriptionRequest(query: Option<AsyncHelpers.Query>, variables: Json, connectionName: string)

  /** The fields of an `_AsyncServices` object, with the requests it has made so far. */
  datatype Services = Services(serviceName: Option<string>, apiVersion: string, client: AsyncHelpers.SubscriptionClient,
                               chatId: Json, messageId: Json, shouldStop: bool, finalMessages: Json,
                               requests: seq<GqlRequest>, subscriptions: seq<SubscriptionRequest>)

  /** The state after an operation, and what it returned or raised. */
  datatype Step<+T> = Step(after: Services, out: Outcome<T>)

  /** `_AsyncServices.__init__`: the version defaults to v1, no chat and no message yet. */
  function NewServices(serviceName: Option<string>, apiVersion: Option<string>, client: AsyncHelpers.SubscriptionClient): (s: Services)
    ensures s.apiVersion == (if TruthyStr(apiVersion) then apiVersion.value else "v1")
    ensures s.chatId == JNull && s.messageId == JNull && !s.shouldStop && s.finalMessages == JNull
    ensures s.requests == [] && s.subscriptions == []
  {
    Services(serviceName, OrElse(apiVersion, "v1"), client, JNull, JNull, false, JNull, [], [])
  }

  /** `get_headers`: only the bearer token. */
  function GetHeaders(s: Services): (h: map<string, string>)
    ensures h.Keys == {"authorization"} && h["authorization"] == "Bearer " + Render(s.client.apiSecretKey)
  {
    map["authorization" := "Bearer " + Render(s.client.apiSecretKey)]
  }

  /** `execute_gql`: one POST to the GraphQL URL with the bearer header. */
  function ExecuteGqlOn(s: Services, gql: GqlRequest -> Outcome<Json>, query: Option<AsyncHelpers.Query>, variables: Json): (st: Step<Json>)
    ensures st.after == s.(requests := s.requests + [GqlRequest(s.client.graphqlApiUrl, GetHeaders(s), query, variables)])
    ensures st.out == gql(st.after.requests[|s.requests|])
  {
    var request := GqlRequest(s.client.graphqlApiUrl, GetHeaders(s), query, variables);
    Step(s.(requests := s.requests + [request]), gql(request))
  }

  /** The variables of `process_utterance`. */
  function UtteranceVariables(s: Services, content: string): Json {
    JObj(map["chatId" := s.chatId, "respondingToMessageId" := s.messageId, "utterance" := JStr(content)])
  }

  /** `process_utterance`: hands the utterance to the processing queue. */
  function ProcessUtteranceOn(s: Services, gql: GqlRequest -> Outcome<Json>, content: string): Step<Json> {
    ExecuteGqlOn(s, gql, GetSchema("ProcessUtterance", s.apiVersion, None), UtteranceVariables(s, content))
  }

  /** `start_new_chat`: the new chat's id becomes `chat_id`; a malformed answer raises and leaves it. */
  function StartNewChatOn(s: Services, gql: GqlRequest -> Outcome<Json>, topic: Option<string>): (st: Step<()>)
    ensures |st.after.requests| == |s.requests| + 1 && st.after.requests[..|s.requests|] == s.requests
    ensures st.after.requests[|s.requests|].query == GetSchema("NewChat", s.apiVersion, topic)
    ensures st.after.subscriptions == s.subscriptions && st.after.messageId == s.messageId
    ensures st.out.Returned? ==> var answer := gql(st.after.requests[|s.requests|]);
      answer.Returned? && Index3(answer.value, "data", "newChat", "id") == Returned(st.after.chatId)
    ensures st.out.Raised? ==> st.after.chatId == s.chatId
  {
    var e := ExecuteGqlOn(s, gql, GetSchema("NewChat", s.apiVersion, topic), JNull);
    assert e.after.requests[..|s.requests|] == s.requests;
    match e.out
    case Raised(err) => Step(e.after, Raised(err))
    case Returned(response) =>
      match Index3(response, "data", "newChat", "id")
      case Raised(err) => Step(e.after, Raised(err))
      case Returned(id) => Step(e.after.(chatId := id), Returned(()))
  }

  /** The variables of `send_message`. */
  function MessageVariables(s: Services, content: string): Json {
    JObj(map[
      "chatId" := s.chatId,
      "message" := JObj(map["respondingToMessageId" := JStr(""), "contentType" := JStr("question"),
                            "content" := JStr(content), "isNewChat" := JBool(true)]),
      "source" := JStr("bot")])
  }

  /** `send_message`: the message id of the answer becomes `message_id`, then the utterance is processed. */
  function SendMessageOn(s: Services, gql: GqlRequest -> Outcome<Json>, content: string): Step<()> {
    var e := ExecuteGqlOn(s, gql, GetSchema("SendMessage", s.apiVersion, None), MessageVariables(s, content));
    match e.out
    case Raised(err) => Step(e.after, Raised(err))
    case Returned(response) =>
      match Index3(response, "data", "sendMessage", "messageId")
      case Raised(err) => Step(e.after, Raised(err))
      case Returned(id) =>
        var p := ProcessUtteranceOn(e.after.(messageId := id), gql, content);
        match p.out
        case Raised(err) => Step(p.after, Raised(err))
        case Returned(_) => Step(p.after, Returned(()))
  }

  /** The variables of `get_message`. */
  function LookupVariables(chatId: string): Json {
    JObj(map["chatId" := JStr(chatId), "limit" := JNum(1), "type" := JStr("status")])
  }

  /**
   * `get_message` as written: the version is passed as `api_version=`, so
   * `get_schema` looks up `("GetMessages", "")` and sends the empty query.
   */
  function GetMessageAsWrittenOn(s: Services, gql: GqlRequest -> Outcome<Json>, chatId: string): Step<Json> {
    ExecuteGqlOn(s, gql, GetSchema("GetMessages", "", None), LookupVariables(chatId))
  }

  /** `get_message` with the version passed as `version=`: the chat's messages are looked up. */
  function GetMessageOn(s: Services, gql: GqlRequest -> Outcome<Json>, chatId: string): Step<Json> {
    ExecuteGqlOn(s, gql, GetSchema("GetMessages", s.apiVersion, None), LookupVariables(chatId))
  }

  /** As written, the chat lookup always sends the empty query; with `version=` a v1 service sends the GetMessages query. */
  lemma GetMessageQueries(s: Services, gql: GqlRequest -> Outcome<Json>, chatId: string)
    ensures GetMessageAsWrittenOn(s, gql, chatId).after.requests[|s.requests|].query == Some(AsyncHelpers.EmptyQuery)
    ensures s.apiVersion == "v1" ==>
      GetMessageOn(s, gql, chatId).after.requests[|s.requests|].query == Some(AsyncHelpers.Template("GetMessages", "v1"))
  {
  }

  /** `subscribe_to_messages`: subscribe to the updates of the current chat. */
  function SubscribeToMessagesOn(s: Services): Services {
    s.(subscriptions := s.subscriptions +
      [SubscriptionRequest(GetSchema("UpdateMessageSubscription", s.apiVersion, None),
                           JObj(map["chatId" := s.chatId]), "subscribeUpdateMessage")])
  }

  /** What `ask_question` returns: None, or (not raises) an `Exception("Wrong thread Id")`. */
  datatype AskResult = Asked | WrongThreadId

  /**
   * `ask_question`: without a thread id a new chat is started (titled by
   * the topic or the question); otherwise the thread is looked up and a
   * falsy answer returns the wrong-thread exception without sending. Then
   * the question is sent and the chat subscribed to.
   */
  function AskQuestionOn(s: Services, gql: GqlRequest -> Outcome<Json>, question: string, threadId: Option<string>,
                       topic: Option<string>): Step<AskResult> {
    var chat := OpenChatOn(s, gql, question, threadId, topic);
    match chat.out
    case Raised(err) => Step(chat.after, Raised(err))
    case Returned(ok) =>
      if !ok then Step(chat.after, Returned(WrongThreadId))
      else
        var m := SendMessageOn(chat.after, gql, question);
        match m.out
        case Raised(err) => Step(m.after, Raised(err))
        case Returned(_) => Step(SubscribeToMessagesOn(m.after), Returned(Asked))
  }

  /**
   * The first half of `ask_question`: start a new chat, or look the thread
   * up and make it the current chat. Returns whether to go on sending.
   */
  function OpenChatOn(s: Services, gql: GqlRequest -> Outcome<Json>, question: string, threadId: Option<string>,
                      topic: Option<string>): Step<bool> {
    if !TruthyStr(threadId) then
      var st := StartNewChatOn(s, gql, Some(OrElse(topic, question)));
      match st.out
      case Raised(err) => Step(st.after, Raised(err))
      case Returned(_) => Step(st.after, Returned(true))
    else
      var g := GetMessageOn(s, gql, threadId.value);
      match g.out
      case Raised(err) => Step(g.after, Raised(err))
      case Returned(response) =>
        if !Truthy(response) then Step(g.after, Returned(false))
        else Step(g.after.(chatId := JStr(threadId.value)), Returned(true))
  }

  /** `new_chat`: start a chat and return its id. */
  function NewChatOn(s: Services, gql: GqlRequest -> Outcome<Json>, topic: Option<string>): Step<Json> {
    var st := StartNewChatOn(s, gql, topic);
    match st.out
    case Raised(err) => Step(st.after, Raised(err))
    case Returned(_) => Step(st.after, Returned(st.after.chatId))
  }

  /**
   * `_make_async_request`: Questions asks and answers "SUCCEEDED" (also
   * when `ask_question` returned the wrong-thread exception), Threads
   * starts a chat titled by the topic or the question and answers its id,
   * any other service answers None and does nothing.
   */
  function MakeAsyncRequestOn(s: Services, gql: GqlRequest -> Outcome<Json>, question: string, topic: Option<string>,
                            threadId: Option<string>): Step<Json> {
    if s.serviceName == Some("Questions") then
      var a := AskQuestionOn(s, gql, question, threadId, topic);
      match a.out
      case Raised(err) => Step(a.after, Raised(err))
      case Returned(_) => Step(a.after, Returned(JStr("SUCCEEDED")))
    else if s.serviceName == Some("Threads") then NewChatOn(s, gql, Some(OrElse(topic, question)))
    else Step(s, Returned(JNull))
  }

  /** `on_update_message`: the content it prints, for stream frames and analyser/visual frames only. */
  function OnUpdateMessage(data: Json): (r: Outcome<Option<Json>>)
    ensures r.Returned? && r.value.Some? ==>
      data.JObj? && "contentType" in data.fields && "content" in data.fields && r.value.value == data.fields["content"]
      && (data.fields["contentType"] == JStr("stream")
          || (data.fields["contentType"] == JStr("analyser") && "contentsubType" in data.fields
              && data.fields["contentsubType"] == JStr("visual")))
    ensures (data.JObj? && "contentType" in data.fields && data.fields["contentType"] != JStr("stream")
             && data.fields["contentType"] != JStr("analyser")) ==> r == Returned(None)
    ensures (data.JObj? && "contentType" in data.fields && "content" in data.fields
             && (data.fields["contentType"] == JStr("stream")
                 || (data.fields["contentType"] == JStr("analyser") && "contentsubType" in data.fields
                     && data.fields["contentsubType"] == JStr("visual"))))
            ==> r == Returned(Some(data.fields["content"]))
    ensures (data.JObj? && "contentType" in data.fields && data.fields["contentType"] == JStr("analyser")
             && "contentsubType" in data.fields && data.fields["contentsubType"] != JStr("visual"))
            ==> r == Returned(None)
    ensures !data.JObj? ==> r == Raised(TypeError)
    ensures data.JObj? && "contentType" !in data.fields ==> r == Raised(KeyError)
    ensures (data.JObj? && "contentType" in data.fields && data.fields["contentType"] == JStr("analyser")
             && "contentsubType" !in data.fields) ==> r == Raised(KeyError)
  {
    match Index(data, "contentType")
    case Raised(e) => Raised(e)
    case Returned(ct) =>
      if ct == JStr("stream") then
        (match Index(data, "content")
         case Raised(e) => Raised(e)
         case Returned(content) => Returned(Some(content)))
      else if ct != JStr("analyser") then Returned(None)
      else
        match Index(data, "contentsubType")
        case Raised(e) => Raised(e)
        case Returned(sub) =>
          if sub != JStr("visual") then Returned(None)
          else
            match Index(data, "content")
            case Raised(e) => Raised(e)
            case Returned(content) => Returned(Some(content))
  }

  // ---------------------------------------------------------------------
  // What asking promises
  // ---------------------------------------------------------------------

  /** A thread whose lookup answers falsy gets the wrong-thread result: only the lookup was sent, nothing subscribed. */
  lemma WrongThreadSendsNothing(s: Services, gql: GqlRequest -> Outcome<Json>, question: string, threadId: string,
                                topic: Option<string>)
    requires threadId != ""
    requires var g := GetMessageOn(s, gql, threadId); g.out.Returned? && !Truthy(g.out.value)
    ensures var a := AskQuestionOn(s, gql, question, Some(threadId), topic);
      && a == Step(GetMessageOn(s, gql, threadId).after, Returned(WrongThreadId))
      && a.after.requests == s.requests + [GqlRequest(s.client.graphqlApiUrl, GetHeaders(s),
                                                       GetSchema("GetMessages", s.apiVersion, None),
                                                       LookupVariables(threadId))]
      && a.after.subscriptions == s.subscriptions && a.after.chatId == s.chatId
  {
  }

  /** ... and `_make_async_request` still answers "SUCCEEDED" for it. */
  lemma WrongThreadStillSucceeds(s: Services, gql: GqlRequest -> Outcome<Json>, question: string, threadId: string,
                                 topic: Option<string>)
    requires s.serviceName == Some("Questions") && threadId != ""
    requires var g := GetMessageOn(s, gql, threadId); g.out.Returned? && !Truthy(g.out.value)
    ensures MakeAsyncRequestOn(s, gql, question, topic, Some(threadId)).out == Returned(JStr("SUCCEEDED"))
    ensures MakeAsyncRequestOn(s, gql, question, topic, Some(threadId)).after.subscriptions == s.subscriptions
  {
    WrongThreadSendsNothing(s, gql, question, threadId, topic);
  }

  /**
   * An existing thread that is found: the lookup, the message and the
   * utterance are sent in that order, for that chat, and the chat is
   * subscribed to once.
   */
  lemma {:induction false} ExistingThreadOrder(s: Services, gql: GqlRequest -> Outcome<Json>, question: string,
                                               threadId: string, topic: Option<string>)
    requires threadId != ""
    requires var a := AskQuestionOn(s, gql, question, Some(threadId), topic); a.out == Returned(Asked)
    ensures var a := AskQuestionOn(s, gql, question, Some(threadId), topic);
      && |a.after.requests| == |s.requests| + 3
      && a.after.requests[..|s.requests|] == s.requests
      && a.after.requests[|s.requests|].query == GetSchema("GetMessages", s.apiVersion, None)
      && a.after.requests[|s.requests| + 1].query == GetSchema("SendMessage", s.apiVersion, None)
      && a.after.requests[|s.requests| + 2].query == GetSchema("ProcessUtterance", s.apiVersion, None)
      && a.after.chatId == JStr(threadId)
      && a.after.subscriptions == s.subscriptions +
           [SubscriptionRequest(GetSchema("UpdateMessageSubscription", s.apiVersion, None),
                                JObj(map["chatId" := JStr(threadId)]), "subscribeUpdateMessage")]
  {
    AskExistingSteps(s, gql, question, threadId, topic);
    var g := GetMessageOn(s, gql, threadId);
    var found := g.after.(chatId := JStr(threadId));
    var m := SendMessageOn(found, gql, question);
    SendMessageShape(found, gql, question);
    var n := |s.requests|;
    assert found.requests == s.requests + [found.requests[n]];
    assert m.after.requests[..n + 1] == found.requests;
    assert m.after.requests[..n] == found.requests[..n];
  }

  /** A found thread that was asked: the lookup answered truthy, the message was sent, and the chat was then subscribed to. */
  lemma AskExistingSteps(s: Services, gql: GqlRequest -> Outcome<Json>, question: string, threadId: string,
                         topic: Option<string>)
    requires threadId != ""
    requires AskQuestionOn(s, gql, question, Some(threadId), topic).out == Returned(Asked)
    ensures var m := SendMessageOn(GetMessageOn(s, gql, threadId).after.(chatId := JStr(threadId)), gql, question);
      && m.out.Returned?
      && AskQuestionOn(s, gql, question, Some(threadId), topic).after == SubscribeToMessagesOn(m.after)
  {
    var c := OpenChatOn(s, gql, question, Some(threadId), topic);
    assert c.out == Returned(true);
    assert c.after == GetMessageOn(s, gql, threadId).after.(chatId := JStr(threadId));
  }

  /** `send_message` sends the message, then the utterance, for the same chat; nothing else changes but the message id. */
  lemma SendMessageShape(s: Services, gql: GqlRequest -> Outcome<Json>, content: string)
    ensures var m := SendMessageOn(s, gql, content);
      && m.after.chatId == s.chatId && m.after.subscriptions == s.subscriptions
      && m.after.requests[..|s.requests|] == s.requests
      && |m.after.requests| > |s.requests|
      && m.after.requests[|s.requests|].query == GetSchema("SendMessage", s.apiVersion, None)
      && m.after.requests[|s.requests|].variables == MessageVariables(s, content)
      && (m.out.Returned? ==>
            |m.after.requests| == |s.requests| + 2
            && m.after.requests[|s.requests| + 1].query == GetSchema("ProcessUtterance", s.apiVersion, None))
  {
    var e := ExecuteGqlOn(s, gql, GetSchema("SendMessage", s.apiVersion, None), MessageVariables(s, content));
    assert e.after.requests[..|s.requests|] == s.requests;
    if e.out.Returned? && Index3(e.out.value, "data", "sendMessage", "messageId").Returned? {
      var id := Index3(e.out.value, "data", "sendMessage", "messageId").value;
      var p := ProcessUtteranceOn(e.after.(messageId := id), gql, content);
      assert p.after.requests == e.after.requests + [p.after.requests[|e.after.requests|]];
      assert p.after.requests[..|s.requests|] == s.requests;
    }
  }

  /**
   * With API version v1 and without a thread id, a new chat titled by the
   * topic (or else the question) is opened first. On v2 the NewChat query
   * is None, so no titled chat is sent.
   */
  lemma NewThreadOpensChat(s: Services, gql: GqlRequest -> Outcome<Json>, question: string, topic: Option<string>)
    requires s.apiVersion == "v1"
    ensures var a := AskQuestionOn(s, gql, question, None, topic);
      && |a.after.requests| > |s.requests|
      && a.after.requests[|s.requests|].query ==
           Some(AsyncHelpers.NewChatText(if TruthyStr(topic) then topic.value else if question != "" then question else "New Chat"))
  {
    var st := StartNewChatOn(s, gql, Some(OrElse(topic, question)));
    if st.out.Returned? {
      SendMessageShape(st.after, gql, question);
      var m := SendMessageOn(st.after, gql, question);
      assert m.after.requests[|s.requests|] == m.after.requests[..|st.after.requests|][|s.requests|];
    }
  }

  /** Threads answers the id of the chat it started; a service other than Questions and Threads does nothing. */
  lemma MakeAsyncRequestByService(s: Services, gql: GqlRequest -> Outcome<Json>, question: string, topic: Option<string>,
                                  threadId: Option<string>)
    ensures s.serviceName != Some("Questions") && s.serviceName != Some("Threads") ==>
      MakeAsyncRequestOn(s, gql, question, topic, threadId) == Step(s, Returned(JNull))
    ensures var r := MakeAsyncRequestOn(s, gql, question, topic, threadId);
      s.serviceName == Some("Threads") && r.out.Returned? ==> r.out.value == r.after.chatId
    ensures var r := MakeAsyncRequestOn(s, gql, question, topic, threadId);
      s.serviceName == Some("Questions") && r.out.Returned? ==> r.out.value == JStr("SUCCEEDED")
  {
  }

  /** The object itself: its fields, and the requests and subscriptions it has made. */
  class AsyncServices {
    var serviceName: Option<string>
    var apiVersion: string
    var client: AsyncHelpers.SubscriptionClient
    var chatId: Json
    var messageId: Json
    var shouldStop: bool
    var finalMessages: Json
    var requests: seq<GqlRequest>
    var subscriptions: seq<SubscriptionRequest>

    function State(): Services
      reads this
    {
      Services(serviceName, apiVersion, client, chatId, messageId, shouldStop, finalMessages, requests, subscriptions)
    }

    /** `_AsyncServices.__init__` (the client settings come from `SubscriptionClient.__init__`). */
    constructor (serviceName: Option<string>, apiVersion: Option<string>, client: AsyncHelpers.SubscriptionClient)
      ensures State() == NewServices(serviceName, apiVersion, client)
    {
      this.serviceName := serviceName;
      this.apiVersion := OrElse(apiVersion, "v1");
      this.client := client;
      chatId, messageId, shouldStop, finalMessages := JNull, JNull, false, JNull;
      requests, subscriptions := [], [];
    }

    method ExecuteGql(gql: GqlRequest -> Outcome<Json>, query: Option<AsyncHelpers.Query>, variables: Json) returns (out: Outcome<Json>)
      modifies this
      ensures var st := ExecuteGqlOn(old(State()), gql, query, variables); State() == st.after && out == st.out
    {
      var request := GqlRequest(client.graphqlApiUrl, GetHeaders(State()), query, variables);
      requests := requests + [request];
      out := gql(request);
    }

    method ProcessUtterance(gql: GqlRequest -> Outcome<Json>, content: string) returns (out: Outcome<Json>)
      modifies this
      ensures var st := ProcessUtteranceOn(old(State()), gql, content); State() == st.after && out == st.out
    {
      var query := GetSchema("ProcessUtterance", apiVersion, None);
      out := ExecuteGql(gql, query, UtteranceVariables(State(), content));
    }

    method StartNewChat(gql: GqlRequest -> Outcome<Json>, topic: Option<string>) returns (out: Outcome<()>)
      modifies this
      ensures var st := StartNewChatOn(old(State()), gql, topic); State() == st.after && out == st.out
    {
      var query := GetSchema("NewChat", apiVersion, topic);
      var response := ExecuteGql(gql, query, JNull);
      if response.Raised? {
        return Raised(response.error);
      }
      var id := Index3(response.value, "data", "newChat", "id");
      if id.Raised? {
        return Raised(id.error);
      }
      chatId := id.value;
      out := Returned(());
    }

    method SendMessage(gql: GqlRequest -> Outcome<Json>, content: string) returns (out: Outcome<()>)
      modifies this
      ensures var st := SendMessageOn(old(State()), gql, content); State() == st.after && out == st.out
    {
      var query := GetSchema("SendMessage", apiVersion, None);
      var response := ExecuteGql(gql, query, MessageVariables(State(), content));
      if response.Raised? {
        return Raised(response.error);
      }
      var id := Index3(response.value, "data", "sendMessage", "messageId");
      if id.Raised? {
        return Raised(id.error);
      }
      messageId := id.value;
      var submitted := ProcessUtterance(gql, content);
      if submitted.Raised? {
        return Raised(submitted.error);
      }
      out := Returned(());
    }

    method GetMessage(gql: GqlRequest -> Outcome<Json>, chat: string) returns (out: Outcome<Json>)
      modifies this
      ensures var st := GetMessageOn(old(State()), gql, chat); State() == st.after && out == st.out
    {
      var query := GetSchema("GetMessages", apiVersion, None);
      out := ExecuteGql(gql, query, LookupVariables(chat));
    }

    method SubscribeToMessages()
      modifies this
      ensures State() == SubscribeToMessagesOn(old(State()))
    {
      var schema := GetSchema("UpdateMessageSubscription", apiVersion, None);
      subscriptions := subscriptions + [SubscriptionRequest(schema, JObj(map["chatId" := chatId]), "subscribeUpdateMessage")];
    }

    method AskQuestion(gql: GqlRequest -> Outcome<Json>, question: string, threadId: Option<string>, topic: Option<string>)
        returns (out: Outcome<AskResult>)
      modifies this
      ensures var st := AskQuestionOn(old(State()), gql, question, threadId, topic);
        State() == st.after && out == st.out
    {
      if !TruthyStr(threadId) {
        var started := StartNewChat(gql, Some(OrElse(topic, question)));
        if started.Raised? {
          return Raised(started.error);
        }
      } else {
        var response := GetMessage(gql, threadId.value);
        if response.Raised? {
          return Raised(response.error);
        }
        if !Truthy(response.value) {
          return Returned(WrongThreadId);
        }
        chatId := JStr(threadId.value);
      }
      var sent := SendMessage(gql, question);
      if sent.Raised? {
        return Raised(sent.error);
      }
      SubscribeToMessages();
      out := Returned(Asked);
    }

    method NewChat(gql: GqlRequest -> Outcome<Json>, topic: Option<string>) returns (out: Outcome<Json>)
      modifies this
      ensures var st := NewChatOn(old(State()), gql, topic); State() == st.after && out == st.out
    {
      var started := StartNewChat(gql, topic);
      if started.Raised? {
        return Raised(started.error);
      }
      out := Returned(chatId);
    }

    method MakeAsyncRequest(gql: GqlRequest -> Outcome<Json>, question: string, topic: Option<string>,
                            threadId: Option<string>)
        returns (out: Outcome<Json>)
      modifies this
      ensures var st := MakeAsyncRequestOn(old(State()), gql, question, topic, threadId);
        State() == st.after && out == st.out
    {
      if serviceName == Some("Questions") {
        var asked := AskQuestion(gql, question, threadId, topic);
        if asked.Raised? {
          return Raised(asked.error);
        }
        out := Returned(JStr("SUCCEEDED"));
      } else if serviceName == Some("Threads") {
        out := NewChat(gql, Some(OrElse(topic, question)));
      } else {
        out := Returned(JNull);
      }
    }
  }
}
