/**
 * The graphql-ws subscription client and the schema table of the async
 * helpers (huma_sdk/_helpers/async_helpers.py).
 *
 * The WebSocket is a `Socket` object that records the frames sent to it
 * and whether it was closed; a frame is recorded as the value that
 * `json.dumps` serialises. `json.dumps` of the subscription request,
 * `urlparse(...).netloc`, and the base64 encoding of the header are
 * parameters (`dumps`, `netloc`, `encode`). A received message is given
 * as the value `parse_json_response` produced for it.
 */
module AsyncHelpers {
  import opened PyJson

  /** The key and GraphQL endpoint of a client, after the environment fallback. */
  datatype SubscriptionClient = SubscriptionClient(apiSecretKey: Option<string>, graphqlApiUrl: Option<string>)

  /** `SubscriptionClient.__init__`: each setting, or its environment variable when the argument is falsy. */
  function NewSubscriptionClient(apiSecretKey: Option<string>, graphqlApiUrl: Option<string>,
                                 envSecretKey: Option<string>, envApiUrl: Option<string>): (c: SubscriptionClient)
    ensures TruthyStr(apiSecretKey) ==> c.apiSecretKey == apiSecretKey
    ensures !TruthyStr(apiSecretKey) ==> c.apiSecretKey == envSecretKey
    ensures TruthyStr(graphqlApiUrl) ==> c.graphqlApiUrl == graphqlApiUrl
    ensures !TruthyStr(graphqlApiUrl) ==> c.graphqlApiUrl == envApiUrl
  {
    SubscriptionClient(Or(apiSecretKey, envSecretKey), Or(graphqlApiUrl, envApiUrl))
  }

  /** The WebSocket as the handlers use it: the frames sent, in order, and whether it was closed. */
  class Socket {
    var sent: seq<Json>
    var closed: bool

    constructor ()
      ensures sent == [] && !closed
    {
      sent := [];
      closed := false;
    }

    method Send(frame: Json)
      modifies this
      ensures sent == old(sent) + [frame] && closed == old(closed)
    {
      sent := sent + [frame];
    }

    method Close()
      modifies this
      ensures closed && sent == old(sent)
    {
      closed := true;
    }
  }

  /** `extract_host`: the network location of the GraphQL URL. */
  function ExtractHost(c: SubscriptionClient, netloc: Option<string> -> string): string {
    netloc(c.graphqlApiUrl)
  }

  /** `get_api_header`: exactly `host` and `authorization`. */
  function GetApiHeader(c: SubscriptionClient, netloc: Option<string> -> string): (h: map<string, Json>)
    ensures h.Keys == {"host", "authorization"}
    ensures h["host"] == JStr(ExtractHost(c, netloc)) && h["authorization"] == OptStr(c.apiSecretKey)
  {
    map["host" := JStr(ExtractHost(c, netloc)), "authorization" := OptStr(c.apiSecretKey)]
  }

  /** `construct_subscription_query`: the JSON text of `{query, variables}`. */
  function ConstructSubscriptionQuery(dumps: Json -> string, query: string, variables: Json): string {
    dumps(JObj(map["query" := JStr(query), "variables" := variables]))
  }

  /** The frame `on_open` sends. */
  const ConnectionInit: Json :=
    JObj(map["type" := JStr("connection_init"), "payload" := JObj(map["connectionTimeoutMs" := JNum(300000000)])])

  /** The `start` frame sent on `connection_ack`. */
  function StartFrame(c: SubscriptionClient, netloc: Option<string> -> string, dumps: Json -> string,
                      query: string, variables: Json): Json {
    JObj(map[
      "id" := JStr("1"),
      "type" := JStr("start"),
      "payload" := JObj(map[
        "data" := JStr(ConstructSubscriptionQuery(dumps, query, variables)),
        "extensions" := JObj(map["authorization" := JObj(GetApiHeader(c, netloc))])])])
  }

  /** What one received message makes the handler do: the frames it sends, then whether it closes the socket. */
  datatype Reaction = Reaction(send: seq<Json>, close: bool)

  const Ignore: Reaction := Reaction([], false)

  /**
   * `on_message` of `create_on_message`: `connection_ack` sends the start
   * frame; `data` hands `payload.data[connection_name]` (None when absent)
   * to the callback and closes the socket when it answers truthy; any other
   * type does nothing. Reading a missing `type` or `payload.data` raises,
   * as does the callback.
   */
  function OnMessageReaction(c: SubscriptionClient, netloc: Option<string> -> string, dumps: Json -> string,
                             query: string, variables: Json, callback: Json -> Outcome<Json>,
                             connectionName: string, message: Json): (r: Outcome<Reaction>)
    ensures r.Returned? && r.value.send != [] ==> r.value.send == [StartFrame(c, netloc, dumps, query, variables)]
    ensures r.Returned? ==> !(r.value.send != [] && r.value.close)
  {
    match Index(message, "type")
    case Raised(e) => Raised(e)
    case Returned(t) =>
      if t == JStr("connection_ack") then Returned(Reaction([StartFrame(c, netloc, dumps, query, variables)], false))
      else if t == JStr("data") then
        match Index2(message, "payload", "data")
        case Raised(e) => Raised(e)
        case Returned(data) =>
          match Get(data, connectionName, JNull)
          case Raised(e) => Raised(e)
          case Returned(payload) =>
            match callback(payload)
            case Raised(e) => Raised(e)
            case Returned(verdict) => Returned(Reaction([], Truthy(verdict)))
      else Returned(Ignore)
  }

  /** `on_open`: exactly one `connection_init` frame. */
  method OnOpen(ws: Socket)
    modifies ws
    ensures ws.sent == old(ws.sent) + [ConnectionInit] && ws.closed == old(ws.closed)
  {
    ws.Send(ConnectionInit);
  }

  /** `on_message`, acting on the socket; an exception leaves the socket as it was. */
  method OnMessage(c: SubscriptionClient, netloc: Option<string> -> string, dumps: Json -> string,
                   query: string, variables: Json, callback: Json -> Outcome<Json>, connectionName: string,
                   ws: Socket, message: Json)
      returns (out: Outcome<()>)
    modifies ws
    ensures var r := OnMessageReaction(c, netloc, dumps, query, variables, callback, connectionName, message);
      && (r.Raised? ==> out == Raised(r.error) && ws.sent == old(ws.sent) && ws.closed == old(ws.closed))
      && (r.Returned? ==> out == Returned(()) && ws.sent == old(ws.sent) + r.value.send
                          && ws.closed == (old(ws.closed) || r.value.close))
  {
    var messageType := Index(message, "type");
    if messageType.Raised? {
      return Raised(messageType.error);
    }
    if messageType.value == JStr("connection_ack") {
      ws.Send(StartFrame(c, netloc, dumps, query, variables));
    } else if messageType.value == JStr("data") {
      var data := Index2(message, "payload", "data");
      if data.Raised? {
        return Raised(data.error);
      }
      var payload := Get(data.value, connectionName, JNull);
      if payload.Raised? {
        return Raised(payload.error);
      }
      var verdict := callback(payload.value);
      if verdict.Raised? {
        return Raised(verdict.error);
      }
      if Truthy(verdict.value) {
        ws.Close();
      }
    }
    out := Returned(());
  }

  /** Only `connection_ack` sends anything, and then exactly the start frame, without closing. */
  lemma AckIsTheOnlySender(c: SubscriptionClient, netloc: Option<string> -> string, dumps: Json -> string,
                           query: string, variables: Json, callback: Json -> Outcome<Json>,
                           connectionName: string, message: Json)
    ensures var r := OnMessageReaction(c, netloc, dumps, query, variables, callback, connectionName, message);
      (r.Returned? && r.value.send != []) <==> Index(message, "type") == Returned(JStr("connection_ack"))
    ensures Index(message, "type") == Returned(JStr("connection_ack")) ==>
      OnMessageReaction(c, netloc, dumps, query, variables, callback, connectionName, message)
        == Returned(Reaction([StartFrame(c, netloc, dumps, query, variables)], false))
  {
  }

  /**
   * A `data` message whose `payload.data` is a dict closes the socket
   * exactly when the callback, given the subscription's entry (None when
   * absent), answers truthy; it never sends.
   */
  lemma DataClosesOnCallbackVerdict(c: SubscriptionClient, netloc: Option<string> -> string, dumps: Json -> string,
                                    query: string, variables: Json, callback: Json -> Outcome<Json>,
                                    connectionName: string, message: Json, data: map<string, Json>)
    requires Index(message, "type") == Returned(JStr("data"))
    requires Index2(message, "payload", "data") == Returned(JObj(data))
    ensures var entry := if connectionName in data then data[connectionName] else JNull;
      var r := OnMessageReaction(c, netloc, dumps, query, variables, callback, connectionName, message);
      && (r.Returned? <==> callback(entry).Returned?)
      && (r.Returned? ==> r.value.send == [] && (r.value.close <==> Truthy(callback(entry).value)))
  {
  }

  /** A message of any other type sends nothing and leaves the socket open. */
  lemma OtherTypesIgnored(c: SubscriptionClient, netloc: Option<string> -> string, dumps: Json -> string,
                          query: string, variables: Json, callback: Json -> Outcome<Json>,
                          connectionName: string, message: Json, t: Json)
    requires Index(message, "type") == Returned(t) && t != JStr("connection_ack") && t != JStr("data")
    ensures OnMessageReaction(c, netloc, dumps, query, variables, callback, connectionName, message) == Returned(Ignore)
  {
  }

  /** The start frame has id "1", carries the encoded request and authorises with the API header. */
  lemma StartFrameContents(c: SubscriptionClient, netloc: Option<string> -> string, dumps: Json -> string,
                           query: string, variables: Json)
    ensures var f := StartFrame(c, netloc, dumps, query, variables);
      && Index(f, "id") == Returned(JStr("1"))
      && Index(f, "type") == Returned(JStr("start"))
      && Index2(f, "payload", "data") == Returned(JStr(dumps(JObj(map["query" := JStr(query), "variables" := variables]))))
      && Index3(f, "payload", "extensions", "authorization") == Returned(JObj(GetApiHeader(c, netloc)))
  {
  }

  /** `s.replace(old, new)`: every non-overlapping occurrence, left to right. */
  function ReplaceAll(s: string, old_: string, new_: string): string
    requires old_ != []
    decreases |s|
  {
    if |s| < |old_| then s
    else if s[..|old_|] == old_ then new_ + ReplaceAll(s[|old_|..], old_, new_)
    else [s[0]] + ReplaceAll(s[1..], old_, new_)
  }

  /** A string without an occurrence is left as it is. */
  lemma {:induction false} ReplaceAllAbsent(s: string, old_: string, new_: string)
    requires old_ != [] && !IsSubstring(old_, s)
    ensures ReplaceAll(s, old_, new_) == s
  {
    if |s| >= |old_| {
      assert s != [];
      ReplaceAllAbsent(s[1..], old_, new_);
      assert [s[0]] + s[1..] == s;
    }
  }

  /** A leading occurrence is replaced and the rest is processed after it. */
  lemma ReplaceAllLeading(rest: string, old_: string, new_: string)
    requires old_ != []
    ensures ReplaceAll(old_ + rest, old_, new_) == new_ + ReplaceAll(rest, old_, new_)
  {
    assert (old_ + rest)[..|old_|] == old_;
    assert (old_ + rest)[|old_|..] == rest;
  }

  /** An `https` URL becomes a `wss` URL, the rest unchanged when it has no other `https`. */
  lemma SecureSchemeBecomesWss(rest: string)
    requires !IsSubstring("https", rest)
    ensures ReplaceAll("https" + rest, "https", "wss") == "wss" + rest
  {
    ReplaceAllLeading(rest, "https", "wss");
    ReplaceAllAbsent(rest, "https", "wss");
  }

  /**
   * `construct_ws_connection_url`: the URL with `https` replaced by `wss`,
   * then `/realtime`, the encoded API header and the empty payload `e30=`
   * (the base64 of `{}`). A missing URL raises AttributeError.
   */
  function ConstructWsConnectionUrl(c: SubscriptionClient, netloc: Option<string> -> string,
                                    encode: Json -> string): (r: Outcome<string>)
    ensures r.Raised? <==> c.graphqlApiUrl.None?
    ensures r.Raised? ==> r.error == AttributeError
  {
    if c.graphqlApiUrl.None? then Raised(AttributeError)
    else
      var wsUrl := ReplaceAll(c.graphqlApiUrl.value, "https", "wss") + "/realtime";
      Returned(wsUrl + "?header=" + encode(JObj(GetApiHeader(c, netloc))) + "&payload=e30=")
  }

  /**
   * The connection URL authorises with the same header object the start
   * frame carries, and ends with the empty payload.
   */
  lemma {:induction false} HandshakeAgreesWithStartFrame(c: SubscriptionClient, netloc: Option<string> -> string,
                                                        encode: Json -> string, dumps: Json -> string,
                                                        query: string, variables: Json)
    requires c.graphqlApiUrl.Some?
    ensures var url := ConstructWsConnectionUrl(c, netloc, encode).value;
      var auth := Index3(StartFrame(c, netloc, dumps, query, variables), "payload", "extensions", "authorization");
      var prefix := ReplaceAll(c.graphqlApiUrl.value, "https", "wss") + "/realtime?header=";
      && auth.Returned?
      && url == prefix + encode(auth.value) + "&payload=e30="
      && url[..|prefix|] == prefix
      && url[|url| - |"&payload=e30="|..] == "&payload=e30="
  {
    StartFrameContents(c, netloc, dumps, query, variables);
    var h := encode(JObj(GetApiHeader(c, netloc)));
    var prefix := ReplaceAll(c.graphqlApiUrl.value, "https", "wss") + "/realtime?header=";
    var url := ConstructWsConnectionUrl(c, netloc, encode).value;
    assert url == prefix + (h + "&payload=e30=");
  }

  // ---------------------------------------------------------------------
  // The schema table
  // ---------------------------------------------------------------------

  /**
   * What `get_schema` gives: the fixed GraphQL text of one table entry
   * (the texts themselves are not modelled), the v1 new-chat mutation
   * with its topic embedded, or the empty string.
   */
  datatype Query =
    | Template(operation: string, version: string)
    | NewChatText(topic: string)
    | EmptyQuery

  /** `new_chat_mutation_v1`: the topic, or `New Chat` when it is falsy. */
  function NewChatMutationV1(topic: Option<string>): (q: Query)
    ensures TruthyStr(topic) ==> q == NewChatText(topic.value)
    ensures !TruthyStr(topic) ==> q == NewChatText("New Chat")
  {
    NewChatText(OrElse(topic, "New Chat"))
  }

  /** The eleven `(type, version)` pairs of the helpers' table. */
  const HelperSchemaPairs: set<(string, string)> := {
    ("NewChat", "v1"), ("NewChat", "v2"), ("SendMessage", "v1"), ("SendMessage", "v2"),
    ("ProcessUtterance", "v1"), ("GetMessages", "v1"), ("GetMessages", "v2"),
    ("GetAnswerData", "v1"), ("GetAnswerData", "v2"),
    ("UpdateMessageSubscription", "v1"), ("UpdateMessageSubscription", "v2")
  }

  /**
   * `AppsyncSchemaClient.get_schema` of the helpers: the entry's text, or
   * "" for a pair outside the table. The GetMessages/v2 entry raises
   * TypeError, because `get_messages_v2` is declared without `self`.
   */
  function GetSchema(type_: string, version: string, topic: Option<string>): (r: Outcome<Query>)
    ensures r == Returned(EmptyQuery) <==> (type_, version) !in HelperSchemaPairs
    ensures r.Raised? <==> (type_, version) == ("GetMessages", "v2")
    ensures r.Raised? ==> r.error == TypeError
    ensures (type_, version) == ("NewChat", "v1") ==> r == Returned(NewChatMutationV1(topic))
    ensures (type_, version) in HelperSchemaPairs - {("NewChat", "v1"), ("GetMessages", "v2")} ==>
      r == Returned(Template(type_, version))
  {
    if (type_, version) == ("NewChat", "v1") then Returned(NewChatMutationV1(topic))
    else if (type_, version) == ("GetMessages", "v2") then Raised(TypeError)
    else if (type_, version) in HelperSchemaPairs then Returned(Template(type_, version))
    else Returned(EmptyQuery)
  }

  /** An empty or unknown version always gives the empty query. */
  lemma UnknownVersionGivesEmpty(type_: string, version: string, topic: Option<string>)
    requires version != "v1" && version != "v2"
    ensures GetSchema(type_, version, topic) == Returned(EmptyQuery)
  {
  }
}
