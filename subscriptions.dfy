/**
 * The subscriptions service (huma_sdk/_services/_subscriptions.py): the
 * endpoint requests and the choice between one page and a paginated batch.
 *
 * `_make_request` (the HTTP call and the parsing of its answer) is the
 * parameter `send`, from the request to what the call returns or raises.
 */
module Subscriptions {
  import opened PyJson
  import opened Paginator

  /** The client's base URL and secret key, after the environment fallback. */
  datatype Client = Client(apiUrl: Option<string>, apiSecretKey: Option<string>)

  /** What is sent along with a request: query parameters or a JSON body. */
  datatype Body = NoBody | Params(params: map<string, Json>) | JsonPayload(payload: map<string, Json>)

  /** The keyword arguments of `_make_request`. */
  datatype HttpRequest = HttpRequest(verb: string, url: string, headers: map<string, string>, body: Body)

  /** `_validate_page_number`: `page or 1`. */
  function ValidatePageNumber(page: Option<int>): (p: int)
    ensures page.Some? && page.value != 0 ==> p == page.value
    ensures page.None? || page.value == 0 ==> p == 1
    ensures p != 0
  {
    if page.Some? && page.value != 0 then page.value else 1
  }

  /** Every endpoint sends `Authorization: Bearer <key>`. */
  function AuthHeader(c: Client): (h: map<string, string>)
    ensures h.Keys == {"Authorization"} && h["Authorization"] == "Bearer " + Render(c.apiSecretKey)
  {
    map["Authorization" := "Bearer " + Render(c.apiSecretKey)]
  }

  /** The common prefix of every endpoint. */
  function Base(c: Client): string {
    Render(c.apiUrl) + "/v1/subscription"
  }

  function SubscriptionsUrl(c: Client): string {
    Base(c)
  }

  function CreateUrl(c: Client): string {
    Base(c) + "/create"
  }

  function DataUrl(c: Client, subscribedId: string): string {
    Base(c) + "/" + subscribedId + "/data"
  }

  function DeleteUrl(c: Client, subscribedId: string): string {
    Base(c) + "/" + subscribedId + "/delete"
  }

  function StatusUrl(c: Client, question: string): string {
    Base(c) + "/" + question + "/status"
  }

  /** Every endpoint is the base URL followed by `/v1/subscription` and a fixed tail. */
  lemma EndpointsShareBase(c: Client, id: string)
    ensures var b := Render(c.apiUrl) + "/v1/subscription";
      && SubscriptionsUrl(c) == b
      && CreateUrl(c)[..|b|] == b
      && DataUrl(c, id)[..|b|] == b
      && DeleteUrl(c, id)[..|b|] == b
      && StatusUrl(c, id)[..|b|] == b
  {
  }

  /** `s + tail == t + tail` only when `s == t`. */
  lemma SameTail(s: string, t: string, tail: string)
    requires s + tail == t + tail
    ensures s == t
  {
    assert |s| == |t|;
    assert s == (s + tail)[..|s|];
    assert t == (t + tail)[..|t|];
  }

  /** Different ids give different data URLs; the same holds for delete and status. */
  lemma {:induction false} EndpointUrlsInjective(c: Client, a: string, b: string)
    ensures DataUrl(c, a) == DataUrl(c, b) ==> a == b
    ensures DeleteUrl(c, a) == DeleteUrl(c, b) ==> a == b
    ensures StatusUrl(c, a) == StatusUrl(c, b) ==> a == b
  {
    var prefix := Base(c) + "/";
    forall tail: string | tail in ["/data", "/delete", "/status"] && prefix + a + tail == prefix + b + tail
      ensures a == b
    {
      SameTail(prefix + a, prefix + b, tail);
      assert a == (prefix + a)[|prefix|..];
      assert b == (prefix + b)[|prefix|..];
    }
    assert DataUrl(c, a) == prefix + a + "/data";
    assert DataUrl(c, b) == prefix + b + "/data";
    assert DeleteUrl(c, a) == prefix + a + "/delete";
    assert DeleteUrl(c, b) == prefix + b + "/delete";
    assert StatusUrl(c, a) == prefix + a + "/status";
    assert StatusUrl(c, b) == prefix + b + "/status";
  }

  /** `_fetch_subscriptions(**params)`: keyword arguments only; they become the query. */
  function FetchSubscriptionsCall(c: Client, send: HttpRequest -> Outcome<Json>, call: Call): Outcome<Json> {
    if call.args != [] then Raised(TypeError)
    else send(HttpRequest("GET", SubscriptionsUrl(c), AuthHeader(c), Params(call.kwargs)))
  }

  /** `_fetch_subscription_data(subscribed_id, **params)`: one positional id, rendered into the URL. */
  function FetchSubscriptionDataCall(c: Client, send: HttpRequest -> Outcome<Json>, call: Call): Outcome<Json> {
    if |call.args| != 1 then Raised(TypeError)
    else send(HttpRequest("GET", DataUrl(c, Render(call.args[0])), AuthHeader(c), Params(call.kwargs)))
  }

  /** `_create_subscription` through `create_subscription`. */
  function CreateSubscription(c: Client, send: HttpRequest -> Outcome<Json>, ticketNumber: Option<string>): Outcome<Json> {
    send(HttpRequest("POST", CreateUrl(c), AuthHeader(c), JsonPayload(map["ticket_number" := OptStr(ticketNumber)])))
  }

  /** `_delete_subscription` through `delete_subscription`. */
  function DeleteSubscription(c: Client, send: HttpRequest -> Outcome<Json>, subscribedId: Option<string>): Outcome<Json> {
    send(HttpRequest("DELETE", DeleteUrl(c, Render(subscribedId)), AuthHeader(c), NoBody))
  }

  /** `_fetch_subscription_status` through `fetch_subscription_status`. */
  function FetchSubscriptionStatus(c: Client, send: HttpRequest -> Outcome<Json>, question: Option<string>): Outcome<Json> {
    send(HttpRequest("GET", StatusUrl(c, Render(question)), AuthHeader(c), NoBody))
  }

  /**
   * `_handle_pagination`: a batch goes to a `"subscriptions"` paginator
   * (which turns every failure into `None`); otherwise the caller is called
   * once with `page` and `limit` added to its keyword arguments, and what
   * it returns or raises is the result.
   */
  method HandlePagination(caller: Call -> Outcome<Json>, page: Option<int>, limit: int, isBatchPages: bool,
                          maxPageCount: Json, isAnswerData: bool, args: seq<Option<string>>, kwargs: map<string, Json>)
      returns (r: Outcome<Json>)
    ensures isBatchPages ==>
      r == Returned(Paginated(Paginator("subscriptions", isAnswerData), maxPageCount, caller,
                              ValidatePageNumber(page), limit, args, kwargs))
    ensures !isBatchPages ==> r == caller(PageCall(args, kwargs, ValidatePageNumber(page), limit))
  {
    var p := ValidatePageNumber(page);
    var paginator := Paginator("subscriptions", isAnswerData);
    if isBatchPages {
      var result, _ := PaginateResult(paginator, maxPageCount, caller, p, limit, args, kwargs);
      r := Returned(result);
    } else {
      var kw := kwargs["page" := JNum(p)]["limit" := JNum(limit)];
      r := caller(Call(args, kw));
    }
  }

  /** The query parameters of `fetch_subscriptions`, before `page` and `limit`. */
  function SubscriptionsParams(sortBy: int, orderBy: Option<string>, question: Option<string>): map<string, Json> {
    map["sort_by" := JNum(sortBy), "order_by" := OptStr(orderBy), "question" := OptStr(question)]
  }

  /**
   * `fetch_subscriptions`: the flat-list strategy over `/v1/subscription`;
   * a single page is one GET whose query holds exactly the sort, order,
   * question, page and limit parameters.
   */
  method FetchSubscriptions(c: Client, send: HttpRequest -> Outcome<Json>, page: Option<int>, limit: int, sortBy: int,
                            orderBy: Option<string>, question: Option<string>, isBatchPages: bool, maxPageCount: Json)
      returns (r: Outcome<Json>)
    ensures !isBatchPages ==>
      r == send(HttpRequest("GET", SubscriptionsUrl(c), AuthHeader(c),
                            Params(map["sort_by" := JNum(sortBy), "order_by" := OptStr(orderBy),
                                       "question" := OptStr(question), "page" := JNum(ValidatePageNumber(page)),
                                       "limit" := JNum(limit)])))
    ensures isBatchPages ==>
      r == Returned(Paginated(Paginator("subscriptions", false), maxPageCount,
                              (call: Call) => FetchSubscriptionsCall(c, send, call),
                              ValidatePageNumber(page), limit, [], SubscriptionsParams(sortBy, orderBy, question)))
  {
    var params := SubscriptionsParams(sortBy, orderBy, question);
    r := HandlePagination((call: Call) => FetchSubscriptionsCall(c, send, call), page, limit, isBatchPages,
                          maxPageCount, false, [], params);
  }

  /**
   * `fetch_subscription_data`: the answer-data strategy, so a batch
   * aggregates `subscriptions.data`; the id is passed positionally and
   * ends up in the URL.
   */
  method FetchSubscriptionData(c: Client, send: HttpRequest -> Outcome<Json>, subscribedId: Option<string>,
                               page: Option<int>, limit: int, dataType: Option<string>, isBatchPages: bool,
                               maxPageCount: Json)
      returns (r: Outcome<Json>)
    ensures ShapeOf(Paginator("subscriptions", true)) == AnswerData("subscriptions")
    ensures !isBatchPages ==>
      r == send(HttpRequest("GET", DataUrl(c, Render(subscribedId)), AuthHeader(c),
                            Params(map["type" := OptStr(dataType), "page" := JNum(ValidatePageNumber(page)),
                                       "limit" := JNum(limit)])))
    ensures isBatchPages ==>
      r == Returned(Paginated(Paginator("subscriptions", true), maxPageCount,
                              (call: Call) => FetchSubscriptionDataCall(c, send, call),
                              ValidatePageNumber(page), limit, [subscribedId], map["type" := OptStr(dataType)]))
  {
    var args, params := [subscribedId], map["type" := OptStr(dataType)];
    r := HandlePagination((call: Call) => FetchSubscriptionDataCall(c, send, call), page, limit, isBatchPages,
                          maxPageCount, true, args, params);
  }
}
