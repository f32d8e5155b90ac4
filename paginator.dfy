/**
 * Batch pagination (huma_sdk/_services/_paginator.py): fetch the first
 * page, and when its metadata announces further pages, fetch the window
 * of pages after it and concatenate their lists into the last response.
 *
 * The page fetcher is a parameter: a function from the call it receives
 * (positional arguments and keyword arguments) to what it returns or
 * raises. Python's `None` result of a failed pagination is `JNull`.
 */
module Paginator {
  import opened PyJson

  /**
   * One call of the caller function: `caller(*args, **kwargs)`. The only
   * positional argument the callers take is an optional string id.
   */
  datatype Call = Call(args: seq<Option<string>>, kwargs: map<string, Json>)

  /** `_Paginator(resource_client, module, is_answer_data)`; the client and logger are not modelled. */
  datatype Paginator = Paginator(moduleName: string, isAnswerData: bool)

  /**
   * Where a response keeps its list: `response[key]['data']` for answer
   * data, `response[key]` for flat records.
   */
  datatype Shape = AnswerData(key: string) | Records(key: string)

  /** `_call_api`: `page` and `limit` are written into the keyword arguments, nothing else changes. */
  function PageCall(args: seq<Option<string>>, kwargs: map<string, Json>, page: int, limit: int): (c: Call)
    ensures c.args == args
    ensures c.kwargs.Keys == kwargs.Keys + {"page", "limit"}
    ensures c.kwargs["page"] == JNum(page) && c.kwargs["limit"] == JNum(limit)
  {
    Call(args, kwargs["page" := JNum(page)]["limit" := JNum(limit)])
  }

  /** `_call_api` forwards every other keyword argument unchanged. */
  lemma PageCallKeepsOtherArguments(args: seq<Option<string>>, kwargs: map<string, Json>, page: int, limit: int)
    ensures forall k :: k in kwargs && k != "page" && k != "limit" ==> PageCall(args, kwargs, page, limit).kwargs[k] == kwargs[k]
  {
  }

  /** `_validate_max_page_count`: an int (a bool is one) is kept, anything else becomes 10. */
  function ValidateMaxPageCount(maxPageCount: Json): (m: int)
    ensures maxPageCount.JNum? ==> m == maxPageCount.n
    ensures maxPageCount.JBool? ==> m == (if maxPageCount.b then 1 else 0)
    ensures !maxPageCount.JNum? && !maxPageCount.JBool? ==> m == 10
  {
    match AsInt(maxPageCount)
    case Some(n) => n
    case None => 10
  }

  /** `response['metadata'].get(field, 0)` as an int, or what that expression raises. */
  function MetadataInt(response: Json, field: string): Outcome<int> {
    match Index(response, "metadata")
    case Raised(e) => Raised(e)
    case Returned(meta) =>
      match Get(meta, field, JNum(0))
      case Raised(e) => Raised(e)
      case Returned(v) =>
        match AsInt(v)
        case Some(n) => Returned(n)
        case None => Raised(TypeError)  // min() of an int and a non-number
  }

  /**
   * `_calculate_pages_and_records`: the last page to fetch is the smaller
   * of the window's end and the announced page count, and the record
   * count is the smaller of that many full pages and the announced total.
   */
  function CalculatePagesAndRecords(maxPageCount: int, limit: int, response: Json): (r: Outcome<(int, int)>)
    ensures r.Returned? <==> MetadataInt(response, "page_count").Returned? && MetadataInt(response, "total_count").Returned?
    ensures r.Returned? ==>
      var pages := r.value.0;
      var pageCount := MetadataInt(response, "page_count").value;
      && pages <= maxPageCount && pages <= pageCount && (pages == maxPageCount || pages == pageCount)
    ensures r.Returned? ==>
      var records := r.value.1;
      var totalCount := MetadataInt(response, "total_count").value;
      && records <= r.value.0 * limit && records <= totalCount
      && (records == r.value.0 * limit || records == totalCount)
  {
    match MetadataInt(response, "page_count")
    case Raised(e) => Raised(e)
    case Returned(pageCount) =>
      var pages := Min(maxPageCount, pageCount);
      match MetadataInt(response, "total_count")
      case Raised(e) => Raised(e)
      case Returned(totalCount) => Returned((pages, Min(pages * limit, totalCount)))
  }

  /** `answer_key`: the module's name for subscriptions, `"answer"` otherwise. */
  function AnswerKey(p: Paginator): (key: string)
    ensures key == "subscriptions" <==> p.moduleName == "subscriptions"
    ensures key != "subscriptions" ==> key == "answer"
  {
    if p.moduleName == "subscriptions" then p.moduleName else "answer"
  }

  /** `fetch_answer_data` when `is_answer_data`, `fetch_records` otherwise. */
  function ShapeOf(p: Paginator): Shape {
    if p.isAnswerData then AnswerData(AnswerKey(p)) else Records(p.moduleName)
  }

  /** The list a response holds: `.get(key, {}).get('data', [])` or `.get(key, {})`. */
  function Extract(shape: Shape, response: Json): Outcome<Json> {
    match shape
    case AnswerData(key) =>
      (match Get(response, key, EmptyObj)
       case Raised(e) => Raised(e)
       case Returned(inner) => Get(inner, "data", JArr([])))
    case Records(key) => Get(response, key, EmptyObj)
  }

  /** The characters of a string, each as a one-character string. */
  function Chars(s: string): (cs: seq<Json>)
    ensures |cs| == |s|
    ensures forall i :: 0 <= i < |s| ==> cs[i] == JStr([s[i]])
  {
    if s == [] then [] else [JStr([s[0]])] + Chars(s[1..])
  }

  /**
   * `acc.extend(items)`: only a list has `extend`; a list argument is
   * appended, a string's characters are appended, an empty dict adds
   * nothing, anything else is refused.
   */
  function Extend(acc: Json, items: Json): (r: Outcome<Json>)
    ensures !acc.JArr? ==> r == Raised(AttributeError)
    ensures acc.JArr? && items.JArr? ==> r == Returned(JArr(acc.items + items.items))
  {
    if !acc.JArr? then Raised(AttributeError)
    else match items
      case JArr(xs) => Returned(JArr(acc.items + xs))
      case JStr(s) => Returned(JArr(acc.items + Chars(s)))
      case JObj(m) => if m == map[] then Returned(acc) else Raised(TypeError)
      case _ => Raised(TypeError)
  }

  /**
   * Writes the aggregate back: `response[key]['data'] = acc` or
   * `response[key] = acc`; every other part of the response is kept.
   */
  function Store(shape: Shape, response: Json, acc: Json): (r: Outcome<Json>)
    ensures r.Returned? ==> response.JObj? && r.value.JObj?
    ensures r.Returned? ==> r.value.fields.Keys == response.fields.Keys + {shape.key}
    ensures r.Returned? && shape.AnswerData? ==> shape.key in response.fields
    ensures r.Returned? ==> forall k :: k in response.fields && k != shape.key ==> r.value.fields[k] == response.fields[k]
    ensures r.Returned? && shape.Records? ==> r.value.fields[shape.key] == acc
    ensures r.Returned? && shape.AnswerData? ==>
      var old_ := response.fields[shape.key];
      var new_ := r.value.fields[shape.key];
      && old_.JObj? && new_.JObj?
      && new_.fields == old_.fields["data" := acc]
    ensures shape.Records? ==> (r.Returned? <==> response.JObj?)
  {
    match shape
    case AnswerData(key) =>
      (match Index(response, key)
       case Raised(e) => Raised(e)
       case Returned(inner) =>
         if inner.JObj? then Returned(JObj(response.fields[key := JObj(inner.fields["data" := acc])]))
         else Raised(TypeError))
    case Records(key) =>
      if response.JObj? then Returned(JObj(response.fields[key := acc])) else Raised(TypeError)
  }

  /** The number of pages in `page..last`. */
  function PageCount(page: int, last: int): nat {
    if page <= last then last + 1 - page else 0
  }

  /** `range(page, last + 1)`. */
  function Range(page: int, last: int): (r: seq<int>)
    decreases PageCount(page, last)
    ensures |r| == PageCount(page, last)
    ensures forall i :: 0 <= i < |r| ==> r[i] == page + i
  {
    if page <= last then [page] + Range(page + 1, last) else []
  }

  /**
   * One iteration of the loop: fetch page `page`, take its list and
   * extend the aggregate with it. Returns the new response and aggregate.
   */
  function FetchOne(shape: Shape, fetch: Call -> Outcome<Json>, args: seq<Option<string>>, kwargs: map<string, Json>,
                    limit: int, page: int, acc: Json): Outcome<(Json, Json)> {
    match fetch(PageCall(args, kwargs, page, limit))
    case Raised(e) => Raised(e)
    case Returned(next) =>
      match Extract(shape, next)
      case Raised(e) => Raised(e)
      case Returned(items) =>
        match Extend(acc, items)
        case Raised(e) => Raised(e)
        case Returned(acc') => Returned((next, acc'))
  }

  /**
   * The loop over `range(page, last + 1)`: each page's response replaces
   * the current one and its list extends the aggregate. Returns the last
   * response and the aggregate.
   */
  function FetchPages(shape: Shape, fetch: Call -> Outcome<Json>, args: seq<Option<string>>, kwargs: map<string, Json>,
                      limit: int, page: int, last: int, response: Json, acc: Json): Outcome<(Json, Json)>
    decreases if page <= last then last + 1 - page else 0
  {
    if page > last then Returned((response, acc))
    else match FetchOne(shape, fetch, args, kwargs, limit, page, acc)
      case Raised(e) => Raised(e)
      case Returned((next, acc')) => FetchPages(shape, fetch, args, kwargs, limit, page + 1, last, next, acc')
  }

  /** One turn of the loop: fetch page `page`, then the rest. */
  lemma FetchPagesStep(shape: Shape, fetch: Call -> Outcome<Json>, args: seq<Option<string>>, kwargs: map<string, Json>,
                       limit: int, page: int, last: int, response: Json, acc: Json)
    requires page <= last
    ensures var step := FetchOne(shape, fetch, args, kwargs, limit, page, acc);
      && (step.Raised? ==> FetchPages(shape, fetch, args, kwargs, limit, page, last, response, acc) == Raised(step.error))
      && (step.Returned? ==> FetchPages(shape, fetch, args, kwargs, limit, page, last, response, acc)
                             == FetchPages(shape, fetch, args, kwargs, limit, page + 1, last, step.value.0, step.value.1))
  {
  }

  /** `fetch_answer_data` / `fetch_records` from `first`, for pages `next..last`. */
  function FetchRemainingSpec(shape: Shape, fetch: Call -> Outcome<Json>, args: seq<Option<string>>, kwargs: map<string, Json>,
                              limit: int, next: int, last: int, first: Json): Outcome<Json> {
    match Extract(shape, first)
    case Raised(e) => Raised(e)
    case Returned(acc) =>
      match FetchPages(shape, fetch, args, kwargs, limit, next, last, first, acc)
      case Raised(e) => Raised(e)
      case Returned((response, agg)) => Store(shape, response, agg)
  }

  /** The `count` pages from `first`, in order. */
  function PagesFrom(first: int, count: nat): (pages: seq<int>)
    ensures |pages| == count
  {
    if count == 0 then [] else PagesFrom(first, count - 1) + [first + count - 1]
  }

  /** Page `i` of the pages from `first` is `first + i`. */
  lemma {:induction false} PagesFromIndex(first: int, count: nat)
    ensures forall i :: 0 <= i < count ==> PagesFrom(first, count)[i] == first + i
  {
    if count > 0 {
      PagesFromIndex(first, count - 1);
    }
  }

  /**
   * The loop of `fetch_answer_data` and `fetch_records`, from page `first`
   * to `last` inclusive. Also returns the pages requested, in order (page
   * `q` is requested with the call `PageCall(args, kwargs, q, limit)`).
   */
  method FetchLoop(shape: Shape, fetch: Call -> Outcome<Json>, args: seq<Option<string>>, kwargs: map<string, Json>,
                   limit: int, first: int, last: int, firstResponse: Json, firstAcc: Json)
      returns (r: Outcome<(Json, Json)>, requested: seq<int>)
    ensures r == FetchPages(shape, fetch, args, kwargs, limit, first, last, firstResponse, firstAcc)
    ensures |requested| <= PageCount(first, last)
    ensures requested == PagesFrom(first, |requested|)
    ensures r.Returned? ==> |requested| == PageCount(first, last)
  {
    var response, acc := firstResponse, firstAcc;
    ghost var target := FetchPages(shape, fetch, args, kwargs, limit, first, last, firstResponse, firstAcc);
    var page := first;
    while page <= last
      invariant page == first || first < page <= last + 1
      invariant target == FetchPages(shape, fetch, args, kwargs, limit, page, last, response, acc)
      decreases last + 1 - page
    {
      var step := FetchOne(shape, fetch, args, kwargs, limit, page, acc);
      FetchPagesStep(shape, fetch, args, kwargs, limit, page, last, response, acc);
      if step.Raised? {
        return Raised(step.error), PagesFrom(first, page + 1 - first);
      }
      response, acc := step.value.0, step.value.1;
      page := page + 1;
    }
    requested := PagesFrom(first, page - first);
    r := Returned((response, acc));
  }

  /**
   * `fetch_answer_data` and `fetch_records` (the same loop over the two
   * shapes). Also returns the pages requested, in order.
   */
  method FetchRemaining(shape: Shape, resultResponse: Json, fetch: Call -> Outcome<Json>, nextPage: int, limit: int,
                        pagesToFetch: int, args: seq<Option<string>>, kwargs: map<string, Json>)
      returns (r: Outcome<Json>, requested: seq<int>)
    ensures r == FetchRemainingSpec(shape, fetch, args, kwargs, limit, nextPage, pagesToFetch, resultResponse)
    ensures |requested| <= PageCount(nextPage, pagesToFetch)
    ensures forall i :: 0 <= i < |requested| ==> requested[i] == nextPage + i
    ensures r.Returned? ==> |requested| == PageCount(nextPage, pagesToFetch)
  {
    var data := Extract(shape, resultResponse);
    if data.Raised? {
      return Raised(data.error), [];
    }
    var pages;
    pages, requested := FetchLoop(shape, fetch, args, kwargs, limit, nextPage, pagesToFetch, resultResponse, data.value);
    PagesFromIndex(nextPage, |requested|);
    if pages.Raised? {
      return Raised(pages.error), requested;
    }
    r := Store(shape, pages.value.0, pages.value.1);
  }

  /** What the first stage of `paginate_result` decides. */
  datatype Plan =
    | Single(response: Json)                                         // returned as it is
    | Window(first: Json, pagesToFetch: int, totalRecords: int)      // more pages to fetch

  /**
   * The first stage of `paginate_result`: fetch the start page, and when
   * its metadata has a truthy `has_next_page`, compute the window that
   * ends at `(page - 1) + max_page_count`.
   */
  function PlanFirst(maxPageCount: Json, fetch: Call -> Outcome<Json>, page: int, limit: int,
                     args: seq<Option<string>>, kwargs: map<string, Json>): Outcome<Plan> {
    match fetch(PageCall(args, kwargs, page, limit))
    case Raised(e) => Raised(e)
    case Returned(first) =>
      match Contains(first, "metadata")
      case Raised(e) => Raised(e)
      case Returned(hasMetadata) =>
        if !hasMetadata then Returned(Single(first))
        else match Index(first, "metadata")
          case Raised(e) => Raised(e)
          case Returned(meta) =>
            match Get(meta, "has_next_page", JNull)
            case Raised(e) => Raised(e)
            case Returned(hasNext) =>
              if !Truthy(hasNext) then Returned(Single(first))
              else
                var m := ValidateMaxPageCount(maxPageCount);
                match CalculatePagesAndRecords((page - 1) + m, limit, first)
                case Raised(e) => Raised(e)
                case Returned((pages, records)) => Returned(Window(first, pages, records))
  }

  /**
   * `paginate_result` as intended: every exception becomes `None`; a
   * single page is returned as it is; otherwise the rest of the window
   * is fetched and aggregated.
   */
  function Paginated(p: Paginator, maxPageCount: Json, fetch: Call -> Outcome<Json>, page: int, limit: int,
                     args: seq<Option<string>>, kwargs: map<string, Json>): Json {
    match PlanFirst(maxPageCount, fetch, page, limit, args, kwargs)
    case Raised(_) => JNull
    case Returned(Single(response)) => response
    case Returned(Window(first, pages, _)) =>
      match FetchRemainingSpec(ShapeOf(p), fetch, args, kwargs, limit, page + 1, pages, first)
      case Raised(_) => JNull
      case Returned(response) => response
  }

  /**
   * `paginate_result` as written: the page-info log before the loop is
   * called without `total_records`, so when the window ends on the start
   * page it adds `None` to an int, and the TypeError turns the result
   * into `None`.
   */
  function PaginatedAsWritten(p: Paginator, maxPageCount: Json, fetch: Call -> Outcome<Json>, page: int, limit: int,
                              args: seq<Option<string>>, kwargs: map<string, Json>): Json {
    match PlanFirst(maxPageCount, fetch, page, limit, args, kwargs)
    case Returned(Window(_, pages, _)) =>
      if pages == page then JNull else Paginated(p, maxPageCount, fetch, page, limit, args, kwargs)
    case _ => Paginated(p, maxPageCount, fetch, page, limit, args, kwargs)
  }

  /** The first stage of `paginate_result`, up to the window computation. */
  method FetchFirstPage(maxPageCount: Json, fetch: Call -> Outcome<Json>, page: int, limit: int,
                        args: seq<Option<string>>, kwargs: map<string, Json>)
      returns (plan: Outcome<Plan>)
    ensures plan == PlanFirst(maxPageCount, fetch, page, limit, args, kwargs)
  {
    var got := fetch(PageCall(args, kwargs, page, limit));
    if got.Raised? {
      return Raised(got.error);
    }
    var resultResponse := got.value;
    var hasMetadata := Contains(resultResponse, "metadata");
    if hasMetadata.Raised? {
      return Raised(hasMetadata.error);
    }
    if !hasMetadata.value {
      return Returned(Single(resultResponse));
    }
    var meta := Index(resultResponse, "metadata");
    if meta.Raised? {
      return Raised(meta.error);
    }
    var hasNext := Get(meta.value, "has_next_page", JNull);
    if hasNext.Raised? {
      return Raised(hasNext.error);
    }
    if !Truthy(hasNext.value) {
      return Returned(Single(resultResponse));
    }
    var m := ValidateMaxPageCount(maxPageCount);
    var window := CalculatePagesAndRecords((page - 1) + m, limit, resultResponse);
    if window.Raised? {
      return Raised(window.error);
    }
    plan := Returned(Window(resultResponse, window.value.0, window.value.1));
  }

  /**
   * `paginate_result` (with the page-info log that cannot fail): every
   * exception becomes `None`. Also returns the pages requested, in order:
   * the start page, then each page of the window after it.
   */
  method PaginateResult(p: Paginator, maxPageCount: Json, fetch: Call -> Outcome<Json>, page: int, limit: int,
                        args: seq<Option<string>>, kwargs: map<string, Json>)
      returns (r: Json, requested: seq<int>)
    ensures r == Paginated(p, maxPageCount, fetch, page, limit, args, kwargs)
    ensures |requested| >= 1
    ensures forall i :: 0 <= i < |requested| ==> requested[i] == page + i
    ensures var plan := PlanFirst(maxPageCount, fetch, page, limit, args, kwargs);
      !(plan.Returned? && plan.value.Window?) ==> |requested| == 1
    ensures var plan := PlanFirst(maxPageCount, fetch, page, limit, args, kwargs);
      plan.Returned? && plan.value.Window? && r != JNull ==>
        |requested| == 1 + PageCount(page + 1, plan.value.pagesToFetch)
  {
    requested := [page];
    var plan := FetchFirstPage(maxPageCount, fetch, page, limit, args, kwargs);
    if plan.Raised? {
      return JNull, requested;
    }
    if plan.value.Single? {
      return plan.value.response, requested;
    }
    var rest, more := FetchRemaining(ShapeOf(p), plan.value.first, fetch, page + 1, limit,
                                     plan.value.pagesToFetch, args, kwargs);
    requested := requested + more;
    r := if rest.Raised? then JNull else rest.value;
  }

  // ---------------------------------------------------------------------
  // What pagination promises
  // ---------------------------------------------------------------------

  /** The list of the response to page `q`, when the page is well formed. */
  function PageItems(shape: Shape, fetch: Call -> Outcome<Json>, args: seq<Option<string>>, kwargs: map<string, Json>,
                     limit: int, q: int): seq<Json> {
    match fetch(PageCall(args, kwargs, q, limit))
    case Returned(response) =>
      (match Extract(shape, response)
       case Returned(JArr(xs)) => xs
       case _ => [])
    case _ => []
  }

  /** Page `q` is fetched without error and holds a list in its shape's place. */
  predicate WellFormedPage(shape: Shape, fetch: Call -> Outcome<Json>, args: seq<Option<string>>, kwargs: map<string, Json>,
                           limit: int, q: int) {
    var got := fetch(PageCall(args, kwargs, q, limit));
    got.Returned? && Extract(shape, got.value).Returned? && Extract(shape, got.value).value.JArr?
  }

  /** The lists of pages `page..last`, concatenated in page order. */
  function ConcatPages(shape: Shape, fetch: Call -> Outcome<Json>, args: seq<Option<string>>, kwargs: map<string, Json>,
                       limit: int, page: int, last: int): seq<Json>
    decreases if page <= last then last + 1 - page else 0
  {
    if page > last then []
    else PageItems(shape, fetch, args, kwargs, limit, page) + ConcatPages(shape, fetch, args, kwargs, limit, page + 1, last)
  }

  /** The response to page `last`. */
  function PageResponse(fetch: Call -> Outcome<Json>, args: seq<Option<string>>, kwargs: map<string, Json>, limit: int, q: int): Json {
    match fetch(PageCall(args, kwargs, q, limit))
    case Returned(response) => response
    case Raised(_) => JNull
  }

  /**
   * When every page of the window is well formed, the loop ends with the
   * last page's response and the aggregate is the starting list followed
   * by each page's list in page order.
   */
  lemma {:induction false} FetchPagesConcatenates(shape: Shape, fetch: Call -> Outcome<Json>, args: seq<Option<string>>,
                                                  kwargs: map<string, Json>, limit: int, page: int, last: int,
                                                  response: Json, acc: seq<Json>)
    requires forall q :: page <= q <= last ==> WellFormedPage(shape, fetch, args, kwargs, limit, q)
    ensures FetchPages(shape, fetch, args, kwargs, limit, page, last, response, JArr(acc))
         == Returned((if page <= last then PageResponse(fetch, args, kwargs, limit, last) else response,
                      JArr(acc + ConcatPages(shape, fetch, args, kwargs, limit, page, last))))
    decreases if page <= last then last + 1 - page else 0
  {
    if page <= last {
      var next := PageResponse(fetch, args, kwargs, limit, page);
      var items := PageItems(shape, fetch, args, kwargs, limit, page);
      FetchOneWellFormed(shape, fetch, args, kwargs, limit, page, acc);
      FetchPagesStep(shape, fetch, args, kwargs, limit, page, last, response, JArr(acc));
      FetchPagesConcatenates(shape, fetch, args, kwargs, limit, page + 1, last, next, acc + items);
      assert acc + items + ConcatPages(shape, fetch, args, kwargs, limit, page + 1, last)
          == acc + ConcatPages(shape, fetch, args, kwargs, limit, page, last);
    } else {
      assert acc + ConcatPages(shape, fetch, args, kwargs, limit, page, last) == acc;
    }
  }

  /** A well-formed page extends the aggregate with its list and becomes the current response. */
  lemma FetchOneWellFormed(shape: Shape, fetch: Call -> Outcome<Json>, args: seq<Option<string>>,
                           kwargs: map<string, Json>, limit: int, page: int, acc: seq<Json>)
    requires WellFormedPage(shape, fetch, args, kwargs, limit, page)
    ensures FetchOne(shape, fetch, args, kwargs, limit, page, JArr(acc))
         == Returned((PageResponse(fetch, args, kwargs, limit, page),
                      JArr(acc + PageItems(shape, fetch, args, kwargs, limit, page))))
  {
  }

  /**
   * With a well-formed window, pagination returns the last fetched
   * response (the first one if the window is empty) with its list
   * replaced by the first page's list followed by every later page's list;
   * everything else in that response, the metadata included, is kept.
   */
  lemma PaginatedAggregates(p: Paginator, maxPageCount: Json, fetch: Call -> Outcome<Json>, page: int, limit: int,
                            args: seq<Option<string>>, kwargs: map<string, Json>, first: Json, pages: int, records: int,
                            firstItems: seq<Json>)
    requires PlanFirst(maxPageCount, fetch, page, limit, args, kwargs) == Returned(Window(first, pages, records))
    requires Extract(ShapeOf(p), first) == Returned(JArr(firstItems))
    requires forall q :: page + 1 <= q <= pages ==> WellFormedPage(ShapeOf(p), fetch, args, kwargs, limit, q)
    ensures var last := if page + 1 <= pages then PageResponse(fetch, args, kwargs, limit, pages) else first;
      var agg := JArr(firstItems + ConcatPages(ShapeOf(p), fetch, args, kwargs, limit, page + 1, pages));
      Store(ShapeOf(p), last, agg).Returned? ==>
        Paginated(p, maxPageCount, fetch, page, limit, args, kwargs) == Store(ShapeOf(p), last, agg).value
  {
    FetchPagesConcatenates(ShapeOf(p), fetch, args, kwargs, limit, page + 1, pages, first, firstItems);
  }

  /**
   * Without a metadata block, or with a falsy `has_next_page`, the single
   * fetched response is returned as it is.
   */
  lemma SinglePageUnchanged(p: Paginator, maxPageCount: Json, fetch: Call -> Outcome<Json>, page: int, limit: int,
                            args: seq<Option<string>>, kwargs: map<string, Json>, first: Json)
    requires fetch(PageCall(args, kwargs, page, limit)) == Returned(first)
    requires first.JObj?
    requires "metadata" !in first.fields ||
             (first.fields["metadata"].JObj? && !Truthy(Get(first.fields["metadata"], "has_next_page", JNull).value))
    ensures Paginated(p, maxPageCount, fetch, page, limit, args, kwargs) == first
    ensures PaginatedAsWritten(p, maxPageCount, fetch, page, limit, args, kwargs) == first
  {
  }

  /**
   * The pages fetched after the first are `page + 1 ..` the smaller of
   * `(page - 1) + max_page_count` and the announced page count: none when
   * that bound is at most `page`.
   */
  lemma WindowBound(maxPageCount: Json, fetch: Call -> Outcome<Json>, page: int, limit: int,
                    args: seq<Option<string>>, kwargs: map<string, Json>, first: Json, pages: int, records: int)
    requires PlanFirst(maxPageCount, fetch, page, limit, args, kwargs) == Returned(Window(first, pages, records))
    ensures MetadataInt(first, "page_count").Returned?
    ensures var bound := (page - 1) + ValidateMaxPageCount(maxPageCount);
      var count := MetadataInt(first, "page_count").value;
      pages == Min(bound, count)
    ensures pages <= page ==> Range(page + 1, pages) == []
  {
  }

  /** Re-storing a response's own list gives back the response. */
  lemma StoreOwnList(shape: Shape, response: Json, items: Json)
    requires Extract(shape, response) == Returned(items)
    requires response.JObj? && shape.key in response.fields
    requires shape.AnswerData? ==> response.fields[shape.key].JObj? && "data" in response.fields[shape.key].fields
    ensures Store(shape, response, items) == Returned(response)
  {
    if shape.AnswerData? {
      var inner := response.fields[shape.key];
      assert inner.fields["data" := items] == inner.fields;
      assert response.fields[shape.key := JObj(inner.fields["data" := items])] == response.fields;
    } else {
      assert response.fields[shape.key := items] == response.fields;
    }
  }

  /**
   * When the window ends on the start page, the code as written returns
   * `None`, whereas the intended result is the first response itself.
   */
  lemma {:induction false} LastPageLogCrash(p: Paginator, maxPageCount: Json, fetch: Call -> Outcome<Json>, page: int,
                                            limit: int, args: seq<Option<string>>, kwargs: map<string, Json>,
                                            first: Json, records: int)
    requires PlanFirst(maxPageCount, fetch, page, limit, args, kwargs) == Returned(Window(first, page, records))
    requires first.JObj? && ShapeOf(p).key in first.fields
    requires ShapeOf(p).AnswerData? ==> first.fields[ShapeOf(p).key].JObj? && "data" in first.fields[ShapeOf(p).key].fields
    ensures PaginatedAsWritten(p, maxPageCount, fetch, page, limit, args, kwargs) == JNull
    ensures Paginated(p, maxPageCount, fetch, page, limit, args, kwargs) == first
  {
    var shape := ShapeOf(p);
    var items := Extract(shape, first);
    assert items.Returned?;
    StoreOwnList(shape, first, items.value);
  }

  /** A one-page subscription-data response that announces further pages. */
  const SamplePage: Json := JObj(map[
    "metadata" := JObj(map["has_next_page" := JBool(true), "page_count" := JNum(3), "total_count" := JNum(25)]),
    "subscriptions" := JObj(map["data" := JArr([JStr("row")])])])

  /**
   * Asking for one page of subscription data from page 1 gives `None` as
   * written, and that page once corrected.
   */
  lemma OnePageWindowExample()
    ensures var p := Paginator("subscriptions", true);
      var fetch := (c: Call) => Returned(SamplePage);
      && PaginatedAsWritten(p, JNum(1), fetch, 1, 10, [], map[]) == JNull
      && Paginated(p, JNum(1), fetch, 1, 10, [], map[]) == SamplePage
  {
    var p := Paginator("subscriptions", true);
    var fetch := (c: Call) => Returned(SamplePage);
    assert Contains(SamplePage, "metadata") == Returned(true);
    assert MetadataInt(SamplePage, "page_count") == Returned(3);
    assert MetadataInt(SamplePage, "total_count") == Returned(25);
    assert PlanFirst(JNum(1), fetch, 1, 10, [], map[]) == Returned(Window(SamplePage, 1, 10));
    LastPageLogCrash(p, JNum(1), fetch, 1, 10, [], map[], SamplePage, 10);
  }
}
