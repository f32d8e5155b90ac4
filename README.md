# huma-sdk core, modelled in Dafny

This project models the client-side core of the Huma SDK in Dafny:

- **Question scheduling and event dispatch for a thread** (`EventHelpers`, `QuestionsHelper`).
  - The queue of pending questions is a FIFO.
  - An event handler submits the next question only when every earlier one is final.
  - Each v1 or v2 subscription frame goes to at most one callback.
  - Each message id is completed at most once.
  - The thread closes when as many distinct message ids have completed as there were queued questions.
- **Batch pagination** (`Paginator`, `Subscriptions`).
  - The first page's metadata opens a window of further pages.
  - Those pages are fetched in order and their lists concatenated into the last response.
  - Any failure makes the result `None`.
- **The asynchronous GraphQL services** (`AsyncHelpers`, `AsyncResources`, `AsyncQuestions`).
  - The websocket handshake and `on_message` reactions.
  - The schema tables.
  - The chat and message mutations.
  - The question flow of the Questions service (`ask_question` and `_make_async_request`), and how `_AsyncQuestions` composes a question from its commands.
- **Service selection and the SDK's exceptions** (`Session`, `Exceptions`).
- **The batching helper of the parallel questions example** (`Parallelization`).

Python values are modelled as a `Json` datatype. What a call returns or raises is an `Outcome` (`Returned` or `Raised` with the exception class). Objects whose methods update their fields are classes, and each class exposes its fields as a value through `State()`. A pure step function on that value specifies each method, and the method is proved to perform exactly that step. Lemmas about the step functions state what the source promises.

Code outside the model becomes a parameter:

- the HTTP and GraphQL transports;
- the page fetcher;
- the send function and the callbacks;
- `json.dumps`, `parse_json_response`, base64 encoding, `urlparse().netloc` and `str()`.

The callbacks an event handler fires are recorded, in order, in a trace.

A few behaviours of the code that the model keeps as written:

- **Page size.** The paginator requests every page with the caller's `limit`.
- **Metadata and envelope.** The metadata block stays in the result. The aggregate is written into the *last* page's response.
- **v2 dispatch.** `streaming_assistant` always goes to the stream callback; `delta_type` is not consulted.
- **v2 completion.** A v2 event closes the thread when the author role is `system_manager` and `processing_status.state` is `done` or `failure`; `event_type` is not consulted.
- **Visual events.** The event handler fetches no answer data of its own for visual events.

## Model

| member | source | states |
|---|---|---|
| QuestionsHelper.QuestionQueue.constructor | huma_sdk/_helpers/questions_helper.py:4-6 | a new queue is empty |
| QuestionsHelper.QuestionQueue.Push | huma_sdk/_helpers/questions_helper.py:8-14 | the question is appended at the back and the size grows by one |
| QuestionsHelper.QuestionQueue.Pop | huma_sdk/_helpers/questions_helper.py:16-25 | an empty queue gives None and stays empty; otherwise the front question is returned and removed |
| QuestionsHelper.QuestionQueue.Peek | huma_sdk/_helpers/questions_helper.py:27-36 | None exactly when the queue is empty, otherwise the front question, which stays in the queue |
| QuestionsHelper.QuestionQueue.IsEmpty | huma_sdk/_helpers/questions_helper.py:38-44 | true exactly when the size is zero |
| QuestionsHelper.QuestionQueue.Size | huma_sdk/_helpers/questions_helper.py:46-52 | zero exactly when there are no questions |
| QuestionsHelper.QuestionQueue.Clear | huma_sdk/_helpers/questions_helper.py:54-59 | afterwards the queue is empty |
| QuestionsHelper.PushThenDrain | huma_sdk/_helpers/questions_helper.py:8-25 | FIFO: pushing questions and popping until empty gives them back in push order |
| EventHelpers.ClassifyV1 | huma_sdk/_helpers/event_helpers.py:122-140 | the chosen callback's test holds and no earlier branch's test does; no callback exactly when no branch test holds |
| EventHelpers.ClassifyV2 | huma_sdk/_helpers/event_helpers.py:145-159 | stream for `streaming_assistant`; progress or debug for `progress_assistant` by `delta_type` (status/step_status or log_info); visual for `visual_assistant`; each an if-and-only-if |
| EventHelpers.CheckClosingConditionV2 | huma_sdk/_helpers/event_helpers.py:102-107 | true only for `system_manager` events, and for those exactly when the processing state is done or failure |
| EventHelpers.UpdatedResult | huma_sdk/_helpers/event_helpers.py:19-23 | the key is added and other entries are kept; the new fields win; a non-empty existing entry keeps its other fields (dict.update); otherwise the value replaces it |
| EventHelpers.EmitV2 | huma_sdk/_helpers/event_helpers.py:145-162 | only the trace changes: one v2 callback with the delta when the event classifies, none otherwise; the result is the closing condition |
| EventHelpers.InitEstablishes | huma_sdk/_helpers/event_helpers.py:9-17 | `_init` establishes the session invariant: at most one message in flight, the counters agree, the queue is accounted for, and no callback has fired yet |
| EventHelpers.FinalUpdateMakesFinal | huma_sdk/_helpers/event_helpers.py:109-113 | after the final update the entry is final and keeps its question |
| EventHelpers.FinalUpdateKeepsOneInFlight | huma_sdk/_helpers/event_helpers.py:109-113 | finalising an entry never adds a second in-flight message |
| EventHelpers.PendingKeepsOneInFlight | huma_sdk/_helpers/event_helpers.py:66-70 | submitting when every entry is final leaves at most one in flight |
| EventHelpers.SubmitFromQueuePreserves | huma_sdk/_helpers/event_helpers.py:72-81 | submitting from the queue preserves the invariant, whether the send function returns or raises; the send function has been called with the non-empty popped questions in queue order |
| EventHelpers.UntilDonePreserves | huma_sdk/_helpers/event_helpers.py:84-87 | one loop iteration of `until_done` preserves the invariant, also when the send raises |
| EventHelpers.CheckClosingKeepsCounters | huma_sdk/_helpers/event_helpers.py:89-100 | the executed count stays equal to the number of distinct executed message ids |
| EventHelpers.CompletesAtMostOnce | huma_sdk/_helpers/event_helpers.py:89-100 | a message id already executed changes nothing and never completes again |
| EventHelpers.HandleFinalOutcome | huma_sdk/_helpers/event_helpers.py:109-120 | a frame that completes nothing changes nothing; a completion marks the entry final keeping its question, fires the completion callback with the entry, counts one more execution, answers whether all are done and stops the stream exactly then |
| EventHelpers.HandleFinalPreserves | huma_sdk/_helpers/event_helpers.py:109-120 | final handling preserves the invariant; the completion callback fired exactly for the executed ids, in order |
| EventHelpers.EmitV1Preserves | huma_sdk/_helpers/event_helpers.py:122-143 | dispatching a v1 frame preserves the invariant |
| EventHelpers.EmitV2Preserves | huma_sdk/_helpers/event_helpers.py:145-162 | dispatching a v2 event preserves the invariant |
| EventHelpers.EmitV1Order | huma_sdk/_helpers/event_helpers.py:122-143 | the classification callback fires before any completion callback of the same frame |
| EventHelpers.UntilDoneSends | huma_sdk/_helpers/event_helpers.py:72-87 | with the stream on and nothing in flight, and a send that returns an id, the front question is popped, sent, announced and recorded as pending, and nothing is raised |
| EventHelpers.SendFailureRecordsNothing | huma_sdk/_helpers/event_helpers.py:66-81 | when the send raises, the front question is already popped and handed to the send, but it is neither announced nor recorded in `_result`, and the exception propagates |
| EventHelpers.UntilDoneWaits | huma_sdk/_helpers/event_helpers.py:78-81 | while a message is in flight the loop changes nothing |
| EventHelpers.ProgressFrameOnlyNotifies | huma_sdk/_helpers/event_helpers.py:126-127 | a status frame only fires the progress callback |
| EventHelpers.CompletionFrameCompletes | huma_sdk/_helpers/event_helpers.py:89-120 | a processed system frame for a new id completes it, with the exact new state and answer |
| EventHelpers.RepeatedCompletionIgnored | huma_sdk/_helpers/event_helpers.py:95-98 | a second completion frame for the same id changes nothing and answers None |
| EventHelpers.ScenarioFirstSent | huma_sdk/_helpers/event_helpers.py:72-87 | in a two-question thread, the first loop iteration sends the first question |
| EventHelpers.ScenarioFirstProgress | huma_sdk/_helpers/event_helpers.py:122-143 | a progress frame for the first question only notifies |
| EventHelpers.ScenarioLoopWaits | huma_sdk/_helpers/event_helpers.py:78-81 | the second question waits while the first is in flight |
| EventHelpers.ScenarioFirstCompletes | huma_sdk/_helpers/event_helpers.py:109-120 | completing the first question answers "not all done" |
| EventHelpers.ScenarioRepeatIgnored | huma_sdk/_helpers/event_helpers.py:95-98 | a repeated completion of the first question is ignored |
| EventHelpers.ScenarioSecondSent | huma_sdk/_helpers/event_helpers.py:78-81 | after the first completes, the loop sends the second |
| EventHelpers.ScenarioSecondCompletes | huma_sdk/_helpers/event_helpers.py:116-118 | completing the second question answers "all done" and stops the stream |
| EventHelpers.ScenarioKeepsInvariant | huma_sdk/_helpers/event_helpers.py:66-120 | every state of the scenario satisfies the session invariant |
| EventHelpers.ScenarioFinished | huma_sdk/_helpers/event_helpers.py:66-120 | at the end both questions were sent in order, both ids completed in order, every entry is final and the stream is off |
| EventHelpers.EventHandler.constructor | huma_sdk/_helpers/event_helpers.py:6-7 | a new handler has an empty result map |
| EventHelpers.EventHandler.Init | huma_sdk/_helpers/event_helpers.py:9-17 | the fields become the initial session, with the total taken from the queue's size |
| EventHelpers.EventHandler.UpdateResult | huma_sdk/_helpers/event_helpers.py:19-23 | the result map becomes UpdatedResult of the old one |
| EventHelpers.EventHandler.CheckFinalProcessing | huma_sdk/_helpers/event_helpers.py:63-64 | true exactly when every entry is final (true of an empty map) |
| EventHelpers.EventHandler.SubmitQuestion | huma_sdk/_helpers/event_helpers.py:66-70 | performs the submit step: send, then announce and record pending if the send returned an id; a raising send propagates and records nothing |
| EventHelpers.EventHandler.SubmitQuestionFromQueue | huma_sdk/_helpers/event_helpers.py:72-81 | performs SubmitFromQueue on the handler's state and the shared queue, returning what the send raised |
| EventHelpers.EventHandler.UntilDoneStep | huma_sdk/_helpers/event_helpers.py:84-87 | performs one loop iteration, reports whether the stream was on, and returns what the send raised |
| EventHelpers.EventHandler.CheckClosingCondition | huma_sdk/_helpers/event_helpers.py:89-100 | performs CheckClosing and returns its answer |
| EventHelpers.EventHandler.HandleFinalOperations | huma_sdk/_helpers/event_helpers.py:109-120 | performs HandleFinal and returns its answer |
| EventHelpers.EventHandler.EmitSubscriptionEvent | huma_sdk/_helpers/event_helpers.py:122-143 | performs EmitV1 and returns its answer |
| EventHelpers.EventHandler.EmitSubscriptionEventV2 | huma_sdk/_helpers/event_helpers.py:145-162 | performs EmitV2 and returns its answer |
| EventHelpers.ThreadEventManager.constructor | huma_sdk/_helpers/event_helpers.py:166-172 | the stream starts on; the given handler is used, or else a fresh one |
| EventHelpers.ThreadEventManager.Enter | huma_sdk/_helpers/event_helpers.py:174-182 | the handler is initialised with the manager's stream, result, thread and queue, and returned |
| EventHelpers.ThreadEventManager.Exit | huma_sdk/_helpers/event_helpers.py:184-190 | the manager's own stream flag is turned off and the handler's is left as it was |
| Paginator.PageCall | huma_sdk/_services/_paginator.py:12-14 | the call carries the positional arguments, and `page` and `limit` are set among the keyword arguments |
| Paginator.PageCallKeepsOtherArguments | huma_sdk/_services/_paginator.py:12-14 | every other keyword argument is passed through unchanged |
| Paginator.ValidateMaxPageCount | huma_sdk/_services/_paginator.py:16-17 | an int is kept (a bool counts as 0 or 1); anything else becomes 10 |
| Paginator.CalculatePagesAndRecords | huma_sdk/_services/_paginator.py:22-25 | succeeds exactly when both metadata counts are numbers; pages is the smaller of the window end and page_count, records the smaller of pages times limit and total_count |
| Paginator.AnswerKey | huma_sdk/_services/_paginator.py:42 | "subscriptions" for the subscriptions module, "answer" otherwise |
| Paginator.Extend | huma_sdk/_services/_paginator.py:47 | only a list can be extended; a list argument is appended at the end |
| Paginator.Store | huma_sdk/_services/_paginator.py:52-65 | only the list slot is replaced by the aggregate; every other key of the response is kept |
| Paginator.Range | huma_sdk/_services/_paginator.py:44 | `range(page, last + 1)`: consecutive pages from `page`, as many as the window holds |
| Paginator.FetchPagesStep | huma_sdk/_services/_paginator.py:44-47 | one loop iteration: a failing page stops the loop with its exception, otherwise the loop continues from the next page |
| Paginator.FetchLoop | huma_sdk/_services/_paginator.py:44-49 | the loop computes FetchPages and requests pages `first`, `first + 1`, ... in order, all of the window when it succeeds |
| Paginator.FetchRemaining | huma_sdk/_services/_paginator.py:41-66 | `fetch_answer_data` / `fetch_records` compute FetchRemainingSpec and request the window's pages in order |
| Paginator.FetchFirstPage | huma_sdk/_services/_paginator.py:70-77 | fetches the start page and decides between returning it and a window, as PlanFirst |
| Paginator.PaginateResult | huma_sdk/_services/_paginator.py:68-90 | returns Paginated; requests the start page and then, for a window, each later page once and in order (corrected; see Findings) |
| Paginator.FetchPagesConcatenates | huma_sdk/_services/_paginator.py:41-66 | when every page is well formed, the aggregate is the starting list followed by each page's list in page order, with the last page's response kept |
| Paginator.PaginatedAggregates | huma_sdk/_services/_paginator.py:68-87 | a paginated result is the last response with its list replaced by the first page's list and every later page's list, in order |
| Paginator.SinglePageUnchanged | huma_sdk/_services/_paginator.py:70-87 | without metadata, or without a next page, the first response is returned unchanged |
| Paginator.WindowBound | huma_sdk/_services/_paginator.py:73-77 | the window ends at the smaller of `(page - 1) + max_page_count` and page_count; a window ending at or before the start page fetches nothing more |
| Paginator.StoreOwnList | huma_sdk/_services/_paginator.py:52-65 | storing a response's own list back gives the response unchanged |
| Paginator.LastPageLogCrash | huma_sdk/_services/_paginator.py:33-38 | as written, a window that ends on the start page returns None; as intended it returns the first response |
| Paginator.OnePageWindowExample | huma_sdk/_services/_paginator.py:77-90 | the concrete input of the first finding: page 1, max_page_count 1, has_next_page true |
| Subscriptions.ValidatePageNumber | huma_sdk/_services/_subscriptions.py:8-9 | a missing or zero page becomes 1; any other page is kept; the result is never 0 |
| Subscriptions.AuthHeader | huma_sdk/_services/_subscriptions.py:21 | exactly one header, the bearer token |
| Subscriptions.EndpointsShareBase | huma_sdk/_services/_subscriptions.py:20-43 | every endpoint starts with the API URL followed by `/v1/subscription` |
| Subscriptions.EndpointUrlsInjective | huma_sdk/_services/_subscriptions.py:30-43 | different ids give different data, delete and status URLs |
| Subscriptions.HandlePagination | huma_sdk/_services/_subscriptions.py:11-18 | a batch goes to a "subscriptions" paginator; otherwise one call with `page` and `limit` added (corrected; see Findings) |
| Subscriptions.FetchSubscriptions | huma_sdk/_services/_subscriptions.py:45-48 | one GET with exactly the sort, order, question, page and limit parameters, or a flat-records batch over them (corrected; see Findings) |
| Subscriptions.FetchSubscriptionData | huma_sdk/_services/_subscriptions.py:55-58 | one GET of the id's data URL with type, page and limit, or an answer-data batch keyed "subscriptions" (corrected; see Findings) |
| AsyncHelpers.NewSubscriptionClient | huma_sdk/_helpers/async_helpers.py:16-18 | a truthy key or URL argument wins, otherwise the environment's value |
| AsyncHelpers.GetApiHeader | huma_sdk/_helpers/async_helpers.py:123-127 | exactly `host` (the URL's netloc) and `authorization` (the secret key) |
| AsyncHelpers.OnOpen | huma_sdk/_helpers/async_helpers.py:34-44 | the connection_init frame is sent and nothing else happens |
| AsyncHelpers.OnMessageReaction | huma_sdk/_helpers/async_helpers.py:77-109 | only the start frame is ever sent, and a reaction never both sends and closes |
| AsyncHelpers.OnMessage | huma_sdk/_helpers/async_helpers.py:77-109 | the socket receives exactly the reaction's frames and is closed exactly when the reaction says so; an exception leaves it untouched |
| AsyncHelpers.AckIsTheOnlySender | huma_sdk/_helpers/async_helpers.py:88-103 | a frame is sent exactly for `connection_ack`, and it is the start frame |
| AsyncHelpers.DataClosesOnCallbackVerdict | huma_sdk/_helpers/async_helpers.py:105-109 | for `data` the callback gets the subscription's entry and the socket closes exactly when its answer is truthy |
| AsyncHelpers.OtherTypesIgnored | huma_sdk/_helpers/async_helpers.py:86-109 | any other message type does nothing |
| AsyncHelpers.StartFrameContents | huma_sdk/_helpers/async_helpers.py:89-101 | the start frame has id "1", type "start", the encoded query and the API header |
| AsyncHelpers.ReplaceAllAbsent | huma_sdk/_helpers/async_helpers.py:148 | replacing a substring that does not occur changes nothing |
| AsyncHelpers.ReplaceAllLeading | huma_sdk/_helpers/async_helpers.py:148 | a leading occurrence is replaced and the rest is processed on its own |
| AsyncHelpers.SecureSchemeBecomesWss | huma_sdk/_helpers/async_helpers.py:148 | an `https` URL whose rest contains no further "https" becomes a `wss` URL with the same rest (`str.replace` rewrites every occurrence) |
| AsyncHelpers.ConstructWsConnectionUrl | huma_sdk/_helpers/async_helpers.py:141-151 | raises AttributeError exactly when there is no GraphQL URL |
| AsyncHelpers.HandshakeAgreesWithStartFrame | huma_sdk/_helpers/async_helpers.py:123-151 | the connection URL is the wss URL, `/realtime?header=`, the encoded header the start frame also carries, and `&payload=e30=` |
| AsyncHelpers.NewChatMutationV1 | huma_sdk/_helpers/async_helpers.py:176-184 | titled by a truthy topic, otherwise "New Chat" |
| AsyncHelpers.GetSchema | huma_sdk/_helpers/async_helpers.py:665-680 | the empty query exactly for pairs outside the table; GetMessages v2 raises TypeError; NewChat v1 is the titled mutation; other pairs give their template |
| AsyncHelpers.UnknownVersionGivesEmpty | huma_sdk/_helpers/async_helpers.py:665-680 | a version other than v1 and v2 always gives the empty query |
| AsyncResources.IsSystemFrame | huma_sdk/_async_resources.py:110 | raises for a non-object payload; otherwise true exactly for system/system or system/blocking frames |
| AsyncResources.OnMessageReaction | huma_sdk/_async_resources.py:77-118 | only the start frame is ever sent |
| AsyncResources.OnMessage | huma_sdk/_async_resources.py:77-118 | the socket receives exactly the reaction's frames and closes exactly when the reaction says so |
| AsyncResources.ClosesExactlyOnProcessed | huma_sdk/_async_resources.py:105-118 | for `data`, the socket closes exactly when the entry is a system frame whose parsed content has a truthy `is_processed` |
| AsyncResources.CallbackAnswerIgnored | huma_sdk/_async_resources.py:115-118 | the callback's answer does not affect the reaction |
| AsyncResources.MissingEntryRaises | huma_sdk/_async_resources.py:107-110 | a `data` message without the subscription's entry raises AttributeError |
| AsyncResources.GetSchema | huma_sdk/_async_resources.py:309-320 | NewChat v2 and SendMessage v2 give None; unknown pairs the empty query; NewChat v1 the titled mutation; the rest their template |
| AsyncResources.SchemaTablesAgreeOnV1 | huma_sdk/_async_resources.py:309-320 | on v1 pairs and on unknown pairs both schema tables give the same query |
| AsyncResources.NewServices | huma_sdk/_async_resources.py:324-332 | the version defaults to v1; no chat, no message, no requests yet |
| AsyncResources.GetHeaders | huma_sdk/_async_resources.py:334-335 | exactly the bearer authorization header |
| AsyncResources.ExecuteGqlOn | huma_sdk/_async_resources.py:340-346 | exactly one request is appended, carrying the URL, headers, query and variables; its answer is the result |
| AsyncResources.StartNewChatOn | huma_sdk/_async_resources.py:354-357 | one NewChat request; on success `chat_id` is the id in the answer; on failure it is unchanged |
| AsyncResources.GetMessageQueries | huma_sdk/_async_resources.py:381-389 | as written the lookup sends the empty query; with `version=` a v1 service sends the GetMessages query |
| AsyncResources.SendMessageShape | huma_sdk/_async_resources.py:359-370 | the message is sent for the current chat with its content, then the utterance is processed; chat and subscriptions unchanged |
| AsyncResources.WrongThreadSendsNothing | huma_sdk/_async_resources.py:400-407 | a thread lookup with a falsy answer returns the wrong-thread exception after only the lookup request (corrected; see Findings) |
| AsyncResources.WrongThreadStillSucceeds | huma_sdk/_async_resources.py:417-420 | the Questions service still answers "SUCCEEDED" then, without subscribing (corrected; see Findings) |
| AsyncResources.ExistingThreadOrder | huma_sdk/_async_resources.py:400-411 | for a known thread: lookup, send, utterance, in that order, then a subscription to that chat (corrected; see Findings) |
| AsyncResources.NewThreadOpensChat | huma_sdk/_async_resources.py:400-402 | with API version v1 and without a thread id, a new chat titled by the topic, else the question, else "New Chat" is opened first (on v2 the NewChat query is None) |
| AsyncResources.MakeAsyncRequestByService | huma_sdk/_async_resources.py:417-423 | Questions answers "SUCCEEDED", Threads the new chat's id, any other service None without any effect |
| AsyncResources.OnUpdateMessage | huma_sdk/_async_resources.py:375-379 | content is shown exactly for stream frames and analyser/visual frames that carry it, and is the frame's `content`; other content types and other analyser subtypes show nothing; a non-dict raises TypeError and a missing `contentType` (or `contentsubType` on an analyser frame) raises KeyError |
| AsyncResources.AsyncServices.constructor | huma_sdk/_async_resources.py:324-332 | the object's state is NewServices |
| AsyncResources.AsyncServices.ExecuteGql | huma_sdk/_async_resources.py:340-346 | performs ExecuteGqlOn |
| AsyncResources.AsyncServices.ProcessUtterance | huma_sdk/_async_resources.py:348-352 | performs ProcessUtteranceOn |
| AsyncResources.AsyncServices.StartNewChat | huma_sdk/_async_resources.py:354-357 | performs StartNewChatOn |
| AsyncResources.AsyncServices.SendMessage | huma_sdk/_async_resources.py:359-370 | performs SendMessageOn |
| AsyncResources.AsyncServices.GetMessage | huma_sdk/_async_resources.py:381-389 | performs GetMessageOn (the corrected lookup of the second finding) |
| AsyncResources.AsyncServices.SubscribeToMessages | huma_sdk/_async_resources.py:392-398 | records one subscription to the current chat |
| AsyncResources.AsyncServices.AskQuestion | huma_sdk/_async_resources.py:400-411 | performs AskQuestionOn (corrected; see Findings) |
| AsyncResources.AsyncServices.NewChat | huma_sdk/_async_resources.py:413-415 | performs NewChatOn |
| AsyncResources.AsyncServices.MakeAsyncRequest | huma_sdk/_async_resources.py:417-423 | performs MakeAsyncRequestOn (corrected; see Findings) |
| AsyncQuestions.ComposeQuestionReadsBack | huma_sdk/_async_services/_questions.py:10 | when neither the question nor any command contains a space, the composed text split on spaces gives back the question and then each command in order, or an empty piece when there are none |
| AsyncQuestions.ComposeQuestionAppend | huma_sdk/_async_services/_questions.py:10 | for any question and non-empty commands, one more command extends the composed text by a space and that command |
| AsyncQuestions.SubmitQuestionOpensChat | huma_sdk/_async_services/_questions.py:9-11 | for Questions on v1 a chat titled by the composed text is opened first; a service other than Questions and Threads changes nothing |
| AsyncQuestions.SubmitQuestionSendsComposed | huma_sdk/_async_services/_questions.py:9-11 | a successful submission sent the composed text as the chat's message and subscribed once |
| AsyncQuestions.SubmitQuestion | huma_sdk/_async_services/_questions.py:9-16 | performs SubmitQuestionOn on the service object and returns None |
| Exceptions.MessageIsJoinedLines | huma_sdk/exceptions.py:1-10 | the unknown-resource message is its lines joined by newlines |
| Exceptions.ResourceNotExistsLines | huma_sdk/exceptions.py:1-10 | when the name and the services contain no newline, the message names the resource, announces the list, has one bulleted line per service in order and ends with a newline |
| Exceptions.UnauthorizedMessage | huma_sdk/exceptions.py:13-19 | the message is the fixed sentence about the service followed by the error message, which reads back |
| Exceptions.UnauthorizedMessageInjective | huma_sdk/exceptions.py:13-19 | different error messages give different exceptions |
| Session.NewSession | huma_sdk/_session.py:5-9 | accepted exactly for one of the available names; otherwise ResourceNotExistsError naming it and listing the services |
| Session.CreateConnection | huma_sdk/_session.py:11-12 | the mapped client constructed with all the arguments; an unmapped name raises TypeError |
| Session.TablesAgree | huma_sdk/_service_config.py:3-9 | the available services are exactly the mapped ones |
| Session.StartSessionOutcome | huma_sdk/__init__.py:9-11 | `session` either raises ResourceNotExistsError or builds the named client with every argument; it raises nothing else |
| Session.AcceptedNames | huma_sdk/_service_config.py:5-9 | each of the three names gives its own client class |
| Session.QuestionsIsRejected | huma_sdk/_session.py:8-9 | "Questions" is not a session service and is rejected by name |
| Parallelization.GetQuestionBatches | examples/parallelization.py:61-76 | size 0 raises ValueError (from `range`), a negative size gives no batch; a positive size gives exactly the batches the loop appends from index 0 (`BatchesFrom`) |
| Parallelization.ConcatBatchesFrom | examples/parallelization.py:72-75 | the batches from an index, laid end to end, are the rest of the list from that index: no question is lost, repeated or reordered |
| Parallelization.BatchesFromSizes | examples/parallelization.py:72-75 | every batch is non-empty and at most batch_size long, and every batch but the last is full |
| Parallelization.BatchesFromCount | examples/parallelization.py:72-75 | the number of batches from an index is ceil((n - index) / batch_size) |
| Parallelization.BatchesFromIndex | examples/parallelization.py:72-75 | batch k from an index is the slice starting at index + k * batch_size, cut at the end of the list |
| Parallelization.BatchesShape | examples/parallelization.py:61-76 | for a positive size the result concatenates to the input, has ceil(n / size) batches, each non-empty and at most size long, all but the last full, batch k the slice from k * size |
| Parallelization.CeilDivExact | examples/parallelization.py:73 | a count m with m * size >= n > (m - 1) * size is ceil(n / size), the number of steps of `range(0, n, size)` |

## Left out

- Transport. The websocket connection, `run_forever`, threads, HTTP requests and `response.json()` are not modelled. Each request becomes a recorded request and an oracle answer.
- Logging. `on_error`, `on_close` and the `print` calls in `clear` and `on_update_message` only log or print and are left out. `on_update_message` returns the content it would print.
- `json.dumps`, `parse_json_response`, base64 encoding, `urlparse` and `str()` are parameters. Their concrete behaviour is not modelled.
- `os.environ` is modelled only as the values it gives.
- The GraphQL query texts are opaque `Template(type, version)` values, except the title of the v1 NewChat mutation.
- `handle_subscription` is recorded as a subscription request, so the thread it starts is not run.
- Paginator.Extend: a non-empty dict argument raises TypeError in the model, whereas Python appends the dict's keys. The model's maps carry no key order.
- Aliasing. The paginator's aggregate is a value. Python's in-place extension of a list that the first response shares is not modelled: the first response is not observed after the loop.
- The event handler's `_result` is a value. Aliasing with the caller's dict is not modelled.
- Session.NewSession: a service name that is neither a string nor None is rendered with the `str` parameter.
- The service client classes (Quicklinks, Aliases, Audits) are modelled only by identity. Their modules are not part of this model.
- The `_threads.py` service and the `app.py` entry points are not part of this model.
- EventHelpers.FrameV2: a v2 event is a record whose nested objects (`author`, `event_metadata.event_data`, `sub_message_metadata.delta`, `message_metadata.processing_status`) are all present. An event where one of them is null or missing is not represented. So the TypeError or KeyError that the unguarded subscripts of `check_closing_condition_v2` and `_emit_subscription_event_v2` raise for such an event is not modelled by EmitV2, CheckClosingConditionV2 or EmitV2Preserves.
- Floating-point numbers. JSON numbers are integers in the model (`JNum(int)`). So two paths of `paginate_result` are absent: a float `max_page_count` fails the `isinstance(..., int)` test and becomes 10, and a float `page_count` makes `range` raise, so the paginator logs and returns None.

## Findings

| source | as written | input that shows it | evidently intended | confidence | as-written member | corrected member |
|---|---|---|---|---|---|---|
| huma_sdk/_services/_paginator.py:81 | the page-info log before the loop omits `total_records`; when the window ends on the start page it adds None to an int, and the TypeError makes `paginate_result` return None | page 1, max_page_count 1, first page with `has_next_page` true and `page_count` 3 | the first page is returned as the whole batch | high, not executed | Paginator.PaginatedAsWritten, Paginator.LastPageLogCrash, Paginator.OnePageWindowExample | Paginator.Paginated |
| huma_sdk/_async_resources.py:382 | `get_message` passes `api_version=` to `get_schema`, whose version then defaults to "", so the lookup always sends the empty query | any thread id on a v1 service | pass `version=`, so that the GetMessages query is sent | high, not executed | AsyncResources.GetMessageAsWrittenOn, AsyncResources.GetMessageQueries | AsyncResources.GetMessageOn |
