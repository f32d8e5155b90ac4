/**
 * The per-thread question scheduler and frame dispatcher
 * (huma_sdk/_helpers/event_helpers.py).
 *
 * The pure functions over `Session` specify one step each; the
 * `EventHandler` class holds the same state in fields and its methods are
 * proved to perform exactly those steps. The send function and the
 * callbacks the caller overrides are not run: each call is recorded, in
 * order, as an `Effect` in `trace`, and the message id the send function
 * returns is a parameter of the step that calls it.
 */
module EventHelpers {
  import opened PyJson
  import opened QuestionsHelper

  type MessageId = string

  /** One entry of the result map: the dict stored under a message id. */
  type Entry = map<string, Json>

  /**
   * A v1 frame: the `subscribeUpdateMessage` object. The subscription
   * selects every field, so each key is present (a null value is modelled
   * by a string equal to none of the tags it is compared with).
   * `parsedContent` is what `parse_json_response` gives for `content`.
   */
  datatype FrameV1 = FrameV1(
    messageId: MessageId,
    contentType: string,
    contentsubType: string,
    debugAndStatusState: string,
    content: Json,
    parsedContent: Outcome<Json>)

  /** `sub_message_metadata.delta` of a v2 event. */
  datatype Delta = Delta(deltaType: string, body: Json)

  /**
   * A v2 event: the author's role, the delta, and the state of
   * `message_metadata.processing_status`. Every nested object on those
   * paths is taken to be present; an event with a null or missing one,
   * which makes the nested subscripts raise, is not represented.
   */
  datatype FrameV2 = FrameV2(role: string, delta: Delta, processingState: string)

  /** The v1 callback a frame is dispatched to (`NoneV1`: none). */
  datatype KindV1 = StreamV1 | ProgressV1 | DebugV1 | VisualV1 | FollowUpV1 | ErrorV1 | NoneV1

  /** The v2 callback a frame is dispatched to (`NoneV2`: none). */
  datatype KindV2 = StreamV2 | ProgressV2 | DebugV2 | VisualV2 | NoneV2

  /** A call the handler makes, recorded in order. */
  datatype Effect =
    | SendMessage(question: string)                    // the send function
    | NewQuestionAsked(question: string)               // on_new_question_asked_v1
    | UpdateV1(kind: KindV1, frame: FrameV1)           // on_<kind>_update_v1
    | MessageCompletion(frame: FrameV1, entry: Entry)  // on_message_completion_v1
    | UpdateV2(kindV2: KindV2, delta: Delta)           // on_<kind>_update_v2

  // ---------------------------------------------------------------------
  // Classification
  // ---------------------------------------------------------------------

  /** The v1 branches in the order the dispatcher tries them. */
  const PriorityV1: seq<KindV1> := [StreamV1, ProgressV1, DebugV1, VisualV1, FollowUpV1, ErrorV1]

  /** The test of the branch for `k`, on its own. */
  predicate MatchesV1(f: FrameV1, k: KindV1) {
    match k
    case StreamV1 => f.contentType == "stream"
    case ProgressV1 => f.contentsubType == "status"
    case DebugV1 => f.contentsubType == "debug"
    case VisualV1 => f.contentType == "analyzer" && f.debugAndStatusState == "complete"
    case FollowUpV1 => f.contentType == "follow_up" && f.debugAndStatusState == "complete"
    case ErrorV1 => f.contentType == "error"
    case NoneV1 => false
  }

  /** The position of a branch in `PriorityV1`. */
  function RankV1(k: KindV1): (i: nat)
    requires k != NoneV1
    ensures i < |PriorityV1| && PriorityV1[i] == k
  {
    match k
    case StreamV1 => 0
    case ProgressV1 => 1
    case DebugV1 => 2
    case VisualV1 => 3
    case FollowUpV1 => 4
    case ErrorV1 => 5
  }

  /**
   * The if/elif chain of `_emit_subscription_event`: the first branch in
   * priority order whose test holds, or none.
   */
  function ClassifyV1(f: FrameV1): (k: KindV1)
    ensures k == NoneV1 <==> forall j :: 0 <= j < |PriorityV1| ==> !MatchesV1(f, PriorityV1[j])
    ensures k != NoneV1 ==> MatchesV1(f, k)
    ensures k != NoneV1 ==> forall j :: 0 <= j < RankV1(k) ==> !MatchesV1(f, PriorityV1[j])
  {
    var k := if f.contentType == "stream" then StreamV1
      else if f.contentsubType == "status" then ProgressV1
      else if f.contentsubType == "debug" then DebugV1
      else if f.contentType == "analyzer" && f.debugAndStatusState == "complete" then VisualV1
      else if f.contentType == "follow_up" && f.debugAndStatusState == "complete" then FollowUpV1
      else if f.contentType == "error" then ErrorV1
      else NoneV1;
    assert k != NoneV1 ==> MatchesV1(f, PriorityV1[RankV1(k)]);
    k
  }

  /** The role/delta-type dispatch of `_emit_subscription_event_v2`. */
  function ClassifyV2(f: FrameV2): (k: KindV2)
    ensures k == StreamV2 <==> f.role == "streaming_assistant"
    ensures k == ProgressV2 <==> f.role == "progress_assistant" && f.delta.deltaType in {"status", "step_status"}
    ensures k == DebugV2 <==> f.role == "progress_assistant" && f.delta.deltaType == "log_info"
    ensures k == VisualV2 <==> f.role == "visual_assistant"
  {
    if f.role == "streaming_assistant" then StreamV2
    else if f.role == "progress_assistant" then
      if f.delta.deltaType in ["status", "step_status"] then ProgressV2
      else if f.delta.deltaType == "log_info" then DebugV2
      else NoneV2
    else if f.role == "visual_assistant" then VisualV2
    else NoneV2
  }

  /** `check_closing_condition_v2`: a system manager's event in a terminal state. */
  function CheckClosingConditionV2(f: FrameV2): (done: bool)
    ensures done ==> f.role == "system_manager"
    ensures f.role == "system_manager" ==> (done <==> f.processingState == "done" || f.processingState == "failure")
  {
    if f.role == "system_manager" then f.processingState in ["done", "failure"] else false
  }

  // ---------------------------------------------------------------------
  // The result map
  // ---------------------------------------------------------------------

  /** `entry.get('final_status')` is truthy. */
  predicate IsFinal(e: Entry) {
    "final_status" in e && Truthy(e["final_status"])
  }

  /** `check_final_processing`: every entry is final (true of an empty map). */
  predicate AllFinal(r: map<MessageId, Entry>) {
    forall k :: k in r ==> IsFinal(r[k])
  }

  /** At most one entry of the result map is still in flight. */
  predicate AtMostOneInFlight(r: map<MessageId, Entry>) {
    forall a, b :: a in r && b in r && !IsFinal(r[a]) && !IsFinal(r[b]) ==> a == b
  }

  /**
   * `update_result`: a non-empty entry under `key` is updated with `value`
   * (dict.update, so `value` wins on shared keys); otherwise `value`
   * becomes the entry.
   */
  function UpdatedResult(r: map<MessageId, Entry>, key: MessageId, value: Entry): (r': map<MessageId, Entry>)
    ensures r'.Keys == r.Keys + {key}
    ensures forall k :: k in r && k != key ==> r'[k] == r[k]
    ensures forall fld :: fld in value ==> fld in r'[key] && r'[key][fld] == value[fld]
    ensures key in r && r[key] != map[] ==>
      r'[key].Keys == r[key].Keys + value.Keys &&
      forall fld :: fld in r[key] && fld !in value ==> r'[key][fld] == r[key][fld]
    ensures key !in r || r[key] == map[] ==> r'[key] == value
  {
    if key in r && r[key] != map[] then r[key := r[key] + value] else r[key := value]
  }

  /** The entry `submit_question` stores for a new question. */
  function PendingEntry(question: string): Entry {
    map["question" := JStr(question), "final_status" := JBool(false), "submission_status" := JBool(true)]
  }

  /** The update `handle_final_operations` merges into a completed entry. */
  const FinalUpdate: Entry := map["final_status" := JBool(true), "submission_status" := JBool(true)]

  // ---------------------------------------------------------------------
  // Trace observers
  // ---------------------------------------------------------------------

  /** The questions passed to the send function, in call order. */
  function SentQuestions(t: seq<Effect>): seq<string> {
    if t == [] then []
    else SentQuestions(t[..|t| - 1]) + (if t[|t| - 1].SendMessage? then [t[|t| - 1].question] else [])
  }

  /** The message ids whose completion callback fired, in order. */
  function CompletedIds(t: seq<Effect>): seq<MessageId> {
    if t == [] then []
    else CompletedIds(t[..|t| - 1]) + (if t[|t| - 1].MessageCompletion? then [t[|t| - 1].frame.messageId] else [])
  }

  /** The truthy (non-empty) questions of `qs`, in order. */
  function NonEmpty(qs: seq<string>): seq<string> {
    if qs == [] then []
    else NonEmpty(qs[..|qs| - 1]) + (if qs[|qs| - 1] != "" then [qs[|qs| - 1]] else [])
  }

  predicate NoDuplicates<T(==)>(s: seq<T>) {
    forall i, j :: 0 <= i < j < |s| ==> s[i] != s[j]
  }

  lemma SentQuestionsAppend(t: seq<Effect>, e: Effect)
    ensures SentQuestions(t + [e]) == SentQuestions(t) + (if e.SendMessage? then [e.question] else [])
  {
    assert (t + [e])[..|t|] == t;
  }

  lemma CompletedIdsAppend(t: seq<Effect>, e: Effect)
    ensures CompletedIds(t + [e]) == CompletedIds(t) + (if e.MessageCompletion? then [e.frame.messageId] else [])
  {
    assert (t + [e])[..|t|] == t;
  }

  lemma NonEmptyAppend(qs: seq<string>, q: string)
    ensures NonEmpty(qs + [q]) == NonEmpty(qs) + (if q != "" then [q] else [])
  {
    assert (qs + [q])[..|qs|] == qs;
  }

  // ---------------------------------------------------------------------
  // The session state and its steps
  // ---------------------------------------------------------------------

  /**
   * The handler's state: `_stream`, `_result`, the queue's contents,
   * `_total_questions`, `_executed_questions`, `_executed_messages`, the
   * calls made since `_init`, and the values popped from the queue since
   * `_init` (bookkeeping for the ordering invariant).
   */
  datatype Session = Session(
    stream: bool,
    result: map<MessageId, Entry>,
    queue: seq<string>,
    totalQuestions: int,
    executedQuestions: int,
    executedMessages: seq<MessageId>,
    trace: seq<Effect>,
    popped: seq<string>)

  /** A step's new state and what it returned or raised. */
  datatype Transition<T> = Transition(after: Session, out: Outcome<T>)

  /** `_init`: total is the queue's size, nothing executed yet. */
  function InitSession(stream: bool, result: map<MessageId, Entry>, queue: seq<string>): Session {
    Session(stream, result, queue, |queue|, 0, [], [], [])
  }

  /**
   * `submit_question`; `sent` is what the send function returns or raises.
   * A raise leaves `submit_question` before the question is announced or
   * recorded in `_result`.
   */
  function SubmitQuestionOn(s: Session, question: string, sent: Outcome<MessageId>): Transition<()> {
    match sent
    case Raised(e) => Transition(s.(trace := s.trace + [SendMessage(question)]), Raised(e))
    case Returned(messageId) =>
      Transition(s.(trace := s.trace + [SendMessage(question), NewQuestionAsked(question)],
                    result := UpdatedResult(s.result, messageId, PendingEntry(question))),
                 Returned(()))
  }

  /** The guard of both branches of `submit_question_from_queue`. */
  predicate MayPop(executedQuestions: int, r: map<MessageId, Entry>) {
    (executedQuestions == 0 && r == map[]) || AllFinal(r)
  }

  /**
   * `submit_question_from_queue`; `sent` is what the send function returns
   * or raises if it is called. The question is popped before it is sent.
   */
  function SubmitFromQueue(s: Session, sent: Outcome<MessageId>): Transition<()> {
    if MayPop(s.executedQuestions, s.result) && s.queue != [] then
      var q := s.queue[0];
      var s' := s.(queue := s.queue[1..], popped := s.popped + [q]);
      if q != "" then SubmitQuestionOn(s', q, sent) else Transition(s', Returned(()))
    else Transition(s, Returned(()))
  }

  /** One iteration of the `until_done` loop; a raise leaves the loop. */
  function UntilDone(s: Session, sent: Outcome<MessageId>): Transition<()> {
    if s.stream then SubmitFromQueue(s, sent) else Transition(s, Returned(()))
  }

  /** `check_closing_condition`: returns whether this frame completes its message for the first time. */
  function CheckClosing(s: Session, f: FrameV1): Transition<bool> {
    if f.contentType == "system" && f.contentsubType in ["system", "blocking"] then
      match f.parsedContent
      case Raised(e) => Transition(s, Raised(e))
      case Returned(parsed) =>
        match Get(parsed, "is_processed", JNull)
        case Raised(e) => Transition(s, Raised(e))
        case Returned(p) =>
          if Truthy(p) && f.messageId !in s.executedMessages then
            Transition(s.(executedMessages := s.executedMessages + [f.messageId],
                          executedQuestions := s.executedQuestions + 1), Returned(true))
          else Transition(s, Returned(false))
    else Transition(s, Returned(false))
  }

  /**
   * `handle_final_operations`: `None` for a frame that completes nothing,
   * otherwise whether every question has now been executed.
   */
  function HandleFinal(s: Session, f: FrameV1): Transition<Option<bool>> {
    var c := CheckClosing(s, f);
    if c.out.Raised? then Transition(c.after, Raised(c.out.error))
    else if !c.out.value then Transition(c.after, Returned(None))
    else
      var r := UpdatedResult(c.after.result, f.messageId, FinalUpdate);
      var s2 := c.after.(result := r, trace := c.after.trace + [MessageCompletion(f, r[f.messageId])]);
      var processed := s2.executedQuestions == s2.totalQuestions;
      Transition(if processed then s2.(stream := false) else s2, Returned(Some(processed)))
  }

  /**
   * `_emit_subscription_event`: at most one classification callback (the
   * error callback receives the frame with its content parsed), then the
   * completion handling.
   */
  function EmitV1(s: Session, f: FrameV1): Transition<Option<bool>> {
    var k := ClassifyV1(f);
    if k == ErrorV1 && f.parsedContent.Raised? then Transition(s, Raised(f.parsedContent.error))
    else
      var f' := if k == ErrorV1 then f.(content := f.parsedContent.value) else f;
      var s1 := if k == NoneV1 then s else s.(trace := s.trace + [UpdateV1(k, f')]);
      HandleFinal(s1, f')
  }

  /**
   * `_emit_subscription_event_v2`: at most one v2 callback, and whether
   * the event closes the thread; nothing but the trace changes.
   */
  function EmitV2(s: Session, f: FrameV2): (t: (Session, bool))
    ensures t.0 == s.(trace := t.0.trace)
    ensures ClassifyV2(f) == NoneV2 ==> t.0.trace == s.trace
    ensures ClassifyV2(f) != NoneV2 ==> t.0.trace == s.trace + [UpdateV2(ClassifyV2(f), f.delta)]
    ensures t.1 <==> f.role == "system_manager" && f.processingState in {"done", "failure"}
  {
    var k := ClassifyV2(f);
    (if k == NoneV2 then s else s.(trace := s.trace + [UpdateV2(k, f.delta)]), CheckClosingConditionV2(f))
  }

  // ---------------------------------------------------------------------
  // Invariants and what the steps promise
  // ---------------------------------------------------------------------

  /** `_executed_questions` counts `_executed_messages`, which holds each id once. */
  predicate CountersAgree(s: Session) {
    s.executedQuestions == |s.executedMessages| && NoDuplicates(s.executedMessages)
  }

  /**
   * What every session keeps, for the queue `initial` it started from: at
   * most one question in flight; the send function has been called with
   * the non-empty questions popped so far, in queue order; and the
   * completion callback has fired exactly for `_executed_messages`, in order.
   */
  predicate SessionInvariant(s: Session, initial: seq<string>) {
    && CountersAgree(s)
    && AtMostOneInFlight(s.result)
    && initial == s.popped + s.queue
    && SentQuestions(s.trace) == NonEmpty(s.popped)
    && CompletedIds(s.trace) == s.executedMessages
  }

  lemma InitEstablishes(stream: bool, result: map<MessageId, Entry>, queue: seq<string>)
    requires AtMostOneInFlight(result)
    ensures SessionInvariant(InitSession(stream, result, queue), queue)
  {
  }

  /** Merging `FinalUpdate` into an entry makes it final and keeps its question. */
  lemma FinalUpdateMakesFinal(r: map<MessageId, Entry>, key: MessageId)
    ensures IsFinal(UpdatedResult(r, key, FinalUpdate)[key])
    ensures key in r && r[key] != map[] && "question" in r[key] ==>
      UpdatedResult(r, key, FinalUpdate)[key]["question"] == r[key]["question"]
  {
    var e := UpdatedResult(r, key, FinalUpdate)[key];
    assert "final_status" in FinalUpdate;
    assert e["final_status"] == JBool(true);
  }

  /** Marking one entry final keeps at most one entry in flight. */
  lemma FinalUpdateKeepsOneInFlight(r: map<MessageId, Entry>, key: MessageId)
    requires AtMostOneInFlight(r)
    ensures AtMostOneInFlight(UpdatedResult(r, key, FinalUpdate))
  {
    FinalUpdateMakesFinal(r, key);
  }

  /** A new pending entry leaves at most one entry in flight when all others were final. */
  lemma PendingKeepsOneInFlight(r: map<MessageId, Entry>, key: MessageId, question: string)
    requires AllFinal(r)
    ensures AtMostOneInFlight(UpdatedResult(r, key, PendingEntry(question)))
  {
    var r' := UpdatedResult(r, key, PendingEntry(question));
    forall a | a in r' && a != key
      ensures IsFinal(r'[a])
    {
    }
  }

  /**
   * `submit_question_from_queue` pops only when every entry is final (or
   * nothing has happened yet), sends a popped question only if it is
   * non-empty, and keeps the session invariant.
   */
  lemma {:induction false} SubmitFromQueuePreserves(s: Session, initial: seq<string>, sent: Outcome<MessageId>)
    requires SessionInvariant(s, initial)
    ensures SessionInvariant(SubmitFromQueue(s, sent).after, initial)
  {
    if MayPop(s.executedQuestions, s.result) && s.queue != [] {
      var q := s.queue[0];
      var s1 := s.(queue := s.queue[1..], popped := s.popped + [q]);
      assert s1.popped + s1.queue == s.popped + s.queue;
      NonEmptyAppend(s.popped, q);
      if q != "" {
        SubmitQuestionTrace(s1, q, sent);
        if sent.Returned? {
          assert AllFinal(s.result);
          PendingKeepsOneInFlight(s.result, sent.value, q);
        }
      }
    }
  }

  /** `submit_question` records one sent question and completes nothing, whether or not the send raises. */
  lemma SubmitQuestionTrace(s: Session, q: string, sent: Outcome<MessageId>)
    ensures SentQuestions(SubmitQuestionOn(s, q, sent).after.trace) == SentQuestions(s.trace) + [q]
    ensures CompletedIds(SubmitQuestionOn(s, q, sent).after.trace) == CompletedIds(s.trace)
  {
    SentQuestionsAppend(s.trace, SendMessage(q));
    SentQuestionsAppend(s.trace + [SendMessage(q)], NewQuestionAsked(q));
    CompletedIdsAppend(s.trace, SendMessage(q));
    CompletedIdsAppend(s.trace + [SendMessage(q)], NewQuestionAsked(q));
    assert s.trace + [SendMessage(q), NewQuestionAsked(q)] == s.trace + [SendMessage(q)] + [NewQuestionAsked(q)];
  }

  lemma UntilDonePreserves(s: Session, initial: seq<string>, sent: Outcome<MessageId>)
    requires SessionInvariant(s, initial)
    ensures SessionInvariant(UntilDone(s, sent).after, initial)
  {
    if s.stream {
      SubmitFromQueuePreserves(s, initial, sent);
    }
  }

  /** `check_closing_condition` keeps the counter equal to the number of distinct executed ids. */
  lemma CheckClosingKeepsCounters(s: Session, f: FrameV1)
    requires CountersAgree(s)
    ensures CountersAgree(CheckClosing(s, f).after)
  {
  }

  /** A frame completes a message at most once: never again once its id is executed. */
  lemma CompletesAtMostOnce(s: Session, f: FrameV1)
    requires f.messageId in s.executedMessages
    ensures CheckClosing(s, f).after == s
    ensures CheckClosing(s, f).out != Returned(true)
  {
  }

  /**
   * `handle_final_operations`: a frame that completes nothing changes
   * nothing; a completing frame makes its entry final (keeping its
   * question), passes the merged entry to the completion callback, and
   * clears `_stream` exactly when every question has been executed.
   */
  lemma HandleFinalOutcome(s: Session, f: FrameV1)
    ensures var t := HandleFinal(s, f);
      (t.out == Returned(None) || t.out.Raised?) ==> t.after == s
    ensures var t := HandleFinal(s, f);
      t.out.Returned? && t.out.value.Some? ==>
        && f.messageId in t.after.result
        && IsFinal(t.after.result[f.messageId])
        && (f.messageId in s.result && s.result[f.messageId] != map[] && "question" in s.result[f.messageId] ==>
              t.after.result[f.messageId]["question"] == s.result[f.messageId]["question"])
        && t.after.trace == s.trace + [MessageCompletion(f, t.after.result[f.messageId])]
        && t.after.executedQuestions == s.executedQuestions + 1
        && (t.out.value.value <==> t.after.executedQuestions == t.after.totalQuestions)
        && (t.after.stream <==> s.stream && !t.out.value.value)
  {
    var c := CheckClosing(s, f);
    if c.out.Returned? && c.out.value {
      FinalUpdateMakesFinal(c.after.result, f.messageId);
    }
  }

  lemma {:induction false} HandleFinalPreserves(s: Session, initial: seq<string>, f: FrameV1)
    requires SessionInvariant(s, initial)
    ensures SessionInvariant(HandleFinal(s, f).after, initial)
  {
    CheckClosingShape(s, f);
    var c := CheckClosing(s, f);
    if c.out == Returned(true) {
      CompletionPreserves(s, initial, f);
    }
  }

  /**
   * Executing the frame's message, marking its entry final and recording
   * the completion restores the invariant, whatever becomes of `_stream`.
   */
  lemma CompletionPreserves(s: Session, initial: seq<string>, f: FrameV1)
    requires SessionInvariant(s, initial) && f.messageId !in s.executedMessages
    ensures var t := s.(executedMessages := s.executedMessages + [f.messageId], executedQuestions := s.executedQuestions + 1);
      var r := UpdatedResult(t.result, f.messageId, FinalUpdate);
      var s2 := t.(result := r, trace := t.trace + [MessageCompletion(f, r[f.messageId])]);
      SessionInvariant(s2, initial) && SessionInvariant(s2.(stream := false), initial)
  {
    var r := UpdatedResult(s.result, f.messageId, FinalUpdate);
    var e := MessageCompletion(f, r[f.messageId]);
    FinalUpdateKeepsOneInFlight(s.result, f.messageId);
    SentQuestionsAppend(s.trace, e);
    CompletedIdsAppend(s.trace, e);
  }

  /** `check_closing_condition` either completes the frame's message, appending its new id, or changes nothing. */
  lemma CheckClosingShape(s: Session, f: FrameV1)
    ensures var c := CheckClosing(s, f);
      if c.out == Returned(true)
      then f.messageId !in s.executedMessages
           && c.after == s.(executedMessages := s.executedMessages + [f.messageId], executedQuestions := s.executedQuestions + 1)
      else c.after == s
  {
  }

  /**
   * `_emit_subscription_event` keeps the session invariant, so in
   * particular the completion callback never fires twice for one id.
   */
  lemma {:induction false} EmitV1Preserves(s: Session, initial: seq<string>, f: FrameV1)
    requires SessionInvariant(s, initial)
    ensures SessionInvariant(EmitV1(s, f).after, initial)
  {
    var k := ClassifyV1(f);
    if !(k == ErrorV1 && f.parsedContent.Raised?) {
      var f' := if k == ErrorV1 then f.(content := f.parsedContent.value) else f;
      var s1 := if k == NoneV1 then s else s.(trace := s.trace + [UpdateV1(k, f')]);
      if k != NoneV1 {
        SentQuestionsAppend(s.trace, UpdateV1(k, f'));
        CompletedIdsAppend(s.trace, UpdateV1(k, f'));
      }
      assert SessionInvariant(s1, initial);
      HandleFinalPreserves(s1, initial, f');
    }
  }

  lemma {:induction false} EmitV2Preserves(s: Session, initial: seq<string>, f: FrameV2)
    requires SessionInvariant(s, initial)
    ensures SessionInvariant(EmitV2(s, f).0, initial)
  {
    var k := ClassifyV2(f);
    if k != NoneV2 {
      SentQuestionsAppend(s.trace, UpdateV2(k, f.delta));
      CompletedIdsAppend(s.trace, UpdateV2(k, f.delta));
    }
  }

  /**
   * `_emit_subscription_event` fires the classification callback (if any)
   * before anything the completion handling adds to the trace.
   */
  lemma EmitV1Order(s: Session, f: FrameV1)
    requires ClassifyV1(f) != NoneV1 && ClassifyV1(f) != ErrorV1
    ensures var t := EmitV1(s, f);
      |t.after.trace| > |s.trace| && t.after.trace[|s.trace|] == UpdateV1(ClassifyV1(f), f)
  {
    var s1 := s.(trace := s.trace + [UpdateV1(ClassifyV1(f), f)]);
    HandleFinalOutcome(s1, f);
  }

  // ---------------------------------------------------------------------
  // The handler and its manager
  // ---------------------------------------------------------------------

  class EventHandler {
    var stream: bool
    var result: map<MessageId, Entry>
    var threadId: string
    var questionsQueue: QuestionQueue?
    var totalQuestions: int
    var executedQuestions: int
    var executedMessages: seq<MessageId>
    /** The calls made since `Init`, in order. */
    var trace: seq<Effect>
    /** The values popped from the queue since `Init`. */
    ghost var popped: seq<string>

    /** `EventHandler()`: only the result map exists until `Init`. */
    constructor ()
      ensures result == map[] && questionsQueue == null && trace == []
    {
      result := map[];
      questionsQueue := null;
      trace := [];
      popped := [];
    }

    /** The handler's state as a `Session` value. */
    ghost function State(): Session
      reads this, questionsQueue
    {
      Session(stream, result, if questionsQueue == null then [] else questionsQueue.queue,
              totalQuestions, executedQuestions, executedMessages, trace, popped)
    }

    /** `_init`. */
    method Init(stream: bool, result: map<MessageId, Entry>, threadId: string, questionsQueue: QuestionQueue)
      modifies this
      ensures this.questionsQueue == questionsQueue && this.threadId == threadId
      ensures State() == InitSession(stream, result, questionsQueue.queue)
    {
      this.stream := stream;
      this.result := result;
      this.threadId := threadId;
      this.questionsQueue := questionsQueue;
      totalQuestions := questionsQueue.Size();
      executedQuestions := 0;
      executedMessages := [];
      trace := [];
      popped := [];
    }

    method UpdateResult(key: MessageId, value: Entry)
      modifies this`result
      ensures result == UpdatedResult(old(result), key, value)
    {
      if key in result && result[key] != map[] {
        result := result[key := result[key] + value];
      } else {
        result := result[key := value];
      }
    }

    predicate CheckFinalProcessing()
      reads this
      ensures CheckFinalProcessing() <==> AllFinal(result)
    {
      forall v :: v in result.Values ==> IsFinal(v)
    }

    /** `submit_question`; `sent` is what the send function returns or raises. */
    method SubmitQuestion(question: string, sent: Outcome<MessageId>) returns (out: Outcome<()>)
      modifies this`result, this`trace
      ensures Transition(State(), out) == SubmitQuestionOn(old(State()), question, sent)
    {
      trace := trace + [SendMessage(question)];
      if sent.Raised? {
        return Raised(sent.error);
      }
      var entry := PendingEntry(question);
      trace := trace + [NewQuestionAsked(question)];
      UpdateResult(sent.value, entry);
      out := Returned(());
    }

    method SubmitQuestionFromQueue(sent: Outcome<MessageId>) returns (out: Outcome<()>)
      requires questionsQueue != null
      modifies this`result, this`trace, this`popped, questionsQueue
      ensures Transition(State(), out) == SubmitFromQueue(old(State()), sent)
    {
      out := Returned(());
      if executedQuestions == 0 && result == map[] {
        var question := questionsQueue.Pop();
        if question.Some? {
          popped := popped + [question.value];
          if question.value != "" {
            out := SubmitQuestion(question.value, sent);
          }
        }
      } else if CheckFinalProcessing() {
        var question := questionsQueue.Pop();
        if question.Some? {
          popped := popped + [question.value];
          if question.value != "" {
            out := SubmitQuestion(question.value, sent);
          }
        }
      }
    }

    /**
     * One iteration of `until_done`; returns whether the loop was still
     * running, and what the iteration raised (which leaves the loop).
     */
    method UntilDoneStep(sent: Outcome<MessageId>) returns (running: bool, out: Outcome<()>)
      requires questionsQueue != null
      modifies this`result, this`trace, this`popped, questionsQueue
      ensures running == old(stream)
      ensures Transition(State(), out) == UntilDone(old(State()), sent)
    {
      running := stream;
      out := Returned(());
      if stream {
        out := SubmitQuestionFromQueue(sent);
      }
    }

    method CheckClosingCondition(f: FrameV1) returns (completed: Outcome<bool>)
      modifies this`executedMessages, this`executedQuestions
      ensures CheckClosing(old(State()), f) == Transition(State(), completed)
    {
      completed := Returned(false);
      if f.contentType == "system" && f.contentsubType in ["system", "blocking"] {
        if f.parsedContent.Raised? {
          return Raised(f.parsedContent.error);
        }
        var isProcessed := Get(f.parsedContent.value, "is_processed", JNull);
        if isProcessed.Raised? {
          return Raised(isProcessed.error);
        }
        if Truthy(isProcessed.value) && f.messageId !in executedMessages {
          executedMessages := executedMessages + [f.messageId];
          executedQuestions := executedQuestions + 1;
          completed := Returned(true);
        }
      }
    }

    method HandleFinalOperations(f: FrameV1) returns (processed: Outcome<Option<bool>>)
      modifies this`executedMessages, this`executedQuestions, this`result, this`trace, this`stream
      ensures HandleFinal(old(State()), f) == Transition(State(), processed)
    {
      var completed := CheckClosingCondition(f);
      if completed.Raised? {
        return Raised(completed.error);
      }
      if !completed.value {
        return Returned(None);
      }
      UpdateResult(f.messageId, FinalUpdate);
      trace := trace + [MessageCompletion(f, result[f.messageId])];
      var isChatProcessed := executedQuestions == totalQuestions;
      if isChatProcessed {
        stream := false;
      }
      return Returned(Some(isChatProcessed));
    }

    method EmitSubscriptionEvent(f: FrameV1) returns (processed: Outcome<Option<bool>>)
      modifies this`executedMessages, this`executedQuestions, this`result, this`trace, this`stream
      ensures EmitV1(old(State()), f) == Transition(State(), processed)
    {
      var frame := f;
      if f.contentType == "stream" {
        trace := trace + [UpdateV1(StreamV1, f)];
      } else if f.contentsubType == "status" {
        trace := trace + [UpdateV1(ProgressV1, f)];
      } else if f.contentsubType == "debug" {
        trace := trace + [UpdateV1(DebugV1, f)];
      } else if f.contentType == "analyzer" && f.debugAndStatusState == "complete" {
        trace := trace + [UpdateV1(VisualV1, f)];
      } else if f.contentType == "follow_up" && f.debugAndStatusState == "complete" {
        trace := trace + [UpdateV1(FollowUpV1, f)];
      } else if f.contentType == "error" {
        if f.parsedContent.Raised? {
          return Raised(f.parsedContent.error);
        }
        frame := f.(content := f.parsedContent.value);
        trace := trace + [UpdateV1(ErrorV1, frame)];
      }
      processed := HandleFinalOperations(frame);
    }

    method EmitSubscriptionEventV2(f: FrameV2) returns (processed: bool)
      modifies this`trace
      ensures EmitV2(old(State()), f) == (State(), processed)
    {
      if f.role == "streaming_assistant" {
        trace := trace + [UpdateV2(StreamV2, f.delta)];
      } else if f.role == "progress_assistant" {
        if f.delta.deltaType in ["status", "step_status"] {
          trace := trace + [UpdateV2(ProgressV2, f.delta)];
        } else if f.delta.deltaType == "log_info" {
          trace := trace + [UpdateV2(DebugV2, f.delta)];
        }
      } else if f.role == "visual_assistant" {
        trace := trace + [UpdateV2(VisualV2, f.delta)];
      }
      processed := CheckClosingConditionV2(f);
    }
  }

  /** The `with`-scoped wrapper that hands out an initialised handler. */
  class ThreadEventManager {
    var stream: bool
    var result: map<MessageId, Entry>
    var threadId: string
    var questionsQueue: QuestionQueue
    var eventHandler: EventHandler

    /** `event_handler or EventHandler()`. */
    constructor (eventHandler: EventHandler?, result: map<MessageId, Entry>, threadId: string, questionsQueue: QuestionQueue)
      ensures stream && this.result == result && this.threadId == threadId && this.questionsQueue == questionsQueue
      ensures eventHandler != null ==> this.eventHandler == eventHandler
      ensures eventHandler == null ==> fresh(this.eventHandler) && this.eventHandler.result == map[]
    {
      stream := true;
      this.result := result;
      this.threadId := threadId;
      this.questionsQueue := questionsQueue;
      if eventHandler != null {
        this.eventHandler := eventHandler;
      } else {
        this.eventHandler := new EventHandler();
      }
    }

    /** `__enter__`: initialise the handler from the manager's fields and return it. */
    method Enter() returns (handler: EventHandler)
      modifies eventHandler
      ensures handler == eventHandler
      ensures handler.questionsQueue == questionsQueue && handler.threadId == threadId
      ensures handler.State() == InitSession(stream, result, questionsQueue.queue)
    {
      eventHandler.Init(stream, result, threadId, questionsQueue);
      handler := eventHandler;
    }

    /** `__exit__`: clears the manager's own flag; the handler's `_stream` is left as it is. */
    method Exit()
      modifies this`stream
      ensures !stream
      ensures eventHandler.stream == old(eventHandler.stream)
    {
      stream := false;
    }
  }

  /** A v1 progress frame for `id`. */
  function ProgressFrame(id: MessageId): FrameV1 {
    FrameV1(id, "text", "status", "", JStr("working"), Returned(JStr("working")))
  }

  /** A v1 system frame that reports `id` as processed. */
  function CompletionFrame(id: MessageId): FrameV1 {
    FrameV1(id, "system", "blocking", "", JStr("{\"is_processed\": true}"),
            Returned(JObj(map["is_processed" := JBool(true)])))
  }

  /** The entry of a question once it has completed. */
  function CompletedEntry(question: string): Entry {
    map["question" := JStr(question), "final_status" := JBool(true), "submission_status" := JBool(true)]
  }

  lemma PendingThenFinal(question: string)
    ensures PendingEntry(question) + FinalUpdate == CompletedEntry(question)
  {
  }

  /** Writing the key of a one-entry map again replaces its value. */
  lemma OverwriteOnly<K, V>(a: K, va: V, va': V)
    ensures map[a := va][a := va'] == map[a := va']
  {
  }

  /** Writing a key of a two-entry map again replaces its value. */
  lemma OverwriteSecond<K, V>(a: K, b: K, va: V, vb: V, vb': V)
    ensures map[a := va, b := vb][b := vb'] == map[a := va, b := vb']
  {
  }

  /** Marking a pending question final turns its entry into the completed one. */
  lemma CompletePending(r: map<MessageId, Entry>, id: MessageId, question: string)
    requires id in r && r[id] == PendingEntry(question)
    ensures UpdatedResult(r, id, FinalUpdate) == r[id := CompletedEntry(question)]
  {
    PendingThenFinal(question);
  }

  // A thread with two queued questions, driven by alternating loop
  // iterations and frames, one step at a time: the second question is
  // sent only after the first one's completion, a repeated completion
  // frame is ignored, and the loop stops after the last completion.

  /** The loop has sent the first question. */
  function FirstSent(q1: string, q2: string, id1: MessageId): Session {
    Session(true, map[id1 := PendingEntry(q1)], [q2], 2, 0, [], [SendMessage(q1), NewQuestionAsked(q1)], [q1])
  }

  /** A progress frame for the first question has arrived. */
  function FirstProgressed(q1: string, q2: string, id1: MessageId): Session {
    FirstSent(q1, q2, id1).(trace := FirstSent(q1, q2, id1).trace + [UpdateV1(ProgressV1, ProgressFrame(id1))])
  }

  /** The first question has completed. */
  function AfterFirst(q1: string, q2: string, id1: MessageId): Session {
    Session(true, map[id1 := CompletedEntry(q1)], [q2], 2, 1, [id1],
            FirstProgressed(q1, q2, id1).trace + [MessageCompletion(CompletionFrame(id1), CompletedEntry(q1))], [q1])
  }

  /** The loop has sent the second question. */
  function SecondSent(q1: string, q2: string, id1: MessageId, id2: MessageId): Session {
    Session(true, map[id1 := CompletedEntry(q1), id2 := PendingEntry(q2)], [], 2, 1, [id1],
            AfterFirst(q1, q2, id1).trace + [SendMessage(q2), NewQuestionAsked(q2)], [q1, q2])
  }

  /** Both questions have completed and the loop is told to stop. */
  function Finished(q1: string, q2: string, id1: MessageId, id2: MessageId): Session {
    Session(false, map[id1 := CompletedEntry(q1), id2 := CompletedEntry(q2)], [], 2, 2, [id1, id2],
            SecondSent(q1, q2, id1, id2).trace + [MessageCompletion(CompletionFrame(id2), CompletedEntry(q2))], [q1, q2])
  }

  /** The first loop iteration sends the front question. */
  lemma ScenarioFirstSent(q1: string, q2: string, id1: MessageId)
    requires q1 != ""
    ensures UntilDone(InitSession(true, map[], [q1, q2]), Returned(id1)) == Transition(FirstSent(q1, q2, id1), Returned(()))
  {
    UntilDoneSends(InitSession(true, map[], [q1, q2]), id1);
  }

  /** Progress for the first message only notifies. */
  lemma ScenarioFirstProgress(q1: string, q2: string, id1: MessageId)
    ensures EmitV1(FirstSent(q1, q2, id1), ProgressFrame(id1)) == Transition(FirstProgressed(q1, q2, id1), Returned(None))
  {
    ProgressFrameOnlyNotifies(FirstSent(q1, q2, id1), id1);
  }

  /** While the first message is not final, the loop does not send the second question. */
  lemma ScenarioLoopWaits(q1: string, q2: string, id1: MessageId, id2: MessageId)
    ensures UntilDone(FirstProgressed(q1, q2, id1), Returned(id2)) == Transition(FirstProgressed(q1, q2, id1), Returned(()))
  {
    UntilDoneWaits(FirstProgressed(q1, q2, id1), id1, Returned(id2));
  }

  /** The first completion frame completes the first question; one question remains. */
  lemma ScenarioFirstCompletes(q1: string, q2: string, id1: MessageId)
    ensures EmitV1(FirstProgressed(q1, q2, id1), CompletionFrame(id1)) == Transition(AfterFirst(q1, q2, id1), Returned(Some(false)))
  {
    var s := FirstProgressed(q1, q2, id1);
    CompletionFrameCompletes(s, id1);
    CompletePending(s.result, id1, q1);
    OverwriteOnly(id1, PendingEntry(q1), CompletedEntry(q1));
  }

  /** A repeated completion frame for the first message changes nothing. */
  lemma ScenarioRepeatIgnored(q1: string, q2: string, id1: MessageId)
    ensures EmitV1(AfterFirst(q1, q2, id1), CompletionFrame(id1)) == Transition(AfterFirst(q1, q2, id1), Returned(None))
  {
    RepeatedCompletionIgnored(AfterFirst(q1, q2, id1), id1);
  }

  /** Once the first question is final, the loop sends the second. */
  lemma ScenarioSecondSent(q1: string, q2: string, id1: MessageId, id2: MessageId)
    requires q2 != "" && id1 != id2
    ensures UntilDone(AfterFirst(q1, q2, id1), Returned(id2)) == Transition(SecondSent(q1, q2, id1, id2), Returned(()))
  {
    var m := AfterFirst(q1, q2, id1);
    assert AllFinal(m.result);
    UntilDoneSends(m, id2);
  }

  /** The second completion frame completes the last question and stops the loop. */
  lemma ScenarioSecondCompletes(q1: string, q2: string, id1: MessageId, id2: MessageId)
    requires id1 != id2
    ensures EmitV1(SecondSent(q1, q2, id1, id2), CompletionFrame(id2)) == Transition(Finished(q1, q2, id1, id2), Returned(Some(true)))
  {
    var s := SecondSent(q1, q2, id1, id2);
    CompletionFrameCompletes(s, id2);
    CompletePending(s.result, id2, q2);
    OverwriteSecond(id1, id2, CompletedEntry(q1), PendingEntry(q2), CompletedEntry(q2));
  }

  /** The session invariant holds after each step of the scenario. */
  lemma ScenarioKeepsInvariant(q1: string, q2: string, id1: MessageId, id2: MessageId)
    requires q1 != "" && q2 != "" && id1 != id2
    ensures SessionInvariant(FirstSent(q1, q2, id1), [q1, q2])
    ensures SessionInvariant(FirstProgressed(q1, q2, id1), [q1, q2])
    ensures SessionInvariant(AfterFirst(q1, q2, id1), [q1, q2])
    ensures SessionInvariant(SecondSent(q1, q2, id1, id2), [q1, q2])
    ensures SessionInvariant(Finished(q1, q2, id1, id2), [q1, q2])
  {
    ScenarioFirstSentKeeps(q1, q2, id1);
    ScenarioFirstProgressKeeps(q1, q2, id1);
    ScenarioFirstCompletesKeeps(q1, q2, id1);
    ScenarioSecondSentKeeps(q1, q2, id1, id2);
    ScenarioSecondCompletesKeeps(q1, q2, id1, id2);
  }

  lemma ScenarioFirstSentKeeps(q1: string, q2: string, id1: MessageId)
    requires q1 != ""
    ensures SessionInvariant(FirstSent(q1, q2, id1), [q1, q2])
  {
    InitEstablishes(true, map[], [q1, q2]);
    ScenarioFirstSent(q1, q2, id1);
    UntilDonePreserves(InitSession(true, map[], [q1, q2]), [q1, q2], Returned(id1));
  }

  lemma ScenarioFirstProgressKeeps(q1: string, q2: string, id1: MessageId)
    requires SessionInvariant(FirstSent(q1, q2, id1), [q1, q2])
    ensures SessionInvariant(FirstProgressed(q1, q2, id1), [q1, q2])
  {
    ScenarioFirstProgress(q1, q2, id1);
    EmitV1Preserves(FirstSent(q1, q2, id1), [q1, q2], ProgressFrame(id1));
  }

  lemma ScenarioFirstCompletesKeeps(q1: string, q2: string, id1: MessageId)
    requires SessionInvariant(FirstProgressed(q1, q2, id1), [q1, q2])
    ensures SessionInvariant(AfterFirst(q1, q2, id1), [q1, q2])
  {
    ScenarioFirstCompletes(q1, q2, id1);
    EmitV1Preserves(FirstProgressed(q1, q2, id1), [q1, q2], CompletionFrame(id1));
  }

  lemma ScenarioSecondSentKeeps(q1: string, q2: string, id1: MessageId, id2: MessageId)
    requires q2 != "" && id1 != id2
    requires SessionInvariant(AfterFirst(q1, q2, id1), [q1, q2])
    ensures SessionInvariant(SecondSent(q1, q2, id1, id2), [q1, q2])
  {
    ScenarioSecondSent(q1, q2, id1, id2);
    UntilDonePreserves(AfterFirst(q1, q2, id1), [q1, q2], Returned(id2));
  }

  lemma ScenarioSecondCompletesKeeps(q1: string, q2: string, id1: MessageId, id2: MessageId)
    requires id1 != id2
    requires SessionInvariant(SecondSent(q1, q2, id1, id2), [q1, q2])
    ensures SessionInvariant(Finished(q1, q2, id1, id2), [q1, q2])
  {
    ScenarioSecondCompletes(q1, q2, id1, id2);
    EmitV1Preserves(SecondSent(q1, q2, id1, id2), [q1, q2], CompletionFrame(id2));
  }

  /** At the end, each question was sent once, in queue order, and each message completed once. */
  lemma {:induction false} ScenarioFinished(q1: string, q2: string, id1: MessageId, id2: MessageId)
    requires q1 != "" && q2 != "" && id1 != id2
    ensures var f := Finished(q1, q2, id1, id2);
      && SentQuestions(f.trace) == [q1, q2]
      && CompletedIds(f.trace) == [id1, id2]
      && AllFinal(f.result) && !f.stream
  {
    ScenarioKeepsInvariant(q1, q2, id1, id2);
    assert [q1, q2][..1] == [q1];
    assert [q1][..0] == [];
    assert NonEmpty([q1]) == [q1];
  }

  /** A running loop whose previous questions are all final sends the next queued question. */
  lemma UntilDoneSends(s: Session, id: MessageId)
    requires s.stream && MayPop(s.executedQuestions, s.result) && s.queue != [] && s.queue[0] != ""
    ensures UntilDone(s, Returned(id)) ==
      Transition(s.(queue := s.queue[1..], popped := s.popped + [s.queue[0]],
                    trace := s.trace + [SendMessage(s.queue[0]), NewQuestionAsked(s.queue[0])],
                    result := UpdatedResult(s.result, id, PendingEntry(s.queue[0]))),
                 Returned(()))
  {
  }

  /**
   * A send function that raises: the question has already been popped and
   * handed to it, but it is neither announced nor recorded in `_result`,
   * and the exception leaves the loop.
   */
  lemma SendFailureRecordsNothing(s: Session, e: PyError)
    requires s.stream && MayPop(s.executedQuestions, s.result) && s.queue != [] && s.queue[0] != ""
    ensures var t := UntilDone(s, Raised(e));
      && t.out == Raised(e)
      && t.after.queue == s.queue[1..] && t.after.popped == s.popped + [s.queue[0]]
      && t.after.trace == s.trace + [SendMessage(s.queue[0])]
      && t.after.result == s.result
      && t.after.executedQuestions == s.executedQuestions && t.after.executedMessages == s.executedMessages
      && t.after.stream
  {
  }

  /** While the question `inFlight` is not final, the loop sends nothing. */
  lemma UntilDoneWaits(s: Session, inFlight: MessageId, sent: Outcome<MessageId>)
    requires s.executedQuestions != 0 || s.result != map[]
    requires inFlight in s.result && !IsFinal(s.result[inFlight])
    ensures UntilDone(s, sent) == Transition(s, Returned(()))
  {
  }

  /** A progress frame fires the progress callback and completes nothing. */
  lemma ProgressFrameOnlyNotifies(s: Session, id: MessageId)
    ensures EmitV1(s, ProgressFrame(id)) ==
      Transition(s.(trace := s.trace + [UpdateV1(ProgressV1, ProgressFrame(id))]), Returned(None))
  {
  }

  /** The first processed frame for `id` completes it. */
  lemma CompletionFrameCompletes(s: Session, id: MessageId)
    requires id !in s.executedMessages
    ensures var r := UpdatedResult(s.result, id, FinalUpdate);
      var done := s.executedQuestions + 1 == s.totalQuestions;
      EmitV1(s, CompletionFrame(id)) ==
        Transition(s.(executedMessages := s.executedMessages + [id], executedQuestions := s.executedQuestions + 1,
                      result := r, trace := s.trace + [MessageCompletion(CompletionFrame(id), r[id])],
                      stream := s.stream && !done),
                   Returned(Some(done)))
  {
    assert ClassifyV1(CompletionFrame(id)) == NoneV1;
    assert Get(JObj(map["is_processed" := JBool(true)]), "is_processed", JNull) == Returned(JBool(true));
  }

  /** A processed frame for an id already executed changes nothing. */
  lemma RepeatedCompletionIgnored(s: Session, id: MessageId)
    requires id in s.executedMessages
    ensures EmitV1(s, CompletionFrame(id)) == Transition(s, Returned(None))
  {
    assert ClassifyV1(CompletionFrame(id)) == NoneV1;
  }
}
