/**
 * The asynchronous Questions service (huma_sdk/_async_services/_questions.py):
 * the question and its commands become one line of text, which is handed
 * to `_make_async_request` with no topic and no thread id.
 */
module AsyncQuestions {
  import opened PyJson
  import Exceptions
  import AsyncResources
  import AsyncHelpers

  /** `f"{question} {' '.join(commands)}"`: a missing question is rendered as "None". */
  function ComposeQuestion(question: Option<string>, commands: seq<string>): string {
    Render(question) + " " + Join(" ", commands)
  }

  /**
   * `_submit_question` and `submit_question`: the composed text is asked
   * with topic None and thread id "", and None is returned; whatever the
   * request raises is raised.
   */
  function SubmitQuestionOn(s: AsyncResources.Services, gql: AsyncResources.GqlRequest -> Outcome<Json>,
                            question: Option<string>, commands: seq<string>): AsyncResources.Step<()> {
    var r := AsyncResources.MakeAsyncRequestOn(s, gql, ComposeQuestion(question, commands), None, Some(""));
    match r.out
    case Raised(err) => AsyncResources.Step(r.after, Raised(err))
    case Returned(_) => AsyncResources.Step(r.after, Returned(()))
  }

  /**
   * When neither the rendered question nor any command contains a space,
   * the composed text split on spaces gives back the question and then the
   * commands, in order; without commands it ends in an empty piece. A
   * question with spaces in it splits into more pieces.
   */
  lemma ComposeQuestionReadsBack(question: Option<string>, commands: seq<string>)
    requires ' ' !in Render(question)
    requires forall i :: 0 <= i < |commands| ==> ' ' !in commands[i]
    ensures Split(ComposeQuestion(question, commands), ' ')
         == [Render(question)] + (if commands == [] then [""] else commands)
  {
    var q := Render(question);
    var pieces := [q] + (if commands == [] then [""] else commands);
    if commands == [] {
      assert Join(" ", pieces) == q + " " + "";
    } else {
      Exceptions.JoinCons(" ", q, commands);
    }
    assert Join([' '], pieces) == ComposeQuestion(question, commands);
    SplitJoin(pieces, ' ');
  }

  /**
   * For any question and commands: one more command extends the composed
   * text by a space and that command, so the commands appear in order.
   */
  lemma ComposeQuestionAppend(question: Option<string>, commands: seq<string>, command: string)
    requires commands != []
    ensures ComposeQuestion(question, commands + [command]) == ComposeQuestion(question, commands) + " " + command
  {
    JoinSnoc(" ", commands, command);
  }

  /** The composed text is never empty: it always holds the space after the question. */
  lemma ComposeQuestionNonEmpty(question: Option<string>, commands: seq<string>)
    ensures |ComposeQuestion(question, commands)| > |Render(question)|
    ensures ComposeQuestion(question, commands)[|Render(question)|] == ' '
  {
  }

  /**
   * Submitting to the Questions service with API version v1 first opens a
   * new chat titled by the composed text; a service other than Questions
   * and Threads changes nothing and returns None.
   */
  lemma SubmitQuestionOpensChat(s: AsyncResources.Services, gql: AsyncResources.GqlRequest -> Outcome<Json>,
                                question: Option<string>, commands: seq<string>)
    ensures var r := SubmitQuestionOn(s, gql, question, commands);
      s.serviceName == Some("Questions") && s.apiVersion == "v1" ==>
        |r.after.requests| > |s.requests|
        && r.after.requests[|s.requests|].query == Some(AsyncHelpers.NewChatText(ComposeQuestion(question, commands)))
    ensures s.serviceName != Some("Questions") && s.serviceName != Some("Threads") ==>
      SubmitQuestionOn(s, gql, question, commands) == AsyncResources.Step(s, Returned(()))
  {
    var text := ComposeQuestion(question, commands);
    ComposeQuestionNonEmpty(question, commands);
    if s.serviceName == Some("Questions") && s.apiVersion == "v1" {
      AsyncResources.NewThreadOpensChat(s, gql, text, None);
      assert AsyncResources.MakeAsyncRequestOn(s, gql, text, None, Some("")).after
          == AsyncResources.AskQuestionOn(s, gql, text, None, None).after;
    }
  }

  /**
   * A question that is answered by the Questions service was sent as the
   * message of the chat it opened: the request after the new chat carries
   * the composed text, and the chat is then subscribed to.
   */
  lemma SubmitQuestionSendsComposed(s: AsyncResources.Services, gql: AsyncResources.GqlRequest -> Outcome<Json>,
                                    question: Option<string>, commands: seq<string>)
    requires s.serviceName == Some("Questions")
    ensures var r := SubmitQuestionOn(s, gql, question, commands);
      r.out.Returned? ==>
        |r.after.requests| == |s.requests| + 3
        && r.after.requests[|s.requests| + 1].variables
           == AsyncResources.MessageVariables(r.after, ComposeQuestion(question, commands))
        && |r.after.subscriptions| == |s.subscriptions| + 1
  {
    var text := ComposeQuestion(question, commands);
    var st := AsyncResources.StartNewChatOn(s, gql, Some(OrElse(None, text)));
    if st.out.Returned? {
      AsyncResources.SendMessageShape(st.after, gql, text);
    }
  }

  /** `_AsyncQuestions.submit_question` on the object itself. */
  method SubmitQuestion(svc: AsyncResources.AsyncServices, gql: AsyncResources.GqlRequest -> Outcome<Json>,
                        question: Option<string>, commands: seq<string>)
      returns (out: Outcome<()>)
    modifies svc
    ensures var st := SubmitQuestionOn(old(svc.State()), gql, question, commands);
      svc.State() == st.after && out == st.out
  {
    var answer := svc.MakeAsyncRequest(gql, ComposeQuestion(question, commands), None, Some(""));
    if answer.Raised? {
      return Raised(answer.error);
    }
    out := Returned(());
  }
}
