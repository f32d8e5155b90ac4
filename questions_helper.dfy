/**
 * The FIFO queue of questions waiting to be asked on one thread
 * (huma_sdk/_helpers/questions_helper.py). The deque is the field `queue`,
 * front first.
 */
module QuestionsHelper {
  import opened PyJson

  class QuestionQueue {
    /** The deque's contents, front first. */
    var queue: seq<string>

    constructor ()
      ensures queue == []
    {
      queue := [];
    }

    /** Appends a question at the back. */
    method Push(question: string)
      modifies this
      ensures queue == old(queue) + [question]
      ensures Size() == old(Size()) + 1
    {
      queue := queue + [question];
    }

    /** Removes and returns the front question; an empty queue gives `None` and stays empty. */
    method Pop() returns (question: Option<string>)
      modifies this
      ensures old(queue) == [] ==> question == None && queue == []
      ensures old(queue) != [] ==> question == Some(old(queue)[0]) && queue == old(queue)[1..]
    {
      if IsEmpty() {
        return None;
      }
      question := Some(queue[0]);
      queue := queue[1..];
    }

    /** The front question without removing it, or `None` when the queue is empty. */
    function Peek(): (question: Option<string>)
      reads this
      ensures question == None <==> Size() == 0
      ensures question != None ==> question.value == queue[0] && question.value in queue
    {
      if IsEmpty() then None else Some(queue[0])
    }

    function IsEmpty(): (empty: bool)
      reads this
      ensures empty <==> Size() == 0
    {
      |queue| == 0
    }

    function Size(): (n: nat)
      reads this
      ensures n == 0 <==> queue == []
    {
      |queue|
    }

    /** Removes every question (the confirmation message it prints is not modelled). */
    method Clear()
      modifies this
      ensures queue == [] && Size() == 0
    {
      queue := [];
    }
  }

  /**
   * FIFO order: pushing `questions` onto a new queue and then popping until
   * the queue is empty gives the questions back in push order.
   */
  method PushThenDrain(questions: seq<string>) returns (popped: seq<string>)
    ensures popped == questions
  {
    var q := new QuestionQueue();
    var i := 0;
    while i < |questions|
      invariant 0 <= i <= |questions|
      invariant q.queue == questions[..i]
    {
      q.Push(questions[i]);
      i := i + 1;
    }
    popped := [];
    while !q.IsEmpty()
      invariant popped + q.queue == questions
      decreases |q.queue|
    {
      var front := q.Pop();
      popped := popped + [front.value];
    }
  }
}
