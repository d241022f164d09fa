/** The completion service behind `getCompletion`. Its replies are not
    modelled: each call may return any text or fail with any message, and
    two identical requests need not get the same reply. What is modelled is
    the log of calls, in order, with the reply each one got. */
module Completion {
  import opened Results
  import opened Prompts

  /** One call: what was asked and what came back. */
  datatype Exchange = Exchange(request: Request, reply: Result<string>)

  class CompletionService {
    var history: seq<Exchange>

    constructor ()
      ensures history == []
    {
      history := [];
    }

    /** `getCompletion(prompt, systemMessage)`: an arbitrary reply,
        appended to the log together with its request. */
    method Complete(request: Request) returns (reply: Result<string>)
      modifies this
      ensures history == old(history) + [Exchange(request, reply)]
    {
      reply :| true;
      history := history + [Exchange(request, reply)];
    }
  }

  /** Every call in the log got a reply rather than an error. */
  predicate AllSucceeded(log: seq<Exchange>)
  {
    forall k :: 0 <= k < |log| ==> log[k].reply.Success?
  }

  /** The texts of the replies in a log of successful calls, in order. */
  function Replies(log: seq<Exchange>): (texts: seq<string>)
    requires AllSucceeded(log)
    ensures |texts| == |log|
    ensures forall k :: 0 <= k < |log| ==> texts[k] == log[k].reply.value
  {
    if log == [] then [] else [log[0].reply.value] + Replies(log[1..])
  }

  /** Appending to the log in two steps or in one gives the same log. */
  lemma {:induction false} LogAppendAssociates(history: seq<Exchange>, a: seq<Exchange>, b: seq<Exchange>)
    ensures history + a + b == history + (a + b)
  {
  }
}
