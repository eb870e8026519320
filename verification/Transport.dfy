/** The agent's HTTP client: one payload, encoded once, posted until there is an answer or the attempts run out. */
module Transport {
  import opened Inventory

  const MAX_ATTEMPTS: nat := 5

  // What one attempt brings back. `demanded`: the body says reconcile_required.
  datatype Reply = NoAnswer | Answer(status: nat, demanded: bool)

  datatype Result =
    | Status(status: nat)
    | ReconcileRequired
    | Cancelled
    | Exhausted

  /** Copies of one body went out, as many as there are replies. */
  ghost predicate SameBody(sent: seq<Message>, body: Message, replies: seq<Reply>) {
    |sent| == |replies| && forall i :: 0 <= i < |sent| ==> sent[i] == body
  }

  ghost predicate AllRetriable(replies: seq<Reply>) {
    forall i :: 0 <= i < |replies| ==> replies[i].NoAnswer? || replies[i].status >= 500
  }

  class Client {
    // Every attempt made and what came of it.
    var sent: seq<Message>
    var replies: seq<Reply>

    constructor ()
      ensures sent == [] && replies == []
    {
      sent, replies := [], [];
    }

    /** At most five attempts, each with the same body. Only no answer and a server error are retried: any other
        answer ends the attempts at once and is the result, a conflict that demands a reconcile as such a demand.
        Without one the result is that the context ended, or that all five attempts went by. */
    method Post(body: Message) returns (result: Result, ghost copies: seq<Message>, ghost answers: seq<Reply>)
      modifies this
      ensures sent == old(sent) + copies && replies == old(replies) + answers
      ensures 1 <= |answers| <= 5 && SameBody(copies, body, answers)
      ensures AllRetriable(answers[..|answers| - 1])
      ensures var last := answers[|answers| - 1];
              if last.NoAnswer? || last.status >= 500 then result.Cancelled? || (result.Exhausted? && |answers| == 5)
              else result == if last == Answer(409, true) then ReconcileRequired else Status(last.status)
    {
      copies, answers := [], [];
      var attempt := 0;
      while attempt < MAX_ATTEMPTS
        invariant attempt == |answers| <= MAX_ATTEMPTS
        invariant sent == old(sent) + copies && replies == old(replies) + answers
        invariant SameBody(copies, body, answers) && AllRetriable(answers)
      {
        if attempt > 0 {
          var ended: bool := *;
          if ended { return Cancelled, copies, answers; }
        }
        var reply: Reply, cancelled: bool := *, *;
        sent, replies := sent + [body], replies + [reply];
        copies, answers := copies + [body], answers + [reply];
        if reply.NoAnswer? {
          if cancelled { return Cancelled, copies, answers; }
        } else if reply.status < 500 {
          result := if reply.status == 409 && reply.demanded then ReconcileRequired else Status(reply.status);
          return;
        }
        attempt := attempt + 1;
      }
      result := Exhausted;
    }
  }
}
