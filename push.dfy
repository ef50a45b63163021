/** Push messages and the sequential, awaited sends of a handler.

    A handler awaits `admin.messaging().send(...)` once per recipient, one
    after another, inside a single `try`.  A send either resolves or
    throws; a throw skips every later send and lands in the handler's
    `catch`.  The messaging client itself is not part of this model: the
    outcome of each attempted send is an input. */
module Push {
  import opened Js

  /** The argument of `send`: `{ token, notification: { title, body }, data }`. */
  datatype Message = Message(token: string, title: string, body: string, data: map<string, string>)

  /** How the provider answers one send: it resolves, or it throws an error with a message. */
  datatype SendOutcome = Delivered | Rejected(reason: string)

  /** A send the handler intends to make, with the provider's answer to it. */
  datatype Attempt = Attempt(message: Message, outcome: SendOutcome)

  /** The sends actually made, in order, and the error that escaped, if any. */
  datatype Dispatched = Dispatched(sends: seq<Message>, failure: Option<string>)

  /** Awaits the attempts in order; the first rejection escapes and the
      attempts after it are never made. */
  function SendInOrder(queue: seq<Attempt>): (d: Dispatched)
    ensures |d.sends| <= |queue|
    ensures forall i | 0 <= i < |d.sends| :: d.sends[i] == queue[i].message
    ensures d.failure.None? <==> forall i | 0 <= i < |queue| :: queue[i].outcome.Delivered?
    ensures d.failure.None? ==> |d.sends| == |queue|
    ensures d.failure.Some? ==>
              && |d.sends| > 0
              && queue[|d.sends| - 1].outcome == Rejected(d.failure.value)
              && forall i | 0 <= i < |d.sends| - 1 :: queue[i].outcome.Delivered?
  {
    if queue == [] then Dispatched([], None)
    else match queue[0].outcome
      case Rejected(reason) => Dispatched([queue[0].message], Some(reason))
      case Delivered =>
        var rest := SendInOrder(queue[1..]);
        Dispatched([queue[0].message] + rest.sends, rest.failure)
  }

  /** Awaiting a single send: it is made, and its rejection escapes. */
  lemma SendOne(a: Attempt)
    ensures SendInOrder([a]).sends == [a.message]
    ensures SendInOrder([a]).failure == if a.outcome.Rejected? then Some(a.outcome.reason) else None
  {
  }

  /** Awaiting two sends: the second is made only if the first was delivered. */
  lemma {:induction false} SendTwo(a: Attempt, b: Attempt)
    ensures SendInOrder([a, b]).sends == if a.outcome.Rejected? then [a.message] else [a.message, b.message]
    ensures SendInOrder([a, b]).failure ==
              if a.outcome.Rejected? then Some(a.outcome.reason)
              else if b.outcome.Rejected? then Some(b.outcome.reason)
              else None
  {
    assert [a, b][1..] == [b];
    SendOne(b);
  }
}
