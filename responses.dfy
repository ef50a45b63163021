/** What a handler answers, and the record of one invocation. */
module Responses {
  import opened Js
  import opened Push

  /** The `Response` a handler returns.
      - `Succeeded`: status 200, JSON body `{ success: true }`.
      - `Skipped`: status 200, text "Not a like or invalid payload" (like flow only).
      - `InvalidPayload`: status 400, text "Invalid payload" (match flow only).
      - `Failed`: status 500, JSON body `{ error: err.message }`; the message
        is `None` when the thrown value carries none (see the handlers). */
  datatype Reply = Succeeded | Skipped | InvalidPayload | Failed(error: Option<string>)

  function Status(reply: Reply): (code: int)
    ensures code == 200 <==> reply.Succeeded? || reply.Skipped?
    ensures code == 400 <==> reply.InvalidPayload?
    ensures code == 500 <==> reply.Failed?
  {
    match reply
    case Succeeded => 200
    case Skipped => 200
    case InvalidPayload => 400
    case Failed(_) => 500
  }

  /** One invocation: the reply, and every message handed to the provider, in order. */
  datatype Handled = Handled(reply: Reply, sends: seq<Message>)

  /** The reply of a handler that got as far as sending: the error that
      escaped the sends, or success. */
  function AfterSends(d: Dispatched): (h: Handled)
    ensures h.sends == d.sends
    ensures h.reply == Succeeded <==> d.failure.None?
    ensures d.failure.Some? ==> h.reply == Failed(d.failure)
  {
    Handled(if d.failure.None? then Succeeded else Failed(d.failure), d.sends)
  }
}
