/** The `match_notification` handler: on a new match, tell both users.

    The handler validates the record (both user ids present), looks up
    both profiles in one batch, and then awaits one push per user that
    has a token, user A's first.  Each message names the other party. */
module MatchNotification {
  import opened Js
  import opened Profiles
  import opened Push
  import opened Responses

  /** The webhook's `record`: the two matched users. */
  datatype MatchRecord = MatchRecord(userA: Option<string>, userB: Option<string>)

  const MatchTitle: string := "It's a Match! \U{1F389}"

  /** `record && record.user_a && record.user_b` */
  predicate Proceeds(record: Option<MatchRecord>) {
    record.Some? && Truthy(record.value.userA) && Truthy(record.value.userB)
  }

  /** The body of the message that names the other party. */
  function MatchBody(name: string): string {
    "You and " + name + " liked each other!"
  }

  /** The message to a user, naming `other`, the row of the other party
      (`None` when it was not found). */
  function MatchMessage(token: string, other: Option<Profile>): (m: Message)
    ensures m.token == token && m.title == MatchTitle
    ensures m.data.Keys == {"type", "matchId"} && m.data["type"] == "new_match"
    ensures Truthy(NameOf(other)) ==> m.body == MatchBody(other.value.fullName.value)
    ensures !Truthy(NameOf(other)) ==> m.body == MatchBody("someone")
    ensures m.data["matchId"] == if other.Some? then other.value.id else ""
  {
    Message(token, MatchTitle,
            MatchBody(Or(NameOf(other), "someone")),
            map["type" := "new_match", "matchId" := Or(IdOf(other), "")])
  }

  /** The sends the handler will make, in order: to A if A has a token,
      then to B if B has a token, each with its provider answer. */
  function Planned(userA: Option<Profile>, userB: Option<Profile>, toA: SendOutcome, toB: SendOutcome): seq<Attempt> {
    (if HasToken(userA) then [Attempt(MatchMessage(TokenOf(userA), userB), toA)] else [])
    + (if HasToken(userB) then [Attempt(MatchMessage(TokenOf(userB), userA), toB)] else [])
  }

  /** One invocation of the handler, as a function of its inputs: the
      record, the lookup's answer, and the provider's answer to the send
      to A and to the send to B (each consulted only if that send is made).

      A lookup that fails without an error object makes the source run
      `throw null`, and reading `err.message` in its `catch` then throws
      again; this model reports that case as `Failed(None)`, a 500 like
      every other lookup failure. */
  function HandleMatch(record: Option<MatchRecord>, lookup: Lookup, toA: SendOutcome, toB: SendOutcome): (h: Handled)
    ensures h.reply != Skipped
    ensures |h.sends| <= 2
    ensures h.sends != [] ==> Proceeds(record) && !LookupFailed(lookup)
  {
    if !Proceeds(record) then Handled(InvalidPayload, [])
    else if LookupFailed(lookup) then Handled(Failed(lookup.error), [])
    else
      var rows := lookup.users.value;
      var userA := FindById(rows, record.value.userA.value);
      var userB := FindById(rows, record.value.userB.value);
      AfterSends(SendInOrder(Planned(userA, userB, toA, toB)))
  }

  /** The handler body, step by step: each awaited send appends its
      message to `sends`, and a rejected send returns at once. */
  method ServeMatch(record: Option<MatchRecord>, lookup: Lookup, toA: SendOutcome, toB: SendOutcome)
    returns (reply: Reply, sends: seq<Message>)
    ensures Handled(reply, sends) == HandleMatch(record, lookup, toA, toB)
  {
    sends := [];
    if !Proceeds(record) {
      return InvalidPayload, sends;
    }
    if LookupFailed(lookup) {
      return Failed(lookup.error), sends;
    }
    var rows := lookup.users.value;
    var userA := FindById(rows, record.value.userA.value);
    var userB := FindById(rows, record.value.userB.value);
    MatchSends(record, rows, toA, toB);
    if HasToken(userA) {
      sends := sends + [MatchMessage(TokenOf(userA), userB)];
      if toA.Rejected? {
        return Failed(Some(toA.reason)), sends;
      }
    }
    if HasToken(userB) {
      sends := sends + [MatchMessage(TokenOf(userB), userA)];
      if toB.Rejected? {
        return Failed(Some(toB.reason)), sends;
      }
    }
    reply := Succeeded;
  }

  /** A missing record or a missing or empty user id is answered 400, and
      only then; nothing is sent. */
  lemma InvalidPayloadIsRejected(record: Option<MatchRecord>, lookup: Lookup, toA: SendOutcome, toB: SendOutcome)
    ensures var h := HandleMatch(record, lookup, toA, toB);
            && (Status(h.reply) == 400 <==>
                  record.None? || !Truthy(record.value.userA) || !Truthy(record.value.userB))
            && (Status(h.reply) == 400 ==> h.sends == [])
  {
  }

  /** A lookup error, or no result set, is answered 500 carrying the
      lookup error's message (none when there is no error object), and
      nothing is sent. */
  lemma LookupFailureIsServerError(record: Option<MatchRecord>, lookup: Lookup, toA: SendOutcome, toB: SendOutcome)
    requires Proceeds(record)
    requires lookup.error.Some? || lookup.users.None?
    ensures var h := HandleMatch(record, lookup, toA, toB);
            Status(h.reply) == 500 && h.reply == Failed(lookup.error) && h.sends == []
  {
  }

  /** What a valid invocation sends and answers, given the rows the lookup
      returned: the message to A if A's row has a token, then, unless that
      send failed, the message to B if B's row has a token; 500 with the
      provider's error if a send failed, 200 otherwise — also when nothing
      was sent. */
  lemma {:induction false} MatchSends(record: Option<MatchRecord>, rows: seq<Profile>, toA: SendOutcome, toB: SendOutcome)
    requires Proceeds(record)
    ensures var userA := FindById(rows, record.value.userA.value);
            var userB := FindById(rows, record.value.userB.value);
            var failsA := HasToken(userA) && toA.Rejected?;
            var h := HandleMatch(record, Lookup(None, Some(rows)), toA, toB);
            && h.sends == (if HasToken(userA) then [MatchMessage(TokenOf(userA), userB)] else [])
                          + (if HasToken(userB) && !failsA then [MatchMessage(TokenOf(userB), userA)] else [])
            && h.reply == (if failsA then Failed(Some(toA.reason))
                           else if HasToken(userB) && toB.Rejected? then Failed(Some(toB.reason))
                           else Succeeded)
  {
    var userA := FindById(rows, record.value.userA.value);
    var userB := FindById(rows, record.value.userB.value);
    var queue := Planned(userA, userB, toA, toB);
    if HasToken(userA) && HasToken(userB) {
      SendTwo(queue[0], queue[1]);
    } else if HasToken(userA) || HasToken(userB) {
      SendOne(queue[0]);
    }
  }

  /** A failed send to A stops the handler: 500, and B is never sent to. */
  lemma FailedSendToAStopsSendToB(record: Option<MatchRecord>, rows: seq<Profile>, toA: SendOutcome, toB: SendOutcome)
    requires Proceeds(record)
    requires HasToken(FindById(rows, record.value.userA.value)) && toA.Rejected?
    ensures var h := HandleMatch(record, Lookup(None, Some(rows)), toA, toB);
            && Status(h.reply) == 500
            && |h.sends| == 1
            && h.sends[0].token == TokenOf(FindById(rows, record.value.userA.value))
  {
    MatchSends(record, rows, toA, toB);
  }

  /** Every message goes to the non-empty token of the row found for A or
      for B; at most two are sent; A is sent to exactly when A's row has a
      token, and then first. */
  lemma OnlyMatchedUsersWithTokensAreSent(record: Option<MatchRecord>, rows: seq<Profile>, toA: SendOutcome, toB: SendOutcome)
    requires Proceeds(record)
    ensures var userA := FindById(rows, record.value.userA.value);
            var userB := FindById(rows, record.value.userB.value);
            var h := HandleMatch(record, Lookup(None, Some(rows)), toA, toB);
            && |h.sends| <= 2
            && (forall m | m in h.sends ::
                  || (HasToken(userA) && m.token == TokenOf(userA))
                  || (HasToken(userB) && m.token == TokenOf(userB)))
            && (HasToken(userA) <==> |h.sends| > 0 && FcmTokenOf(userA) == Some(h.sends[0].token))
  {
    MatchSends(record, rows, toA, toB);
  }

  /** Each party's message names the other: A's message carries B's id as
      `matchId` ("" if B has no row) and B's name ("someone" if B has no
      row or no name), and B's message the same of A. */
  lemma EachPartyNamesTheOther(record: Option<MatchRecord>, rows: seq<Profile>, toA: SendOutcome, toB: SendOutcome)
    requires Proceeds(record)
    ensures var userA := FindById(rows, record.value.userA.value);
            var userB := FindById(rows, record.value.userB.value);
            var h := HandleMatch(record, Lookup(None, Some(rows)), toA, toB);
            var sentToB := HasToken(userB) && !(HasToken(userA) && toA.Rejected?);
            && (HasToken(userA) ==>
                  && h.sends[0].data["matchId"] == (if userB.Some? then record.value.userB.value else "")
                  && h.sends[0].body == MatchBody(Or(NameOf(userB), "someone")))
            && (sentToB ==>
                  && h.sends[|h.sends| - 1].token == TokenOf(userB)
                  && h.sends[|h.sends| - 1].data["matchId"] == (if userA.Some? then record.value.userA.value else "")
                  && h.sends[|h.sends| - 1].body == MatchBody(Or(NameOf(userA), "someone")))
  {
    MatchSends(record, rows, toA, toB);
  }

  /** With ids as keys, the order of the looked-up rows changes nothing. */
  lemma {:induction false} RowOrderDoesNotMatter(record: Option<MatchRecord>, error: Option<string>,
                                                 rows: seq<Profile>, reordered: seq<Profile>,
                                                 toA: SendOutcome, toB: SendOutcome)
    requires multiset(rows) == multiset(reordered)
    requires IdsAreKeys(rows)
    ensures HandleMatch(record, Lookup(error, Some(rows)), toA, toB)
         == HandleMatch(record, Lookup(error, Some(reordered)), toA, toB)
  {
    if Proceeds(record) {
      FindByIdIgnoresOrder(rows, reordered, record.value.userA.value);
      FindByIdIgnoresOrder(rows, reordered, record.value.userB.value);
    }
  }

  /** The messages depend only on the record and the rows: whatever the
      provider answers, what is sent is a prefix of what is sent when
      every send is delivered. */
  lemma MessagesDoNotDependOnOutcomes(record: Option<MatchRecord>, lookup: Lookup, toA: SendOutcome, toB: SendOutcome)
    ensures HandleMatch(record, lookup, toA, toB).sends <= HandleMatch(record, lookup, Delivered, Delivered).sends
  {
    if Proceeds(record) && !LookupFailed(lookup) {
      MatchSends(record, lookup.users.value, toA, toB);
      MatchSends(record, lookup.users.value, Delivered, Delivered);
    }
  }
}
