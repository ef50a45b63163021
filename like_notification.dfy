/** The `like_notification` handler: on a new like, tell the liked user.

    Only records of type "like" with both user ids present go on; every
    other record is skipped with a 200.  Both profiles are looked up in
    one batch, and if the target's row has a token one anonymous message
    is awaited: it never names the liker, and carries only the liker's id. */
module LikeNotification {
  import opened Js
  import opened Profiles
  import opened Push
  import opened Responses

  /** The webhook's `record`: who liked (`user_id`) whom (`target_user_id`),
      and whether it was a "like" or a "dislike" (`type`). */
  datatype LikeRecord = LikeRecord(kind: Option<string>, userId: Option<string>, targetUserId: Option<string>)

  const LikeTitle: string := "New Like! \U{2764}\U{FE0F}"
  const LikeBody: string := "Someone just liked your profile! Open the app to see who."

  /** `record && record.type === 'like' && record.user_id && record.target_user_id` */
  predicate Proceeds(record: Option<LikeRecord>) {
    record.Some? && record.value.kind == Some("like")
    && Truthy(record.value.userId) && Truthy(record.value.targetUserId)
  }

  /** The message to the target; `liker` is the liker's row (`None` when it
      was not found), of which only the id is used. */
  function LikeMessage(token: string, liker: Option<Profile>): (m: Message)
    ensures m.token == token && m.title == LikeTitle && m.body == LikeBody
    ensures m.data.Keys == {"type", "likerId"} && m.data["type"] == "new_like"
    ensures m.data["likerId"] == if liker.Some? then liker.value.id else ""
  {
    Message(token, LikeTitle, LikeBody, map["type" := "new_like", "likerId" := Or(IdOf(liker), "")])
  }

  /** The one send the handler may make: to the target, if its row has a token. */
  function Planned(liker: Option<Profile>, target: Option<Profile>, toTarget: SendOutcome): seq<Attempt> {
    if HasToken(target) then [Attempt(LikeMessage(TokenOf(target), liker), toTarget)] else []
  }

  /** One invocation of the handler, as a function of its inputs: the
      record, the lookup's answer, and the provider's answer to the send
      to the target (consulted only if that send is made).  A lookup
      failure without an error object is `Failed(None)`, as in the match
      handler. */
  function HandleLike(record: Option<LikeRecord>, lookup: Lookup, toTarget: SendOutcome): (h: Handled)
    ensures h.reply != InvalidPayload
    ensures |h.sends| <= 1
    ensures h.sends != [] ==> Proceeds(record) && !LookupFailed(lookup)
  {
    if !Proceeds(record) then Handled(Skipped, [])
    else if LookupFailed(lookup) then Handled(Failed(lookup.error), [])
    else
      var rows := lookup.users.value;
      var liker := FindById(rows, record.value.userId.value);
      var target := FindById(rows, record.value.targetUserId.value);
      AfterSends(SendInOrder(Planned(liker, target, toTarget)))
  }

  /** The handler body, step by step: the awaited send appends its message
      to `sends`, and a rejection returns 500. */
  method ServeLike(record: Option<LikeRecord>, lookup: Lookup, toTarget: SendOutcome)
    returns (reply: Reply, sends: seq<Message>)
    ensures Handled(reply, sends) == HandleLike(record, lookup, toTarget)
  {
    sends := [];
    if !Proceeds(record) {
      return Skipped, sends;
    }
    if LookupFailed(lookup) {
      return Failed(lookup.error), sends;
    }
    var rows := lookup.users.value;
    var liker := FindById(rows, record.value.userId.value);
    var target := FindById(rows, record.value.targetUserId.value);
    if HasToken(target) {
      sends := sends + [LikeMessage(TokenOf(target), liker)];
      if toTarget.Rejected? {
        return Failed(Some(toTarget.reason)), sends;
      }
    }
    reply := Succeeded;
  }

  /** A missing record, a type other than "like" (a "dislike" among them),
      or a missing or empty user id is skipped with a 200, and only then;
      nothing is sent. */
  lemma IrrelevantRecordIsSkipped(record: Option<LikeRecord>, lookup: Lookup, toTarget: SendOutcome)
    ensures var h := HandleLike(record, lookup, toTarget);
            && (h.reply == Skipped <==>
                  || record.None?
                  || record.value.kind != Some("like")
                  || !Truthy(record.value.userId)
                  || !Truthy(record.value.targetUserId))
            && (h.reply == Skipped ==> Status(h.reply) == 200 && h.sends == [])
            && (record.Some? && record.value.kind == Some("dislike") ==> h.reply == Skipped)
  {
  }

  /** A lookup error, or no result set, is answered 500 carrying the
      lookup error's message (none when there is no error object), and
      nothing is sent. */
  lemma LookupFailureIsServerError(record: Option<LikeRecord>, lookup: Lookup, toTarget: SendOutcome)
    requires Proceeds(record)
    requires lookup.error.Some? || lookup.users.None?
    ensures var h := HandleLike(record, lookup, toTarget);
            Status(h.reply) == 500 && h.reply == Failed(lookup.error) && h.sends == []
  {
  }

  /** What a valid invocation sends and answers: exactly one message, the
      anonymous `LikeMessage` to the target's token, if the target's row has
      a token, else none; 500 with the provider's error if that send failed,
      else 200 — also when nothing was sent. */
  lemma LikeSends(record: Option<LikeRecord>, rows: seq<Profile>, toTarget: SendOutcome)
    requires Proceeds(record)
    ensures var liker := FindById(rows, record.value.userId.value);
            var target := FindById(rows, record.value.targetUserId.value);
            var h := HandleLike(record, Lookup(None, Some(rows)), toTarget);
            && h.sends == (if HasToken(target) then [LikeMessage(TokenOf(target), liker)] else [])
            && (HasToken(target) ==>
                  && h.sends[0].token == TokenOf(target)
                  && h.sends[0].title == LikeTitle
                  && h.sends[0].body == LikeBody
                  && h.sends[0].data.Keys == {"type", "likerId"}
                  && h.sends[0].data["type"] == "new_like"
                  && h.sends[0].data["likerId"] == (if liker.Some? then record.value.userId.value else ""))
            && h.reply == (if HasToken(target) && toTarget.Rejected? then Failed(Some(toTarget.reason)) else Succeeded)
            && (Status(h.reply) == 500 <==> HasToken(target) && toTarget.Rejected?)
  {
    var liker := FindById(rows, record.value.userId.value);
    var target := FindById(rows, record.value.targetUserId.value);
    if HasToken(target) {
      SendOne(Attempt(LikeMessage(TokenOf(target), liker), toTarget));
    }
  }

  /** The liker's row contributes only its id: changing the name or the
      token of any row other than the target's (the liker's among them)
      changes nothing in what is sent or answered.  So neither the liker's
      name nor the liker's token can reach the message. */
  lemma {:induction false} LikerProfileNeverLeaks(record: Option<LikeRecord>, error: Option<string>,
                                                  rows: seq<Profile>, edited: seq<Profile>, toTarget: SendOutcome)
    requires |edited| == |rows|
    requires forall i | 0 <= i < |rows| :: edited[i].id == rows[i].id
    requires record.Some? ==>
               forall i | 0 <= i < |rows| && Some(rows[i].id) == record.value.targetUserId :: edited[i] == rows[i]
    ensures HandleLike(record, Lookup(error, Some(rows)), toTarget)
         == HandleLike(record, Lookup(error, Some(edited)), toTarget)
  {
    if Proceeds(record) {
      var likerId, targetId := record.value.userId.value, record.value.targetUserId.value;
      FindByIdReadsOnlyMatchingRows(rows, edited, likerId);
      FindByIdReadsOnlyMatchingRows(rows, edited, targetId);
      var liker, liker2 := FindById(rows, likerId), FindById(edited, likerId);
      assert IdOf(liker) == IdOf(liker2);
      assert LikeMessage("", liker).data == LikeMessage("", liker2).data;
    }
  }

  /** With ids as keys, the order of the looked-up rows changes nothing. */
  lemma {:induction false} RowOrderDoesNotMatter(record: Option<LikeRecord>, error: Option<string>,
                                                 rows: seq<Profile>, reordered: seq<Profile>, toTarget: SendOutcome)
    requires multiset(rows) == multiset(reordered)
    requires IdsAreKeys(rows)
    ensures HandleLike(record, Lookup(error, Some(rows)), toTarget)
         == HandleLike(record, Lookup(error, Some(reordered)), toTarget)
  {
    if Proceeds(record) {
      FindByIdIgnoresOrder(rows, reordered, record.value.userId.value);
      FindByIdIgnoresOrder(rows, reordered, record.value.targetUserId.value);
    }
  }
}
