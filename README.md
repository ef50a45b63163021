# Like and match push notifications, modelled in Dafny

Two webhook handlers of a dating app send push notifications when a row is
written to the likes or the matches table:

- `like_notification` skips every record that is not a "like" with both user
  ids, looks up the liker's and the target's profiles in one batch, and sends
  the target one anonymous message ("Someone just liked your profile!…") that
  carries only the liker's id.
- `match_notification` rejects a record without both user ids with a 400,
  looks up both users' profiles in one batch, and awaits one message per user
  that has a push token, user A's first; each names the other party.

The model keeps what the handlers decide and abstracts what they call:

| file | module | what it holds |
|---|---|---|
| `js.dfy` | `Js` | optional strings, JavaScript truthiness, the `a \|\| b` fallback |
| `profiles.dfy` | `Profiles` | profile rows, the lookup's `{data, error}` answer, `users.find(u => u.id === key)` and what it guarantees about row order |
| `push.dfy` | `Push` | the push message, the provider's answer to a send, the awaited sends in order (the first throw stops the rest) |
| `responses.dfy` | `Responses` | the handler's reply and its HTTP status |
| `match_notification.dfy` | `MatchNotification` | the match handler: spec function `HandleMatch`, step-by-step method `ServeMatch`, its properties |
| `like_notification.dfy` | `LikeNotification` | the like handler: spec function `HandleLike`, step-by-step method `ServeLike`, its properties |

Each handler is a pure function of its inputs: the webhook record (fields are
`Option<string>`; `None` stands for both `undefined` and `null`, and `""` is
falsy like them), the lookup's answer (an error object or not, a row sequence
or not), and the provider's answer to each send it makes. It returns a reply
(200 success, 200 skip, 400, or 500 with the error's message) and every
message handed to the provider, in order; when a send is rejected, its message
is the last one in that sequence and the reply is 500. The method beside each
function performs the same steps one statement at a time (append the message,
return on a rejected send) and is proved equal to the function.

Three consequences of the code are easy to miss:

- The two match sends are awaited one after the other inside one `try`. A
  rejected send to A therefore ends the invocation with a 500, and B is never
  sent to (`FailedSendToAStopsSendToB`).
- Names and ids fall back through JavaScript `||`, which also replaces an
  empty string: an empty `full_name` becomes "someone".
- An empty row set from the lookup is not a failure (an empty array is
  truthy). Nothing is sent and the reply is 200.

## Model

| member | source | states |
|---|---|---|
| `Js.Or` | supabase/functions/match_notification/index.ts:52-54 | `s \|\| fallback` yields `s` when truthy, otherwise the fallback, and never "" when the fallback is non-empty |
| `Js.Truthy` | supabase/functions/match_notification/index.ts:25 | JavaScript truthiness of an optional string field: absent, null and "" are falsy. Its consequences are stated by `Or`, `MatchNotification.InvalidPayloadIsRejected` and `LikeNotification.IrrelevantRecordIsSkipped` |
| `Profiles.FindById` | supabase/functions/match_notification/index.ts:43-44 | `users.find` by id: no row exactly when no row has the id, otherwise a row of the input with that id |
| `Profiles.FindByIdIsFirstMatch` | supabase/functions/match_notification/index.ts:43-44 | the row found is the one at the first index whose id is the key |
| `Profiles.FindByIdIgnoresOrder` | supabase/functions/match_notification/index.ts:43-44 | when ids are keys, any permutation of the returned rows gives the same search result |
| `Profiles.FindByIdNeedsKeys` | supabase/functions/match_notification/index.ts:43-44 | without unique ids, swapping two rows with one id changes the result |
| `Profiles.FindByIdReadsOnlyMatchingRows` | supabase/functions/like_notification/index.ts:43-44 | the search sees only the ids and the rows with the searched id: rows agreeing on ids find a row in the same cases, and agreeing also on the matching rows find the same row |
| `Profiles.LookupFailed` | supabase/functions/match_notification/index.ts:41 | `error \|\| !users`: a present error object or an absent result set; an empty array is not a failure. Its consequences are stated by `MatchNotification.LookupFailureIsServerError` and `LikeNotification.LookupFailureIsServerError` |
| `Profiles.HasToken` | supabase/functions/match_notification/index.ts:47 | `x?.fcm_token` is truthy: the row was found and its token is non-empty (`FcmTokenOf` is the `?.` access). Its consequences are stated by `TokenOf`, `MatchSends` and `LikeSends` |
| `Profiles.TokenOf` | supabase/functions/match_notification/index.ts:47-49 | a truthy `fcm_token` is a non-empty token of that row |
| `Push.SendInOrder` | supabase/functions/match_notification/index.ts:46-68 | awaited sends in order: what is sent is a prefix of the planned messages; no failure exactly when every answer is a delivery, and then all are sent; on failure the last one sent is the first rejected, whose reason escapes |
| `Push.SendOne` | supabase/functions/like_notification/index.ts:47-58 | a single awaited send is made, and its rejection is the error that escapes |
| `Push.SendTwo` | supabase/functions/match_notification/index.ts:47-68 | of two awaited sends, the second is made only if the first was delivered; the first rejection is the error that escapes |
| `Responses.Status` | supabase/functions/match_notification/index.ts:70-79 | success and skip are 200, an invalid payload 400, a failure 500 |
| `Responses.AfterSends` | supabase/functions/match_notification/index.ts:70-79 | the reply after the sends is success exactly when no send threw, otherwise a 500 carrying the thrown error's message |
| `MatchNotification.Proceeds` | supabase/functions/match_notification/index.ts:25 | the record is present and `user_a` and `user_b` are truthy; what follows from it is stated by `InvalidPayloadIsRejected` |
| `MatchNotification.HandleMatch` | supabase/functions/match_notification/index.ts:20-80 | the handler as a function of record, lookup answer and send outcomes: it never skips, sends at most two messages, and sends only for a valid record after a successful lookup; the exact behaviour is stated by the lemmas below |
| `MatchNotification.Planned` | supabase/functions/match_notification/index.ts:47-68 | the sends the handler will attempt, in order: A's message if A's row has a token, then B's if B's row has a token. Its consequences are stated by `MatchSends` |
| `MatchNotification.MatchMessage` | supabase/functions/match_notification/index.ts:48-55 | the message to a user goes to its token with title "It's a Match! 🎉"; the body is `MatchBody` (the template "You and ${name} liked each other!") of the other party's `full_name` (read through `NameOf`, the `?.` access), or "someone" if there is no row or the name is missing or empty; data is exactly `type: new_match` and `matchId`, the other party's id (through `IdOf`), or "" when it has no row |
| `MatchNotification.ServeMatch` | supabase/functions/match_notification/index.ts:20-80 | the step-by-step handler (validate, look up, send to A, send to B, reply) yields exactly the reply and sends of `HandleMatch` |
| `MatchNotification.InvalidPayloadIsRejected` | supabase/functions/match_notification/index.ts:25-27 | the status is 400 exactly when the record, `user_a` or `user_b` is missing or empty, and then nothing is sent |
| `MatchNotification.LookupFailureIsServerError` | supabase/functions/match_notification/index.ts:36-41 | a lookup error or an absent result set gives 500 carrying the lookup error's message (none when there is no error object), and nothing is sent |
| `MatchNotification.MatchSends` | supabase/functions/match_notification/index.ts:46-73 | the sends are A's message if A's row has a token, then B's message if B's row has a token and the send to A did not fail; the reply is 500 with the first rejection's message, otherwise 200 even when nothing was sent |
| `MatchNotification.FailedSendToAStopsSendToB` | supabase/functions/match_notification/index.ts:47-60 | when the send to A is rejected, the reply is 500 and the only message sent is A's |
| `MatchNotification.OnlyMatchedUsersWithTokensAreSent` | supabase/functions/match_notification/index.ts:43-59 | at most two messages; each goes to the non-empty token of the row found for `user_a` or for `user_b`; A is sent to exactly when A's row has a truthy token, and A's message is first |
| `MatchNotification.EachPartyNamesTheOther` | supabase/functions/match_notification/index.ts:50-66 | A's message carries `matchId` = `user_b` if B's row was found (else "") and B's name or "someone"; the message to B carries A's |
| `MatchNotification.RowOrderDoesNotMatter` | supabase/functions/match_notification/index.ts:43-44 | with ids as keys, permuting the looked-up rows changes neither the reply nor the messages |
| `MatchNotification.MessagesDoNotDependOnOutcomes` | supabase/functions/match_notification/index.ts:46-68 | the same record and rows always compose the same messages; the provider's answers only decide how many of them are sent |
| `LikeNotification.Proceeds` | supabase/functions/like_notification/index.ts:26 | the record is present, its `type` is exactly "like", and `user_id` and `target_user_id` are truthy; what follows from it is stated by `IrrelevantRecordIsSkipped` |
| `LikeNotification.HandleLike` | supabase/functions/like_notification/index.ts:20-70 | the handler as a function of record, lookup answer and send outcome: it never answers 400, sends at most one message, and sends only for a valid like after a successful lookup; the exact behaviour is stated by the lemmas below |
| `LikeNotification.Planned` | supabase/functions/like_notification/index.ts:47-57 | the one send the handler will attempt: the target's message if the target's row has a token. Its consequences are stated by `LikeSends` |
| `LikeNotification.LikeMessage` | supabase/functions/like_notification/index.ts:50-57 | the message goes to the given token with the fixed title "New Like! ❤️" and the fixed anonymous body; data is exactly `type: new_like` and `likerId`, the liker's id, or "" when it has no row |
| `LikeNotification.ServeLike` | supabase/functions/like_notification/index.ts:20-70 | the step-by-step handler (validate, look up, send to target, reply) yields exactly the reply and sends of `HandleLike` |
| `LikeNotification.IrrelevantRecordIsSkipped` | supabase/functions/like_notification/index.ts:26-28 | the record is skipped with 200 exactly when it is missing, its `type` is not "like" (a "dislike" included), or a user id is missing or empty; nothing is then sent |
| `LikeNotification.LookupFailureIsServerError` | supabase/functions/like_notification/index.ts:36-41 | a lookup error or an absent result set gives 500 carrying the lookup error's message (none when there is no error object), and nothing is sent |
| `LikeNotification.LikeSends` | supabase/functions/like_notification/index.ts:43-63 | exactly `LikeMessage` to the target's token when the target's row has a truthy token, otherwise nothing: title "New Like! ❤️", the fixed anonymous body, data exactly `type: new_like` and `likerId` = `user_id` if the liker's row was found (else ""); the reply is 500 with the provider's error exactly when that send was rejected, otherwise 200, also with no token |
| `LikeNotification.LikerProfileNeverLeaks` | supabase/functions/like_notification/index.ts:43-56 | changing the name or token of any row other than the target's (the liker's among them) changes nothing in the reply or the messages |
| `LikeNotification.RowOrderDoesNotMatter` | supabase/functions/like_notification/index.ts:43-44 | with ids as keys, permuting the looked-up rows changes neither the reply nor the message |

## Left out

- The HTTP layer (`serve`, `req.json`, `Response` headers and bodies): only the reply kind, its status and the error message are modelled.
- Firebase Admin initialisation from the environment (lines 5-17 of both files): environment reads, JSON parsing of credentials and library-global state.
- Construction of the profile-store client and the query itself: the lookup is an input, an error object or not and a row sequence or not.
- The messaging client: each send is an input outcome, delivered or rejected with a message; delivery itself is not modelled.
- Logging with `console.error`.
- A lookup that returns neither an error nor rows makes the source `throw null`, and its `catch` then fails on `err.message`, so the platform, not the handler, answers; the model reports that case as a 500 carrying no message (`Failed(None)`).
- Non-string JSON values in the record (numbers, objects): fields are modelled as strings or absent.
