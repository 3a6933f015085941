# Session tracking core of the nudge tool, in Dafny

This project models the per-session tracking aggregate of the nudge tool backend and proves properties of it:

- **the session document** (`backend/models/SessionModel.js`). It holds four append-only logs: messages, spin interactions, card interactions and scratchpad snapshots. It also holds the rollup counters that every document method recomputes from those logs.
- **the session service** (`backend/services/sessionService.js`). This is a keyed store of session documents, with:
  - create;
  - lookup;
  - a stats projection;
  - the mutate-by-id methods;
  - the "recent active" and "by user" listings;
  - the retention cleanup.
- **the session router** (`backend/routes/sessionRoutes.js`). It has the enum and type guards of each handler, the `parseInt` of the message index, and the choice of status code and envelope.

Files and modules:

| file | module | what it holds |
|---|---|---|
| `results.dfy` | `Results` | `Option` and `Result` |
| `js_numbers.dfy` | `JsNumbers` | JavaScript `parseInt` and the decimal rendering of a non-negative integer |
| `scans.dfy` | `Scans` | `filter(p).length` and `reduce` sums over a sequence, and their algebra |
| `session_model.dfy` | `Sessions` | the record shapes and enums, the rollups as scans of the logs, one pure function per document method, and the class `SessionDocument` |
| `session_properties.dfy` | `SessionProperties` | what the document methods guarantee |
| `session_service.dfy` | `Service` | the store and the read-only queries as functions; `SelectSessions` as a loop; the class `SessionService` |
| `session_routes.dfy` | `Routes` | the guard chain (`Gate`), the status selection (`Respond`), the effect of a service call (`Execute`), and `Handle`, which runs a request against a `SessionService` |

How the pieces fit together:

- **Specification functions.** Each document method has a function on whole records that states its effect: `WithMessage`, `SetFeedback`, `RecordSpin`, `WithCard`, `Ended` and `WithSnapshot`.
- **The document class.** `SessionDocument` keeps the schema's fields and updates them in place. Each of its methods may assign only the fields its `modifies` clause names, and it is proved to give them the values that function computes.
- **The service class.** `SessionService` keeps the store as a map from `sessionId` to the stored record. Each mutate-by-id method hydrates the stored record into a `SessionDocument`, runs the document method and writes the result back. Its contract ties the answer and the new store to `Mutate` and `Committed`.
- **Consistency.** `Consistent` states that every counter equals the scan of its log, except `feedbackStats`. It is preserved by every method, by creation and by cleanup. `feedbackStats` is recomputed only by `updateFeedback`. The spin, card, end and snapshot methods touch neither the messages nor `feedbackStats`, so only `addMessage` with a feedback already set can leave it out of sync (see `FeedbackSyncAfterMessage`).

Behaviour of the code that the model keeps as written:

- `addMessage` does not recompute `feedbackStats`, so a message posted with its feedback already set leaves those counters stale (`SessionProperties.FeedbackSyncAfterMessage`).
- The average response time counts only assistant messages whose `responseTime` is truthy, so a response time of 0 is not counted (`SessionProperties.UntimedMessageKeepsAverage`).
- The card buckets count only `like`/`dislike`/`neutral`, while the card route accepts only `accept`/`dismiss`. A route-accepted card therefore raises the total and none of the buckets (`Routes.AcceptedCardNeverBucketed`).
- The code does not serialise concurrent mutations of one session (see "Left out").

## Model

| member | source | states |
|---|---|---|
| JsNumbers.ParseIntDecimal | backend/routes/sessionRoutes.js:109 | `parseInt` of a decimal rendering followed by anything that does not continue the number gives back that number |
| JsNumbers.ParseIntNonNumeric | backend/routes/sessionRoutes.js:139 | a parameter that starts with neither white space, a sign nor a digit parses to NaN |
| JsNumbers.DecimalDigitsValue | backend/models/SessionModel.js:195 | the decimal rendering of `Date.now()` in the session id reads back as the same number |
| JsNumbers.ParseInt | backend/routes/sessionRoutes.js:109 | `parseInt` with no radix: leading white space skipped, one optional sign, hexadecimal after `0x`, otherwise the longest decimal digit prefix, NaN when no digit is read; its round trip is `ParseIntDecimal` and its NaN case `ParseIntNonNumeric` |
| Sessions.Duration | backend/models/SessionModel.js:87-90 | the `duration` virtual: `endTime`, or `now` while the session is open, minus `startTime` (see `DurationWhileOpen` and `EndedEffect`) |
| Sessions.WithMessage | backend/models/SessionModel.js:93-108 | the record `addMessage` saves: the message pushed and the six message counters recomputed from the new log (see `WithMessageAppends`, `WithMessageCounts`, `FeedbackSyncAfterMessage`) |
| Sessions.SetFeedback | backend/models/SessionModel.js:111-123 | the record `updateFeedback` saves, or "Message index not found" for an index that selects no message (see `SetFeedbackRejects`, `SetFeedbackEffect`) |
| Sessions.RecordSpin | backend/models/SessionModel.js:126-148 | the record `addSpinInteraction` saves, or "Message index not found" (see `RecordSpinEffect`) |
| Sessions.WithCard | backend/models/SessionModel.js:151-171 | the record `addCardInteraction` saves, whatever the card's action (see `WithCardEffect`, `CardBucketsCountSchemaActions`) |
| Sessions.Ended | backend/models/SessionModel.js:174-178 | the record `endSession` saves (see `EndedEffect`, `EndedTwice`) |
| Sessions.WithSnapshot | backend/models/SessionModel.js:181-191 | the record `addScratchpadSnapshot` saves (see `WithSnapshotAppendsWhenNew`, `WithSnapshotIdempotent`) |
| Sessions.SessionIdFor | backend/models/SessionModel.js:195 | `session_<Date.now()>_<first nine base-36 digits>` (see `SessionIdRoundTrip`, `SessionIdInjective`) |
| Sessions.NewSession | backend/models/SessionModel.js:194-200 | the document `createSession` stores: the given id, user and metadata, started at `now`, active, with empty logs and the schema's zero counters (see `NewSessionConsistent`) |
| Sessions.SessionDocument.Load | backend/services/sessionService.js:29 | a document hydrated from a stored record has exactly that record's fields |
| Sessions.SessionDocument.AddMessage | backend/models/SessionModel.js:93-108 | changes only the message log and the six message counters, and gives them the values of `WithMessage`: the log with the message pushed, and each counter as the scan of the new log |
| Sessions.SessionDocument.UpdateFeedback | backend/models/SessionModel.js:111-123 | throws "Message index not found" and changes nothing when the index selects no message; otherwise sets that message's feedback and recomputes `feedbackStats`, touching no other field |
| Sessions.SessionDocument.AddSpinInteraction | backend/models/SessionModel.js:126-148 | throws on an index that selects no message; otherwise pushes one entry copying the message's content and nudge flag and recomputes the spin counters |
| Sessions.SessionDocument.AddCardInteraction | backend/models/SessionModel.js:151-171 | pushes one card entry whatever its action and recomputes the card counters |
| Sessions.SessionDocument.EndSession | backend/models/SessionModel.js:174-178 | sets `endTime` to now and `isActive` to false, with no guard |
| Sessions.SessionDocument.AddScratchpadSnapshot | backend/models/SessionModel.js:181-191 | changes only the snapshot log, which gets the snapshot appended unless its text equals the last one's |
| SessionProperties.RoleTotals | backend/models/SessionModel.js:94-97 | because a role is `user` or `assistant`, user + assistant messages == total messages |
| SessionProperties.WithMessageAppends | backend/models/SessionModel.js:93-94 | the new message is last, earlier messages are unchanged, and the other logs are untouched |
| SessionProperties.WithMessageCounts | backend/models/SessionModel.js:95-105 | from rollups that match the log, each counter grows by the new message's own contribution, with missing tokens counting 0, and the rollups still match |
| SessionProperties.AverageIsMean | backend/models/SessionModel.js:101-105 | the average is 0 until an assistant message carries a truthy response time, and then it is the mean of those times |
| SessionProperties.UntimedMessageKeepsAverage | backend/models/SessionModel.js:101-105 | a user message, or an assistant message without a response time or timed at 0 ms, leaves the count, the sum and the average as they were |
| SessionProperties.WithMessageKeepsConsistent | backend/models/SessionModel.js:93-108 | `addMessage` preserves the consistency of every rollup with its log |
| SessionProperties.FeedbackSyncAfterMessage | backend/models/SessionModel.js:93-108 | `feedbackStats` stays equal to the scan of the log after `addMessage` exactly when the new message carries no feedback, because it is not recomputed there |
| SessionProperties.SetFeedbackRejects | backend/models/SessionModel.js:112-122 | `updateFeedback` fails exactly when the index selects no message (NaN, negative, too large), and the error is "Message index not found" |
| SessionProperties.FeedbackStatsAddUp | backend/models/SessionModel.js:116-118 | with the stats in sync, positive + negative == total == the number of messages with feedback |
| SessionProperties.SetFeedbackEffect | backend/models/SessionModel.js:112-118 | a valid index changes only `messages[i].feedback` and `feedbackStats`, which then equal the scan of the log |
| SessionProperties.SetFeedbackKeepsConsistent | backend/models/SessionModel.js:111-123 | changing a feedback keeps every other rollup consistent |
| SessionProperties.RecordSpinEffect | backend/models/SessionModel.js:126-148 | fails exactly on an index that selects no message; otherwise appends one entry copying the message, with `totalSpinInteractions == spinStats.total == regenerations + newNudges` |
| SessionProperties.CardBucketsCountSchemaActions | backend/models/SessionModel.js:163-168 | liked + disliked + neutral equals the number of cards whose action is in the schema enum |
| SessionProperties.CardBucketsCoverSchema | backend/models/SessionModel.js:163-168 | when every action is in the schema enum, liked + disliked + neutral == total |
| SessionProperties.CardBucketsMissOtherActions | backend/models/SessionModel.js:163-168 | a single card with an action outside the enum leaves the buckets short of the total |
| SessionProperties.WithCardEffect | backend/models/SessionModel.js:151-171 | appends exactly one entry whatever the action, with `totalCardInteractions == cardStats.total ==` the log length, and nothing else changes |
| SessionProperties.WithSnapshotAppendsWhenNew | backend/models/SessionModel.js:183-190 | a snapshot is appended exactly when the log is empty or the last text differs |
| SessionProperties.WithSnapshotKeepsNoRepeat | backend/models/SessionModel.js:181-191 | no two consecutive snapshots have the same text |
| SessionProperties.WithSnapshotIdempotent | backend/models/SessionModel.js:181-191 | saving the same text twice stores one snapshot |
| SessionProperties.EndedEffect | backend/models/SessionModel.js:174-178 | ending clears `isActive`, sets `endTime`, fixes the duration at `endTime - startTime`, and changes nothing else |
| SessionProperties.EndedTwice | backend/models/SessionModel.js:174-178 | ending again moves `endTime` to the second call's time |
| SessionProperties.DurationWhileOpen | backend/models/SessionModel.js:87-90 | before the session ends, the duration is `now - startTime` |
| SessionProperties.MutationIgnoresIsActive | backend/models/SessionModel.js:93-191 | no method looks at `isActive`: an ended session accepts the same calls, records the same logs, and every method but `endSession` commutes with ending the session (a second `endSession` gives what one at the later time gives) |
| SessionProperties.ApplyKeepsConsistent | backend/models/SessionModel.js:93-191 | every document method keeps a consistent record consistent, and keeps its id and start time |
| SessionProperties.NewSessionConsistent | backend/models/SessionModel.js:194-200 | a freshly created session is active, consistent and has its feedback stats in sync |
| SessionProperties.SessionIdRoundTrip | backend/models/SessionModel.js:195 | `session_<now>_<suffix>` splits back into the clock reading and the suffix |
| SessionProperties.SessionIdInjective | backend/models/SessionModel.js:195 | two equal ids have the same clock reading and the same random suffix |
| SessionProperties.TwoMessageSession | backend/models/SessionModel.js:93-108 | create, a user "hi", then an assistant "hello" answered in 120 ms gives two messages, one of each role, and an average of 120 |
| SessionProperties.TwoMessageLog | backend/models/SessionModel.js:95-105 | the role counts, the timed count and the time sum of that two-message log |
| Service.WithNewSession | backend/services/sessionService.js:5-13 | stores `NewSession` (started at `now`, with the given user and metadata, active, empty logs, zero counters) under `session_<now>_<random>`, or fails with a duplicate-key error, leaving the store as it was, when that id is taken |
| Service.NewSessionKeepsValid | backend/services/sessionService.js:5-13 | creation keeps every stored record under its own id and consistent |
| Service.CreationsAtDifferentTimesDiffer | backend/models/SessionModel.js:195 | two creations at different clock readings never produce the same id |
| Service.FindSession | backend/services/sessionService.js:16-24 | `getSession` yields null exactly for an unknown id, and the stored session otherwise |
| Service.SessionStatsFor | backend/services/sessionService.js:107-132 | `getSessionStats` fails with "Session not found" exactly for an unknown id, and otherwise returns `StatsOf` the stored record |
| Service.StatsOf | backend/services/sessionService.js:114-127 | the projection carries the record's id, start and end times, every message counter, the average, the feedback stats and `isActive`, with `duration` evaluated at `now` |
| Service.StatsDescribeLog | backend/services/sessionService.js:114-127 | on a valid store every projected message counter equals its scan of the session's own log (total, per role, nudges, tokens, the mean of the truthy assistant response times), the role counts add up, and the duration follows `isActive` |
| Service.Mutate | backend/services/sessionService.js:27-40 | an unknown id throws "Session not found"; a known one runs the document method on the stored record |
| Service.UnknownIdChangesNothing | backend/services/sessionService.js:29-32 | every mutate-by-id method on an unknown id throws "Session not found" and leaves the store unchanged |
| Service.MutateIsolated | backend/services/sessionService.js:27-40 | a mutation changes no other session, and adds or removes none |
| Service.MutateKeepsValid | backend/services/sessionService.js:27-104 | every mutate-by-id method keeps the store valid |
| Service.SelectSessions | backend/services/sessionService.js:150-152 | `find(filter).sort({startTime: -1}).limit(limit)`: only stored matching sessions, newest first, each once, at most `limit` (0 meaning no limit), and any matching session left out started no later than every one returned |
| Service.RecentSessions | backend/services/sessionService.js:148-158 | only stored active sessions, newest first, each once, at most `limit`; an active session is left out only when the limit is reached, and then it started no later than every one returned |
| Service.UserSessions | backend/services/sessionService.js:135-145 | only that user's stored sessions, newest first, each once, at most `limit`; one is left out only when the limit is reached, and then it started no later than every one returned |
| Service.RetainedCount | backend/services/sessionService.js:166-172 | deleted plus kept sessions are the whole store |
| Service.CleanupKeepsOpenSessions | backend/services/sessionService.js:166-169 | a session still active, never ended, or ended at or after the cutoff survives unchanged |
| Service.RetainedKeepsValid | backend/services/sessionService.js:161-177 | cleanup keeps the store valid |
| Service.Expired | backend/services/sessionService.js:166-169 | the `deleteMany` filter: ended (`isActive` false) with an `endTime` before the cutoff |
| Service.Retained | backend/services/sessionService.js:166-169 | the store after `deleteMany`: exactly the sessions that are not `Expired`, each unchanged |
| Service.DocumentAddMessage | backend/services/sessionService.js:29-35 | hydrating the stored record and calling `addMessage` saves `WithMessage` of it |
| Service.DocumentUpdateFeedback | backend/services/sessionService.js:45-51 | hydrating and calling `updateFeedback` saves `SetFeedback` of the record, or throws its error |
| Service.DocumentAddSpinInteraction | backend/services/sessionService.js:61-67 | hydrating and calling `addSpinInteraction` saves `RecordSpin` of the record, or throws its error |
| Service.DocumentAddCardInteraction | backend/services/sessionService.js:77-83 | hydrating and calling `addCardInteraction` saves `WithCard` of the record |
| Service.DocumentEndSession | backend/services/sessionService.js:93-99 | hydrating and calling `endSession` saves `Ended` of the record |
| Service.DocumentAddScratchpadSnapshot | backend/services/sessionService.js:182-187 | hydrating and calling `addScratchpadSnapshot` saves `WithSnapshot` of the record |
| Service.SessionService.constructor | backend/services/sessionService.js:195 | the service starts over an empty, valid store |
| Service.SessionService.CreateSession | backend/services/sessionService.js:5-13 | the answer and the new store are those of `WithNewSession`, and validity is kept |
| Service.SessionService.AddMessage | backend/services/sessionService.js:27-40 | the answer is `Mutate` with `addMessage`, and the store changes only by committing a success; a valid store stays valid |
| Service.SessionService.UpdateFeedback | backend/services/sessionService.js:43-56 | the same, for `updateFeedback` |
| Service.SessionService.AddSpinInteraction | backend/services/sessionService.js:59-72 | the same, for `addSpinInteraction` |
| Service.SessionService.AddCardInteraction | backend/services/sessionService.js:75-88 | the same, for `addCardInteraction` |
| Service.SessionService.EndSession | backend/services/sessionService.js:91-104 | the same, for `endSession` |
| Service.SessionService.AddScratchpadSnapshot | backend/services/sessionService.js:180-192 | the same, for `addScratchpadSnapshot` |
| Service.SessionService.CleanupOldSessions | backend/services/sessionService.js:161-177 | deletes exactly the ended sessions whose `endTime` is before the cutoff `daysOld` days back (30 when `daysOld` is left undefined), keeps the rest unchanged, returns the number deleted, and keeps validity |
| Routes.Gate | backend/routes/sessionRoutes.js:97-263 | the feedback, spin, card and scratchpad routes reject a request with 400 exactly when their field is outside the accepted set or not a string; every other route passes straight to the service |
| Routes.Respond | backend/routes/sessionRoutes.js:7-270 | 400 exactly for a rejection, 404 exactly for a null session, 201 exactly for a creation, 500 exactly for a thrown error (with the route's failure message and the error's message), and `success` exactly for 200/201 |
| Routes.Execute | backend/routes/sessionRoutes.js:7-213 | reads leave the store as it was; a thrown error leaves the store as it was; a mutation throws "Session not found" exactly for an unknown id |
| Routes.Handle | backend/routes/sessionRoutes.js:7-270 | a rejected request answers 400 and leaves the store as it was; a listing answers 200 with stored matching sessions, newest first, each once, within the limit, and any matching session left out started no later than every one returned; every other request answers `Respond` of `Execute` and leaves the store `Execute` computes; the service stays valid |
| Routes.Perform | backend/routes/sessionRoutes.js:7-213 | the service call of a non-listing handler has exactly the outcome and store effect of `Execute`, and keeps the service valid |
| Routes.Dispatch | backend/routes/sessionRoutes.js:74-213 | each mutation goes to the service method whose result is `Mutate` and whose new store is `Committed`, and the service stays valid |
| Routes.NonNumericFeedbackIndexFails | backend/routes/sessionRoutes.js:109 | a non-numeric feedback index becomes NaN, passes the guard and comes back as 500 "Message index not found", with the store unchanged |
| Routes.NonNumericSpinIndexFails | backend/routes/sessionRoutes.js:139 | the same for the spin route |
| Routes.DecimalFeedbackGate | backend/routes/sessionRoutes.js:102-109 | an accepted feedback type with a decimal index is passed on as that number and the named feedback |
| Routes.DecimalIndexReachesMessage | backend/routes/sessionRoutes.js:109-115 | a decimal index within the log answers 200 with the session `updateFeedback` produced, and stores it |
| Routes.GetSessionNotFoundIff | backend/routes/sessionRoutes.js:30-42 | `GET /:sessionId` answers 404 exactly when no session has that id, and otherwise 200 with the stored session |
| Routes.UnknownStatsIsServerError | backend/routes/sessionRoutes.js:57-69 | stats for an unknown id answer 500 "Failed to get session stats" with error "Session not found", not 404 |
| Routes.UnknownSessionMutationFails | backend/routes/sessionRoutes.js:74-94 | every mutating route that passes its guards answers 500 with "Session not found" for an unknown id, and leaves the store unchanged |
| Routes.AcceptedCardNeverBucketed | backend/routes/sessionRoutes.js:162-167 | an action the card route accepts (accept/dismiss) is never a schema action, so the card raises `cardStats.total` but none of liked/disliked/neutral |

## Left out

- Mongoose persistence is a map from `sessionId` to the stored record. Not modelled: `save()`, `findOne`, `deleteMany`, the indexes and `timestamps: true` (`createdAt`/`updatedAt`). Schema validation on save is not modelled either. In particular the `like`/`dislike`/`neutral` enum would make Mongoose reject an `accept`/`dismiss` card at save time, and a `required` string would reject an empty one. The model keeps what the source code itself does.
- Concurrency: every service call is atomic. The lost-update hazard of concurrent read-modify-write on one session is not modelled, because the code has no coordination.
- `Date.now()`, `new Date()` and `Math.random()` are parameters. Times are integer milliseconds. The random suffix is a sequence of base-36 digits, of which the id keeps at most nine.
- Service.WithNewSession: the id's `Date.now()` and the schema default `startTime: Date.now` are two clock readings in the code, so `startTime` can be a little later than the reading in the id. The model takes one reading, `now`, for both.
- The `averageResponseTime` field is an exact rational mean (`real`) in place of the floating-point division.
- Service.Cutoff: `setDate(getDate() - daysOld)` is taken as `daysOld` days of 24 hours. Daylight-saving shifts of the local calendar are not modelled.
- The `limit` query of the listing routes is given as the number `parseInt` made of it, or as absent (default 10). `parseInt` of a non-numeric or negative `limit`, and how Mongoose treats that value, are not modelled.
- The message body of `POST /:sessionId/message` is taken as a well-formed `Message`. The schema defaults that Mongoose fills in (`timestamp`, `isNudge`, `tokensUsed`, `model`) and a role outside the enum are not modelled.
- The card fields other than `action` are strings as sent; an absent `cardId`, `cardTitle` or `cardContent` is not modelled.
- Express path matching is not modelled: each request names its handler directly. For example, `GET /user/stats` would reach the stats handler.
- The `console.log`/`console.error` output of every handler and service method is left out.
- Storage failures are not modelled: only the errors the code itself throws ("Session not found", "Message index not found") and the duplicate-key error of the unique `sessionId` index reach a 500.
- Service.SelectSessions: the order among sessions with the same `startTime` is left open, as Mongo leaves it. For that reason `Routes.Handle` states a listing by its properties rather than by a function.
