/** backend/routes/sessionRoutes.js: the HTTP boundary of the session service.
    Each handler checks the body fields it needs, turns the path parameter
    `messageIndex` into a number with `parseInt`, makes one service call and
    chooses the status code and the JSON envelope of the answer.

    `Gate` is the guard chain of every handler: a 400 rejection, or the service
    call the handler makes. `Execute` is what that call does to the store,
    `Respond` the status selection, and `Handle` runs the whole exchange
    against a `SessionService`. */
module Routes {
  import opened Results
  import opened Scans
  import opened JsNumbers
  import opened Sessions
  import opened SessionProperties
  import opened Service

  /** A field of the JSON request body: a string, or anything else (absent,
      a number, an object, ...). */
  datatype JsValue = JsString(s: string) | NotAString

  /** One request to the session router, with its path parameters and the body
      or query fields the handler reads. The message body of
      `POST /:sessionId/message` is passed on as it is. A `limit` query is
      given as the number `parseInt` made of it, or `None` when absent. */
  datatype Request =
    | PostCreate(userId: Option<string>, metadata: Metadata)
    | GetSession(sessionId: string)
    | GetStats(sessionId: string)
    | PostMessage(sessionId: string, message: Message)
    | PostFeedback(sessionId: string, messageIndex: string, feedbackType: JsValue)
    | PostSpin(sessionId: string, messageIndex: string, action: JsValue)
    | PostCard(sessionId: string, cardId: string, cardTitle: string, cardContent: string,
               action: JsValue, nudgeId: Option<string>)
    | PostEnd(sessionId: string)
    | GetRecent(limit: Option<nat>)
    | GetUserSessions(owner: string, limit: Option<nat>)
    | PostSnapshot(sessionId: string, text: JsValue)

  /** The service call a handler makes once its guards pass. */
  datatype Call =
    | CallCreate(userId: Option<string>, metadata: Metadata)
    | CallGet(sessionId: string)
    | CallStats(sessionId: string)
    | CallMutate(sessionId: string, op: Mutation)
    | CallList(filter: Filter, limit: nat)

  /** The `limit = 10` default of the two listing routes. */
  const DefaultLimit: nat := 10

  const InvalidFeedbackType := "Invalid feedback type. Must be \"positive\" or \"negative\""
  const InvalidSpinAction := "Invalid action. Must be \"regenerate\" or \"new_nudge\""
  const InvalidCardAction := "Invalid action. Must be \"accept\" or \"dismiss\""
  const TextRequired := "Text is required"

  /** `['positive', 'negative'].includes(feedbackType)`. */
  predicate FeedbackTypeAccepted(v: JsValue)
  {
    v == JsString("positive") || v == JsString("negative")
  }

  /** `['regenerate', 'new_nudge'].includes(action)`. */
  predicate SpinActionAccepted(v: JsValue)
  {
    v == JsString("regenerate") || v == JsString("new_nudge")
  }

  /** `['accept', 'dismiss'].includes(action)` of the card route. */
  predicate CardActionAccepted(v: JsValue)
  {
    v == JsString("accept") || v == JsString("dismiss")
  }

  /** The feedback an accepted `feedbackType` names. */
  function FeedbackNamed(v: JsValue): Feedback
  {
    if v == JsString("positive") then Positive else Negative
  }

  /** The spin action an accepted `action` names. */
  function SpinActionNamed(v: JsValue): SpinAction
  {
    if v == JsString("regenerate") then Regenerate else NewNudge
  }

  function LimitOrDefault(limit: Option<nat>): nat
  {
    match limit case Some(n) => n case None => DefaultLimit
  }

  /** The guards of each handler, in order, then the call it makes. */
  function Gate(req: Request, now: int): (g: Result<Call, string>)
    ensures req.PostFeedback? ==> (g.Failure? <==> !FeedbackTypeAccepted(req.feedbackType))
    ensures req.PostSpin? ==> (g.Failure? <==> !SpinActionAccepted(req.action))
    ensures req.PostCard? ==> (g.Failure? <==> !CardActionAccepted(req.action))
    ensures req.PostSnapshot? ==> (g.Failure? <==> !req.text.JsString?)
    ensures !(req.PostFeedback? || req.PostSpin? || req.PostCard? || req.PostSnapshot?) ==> g.Success?
    ensures g.Failure? ==> g.error in {InvalidFeedbackType, InvalidSpinAction, InvalidCardAction, TextRequired}
  {
    match req
    case PostCreate(userId, metadata) => Success(CallCreate(userId, metadata))
    case GetSession(id) => Success(CallGet(id))
    case GetStats(id) => Success(CallStats(id))
    case PostMessage(id, m) => Success(CallMutate(id, AppendMessage(m)))
    case PostFeedback(id, index, feedbackType) =>
      if FeedbackTypeAccepted(feedbackType) then
        Success(CallMutate(id, MarkFeedback(ParseInt(index), FeedbackNamed(feedbackType))))
      else
        Failure(InvalidFeedbackType)
    case PostSpin(id, index, action) =>
      if SpinActionAccepted(action) then
        Success(CallMutate(id, Spin(ParseInt(index), SpinActionNamed(action), now)))
      else
        Failure(InvalidSpinAction)
    case PostCard(id, cardId, cardTitle, cardContent, action, nudgeId) =>
      if CardActionAccepted(action) then
        Success(CallMutate(id, Card(CardData(cardId, cardTitle, cardContent, action.s, nudgeId), now)))
      else
        Failure(InvalidCardAction)
    case PostEnd(id) => Success(CallMutate(id, End(now)))
    case GetRecent(limit) => Success(CallList(ActiveOnly, LimitOrDefault(limit)))
    case GetUserSessions(userId, limit) => Success(CallList(OwnedBy(userId), LimitOrDefault(limit)))
    case PostSnapshot(id, text) =>
      if text.JsString? then Success(CallMutate(id, Snapshot(text.s, now))) else Failure(TextRequired)
  }

  // ---------------------------------------------------------------- answers

  /** What a service call gave back to the handler. */
  datatype Outcome =
    | Rejected(reason: string)
    | Created(session: SessionRecord)
    | Found(found: Option<SessionRecord>)
    | StatsFound(stats: SessionStats)
    | Updated(session: SessionRecord)
    | Listing(sessions: seq<SessionRecord>)
    | Threw(error: Error)

  /** The JSON payload next to `success` and `message`. */
  datatype Payload =
    | NoPayload
    | NewSessionId(sessionId: string)
    | SessionPayload(session: SessionRecord)
    | StatsPayload(stats: SessionStats)
    | SessionsPayload(sessions: seq<SessionRecord>)

  datatype Response = Response(status: nat, success: bool, message: Option<string>, error: Option<string>, payload: Payload)

  /** The `message` of each route's success envelope, if it has one. */
  function SuccessMessage(req: Request): Option<string>
  {
    match req
    case PostCreate(_, _) => Some("Session created successfully")
    case PostMessage(_, _) => Some("Message added to session")
    case PostFeedback(_, _, _) => Some("Feedback updated successfully")
    case PostSpin(_, _, _) => Some("Spin interaction tracked successfully")
    case PostCard(_, _, _, _, _, _) => Some("Card interaction tracked successfully")
    case PostEnd(_) => Some("Session ended successfully")
    case PostSnapshot(_, _) => Some("Scratchpad snapshot added")
    case _ => None
  }

  /** The `message` of each route's `catch` block. */
  function FailureMessage(req: Request): string
  {
    match req
    case PostCreate(_, _) => "Failed to create session"
    case GetSession(_) => "Failed to get session"
    case GetStats(_) => "Failed to get session stats"
    case PostMessage(_, _) => "Failed to add message to session"
    case PostFeedback(_, _, _) => "Failed to update feedback"
    case PostSpin(_, _, _) => "Failed to track spin interaction"
    case PostCard(_, _, _, _, _, _) => "Failed to track card interaction"
    case PostEnd(_) => "Failed to end session"
    case GetRecent(_) => "Failed to get recent sessions"
    case GetUserSessions(_, _) => "Failed to get user sessions"
    case PostSnapshot(_, _) => "Failed to add scratchpad snapshot"
  }

  /** The status and envelope each handler answers with. */
  function Respond(req: Request, outcome: Outcome): (resp: Response)
    ensures resp.success <==> resp.status == 200 || resp.status == 201
    ensures resp.status == 400 <==> outcome.Rejected?
    ensures resp.status == 404 <==> outcome == Found(None)
    ensures resp.status == 500 <==> outcome.Threw?
    ensures resp.status == 201 <==> outcome.Created?
    ensures outcome.Threw? ==> resp.message == Some(FailureMessage(req)) && resp.error == Some(ErrorMessage(outcome.error))
  {
    match outcome
    case Rejected(reason) => Response(400, false, Some(reason), None, NoPayload)
    case Created(r) => Response(201, true, SuccessMessage(req), None, NewSessionId(r.sessionId))
    case Found(None) => Response(404, false, Some("Session not found"), None, NoPayload)
    case Found(Some(r)) => Response(200, true, None, None, SessionPayload(r))
    case StatsFound(st) => Response(200, true, None, None, StatsPayload(st))
    case Updated(r) => Response(200, true, SuccessMessage(req), None, SessionPayload(r))
    case Listing(rs) => Response(200, true, None, None, SessionsPayload(rs))
    case Threw(e) => Response(500, false, Some(FailureMessage(req)), Some(ErrorMessage(e)), NoPayload)
  }

  /** The service call's result and the store after it. Listings are not a
      function of the store (sessions that started at the same time may come
      in any order); `Handle` states them by `Selection`. */
  function Execute(store: Store, call: Call, now: nat, random: seq<Base36Digit>): (res: (Outcome, Store))
    requires !call.CallList?
    ensures call.CallGet? || call.CallStats? ==> res.1 == store
    ensures res.0.Threw? ==> res.1 == store
    ensures call.CallMutate? ==> (res.0 == Threw(SessionNotFound) <==> call.sessionId !in store)
  {
    match call
    case CallCreate(userId, metadata) =>
      var (created, after) := WithNewSession(store, userId, metadata, now, random);
      (if created.Success? then Created(created.value) else Threw(created.error), after)
    case CallGet(id) => (Found(FindSession(store, id)), store)
    case CallStats(id) =>
      var stats := SessionStatsFor(store, id, now);
      (if stats.Success? then StatsFound(stats.value) else Threw(stats.error), store)
    case CallMutate(id, op) =>
      var result := Mutate(store, id, op);
      (if result.Success? then Updated(result.value) else Threw(result.error), Committed(store, id, result))
  }

  /** What `getRecentSessions` / `getUserSessions` promise of their answer. */
  ghost predicate Selection(store: Store, filter: Filter, limit: nat, rs: seq<SessionRecord>)
  {
    && (forall r :: r in rs ==> Stored(store, r) && Matches(r, filter))
    && SortedByStart(rs) && DistinctIds(rs)
    && (limit > 0 ==> |rs| <= limit)
    && (forall id :: id in store && Matches(store[id], filter) && !Listed(rs, id) ==>
          && limit > 0 && |rs| == limit
          && forall i :: 0 <= i < |rs| ==> rs[i].startTime >= store[id].startTime)
  }

  /** One request, start to finish: guards, service call, status selection. */
  method Handle(svc: SessionService, req: Request, now: nat, random: seq<Base36Digit>) returns (resp: Response)
    requires svc.Valid()
    modifies svc
    ensures svc.Valid()
    ensures var g := Gate(req, now);
            if g.Failure? then
              resp == Respond(req, Rejected(g.error)) && svc.sessions == old(svc.sessions)
            else if g.value.CallList? then
              && svc.sessions == old(svc.sessions)
              && resp.payload.SessionsPayload?
              && resp == Respond(req, Listing(resp.payload.sessions))
              && Selection(old(svc.sessions), g.value.filter, g.value.limit, resp.payload.sessions)
            else
              var (outcome, after) := Execute(old(svc.sessions), g.value, now, random);
              resp == Respond(req, outcome) && svc.sessions == after
  {
    var g := Gate(req, now);
    if g.Failure? {
      return Respond(req, Rejected(g.error));
    }
    if g.value.CallList? {
      var rs := SelectSessions(svc.sessions, g.value.filter, g.value.limit);
      resp := Respond(req, Listing(rs));
    } else {
      var outcome := Perform(svc, g.value, now, random);
      resp := Respond(req, outcome);
    }
  }

  /** The service call of a handler that does not list sessions. */
  method Perform(svc: SessionService, call: Call, now: nat, random: seq<Base36Digit>) returns (outcome: Outcome)
    requires !call.CallList?
    modifies svc
    ensures (outcome, svc.sessions) == Execute(old(svc.sessions), call, now, random)
    ensures old(svc.Valid()) ==> svc.Valid()
  {
    match call
    case CallCreate(userId, metadata) =>
      var created := svc.CreateSession(userId, metadata, now, random);
      outcome := if created.Success? then Created(created.value) else Threw(created.error);
    case CallGet(id) =>
      outcome := Found(FindSession(svc.sessions, id));
    case CallStats(id) =>
      var stats := SessionStatsFor(svc.sessions, id, now);
      outcome := if stats.Success? then StatsFound(stats.value) else Threw(stats.error);
    case CallMutate(id, op) =>
      var result := Dispatch(svc, id, op);
      outcome := if result.Success? then Updated(result.value) else Threw(result.error);
  }

  /** The service method each mutation goes to. */
  method Dispatch(svc: SessionService, id: string, op: Mutation) returns (result: Result<SessionRecord, Error>)
    modifies svc
    ensures result == Mutate(old(svc.sessions), id, op)
    ensures svc.sessions == Committed(old(svc.sessions), id, result)
    ensures old(svc.Valid()) ==> svc.Valid()
  {
    match op
    case AppendMessage(m) => result := svc.AddMessage(id, m);
    case MarkFeedback(index, f) => result := svc.UpdateFeedback(id, index, f);
    case Spin(index, action, at) => result := svc.AddSpinInteraction(id, index, action, at);
    case Card(card, at) => result := svc.AddCardInteraction(id, card, at);
    case End(at) => result := svc.EndSession(id, at);
    case Snapshot(text, at) => result := svc.AddScratchpadSnapshot(id, text, at);
  }

  // ---------------------------------------------------------------- properties of the routes

  /** An index that `parseInt` reads as NaN passes the feedback guard, reaches
      the document method and comes back as a 500 "Message index not found";
      the store is unchanged. */
  lemma NonNumericFeedbackIndexFails(store: Store, id: string, index: string, feedbackType: JsValue, now: nat,
                                     random: seq<Base36Digit>)
    requires id in store && FeedbackTypeAccepted(feedbackType)
    requires index == [] ||
             (!IsJsWhitespace(index[0]) && index[0] != '-' && index[0] != '+' && DigitValue(index[0]) >= 10)
    ensures Gate(PostFeedback(id, index, feedbackType), now) ==
            Success(CallMutate(id, MarkFeedback(NaN, FeedbackNamed(feedbackType))))
    ensures var (outcome, after) := Execute(store, CallMutate(id, MarkFeedback(NaN, FeedbackNamed(feedbackType))), now, random);
            var resp := Respond(PostFeedback(id, index, feedbackType), outcome);
            && resp.status == 500 && resp.message == Some("Failed to update feedback")
            && resp.error == Some("Message index not found") && after == store
  {
    ParseIntNonNumeric(index);
    assert SetFeedback(store[id], NaN, FeedbackNamed(feedbackType)) == Failure(MessageIndexNotFound);
  }

  /** The same for the spin route. */
  lemma NonNumericSpinIndexFails(store: Store, id: string, index: string, action: JsValue, now: nat,
                                 random: seq<Base36Digit>)
    requires id in store && SpinActionAccepted(action)
    requires index == [] ||
             (!IsJsWhitespace(index[0]) && index[0] != '-' && index[0] != '+' && DigitValue(index[0]) >= 10)
    ensures Gate(PostSpin(id, index, action), now) == Success(CallMutate(id, Spin(NaN, SpinActionNamed(action), now)))
    ensures var (outcome, after) := Execute(store, CallMutate(id, Spin(NaN, SpinActionNamed(action), now)), now, random);
            var resp := Respond(PostSpin(id, index, action), outcome);
            && resp.status == 500 && resp.message == Some("Failed to track spin interaction")
            && resp.error == Some("Message index not found") && after == store
  {
    ParseIntNonNumeric(index);
    assert RecordSpin(store[id], NaN, SpinActionNamed(action), now) == Failure(MessageIndexNotFound);
  }

  /** The feedback guard passes a decimal index on as that number. */
  lemma DecimalFeedbackGate(id: string, i: nat, feedbackType: JsValue, now: nat)
    requires FeedbackTypeAccepted(feedbackType)
    ensures Gate(PostFeedback(id, DecimalDigits(i), feedbackType), now) ==
            Success(CallMutate(id, MarkFeedback(Int(i), FeedbackNamed(feedbackType))))
  {
    ParseIntDecimal(i, []);
    assert DecimalDigits(i) + [] == DecimalDigits(i);
  }

  /** A decimal index within the log reaches the message it names: the route
      answers 200 with the session `updateFeedback` produced (what that does
      to the record is `SetFeedbackEffect`) and stores it. */
  lemma DecimalIndexReachesMessage(store: Store, id: string, i: nat, feedbackType: JsValue, now: nat,
                                   random: seq<Base36Digit>)
    requires id in store && i < |store[id].messages| && FeedbackTypeAccepted(feedbackType)
    ensures Gate(PostFeedback(id, DecimalDigits(i), feedbackType), now) ==
            Success(CallMutate(id, MarkFeedback(Int(i), FeedbackNamed(feedbackType))))
    ensures var (outcome, after) := Execute(store, CallMutate(id, MarkFeedback(Int(i), FeedbackNamed(feedbackType))), now, random);
            && Respond(PostFeedback(id, DecimalDigits(i), feedbackType), outcome).status == 200
            && outcome == Updated(SetFeedback(store[id], Int(i), FeedbackNamed(feedbackType)).value)
            && after == store[id := outcome.session]
  {
    DecimalFeedbackGate(id, i, feedbackType, now);
    var r := store[id];
    var f := FeedbackNamed(feedbackType);
    var ms := r.messages[i := r.messages[i].(feedback := Some(f))];
    assert SetFeedback(r, Int(i), f) == Success(r.(messages := ms, feedbackStats := FeedbackStatsOf(ms)));
  }

  /** `GET /:sessionId` answers 404 exactly when no session has that id, and
      otherwise returns the stored session. */
  lemma GetSessionNotFoundIff(store: Store, id: string, now: nat, random: seq<Base36Digit>)
    ensures var req := GetSession(id);
            var resp := Respond(req, Execute(store, Gate(req, now).value, now, random).0);
            && (resp.status == 404 <==> id !in store)
            && (id in store ==> resp.status == 200 && resp.payload == SessionPayload(store[id]))
  {
  }

  /** `GET /:sessionId/stats` on an unknown id is a 500, not a 404. */
  lemma UnknownStatsIsServerError(store: Store, id: string, now: nat, random: seq<Base36Digit>)
    requires id !in store
    ensures var req := GetStats(id);
            var resp := Respond(req, Execute(store, Gate(req, now).value, now, random).0);
            && resp.status == 500 && resp.message == Some("Failed to get session stats")
            && resp.error == Some("Session not found")
  {
  }

  /** Every mutating route on an unknown id passes its guards (if any) only to
      answer 500 "Session not found", leaving the store unchanged. */
  lemma UnknownSessionMutationFails(store: Store, req: Request, now: nat, random: seq<Base36Digit>)
    requires Gate(req, now).Success? && Gate(req, now).value.CallMutate?
    requires req.sessionId !in store
    ensures var (outcome, after) := Execute(store, Gate(req, now).value, now, random);
            var resp := Respond(req, outcome);
            && resp.status == 500 && resp.error == Some("Session not found") && after == store
  {
  }

  /** The card route and the schema disagree: an action the route accepts is
      never one the schema knows, so the card is logged and counted in
      `cardStats.total` but in none of the `liked`, `disliked`, `neutral`
      buckets. */
  lemma AcceptedCardNeverBucketed(r: SessionRecord, req: Request, now: int)
    requires req.PostCard? && Gate(req, now).Success?
    ensures !SchemaCardAction(req.action.s)
    ensures var op := Gate(req, now).value.op;
            var after := WithCard(r, op.card, op.at);
            var before := CardStatsOf(r.cardInteractions);
            && after.cardStats.liked == before.liked
            && after.cardStats.disliked == before.disliked
            && after.cardStats.neutral == before.neutral
            && after.cardStats.total == before.total + 1
            && after.cardStats.liked + after.cardStats.disliked + after.cardStats.neutral < after.cardStats.total
  {
    var op := Gate(req, now).value.op;
    var c := CardInteraction(op.card.cardId, op.card.cardTitle, op.card.cardContent, op.card.action, op.at, op.card.nudgeId);
    var cs := r.cardInteractions + [c];
    CountWhereAppend(r.cardInteractions, c, IsLiked);
    CountWhereAppend(r.cardInteractions, c, IsDisliked);
    CountWhereAppend(r.cardInteractions, c, IsNeutral);
    CardBucketsMissOtherActions(cs, |cs| - 1);
  }
}
