/** The session record of backend/models/SessionModel.js: the four append-only
    logs (messages, spin interactions, card interactions, scratchpad snapshots),
    the rollup counters recomputed from them, and the document methods that
    change a record in place.

    The pure functions `WithMessage`, `SetFeedback`, `RecordSpin`, `WithCard`,
    `Ended` and `WithSnapshot` state what each document method does to the whole
    record; the class `SessionDocument` is the in-place form the methods take in
    the source: each of its methods may change only the fields its `modifies`
    clause names, and is proved to give them the values the record function
    computes. */
module Sessions {
  import opened Results
  import opened Scans
  import opened JsNumbers

  // ---------------------------------------------------------------- enums

  datatype Role = User | Assistant
  datatype Feedback = Positive | Negative
  datatype SpinAction = Regenerate | NewNudge

  /** The card action tags of the schema. The action itself is kept as the
      string the caller sent, because the route admits other tags. */
  predicate SchemaCardAction(action: string)
  {
    action == "like" || action == "dislike" || action == "neutral"
  }

  // ---------------------------------------------------------------- entities

  /** One chat message. Times are integer milliseconds; an absent optional
      field is `None`. */
  datatype Message = Message(
    role: Role,
    content: string,
    timestamp: int,
    isNudge: bool,
    nudgeId: Option<string>,
    feedback: Option<Feedback>,
    responseTime: Option<int>,
    tokensUsed: Option<int>,
    model: string)

  /** A regenerate / new-nudge action, with a copy of the message it was about. */
  datatype SpinInteraction = SpinInteraction(
    messageIndex: int,
    messageContent: string,
    isNudge: bool,
    timestamp: int,
    action: SpinAction)

  /** What a caller passes to `addCardInteraction`. */
  datatype CardData = CardData(
    cardId: string,
    cardTitle: string,
    cardContent: string,
    action: string,
    nudgeId: Option<string>)

  datatype CardInteraction = CardInteraction(
    cardId: string,
    cardTitle: string,
    cardContent: string,
    action: string,
    timestamp: int,
    nudgeId: Option<string>)

  datatype ScratchpadSnapshot = ScratchpadSnapshot(text: string, timestamp: int)

  datatype Metadata = Metadata(userAgent: Option<string>, ipAddress: Option<string>, deviceType: Option<string>)

  datatype FeedbackStats = FeedbackStats(positive: int, negative: int, total: int)
  datatype SpinStats = SpinStats(regenerations: int, newNudges: int, total: int)
  datatype CardStats = CardStats(liked: int, disliked: int, neutral: int, total: int)

  /** A stored session document. `averageResponseTime` is an exact rational
      mean where the source has a floating-point division. */
  datatype SessionRecord = SessionRecord(
    sessionId: string,
    userId: Option<string>,
    startTime: int,
    endTime: Option<int>,
    messages: seq<Message>,
    spinInteractions: seq<SpinInteraction>,
    cardInteractions: seq<CardInteraction>,
    totalMessages: int,
    totalUserMessages: int,
    totalAssistantMessages: int,
    totalNudges: int,
    totalTokens: int,
    totalSpinInteractions: int,
    totalCardInteractions: int,
    averageResponseTime: real,
    feedbackStats: FeedbackStats,
    spinStats: SpinStats,
    cardStats: CardStats,
    isActive: bool,
    metadata: Metadata,
    scratchpadSnapshots: seq<ScratchpadSnapshot>)

  /** The errors the model and the service throw. */
  datatype Error = SessionNotFound | MessageIndexNotFound | DuplicateSessionId

  /** The `message` of each error. The duplicate-key text stands in for the
      driver's own message, which also names the collection and the key. */
  function ErrorMessage(e: Error): string
  {
    match e
    case SessionNotFound => "Session not found"
    case MessageIndexNotFound => "Message index not found"
    case DuplicateSessionId => "E11000 duplicate key error: sessionId"
  }

  // ---------------------------------------------------------------- what each rollup counts

  predicate IsUserMessage(m: Message) { m.role == User }
  predicate IsAssistantMessage(m: Message) { m.role == Assistant }
  predicate IsNudgeMessage(m: Message) { m.isNudge }

  /** `m.tokensUsed || 0`. */
  function TokensOf(m: Message): int
  {
    match m.tokensUsed
    case Some(t) => t
    case None => 0
  }

  /** `m.role === 'assistant' && m.responseTime`: a response time of 0 is falsy. */
  predicate HasResponseTime(m: Message)
  {
    m.role == Assistant && m.responseTime.Some? && m.responseTime.value != 0
  }

  function ResponseTimeOf(m: Message): int
  {
    if HasResponseTime(m) then m.responseTime.value else 0
  }

  predicate HasFeedback(m: Message) { m.feedback.Some? }
  predicate IsPositive(m: Message) { m.feedback == Some(Positive) }
  predicate IsNegative(m: Message) { m.feedback == Some(Negative) }

  predicate IsRegeneration(s: SpinInteraction) { s.action == Regenerate }
  predicate IsNewNudge(s: SpinInteraction) { s.action == NewNudge }

  predicate IsLiked(c: CardInteraction) { c.action == "like" }
  predicate IsDisliked(c: CardInteraction) { c.action == "dislike" }
  predicate IsNeutral(c: CardInteraction) { c.action == "neutral" }

  // ---------------------------------------------------------------- rollups as scans of the logs

  /** The mean response time over the messages that carry one, or `previous`
      when there are none (the source then leaves the field untouched). */
  function AverageResponseTime(ms: seq<Message>, previous: real): real
  {
    var n := CountWhere(ms, HasResponseTime);
    if n > 0 then SumOf(ms, ResponseTimeOf) as real / n as real else previous
  }

  function FeedbackStatsOf(ms: seq<Message>): FeedbackStats
  {
    FeedbackStats(CountWhere(ms, IsPositive), CountWhere(ms, IsNegative), CountWhere(ms, HasFeedback))
  }

  function SpinStatsOf(ss: seq<SpinInteraction>): SpinStats
  {
    SpinStats(CountWhere(ss, IsRegeneration), CountWhere(ss, IsNewNudge), |ss|)
  }

  function CardStatsOf(cs: seq<CardInteraction>): CardStats
  {
    CardStats(CountWhere(cs, IsLiked), CountWhere(cs, IsDisliked), CountWhere(cs, IsNeutral), |cs|)
  }

  /** No two consecutive snapshots have the same text. */
  predicate NoRepeatedSnapshot(ss: seq<ScratchpadSnapshot>)
  {
    forall i :: 0 < i < |ss| ==> ss[i - 1].text != ss[i].text
  }

  /** Every counter recomputed by `addMessage` equals the scan of the message log. */
  ghost predicate MessageRollupsMatch(r: SessionRecord)
  {
    var ms := r.messages;
    && r.totalMessages == |ms|
    && r.totalUserMessages == CountWhere(ms, IsUserMessage)
    && r.totalAssistantMessages == CountWhere(ms, IsAssistantMessage)
    && r.totalNudges == CountWhere(ms, IsNudgeMessage)
    && r.totalTokens == SumOf(ms, TokensOf)
    && r.averageResponseTime == AverageResponseTime(ms, 0.0)
  }

  /** `feedbackStats` equals the scan of the message log. This is not kept by
      every method: `addMessage` does not recompute it. */
  ghost predicate FeedbackInSync(r: SessionRecord)
  {
    r.feedbackStats == FeedbackStatsOf(r.messages)
  }

  /** What holds of every session the source can store. */
  ghost predicate Consistent(r: SessionRecord)
  {
    && MessageRollupsMatch(r)
    && r.totalSpinInteractions == |r.spinInteractions|
    && r.spinStats == SpinStatsOf(r.spinInteractions)
    && r.totalCardInteractions == |r.cardInteractions|
    && r.cardStats == CardStatsOf(r.cardInteractions)
    && NoRepeatedSnapshot(r.scratchpadSnapshots)
    && (r.isActive <==> r.endTime.None?)
  }

  // ---------------------------------------------------------------- the record-level effect of each method

  /** `this.messages[messageIndex]` is truthy. */
  predicate IndexFound(index: JsNumber, length: nat)
  {
    index.Int? && 0 <= index.value < length
  }

  /** `addMessage`: push, then recompute the message counters. */
  function WithMessage(r: SessionRecord, m: Message): SessionRecord
  {
    var ms := r.messages + [m];
    r.(messages := ms,
       totalMessages := |ms|,
       totalUserMessages := CountWhere(ms, IsUserMessage),
       totalAssistantMessages := CountWhere(ms, IsAssistantMessage),
       totalNudges := CountWhere(ms, IsNudgeMessage),
       totalTokens := SumOf(ms, TokensOf),
       averageResponseTime := AverageResponseTime(ms, r.averageResponseTime))
  }

  /** `updateFeedback`: set one message's feedback, then recompute `feedbackStats`. */
  function SetFeedback(r: SessionRecord, index: JsNumber, f: Feedback): Result<SessionRecord, Error>
  {
    if IndexFound(index, |r.messages|) then
      var i := index.value;
      var ms := r.messages[i := r.messages[i].(feedback := Some(f))];
      Success(r.(messages := ms, feedbackStats := FeedbackStatsOf(ms)))
    else
      Failure(MessageIndexNotFound)
  }

  /** `addSpinInteraction`: log the action with a copy of the message, then
      recompute the spin counters. */
  function RecordSpin(r: SessionRecord, index: JsNumber, action: SpinAction, now: int): Result<SessionRecord, Error>
  {
    if IndexFound(index, |r.messages|) then
      var m := r.messages[index.value];
      var ss := r.spinInteractions + [SpinInteraction(index.value, m.content, m.isNudge, now, action)];
      Success(r.(spinInteractions := ss, totalSpinInteractions := |ss|, spinStats := SpinStatsOf(ss)))
    else
      Failure(MessageIndexNotFound)
  }

  /** `addCardInteraction`: log the card, whatever its action, then recompute the card counters. */
  function WithCard(r: SessionRecord, card: CardData, now: int): SessionRecord
  {
    var cs := r.cardInteractions +
      [CardInteraction(card.cardId, card.cardTitle, card.cardContent, card.action, now, card.nudgeId)];
    r.(cardInteractions := cs, totalCardInteractions := |cs|, cardStats := CardStatsOf(cs))
  }

  /** `endSession`: unguarded, so a second call moves `endTime`. */
  function Ended(r: SessionRecord, now: int): SessionRecord
  {
    r.(endTime := Some(now), isActive := false)
  }

  predicate SnapshotIsNew(ss: seq<ScratchpadSnapshot>, text: string)
  {
    ss == [] || ss[|ss| - 1].text != text
  }

  /** `addScratchpadSnapshot`: append unless the text equals the last snapshot's. */
  function WithSnapshot(r: SessionRecord, text: string, now: int): SessionRecord
  {
    if SnapshotIsNew(r.scratchpadSnapshots, text) then
      r.(scratchpadSnapshots := r.scratchpadSnapshots + [ScratchpadSnapshot(text, now)])
    else
      r
  }

  /** The `duration` virtual: `(endTime || now) - startTime`. */
  function Duration(r: SessionRecord, now: int): int
  {
    (match r.endTime case Some(e) => e case None => now) - r.startTime
  }

  /** One call of a document method, with the clock reading it uses. */
  datatype Mutation =
    | AppendMessage(message: Message)
    | MarkFeedback(index: JsNumber, feedback: Feedback)
    | Spin(index: JsNumber, action: SpinAction, at: int)
    | Card(card: CardData, at: int)
    | End(at: int)
    | Snapshot(text: string, at: int)

  function Apply(r: SessionRecord, op: Mutation): Result<SessionRecord, Error>
  {
    match op
    case AppendMessage(m) => Success(WithMessage(r, m))
    case MarkFeedback(i, f) => SetFeedback(r, i, f)
    case Spin(i, a, t) => RecordSpin(r, i, a, t)
    case Card(c, t) => Success(WithCard(r, c, t))
    case End(t) => Success(Ended(r, t))
    case Snapshot(text, t) => Success(WithSnapshot(r, text, t))
  }

  // ---------------------------------------------------------------- createSession

  /** One base-36 digit of `Math.random().toString(36)` after the leading "0.". */
  type Base36Digit = d: int | 0 <= d < 36

  function Base36Char(d: Base36Digit): char
  {
    if d < 10 then ('0' as int + d) as char else ('a' as int + d - 10) as char
  }

  function Base36Chars(ds: seq<Base36Digit>): (s: string)
    ensures |s| == |ds|
  {
    if ds == [] then [] else [Base36Char(ds[0])] + Base36Chars(ds[1..])
  }

  /** `.substr(2, 9)` of `Math.random().toString(36)`: at most nine digits. */
  function RandomSuffix(random: seq<Base36Digit>): string
  {
    Base36Chars(if |random| <= 9 then random else random[..9])
  }

  /** `session_${Date.now()}_${suffix}`. */
  function SessionIdFor(now: nat, random: seq<Base36Digit>): string
  {
    "session_" + DecimalDigits(now) + "_" + RandomSuffix(random)
  }

  /** The document `createSession` stores, with the schema defaults. */
  function NewSession(sessionId: string, userId: Option<string>, metadata: Metadata, now: int): SessionRecord
  {
    SessionRecord(sessionId, userId, now, None, [], [], [],
                  0, 0, 0, 0, 0, 0, 0, 0.0,
                  FeedbackStats(0, 0, 0), SpinStats(0, 0, 0), CardStats(0, 0, 0, 0),
                  true, metadata, [])
  }

  // ---------------------------------------------------------------- the document, updated in place

  /** A session document loaded from the store. Its methods change its fields
      in place, as the schema methods change `this`. */
  class SessionDocument {
    var sessionId: string
    var userId: Option<string>
    var startTime: int
    var endTime: Option<int>
    var messages: seq<Message>
    var spinInteractions: seq<SpinInteraction>
    var cardInteractions: seq<CardInteraction>
    var totalMessages: int
    var totalUserMessages: int
    var totalAssistantMessages: int
    var totalNudges: int
    var totalTokens: int
    var totalSpinInteractions: int
    var totalCardInteractions: int
    var averageResponseTime: real
    var feedbackStats: FeedbackStats
    var spinStats: SpinStats
    var cardStats: CardStats
    var isActive: bool
    var metadata: Metadata
    var scratchpadSnapshots: seq<ScratchpadSnapshot>

    /** The document as it is written back by `save()`. */
    function ToRecord(): SessionRecord
      reads this
    {
      SessionRecord(sessionId, userId, startTime, endTime, messages, spinInteractions, cardInteractions,
                    totalMessages, totalUserMessages, totalAssistantMessages, totalNudges, totalTokens,
                    totalSpinInteractions, totalCardInteractions, averageResponseTime,
                    feedbackStats, spinStats, cardStats, isActive, metadata, scratchpadSnapshots)
    }

    /** Hydrates a stored record. */
    constructor Load(r: SessionRecord)
      ensures ToRecord() == r
    {
      sessionId, userId, startTime, endTime := r.sessionId, r.userId, r.startTime, r.endTime;
      messages, spinInteractions, cardInteractions := r.messages, r.spinInteractions, r.cardInteractions;
      totalMessages, totalUserMessages, totalAssistantMessages := r.totalMessages, r.totalUserMessages, r.totalAssistantMessages;
      totalNudges, totalTokens := r.totalNudges, r.totalTokens;
      totalSpinInteractions, totalCardInteractions := r.totalSpinInteractions, r.totalCardInteractions;
      averageResponseTime := r.averageResponseTime;
      feedbackStats, spinStats, cardStats := r.feedbackStats, r.spinStats, r.cardStats;
      isActive, metadata, scratchpadSnapshots := r.isActive, r.metadata, r.scratchpadSnapshots;
    }

    /** Pushes the message and recomputes the message counters; every other
        field keeps its value. */
    method AddMessage(m: Message)
      modifies this`messages, this`totalMessages, this`totalUserMessages, this`totalAssistantMessages,
               this`totalNudges, this`totalTokens, this`averageResponseTime
      ensures var after := WithMessage(old(ToRecord()), m);
              && messages == after.messages && totalMessages == after.totalMessages
              && totalUserMessages == after.totalUserMessages
              && totalAssistantMessages == after.totalAssistantMessages
              && totalNudges == after.totalNudges && totalTokens == after.totalTokens
              && averageResponseTime == after.averageResponseTime
    {
      var ms := messages + [m];
      messages := ms;
      totalMessages := |ms|;
      totalUserMessages := CountWhere(ms, IsUserMessage);
      totalAssistantMessages := CountWhere(ms, IsAssistantMessage);
      totalNudges := CountWhere(ms, IsNudgeMessage);
      totalTokens := SumOf(ms, TokensOf);
      averageResponseTime := AverageResponseTime(ms, averageResponseTime);
    }

    /** Throws `MessageIndexNotFound`, changing nothing, when the index selects no message. */
    method UpdateFeedback(index: JsNumber, f: Feedback) returns (thrown: Option<Error>)
      modifies this`messages, this`feedbackStats
      ensures var outcome := SetFeedback(old(ToRecord()), index, f);
              var after := if outcome.Success? then outcome.value else old(ToRecord());
              && thrown == (if outcome.Success? then None else Some(outcome.error))
              && messages == after.messages && feedbackStats == after.feedbackStats
    {
      if IndexFound(index, |messages|) {
        var i := index.value;
        var ms := messages[i := messages[i].(feedback := Some(f))];
        messages := ms;
        feedbackStats := feedbackStats.(total := CountWhere(ms, HasFeedback));
        feedbackStats := feedbackStats.(positive := CountWhere(ms, IsPositive));
        feedbackStats := feedbackStats.(negative := CountWhere(ms, IsNegative));
        thrown := None;
      } else {
        thrown := Some(MessageIndexNotFound);
      }
    }

    /** Throws `MessageIndexNotFound`, changing nothing, when the index selects no message. */
    method AddSpinInteraction(index: JsNumber, action: SpinAction, now: int) returns (thrown: Option<Error>)
      modifies this`spinInteractions, this`totalSpinInteractions, this`spinStats
      ensures var outcome := RecordSpin(old(ToRecord()), index, action, now);
              var after := if outcome.Success? then outcome.value else old(ToRecord());
              && thrown == (if outcome.Success? then None else Some(outcome.error))
              && spinInteractions == after.spinInteractions
              && totalSpinInteractions == after.totalSpinInteractions && spinStats == after.spinStats
    {
      if IndexFound(index, |messages|) {
        var message := messages[index.value];
        var entry := SpinInteraction(index.value, message.content, message.isNudge, now, action);
        var ss := spinInteractions + [entry];
        spinInteractions := ss;
        totalSpinInteractions := |ss|;
        spinStats := spinStats.(total := |ss|);
        spinStats := spinStats.(regenerations := CountWhere(ss, IsRegeneration));
        spinStats := spinStats.(newNudges := CountWhere(ss, IsNewNudge));
        thrown := None;
      } else {
        thrown := Some(MessageIndexNotFound);
      }
    }

    method AddCardInteraction(card: CardData, now: int)
      modifies this`cardInteractions, this`totalCardInteractions, this`cardStats
      ensures var after := WithCard(old(ToRecord()), card, now);
              && cardInteractions == after.cardInteractions
              && totalCardInteractions == after.totalCardInteractions && cardStats == after.cardStats
    {
      var entry := CardInteraction(card.cardId, card.cardTitle, card.cardContent, card.action, now, card.nudgeId);
      var cs := cardInteractions + [entry];
      cardInteractions := cs;
      totalCardInteractions := |cs|;
      cardStats := cardStats.(total := |cs|);
      cardStats := cardStats.(liked := CountWhere(cs, IsLiked));
      cardStats := cardStats.(disliked := CountWhere(cs, IsDisliked));
      cardStats := cardStats.(neutral := CountWhere(cs, IsNeutral));
    }

    method EndSession(now: int)
      modifies this`endTime, this`isActive
      ensures var after := Ended(old(ToRecord()), now);
              endTime == after.endTime && isActive == after.isActive
    {
      endTime := Some(now);
      isActive := false;
    }

    method AddScratchpadSnapshot(text: string, now: int)
      modifies this`scratchpadSnapshots
      ensures scratchpadSnapshots == WithSnapshot(old(ToRecord()), text, now).scratchpadSnapshots
    {
      if |scratchpadSnapshots| == 0 || scratchpadSnapshots[|scratchpadSnapshots| - 1].text != text {
        scratchpadSnapshots := scratchpadSnapshots + [ScratchpadSnapshot(text, now)];
      }
    }
  }
}
