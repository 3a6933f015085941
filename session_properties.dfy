/** What the document methods of backend/models/SessionModel.js guarantee,
    stated over the record-level functions of module Sessions. */
module SessionProperties {
  import opened Results
  import opened Scans
  import opened JsNumbers
  import opened Sessions

  // ---------------------------------------------------------------- addMessage

  /** The role enum splits the messages: user + assistant == total. */
  lemma RoleTotals(r: SessionRecord)
    requires MessageRollupsMatch(r)
    ensures r.totalUserMessages + r.totalAssistantMessages == r.totalMessages
  {
    CountComplement(r.messages, IsUserMessage, IsAssistantMessage);
  }

  /** The new message is the last one; earlier messages and the other logs are untouched. */
  lemma WithMessageAppends(r: SessionRecord, m: Message)
    ensures var after := WithMessage(r, m);
            && |after.messages| == |r.messages| + 1
            && after.messages[|r.messages|] == m
            && after.messages[..|r.messages|] == r.messages
            && after.spinInteractions == r.spinInteractions
            && after.cardInteractions == r.cardInteractions
            && after.scratchpadSnapshots == r.scratchpadSnapshots
            && after.feedbackStats == r.feedbackStats
            && after.isActive == r.isActive && after.endTime == r.endTime
  {
  }

  /** Each counter `addMessage` recomputes grows by the new message's own
      contribution: one per matching role or nudge flag, its tokens (a missing
      count adding 0), and its response time when that is truthy. */
  lemma WithMessageCounts(r: SessionRecord, m: Message)
    requires MessageRollupsMatch(r)
    ensures var after := WithMessage(r, m);
            && MessageRollupsMatch(after)
            && after.totalMessages == r.totalMessages + 1
            && after.totalUserMessages == r.totalUserMessages + (if m.role == User then 1 else 0)
            && after.totalAssistantMessages == r.totalAssistantMessages + (if m.role == Assistant then 1 else 0)
            && after.totalNudges == r.totalNudges + (if m.isNudge then 1 else 0)
            && after.totalTokens == r.totalTokens + (if m.tokensUsed.Some? then m.tokensUsed.value else 0)
            && CountWhere(after.messages, HasResponseTime) ==
                 CountWhere(r.messages, HasResponseTime) + (if HasResponseTime(m) then 1 else 0)
            && SumOf(after.messages, ResponseTimeOf) == SumOf(r.messages, ResponseTimeOf) + ResponseTimeOf(m)
  {
    CountWhereAppend(r.messages, m, IsUserMessage);
    CountWhereAppend(r.messages, m, IsAssistantMessage);
    CountWhereAppend(r.messages, m, IsNudgeMessage);
    CountWhereAppend(r.messages, m, HasResponseTime);
    SumOfAppend(r.messages, m, TokensOf);
    SumOfAppend(r.messages, m, ResponseTimeOf);
  }

  /** While no assistant message carries a truthy response time the average is 0;
      afterwards it is the mean over those messages. */
  lemma AverageIsMean(r: SessionRecord)
    requires MessageRollupsMatch(r)
    ensures var n := CountWhere(r.messages, HasResponseTime);
            && (n == 0 ==> r.averageResponseTime == 0.0)
            && (n > 0 ==> r.averageResponseTime * n as real == SumOf(r.messages, ResponseTimeOf) as real)
  {
  }

  /** A message without a truthy assistant response time, including one timed
      at 0 ms, leaves the response-time count, sum and average as they were. */
  lemma UntimedMessageKeepsAverage(r: SessionRecord, m: Message)
    requires MessageRollupsMatch(r)
    requires m.role == User || m.responseTime.None? || m.responseTime == Some(0)
    ensures var after := WithMessage(r, m);
            && CountWhere(after.messages, HasResponseTime) == CountWhere(r.messages, HasResponseTime)
            && SumOf(after.messages, ResponseTimeOf) == SumOf(r.messages, ResponseTimeOf)
            && after.averageResponseTime == r.averageResponseTime
  {
    CountWhereAppend(r.messages, m, HasResponseTime);
    SumOfAppend(r.messages, m, ResponseTimeOf);
  }

  lemma WithMessageKeepsConsistent(r: SessionRecord, m: Message)
    requires Consistent(r)
    ensures Consistent(WithMessage(r, m))
  {
    WithMessageCounts(r, m);
  }

  /** `addMessage` does not recompute `feedbackStats`: from an in-sync record it
      stays in sync exactly when the new message carries no feedback. */
  lemma FeedbackSyncAfterMessage(r: SessionRecord, m: Message)
    requires FeedbackInSync(r)
    ensures FeedbackInSync(WithMessage(r, m)) <==> m.feedback.None?
  {
    CountWhereAppend(r.messages, m, HasFeedback);
    CountWhereAppend(r.messages, m, IsPositive);
    CountWhereAppend(r.messages, m, IsNegative);
  }

  // ---------------------------------------------------------------- updateFeedback

  /** An index that selects no message (NaN, negative, too large) throws and changes nothing. */
  lemma SetFeedbackRejects(r: SessionRecord, index: JsNumber, f: Feedback)
    ensures SetFeedback(r, index, f).Failure? <==> !IndexFound(index, |r.messages|)
    ensures SetFeedback(r, index, f).Failure? ==> SetFeedback(r, index, f).error == MessageIndexNotFound
  {
  }

  /** In sync, positive + negative == total == the number of messages with feedback. */
  lemma FeedbackStatsAddUp(r: SessionRecord)
    requires FeedbackInSync(r)
    ensures r.feedbackStats.positive + r.feedbackStats.negative == r.feedbackStats.total
    ensures r.feedbackStats.total == CountWhere(r.messages, HasFeedback)
  {
    forall i | 0 <= i < |r.messages|
      ensures HasFeedback(r.messages[i]) == (IsPositive(r.messages[i]) || IsNegative(r.messages[i]))
    {
      match r.messages[i].feedback
      case None =>
      case Some(Positive) =>
      case Some(Negative) =>
    }
    CountDisjoint(r.messages, IsPositive, IsNegative, HasFeedback);
  }

  /** A successful update changes only `messages[i].feedback` and `feedbackStats`,
      and leaves `feedbackStats` in sync. */
  lemma SetFeedbackEffect(r: SessionRecord, i: int, f: Feedback)
    requires 0 <= i < |r.messages|
    ensures SetFeedback(r, Int(i), f).Success?
    ensures var after := SetFeedback(r, Int(i), f).value;
            && |after.messages| == |r.messages|
            && after.messages[i] == r.messages[i].(feedback := Some(f))
            && (forall j :: 0 <= j < |r.messages| && j != i ==> after.messages[j] == r.messages[j])
            && after == r.(messages := after.messages, feedbackStats := after.feedbackStats)
            && FeedbackInSync(after)
            && after.feedbackStats.positive + after.feedbackStats.negative == after.feedbackStats.total
  {
    FeedbackStatsAddUp(SetFeedback(r, Int(i), f).value);
  }

  /** Changing a message's feedback leaves every message counter as it was. */
  lemma SetFeedbackKeepsConsistent(r: SessionRecord, index: JsNumber, f: Feedback)
    requires Consistent(r) && SetFeedback(r, index, f).Success?
    ensures Consistent(SetFeedback(r, index, f).value)
  {
    var i := index.value;
    var x := r.messages[i].(feedback := Some(f));
    CountWhereUpdate(r.messages, i, x, IsUserMessage);
    CountWhereUpdate(r.messages, i, x, IsAssistantMessage);
    CountWhereUpdate(r.messages, i, x, IsNudgeMessage);
    CountWhereUpdate(r.messages, i, x, HasResponseTime);
    SumOfUpdate(r.messages, i, x, TokensOf);
    SumOfUpdate(r.messages, i, x, ResponseTimeOf);
  }

  // ---------------------------------------------------------------- addSpinInteraction

  /** A bad index throws; a good one appends one entry that copies the message's
      content and nudge flag, and the spin counters add up. */
  lemma RecordSpinEffect(r: SessionRecord, index: JsNumber, action: SpinAction, now: int)
    ensures RecordSpin(r, index, action, now).Failure? <==> !IndexFound(index, |r.messages|)
    ensures RecordSpin(r, index, action, now).Failure? ==>
              RecordSpin(r, index, action, now).error == MessageIndexNotFound
    ensures RecordSpin(r, index, action, now).Success? ==>
              var after := RecordSpin(r, index, action, now).value;
              var m := r.messages[index.value];
              && after.spinInteractions ==
                   r.spinInteractions + [SpinInteraction(index.value, m.content, m.isNudge, now, action)]
              && after == r.(spinInteractions := after.spinInteractions,
                             totalSpinInteractions := after.totalSpinInteractions,
                             spinStats := after.spinStats)
              && after.totalSpinInteractions == after.spinStats.total
              && after.spinStats.total == after.spinStats.regenerations + after.spinStats.newNudges
  {
    if IndexFound(index, |r.messages|) {
      var after := RecordSpin(r, index, action, now).value;
      CountComplement(after.spinInteractions, IsRegeneration, IsNewNudge);
    }
  }

  // ---------------------------------------------------------------- addCardInteraction

  predicate InCardSchema(c: CardInteraction) { SchemaCardAction(c.action) }
  predicate LikedOrDisliked(c: CardInteraction) { c.action == "like" || c.action == "dislike" }
  predicate OutsideCardSchema(c: CardInteraction) { !SchemaCardAction(c.action) }

  /** The three card buckets together count the cards whose action is in the schema. */
  lemma CardBucketsCountSchemaActions(cs: seq<CardInteraction>)
    ensures var st := CardStatsOf(cs); st.liked + st.disliked + st.neutral == CountWhere(cs, InCardSchema)
  {
    CountDisjoint(cs, IsLiked, IsDisliked, LikedOrDisliked);
    CountDisjoint(cs, LikedOrDisliked, IsNeutral, InCardSchema);
  }

  /** When every action is a schema action, liked + disliked + neutral == total. */
  lemma CardBucketsCoverSchema(cs: seq<CardInteraction>)
    requires forall i :: 0 <= i < |cs| ==> SchemaCardAction(cs[i].action)
    ensures var st := CardStatsOf(cs); st.liked + st.disliked + st.neutral == st.total
  {
    CardBucketsCountSchemaActions(cs);
    CountEvery(cs, InCardSchema);
  }

  /** One card with an action outside the schema leaves the buckets short of the total. */
  lemma CardBucketsMissOtherActions(cs: seq<CardInteraction>, i: int)
    requires 0 <= i < |cs| && !SchemaCardAction(cs[i].action)
    ensures var st := CardStatsOf(cs); st.liked + st.disliked + st.neutral < st.total
  {
    CardBucketsCountSchemaActions(cs);
    CountComplement(cs, InCardSchema, OutsideCardSchema);
    CountSome(cs, i, OutsideCardSchema);
  }

  /** `addCardInteraction` appends exactly one entry, whatever the action, and
      the card total equals the log length. */
  lemma WithCardEffect(r: SessionRecord, card: CardData, now: int)
    ensures var after := WithCard(r, card, now);
            && after.cardInteractions == r.cardInteractions +
                 [CardInteraction(card.cardId, card.cardTitle, card.cardContent, card.action, now, card.nudgeId)]
            && after.totalCardInteractions == after.cardStats.total == |after.cardInteractions|
            && after == r.(cardInteractions := after.cardInteractions,
                           totalCardInteractions := after.totalCardInteractions,
                           cardStats := after.cardStats)
  {
  }

  // ---------------------------------------------------------------- addScratchpadSnapshot

  /** A snapshot is appended exactly when the log is empty or its last text differs. */
  lemma WithSnapshotAppendsWhenNew(r: SessionRecord, text: string, now: int)
    ensures var after := WithSnapshot(r, text, now).scratchpadSnapshots;
            && (SnapshotIsNew(r.scratchpadSnapshots, text) ==>
                  after == r.scratchpadSnapshots + [ScratchpadSnapshot(text, now)])
            && (!SnapshotIsNew(r.scratchpadSnapshots, text) ==> WithSnapshot(r, text, now) == r)
  {
  }

  /** The de-duplication rule keeps consecutive snapshots distinct. */
  lemma WithSnapshotKeepsNoRepeat(r: SessionRecord, text: string, now: int)
    requires NoRepeatedSnapshot(r.scratchpadSnapshots)
    ensures NoRepeatedSnapshot(WithSnapshot(r, text, now).scratchpadSnapshots)
  {
    var ss := r.scratchpadSnapshots;
    if SnapshotIsNew(ss, text) {
      var after := ss + [ScratchpadSnapshot(text, now)];
      forall i | 0 < i < |after| ensures after[i - 1].text != after[i].text {
        if i < |ss| {
          assert after[i - 1] == ss[i - 1] && after[i] == ss[i];
        }
      }
    }
  }

  /** Saving the same text twice stores one snapshot. */
  lemma WithSnapshotIdempotent(r: SessionRecord, text: string, t1: int, t2: int)
    ensures WithSnapshot(WithSnapshot(r, text, t1), text, t2) == WithSnapshot(r, text, t1)
  {
  }

  // ---------------------------------------------------------------- endSession and duration

  /** Ending sets `isActive` false and `endTime`; the duration is then fixed. */
  lemma EndedEffect(r: SessionRecord, now: int, later: int)
    ensures !Ended(r, now).isActive && Ended(r, now).endTime == Some(now)
    ensures Duration(Ended(r, now), later) == now - r.startTime
    ensures Ended(r, now) == r.(endTime := Some(now), isActive := false)
  {
  }

  /** There is no guard: ending again moves `endTime` to the second call's time. */
  lemma EndedTwice(r: SessionRecord, t1: int, t2: int)
    ensures Ended(Ended(r, t1), t2) == Ended(r, t2)
    ensures Ended(Ended(r, t1), t2).endTime == Some(t2)
  {
  }

  /** Before the session ends the duration runs with the clock. */
  lemma DurationWhileOpen(r: SessionRecord, now: int)
    requires r.endTime.None?
    ensures Duration(r, now) == now - r.startTime
  {
  }

  // ---------------------------------------------------------------- all methods

  /** No method looks at `isActive`: an ended session accepts the same calls
      with the same effect. Every method but `endSession` commutes with ending
      the session, and ending it again gives what ending it once at the later
      time gives. */
  lemma MutationIgnoresIsActive(r: SessionRecord, op: Mutation, t: int)
    ensures Apply(Ended(r, t), op).Success? == Apply(r, op).Success?
    ensures Apply(r, op).Success? ==>
              var a := Apply(r, op).value;
              var b := Apply(Ended(r, t), op).value;
              && a.messages == b.messages && a.spinInteractions == b.spinInteractions
              && a.cardInteractions == b.cardInteractions && a.scratchpadSnapshots == b.scratchpadSnapshots
    ensures !op.End? && Apply(r, op).Success? ==> Apply(Ended(r, t), op).value == Ended(Apply(r, op).value, t)
    ensures op.End? ==> Apply(Ended(r, t), op) == Apply(r, op)
  {
  }

  /** Every method keeps a consistent record consistent and keeps its id. */
  lemma ApplyKeepsConsistent(r: SessionRecord, op: Mutation)
    requires Consistent(r) && Apply(r, op).Success?
    ensures Consistent(Apply(r, op).value)
    ensures Apply(r, op).value.sessionId == r.sessionId
    ensures Apply(r, op).value.startTime == r.startTime
  {
    match op
    case AppendMessage(m) => WithMessageKeepsConsistent(r, m);
    case MarkFeedback(i, f) => SetFeedbackKeepsConsistent(r, i, f);
    case Spin(i, a, t) =>
      var after := RecordSpin(r, i, a, t).value;
      CountWhereAppend(r.spinInteractions, after.spinInteractions[|r.spinInteractions|], IsRegeneration);
    case Card(c, t) =>
    case End(t) =>
    case Snapshot(text, t) => WithSnapshotKeepsNoRepeat(r, text, t);
  }

  /** A freshly created session is consistent and has its feedback stats in sync. */
  lemma NewSessionConsistent(id: string, userId: Option<string>, metadata: Metadata, now: int)
    ensures Consistent(NewSession(id, userId, metadata, now))
    ensures FeedbackInSync(NewSession(id, userId, metadata, now))
    ensures NewSession(id, userId, metadata, now).isActive
  {
  }

  // ---------------------------------------------------------------- session ids

  function FirstIndexOf(s: string, c: char): (k: nat)
    ensures k <= |s|
    ensures forall j :: 0 <= j < k ==> s[j] != c
    ensures k < |s| ==> s[k] == c
  {
    if s == [] || s[0] == c then 0 else 1 + FirstIndexOf(s[1..], c)
  }

  /** Reads `session_<digits>_<suffix>` back into the clock reading and the suffix. */
  function SplitSessionId(id: string): Option<(nat, string)>
  {
    if |id| < 8 || id[..8] != "session_" then None
    else
      var rest := id[8..];
      var k := FirstIndexOf(rest, '_');
      if k == |rest| then None else Some((DigitsValue(rest[..k], 10), rest[k + 1..]))
  }

  lemma FirstIndexAfterDigits(d: string, tail: string)
    requires forall i :: 0 <= i < |d| ==> '0' <= d[i] <= '9'
    ensures FirstIndexOf(d + "_" + tail, '_') == |d|
  {
    var s := d + "_" + tail;
    assert s[|d|] == '_';
    assert forall j :: 0 <= j < |d| ==> s[j] == d[j];
  }

  /** The id format is unambiguous: it splits back into its parts. */
  lemma SessionIdRoundTrip(now: nat, random: seq<Base36Digit>)
    ensures SplitSessionId(SessionIdFor(now, random)) == Some((now, RandomSuffix(random)))
  {
    var d := DecimalDigits(now);
    var tail := RandomSuffix(random);
    var id := SessionIdFor(now, random);
    assert id == "session_" + (d + "_" + tail);
    assert id[..8] == "session_";
    assert id[8..] == d + "_" + tail;
    FirstIndexAfterDigits(d, tail);
    assert (d + "_" + tail)[..|d|] == d;
    assert (d + "_" + tail)[|d| + 1..] == tail;
    DecimalDigitsValue(now);
  }

  /** Two ids are equal only when the clock readings and the random suffixes are. */
  lemma SessionIdInjective(n1: nat, r1: seq<Base36Digit>, n2: nat, r2: seq<Base36Digit>)
    requires SessionIdFor(n1, r1) == SessionIdFor(n2, r2)
    ensures n1 == n2 && RandomSuffix(r1) == RandomSuffix(r2)
  {
    SessionIdRoundTrip(n1, r1);
    SessionIdRoundTrip(n2, r2);
  }

  // ---------------------------------------------------------------- a worked session

  /** Create, a user "hi", an assistant "hello" answered in 120 ms: two messages,
      one per role, average response time 120. */
  lemma TwoMessageSession(id: string, metadata: Metadata, t0: int, t1: int, t2: int)
    ensures var s0 := NewSession(id, None, metadata, t0);
            var s1 := WithMessage(s0, Message(User, "hi", t1, false, None, None, None, Some(0), "gpt-3.5-turbo"));
            var s2 := WithMessage(s1, Message(Assistant, "hello", t2, false, None, None, Some(120), Some(0), "gpt-3.5-turbo"));
            && s2.totalMessages == 2 && s2.totalUserMessages == 1 && s2.totalAssistantMessages == 1
            && s2.averageResponseTime == 120.0
  {
    var m1 := Message(User, "hi", t1, false, None, None, None, Some(0), "gpt-3.5-turbo");
    var m2 := Message(Assistant, "hello", t2, false, None, None, Some(120), Some(0), "gpt-3.5-turbo");
    var s1 := WithMessage(NewSession(id, None, metadata, t0), m1);
    assert s1.messages == [m1];
    TwoMessageLog(m1, m2);
    assert WithMessage(s1, m2).messages == [m1, m2];
  }

  /** The scans over the log of that worked session. */
  lemma TwoMessageLog(m1: Message, m2: Message)
    requires m1.role == User && m2.role == Assistant && m2.responseTime == Some(120)
    ensures CountWhere([m1, m2], IsUserMessage) == 1 && CountWhere([m1, m2], IsAssistantMessage) == 1
    ensures CountWhere([m1, m2], HasResponseTime) == 1 && SumOf([m1, m2], ResponseTimeOf) == 120
  {
    CountWhereOfPair(m1, m2, IsUserMessage);
    CountWhereOfPair(m1, m2, IsAssistantMessage);
    CountWhereOfPair(m1, m2, HasResponseTime);
    SumOfPair(m1, m2, ResponseTimeOf);
  }
}
