/** backend/services/sessionService.js: a keyed store of session records, the
    read-only queries over it, and the mutate-by-id methods that load one
    document, call its method and save it back.

    The store is a map from `sessionId` to the stored record. Every operation
    is atomic; the clock and the random source are parameters. */
module Service {
  import opened Results
  import opened JsNumbers
  import opened Scans
  import opened Sessions
  import opened SessionProperties

  type Store = map<string, SessionRecord>

  /** Every record is stored under its own id (the unique `sessionId` index). */
  ghost predicate KeysMatchIds(store: Store)
  {
    forall id :: id in store ==> store[id].sessionId == id
  }

  /** What holds of every store the service can build. */
  ghost predicate ValidStore(store: Store)
  {
    KeysMatchIds(store) && forall id :: id in store ==> Consistent(store[id])
  }

  // ---------------------------------------------------------------- createSession

  /** `createSession`: a fresh record under `session_<now>_<random>`; the unique
      index rejects an id already in use. */
  function WithNewSession(store: Store, userId: Option<string>, metadata: Metadata, now: nat, random: seq<Base36Digit>)
    : (outcome: (Result<SessionRecord, Error>, Store))
    ensures var id := SessionIdFor(now, random);
            if id in store then outcome == (Failure(DuplicateSessionId), store)
            else && outcome.0 == Success(NewSession(id, userId, metadata, now))
                 && outcome.0.value.sessionId == id && outcome.0.value.startTime == now
                 && outcome.0.value.isActive && outcome.0.value.messages == []
                 && outcome.1 == store[id := outcome.0.value]
  {
    var id := SessionIdFor(now, random);
    if id in store then (Failure(DuplicateSessionId), store)
    else
      var r := NewSession(id, userId, metadata, now);
      (Success(r), store[id := r])
  }

  lemma NewSessionKeepsValid(store: Store, userId: Option<string>, metadata: Metadata, now: nat, random: seq<Base36Digit>)
    requires ValidStore(store)
    ensures ValidStore(WithNewSession(store, userId, metadata, now, random).1)
  {
    NewSessionConsistent(SessionIdFor(now, random), userId, metadata, now);
  }

  /** Two creations at different clock readings never collide. */
  lemma CreationsAtDifferentTimesDiffer(n1: nat, r1: seq<Base36Digit>, n2: nat, r2: seq<Base36Digit>)
    requires n1 != n2
    ensures SessionIdFor(n1, r1) != SessionIdFor(n2, r2)
  {
    if SessionIdFor(n1, r1) == SessionIdFor(n2, r2) {
      SessionIdInjective(n1, r1, n2, r2);
    }
  }

  // ---------------------------------------------------------------- getSession and getSessionStats

  /** `getSession`: `findOne` yields null, not an error, for an unknown id. */
  function FindSession(store: Store, id: string): (found: Option<SessionRecord>)
    ensures found.None? <==> id !in store
    ensures found.Some? ==> found.value == store[id]
  {
    if id in store then Some(store[id]) else None
  }

  /** The object `getSessionStats` returns. */
  datatype SessionStats = SessionStats(
    sessionId: string,
    startTime: int,
    endTime: Option<int>,
    duration: int,
    totalMessages: int,
    totalUserMessages: int,
    totalAssistantMessages: int,
    totalNudges: int,
    totalTokens: int,
    averageResponseTime: real,
    feedbackStats: FeedbackStats,
    isActive: bool)

  /** The projection `getSessionStats` builds from a stored record: its own
      fields, with the `duration` virtual evaluated at `now`. */
  function StatsOf(r: SessionRecord, now: int): (s: SessionStats)
    ensures s.sessionId == r.sessionId && s.startTime == r.startTime && s.endTime == r.endTime
    ensures s.duration == Duration(r, now)
    ensures s.totalMessages == r.totalMessages && s.totalUserMessages == r.totalUserMessages
    ensures s.totalAssistantMessages == r.totalAssistantMessages && s.totalNudges == r.totalNudges
    ensures s.totalTokens == r.totalTokens && s.averageResponseTime == r.averageResponseTime
    ensures s.feedbackStats == r.feedbackStats && s.isActive == r.isActive
  {
    SessionStats(r.sessionId, r.startTime, r.endTime, Duration(r, now),
                 r.totalMessages, r.totalUserMessages, r.totalAssistantMessages, r.totalNudges,
                 r.totalTokens, r.averageResponseTime, r.feedbackStats, r.isActive)
  }

  /** `getSessionStats`: throws "Session not found" for an unknown id, otherwise
      projects the stored counters. */
  function SessionStatsFor(store: Store, id: string, now: int): (stats: Result<SessionStats, Error>)
    ensures stats.Failure? <==> id !in store
    ensures stats.Failure? ==> stats.error == SessionNotFound
    ensures stats.Success? ==> stats.value == StatsOf(store[id], now)
  {
    if id in store then Success(StatsOf(store[id], now)) else Failure(SessionNotFound)
  }

  /** On a valid store the projected counters describe the session's own log. */
  lemma StatsDescribeLog(store: Store, id: string, now: int)
    requires ValidStore(store) && id in store
    ensures var s := SessionStatsFor(store, id, now).value;
            && s.sessionId == id
            && s.totalMessages == |store[id].messages|
            && s.totalUserMessages + s.totalAssistantMessages == s.totalMessages
            && s.totalUserMessages == CountWhere(store[id].messages, IsUserMessage)
            && s.totalAssistantMessages == CountWhere(store[id].messages, IsAssistantMessage)
            && s.totalNudges == CountWhere(store[id].messages, IsNudgeMessage)
            && s.totalTokens == SumOf(store[id].messages, TokensOf)
            && s.averageResponseTime == AverageResponseTime(store[id].messages, 0.0)
            && (s.isActive <==> s.endTime.None?)
            && (s.isActive ==> s.duration == now - s.startTime)
            && (!s.isActive ==> s.duration == s.endTime.value - s.startTime)
  {
    RoleTotals(store[id]);
  }

  // ---------------------------------------------------------------- the mutate-by-id methods

  /** `findOne`, then the document method: "Session not found" for an unknown id. */
  function Mutate(store: Store, id: string, op: Mutation): (result: Result<SessionRecord, Error>)
    ensures id !in store ==> result == Failure(SessionNotFound)
    ensures id in store ==> result == Apply(store[id], op)
  {
    if id in store then Apply(store[id], op) else Failure(SessionNotFound)
  }

  /** `save()`: a successful result replaces the stored record, a thrown error
      leaves the store as it was. */
  function Committed(store: Store, id: string, result: Result<SessionRecord, Error>): Store
  {
    if result.Success? then store[id := result.value] else store
  }

  /** An unknown id throws "Session not found" and changes nothing. */
  lemma UnknownIdChangesNothing(store: Store, id: string, op: Mutation)
    requires id !in store
    ensures Mutate(store, id, op) == Failure(SessionNotFound)
    ensures Committed(store, id, Mutate(store, id, op)) == store
  {
  }

  /** Only the addressed session changes; no session is added or removed. */
  lemma MutateIsolated(store: Store, id: string, op: Mutation, other: string)
    requires other != id
    ensures var after := Committed(store, id, Mutate(store, id, op));
            && after.Keys == store.Keys
            && (other in store ==> after[other] == store[other])
  {
  }

  lemma MutateKeepsValid(store: Store, id: string, op: Mutation)
    requires ValidStore(store)
    ensures ValidStore(Committed(store, id, Mutate(store, id, op)))
  {
    var result := Mutate(store, id, op);
    if result.Success? {
      ApplyKeepsConsistent(store[id], op);
      var after := store[id := result.value];
      forall k | k in after ensures after[k].sessionId == k && Consistent(after[k]) {
        if k != id {
          assert after[k] == store[k];
        }
      }
    }
  }

  // ---------------------------------------------------------------- getUserSessions and getRecentSessions

  /** The `find` filters of `getRecentSessions` and `getUserSessions`. */
  datatype Filter = ActiveOnly | OwnedBy(userId: string)

  predicate Matches(r: SessionRecord, filter: Filter)
  {
    match filter
    case ActiveOnly => r.isActive
    case OwnedBy(u) => r.userId == Some(u)
  }

  /** `r` is the record stored under its own id. */
  predicate Stored(store: Store, r: SessionRecord)
  {
    r.sessionId in store && store[r.sessionId] == r
  }

  /** `sort({ startTime: -1 })`: newest first. */
  predicate SortedByStart(rs: seq<SessionRecord>)
  {
    forall i, j :: 0 <= i < j < |rs| ==> rs[i].startTime >= rs[j].startTime
  }

  predicate DistinctIds(rs: seq<SessionRecord>)
  {
    forall i, j :: 0 <= i < j < |rs| ==> rs[i].sessionId != rs[j].sessionId
  }

  /** Some record in `rs` has the id `id`. */
  predicate Listed(rs: seq<SessionRecord>, id: string)
  {
    exists i :: 0 <= i < |rs| && rs[i].sessionId == id
  }

  /** Where `InsertByStart` puts `x`: after every record that started later. */
  function InsertPosition(rs: seq<SessionRecord>, x: SessionRecord): (k: nat)
    ensures k <= |rs|
    ensures forall i :: 0 <= i < k ==> rs[i].startTime > x.startTime
    ensures k < |rs| ==> x.startTime >= rs[k].startTime
  {
    if rs == [] || x.startTime >= rs[0].startTime then 0 else 1 + InsertPosition(rs[1..], x)
  }

  function InsertByStart(rs: seq<SessionRecord>, x: SessionRecord): (r: seq<SessionRecord>)
    ensures |r| == |rs| + 1
    ensures r[InsertPosition(rs, x)] == x
    ensures forall i :: 0 <= i < InsertPosition(rs, x) ==> r[i] == rs[i]
    ensures forall i :: InsertPosition(rs, x) < i < |r| ==> r[i] == rs[i - 1]
  {
    var k := InsertPosition(rs, x);
    rs[..k] + [x] + rs[k..]
  }

  /** Insertion adds `x` and keeps every other record. */
  lemma InsertMembers(rs: seq<SessionRecord>, x: SessionRecord)
    ensures forall y :: y in InsertByStart(rs, x) <==> y in rs || y == x
  {
    var r := InsertByStart(rs, x);
    var k := InsertPosition(rs, x);
    forall y | y in rs ensures y in r {
      var j :| 0 <= j < |rs| && rs[j] == y;
      if j < k { assert r[j] == y; } else { assert r[j + 1] == y; }
    }
  }

  /** Inserting into a newest-first sequence keeps it newest-first. */
  lemma InsertKeepsSorted(rs: seq<SessionRecord>, x: SessionRecord)
    requires SortedByStart(rs)
    ensures SortedByStart(InsertByStart(rs, x))
  {
    var r := InsertByStart(rs, x);
    var k := InsertPosition(rs, x);
    forall i, j | 0 <= i < j < |r| ensures r[i].startTime >= r[j].startTime {
      if j < k {
        assert r[i] == rs[i] && r[j] == rs[j];
      } else if j == k {
        assert r[i] == rs[i];
      } else if i < k {
        assert r[i] == rs[i] && r[j] == rs[j - 1];
      } else if i == k {
        assert r[j] == rs[j - 1];
      } else {
        assert r[i] == rs[i - 1] && r[j] == rs[j - 1];
      }
    }
  }

  /** Inserting a record whose id is new keeps the ids distinct and lists the new id. */
  lemma InsertKeepsDistinct(rs: seq<SessionRecord>, x: SessionRecord)
    requires DistinctIds(rs) && !Listed(rs, x.sessionId)
    ensures DistinctIds(InsertByStart(rs, x))
    ensures Listed(InsertByStart(rs, x), x.sessionId)
  {
    var r := InsertByStart(rs, x);
    var k := InsertPosition(rs, x);
    forall i, j | 0 <= i < j < |r| ensures r[i].sessionId != r[j].sessionId {
      if j < k {
        assert r[i] == rs[i] && r[j] == rs[j];
      } else if j == k {
        assert r[i] == rs[i];
      } else if i < k {
        assert r[i] == rs[i] && r[j] == rs[j - 1];
      } else if i == k {
        assert r[j] == rs[j - 1];
      } else {
        assert r[i] == rs[i - 1] && r[j] == rs[j - 1];
      }
    }
    assert r[k].sessionId == x.sessionId;
  }

  /** Insertion keeps every listed id listed. */
  lemma InsertKeepsListed(rs: seq<SessionRecord>, x: SessionRecord, id: string)
    requires Listed(rs, id)
    ensures Listed(InsertByStart(rs, x), id)
  {
    var r := InsertByStart(rs, x);
    var k := InsertPosition(rs, x);
    var j :| 0 <= j < |rs| && rs[j].sessionId == id;
    if j < k { assert r[j] == rs[j]; } else { assert r[j + 1] == rs[j]; }
  }

  /** What the scan in `SelectSessions` keeps while `remaining` keys are left:
      `sorted` holds, newest first and once each, exactly the matching records
      already visited. */
  predicate Scanned(store: Store, filter: Filter, remaining: set<string>, sorted: seq<SessionRecord>)
  {
    && (forall r :: r in sorted ==> Stored(store, r) && Matches(r, filter) && r.sessionId !in remaining)
    && SortedByStart(sorted) && DistinctIds(sorted)
    && (forall id :: id in store && id !in remaining && Matches(store[id], filter) ==> Listed(sorted, id))
  }

  /** Visiting a matching key inserts its record and keeps the scan invariant. */
  lemma ScanInserts(store: Store, filter: Filter, remaining: set<string>, sorted: seq<SessionRecord>, id: string)
    requires KeysMatchIds(store) && id in remaining && remaining <= store.Keys
    requires Scanned(store, filter, remaining, sorted) && Matches(store[id], filter)
    ensures Scanned(store, filter, remaining - {id}, InsertByStart(sorted, store[id]))
  {
    var x := store[id];
    forall j | 0 <= j < |sorted| ensures sorted[j].sessionId != id {
      assert sorted[j] in sorted;
    }
    InsertMembers(sorted, x);
    InsertKeepsSorted(sorted, x);
    InsertKeepsDistinct(sorted, x);
    forall other | other in store && other !in remaining - {id} && Matches(store[other], filter)
      ensures Listed(InsertByStart(sorted, x), other)
    {
      if other != id {
        InsertKeepsListed(sorted, x, other);
      }
    }
  }

  /** A record left out of the first `n` of a newest-first sequence started no
      later than every record kept. */
  lemma PrefixStartsNoEarlier(rs: seq<SessionRecord>, n: nat, k: int)
    requires SortedByStart(rs) && n <= |rs|
    requires 0 <= k < |rs| && !Listed(rs[..n], rs[k].sessionId)
    ensures n <= k
    ensures forall i :: 0 <= i < n ==> rs[i].startTime >= rs[k].startTime
  {
    assert forall j :: 0 <= j < n ==> rs[..n][j] == rs[j];
  }

  /** `find(filter).sort({ startTime: -1 }).limit(limit)`, where a limit of 0
      means no limit. Sessions that started at the same time may come in any
      order. */
  method SelectSessions(store: Store, filter: Filter, limit: nat) returns (selected: seq<SessionRecord>)
    requires KeysMatchIds(store)
    ensures forall r :: r in selected ==> Stored(store, r) && Matches(r, filter)
    ensures SortedByStart(selected)
    ensures DistinctIds(selected)
    ensures limit > 0 ==> |selected| <= limit
    ensures forall id :: id in store && Matches(store[id], filter) && !Listed(selected, id) ==>
              && limit > 0 && |selected| == limit
              && forall i :: 0 <= i < |selected| ==> selected[i].startTime >= store[id].startTime
  {
    var remaining := store.Keys;
    var sorted: seq<SessionRecord> := [];
    while remaining != {}
      invariant remaining <= store.Keys
      invariant Scanned(store, filter, remaining, sorted)
      decreases remaining
    {
      var id :| id in remaining;
      if Matches(store[id], filter) {
        ScanInserts(store, filter, remaining, sorted, id);
        sorted := InsertByStart(sorted, store[id]);
      }
      remaining := remaining - {id};
    }
    if limit > 0 && |sorted| > limit {
      selected := sorted[..limit];
      forall id | id in store && Matches(store[id], filter) && !Listed(selected, id)
        ensures forall i :: 0 <= i < |selected| ==> selected[i].startTime >= store[id].startTime
      {
        var k :| 0 <= k < |sorted| && sorted[k].sessionId == id;
        assert sorted[k] in sorted;
        PrefixStartsNoEarlier(sorted, limit, k);
      }
    } else {
      selected := sorted;
    }
  }

  /** `getRecentSessions(limit)`. */
  method RecentSessions(store: Store, limit: nat) returns (recent: seq<SessionRecord>)
    requires KeysMatchIds(store)
    ensures forall r :: r in recent ==> Stored(store, r) && r.isActive
    ensures SortedByStart(recent)
    ensures DistinctIds(recent)
    ensures limit > 0 ==> |recent| <= limit
    ensures forall id :: id in store && store[id].isActive && !Listed(recent, id) ==>
              && limit > 0 && |recent| == limit
              && forall i :: 0 <= i < |recent| ==> recent[i].startTime >= store[id].startTime
  {
    recent := SelectSessions(store, ActiveOnly, limit);
  }

  /** `getUserSessions(userId, limit)`. */
  method UserSessions(store: Store, userId: string, limit: nat) returns (owned: seq<SessionRecord>)
    requires KeysMatchIds(store)
    ensures forall r :: r in owned ==> Stored(store, r) && r.userId == Some(userId)
    ensures SortedByStart(owned)
    ensures DistinctIds(owned)
    ensures limit > 0 ==> |owned| <= limit
    ensures forall id :: id in store && store[id].userId == Some(userId) && !Listed(owned, id) ==>
              && limit > 0 && |owned| == limit
              && forall i :: 0 <= i < |owned| ==> owned[i].startTime >= store[id].startTime
  {
    owned := SelectSessions(store, OwnedBy(userId), limit);
  }

  // ---------------------------------------------------------------- cleanupOldSessions

  const MillisPerDay: int := 86400000
  /** The `daysOld = 30` default of `cleanupOldSessions`. */
  const DefaultRetentionDays: int := 30

  /** `daysOld`, or the default when the caller leaves it undefined. */
  function RetentionDays(daysOld: Option<int>): (days: int)
    ensures daysOld.None? ==> days == DefaultRetentionDays
    ensures daysOld.Some? ==> days == daysOld.value
  {
    match daysOld case Some(d) => d case None => DefaultRetentionDays
  }

  /** `setDate(getDate() - daysOld)` on the current time, taking every day as 24 hours. */
  function Cutoff(now: int, daysOld: int): int
  {
    now - daysOld * MillisPerDay
  }

  /** The `deleteMany` filter `{ isActive: false, endTime: { $lt: cutoff } }`. */
  predicate Expired(r: SessionRecord, cutoff: int)
  {
    !r.isActive && r.endTime.Some? && r.endTime.value < cutoff
  }

  function ExpiredIds(store: Store, cutoff: int): (gone: set<string>)
    ensures gone <= store.Keys
    ensures forall id :: id in gone <==> id in store && Expired(store[id], cutoff)
  {
    set id | id in store && Expired(store[id], cutoff)
  }

  function Retained(store: Store, cutoff: int): (kept: Store)
    ensures forall id :: id in kept <==> id in store && !Expired(store[id], cutoff)
    ensures forall id :: id in kept ==> kept[id] == store[id]
  {
    map id | id in store && !Expired(store[id], cutoff) :: store[id]
  }

  /** Deleted and kept sessions together are the whole store. */
  lemma RetainedCount(store: Store, cutoff: int)
    ensures |Retained(store, cutoff)| + |ExpiredIds(store, cutoff)| == |store|
  {
    var kept := Retained(store, cutoff);
    var gone := ExpiredIds(store, cutoff);
    assert kept.Keys == store.Keys - gone;
    assert |kept.Keys| == |kept|;
    assert |store.Keys| == |store|;
  }

  /** A session still open, or ended at or after the cutoff, survives cleanup. */
  lemma CleanupKeepsOpenSessions(store: Store, cutoff: int, id: string)
    requires id in store && (store[id].isActive || store[id].endTime.None? || store[id].endTime.value >= cutoff)
    ensures id in Retained(store, cutoff) && Retained(store, cutoff)[id] == store[id]
  {
  }

  lemma RetainedKeepsValid(store: Store, cutoff: int)
    requires ValidStore(store)
    ensures ValidStore(Retained(store, cutoff))
  {
  }

  // ---------------------------------------------------------------- one document method on a loaded record

  /* Each of these hydrates the stored record into a `SessionDocument`, runs the
     document method, and returns what `save()` writes back, or the error the
     method throws before saving. */

  method DocumentAddMessage(r: SessionRecord, m: Message) returns (result: Result<SessionRecord, Error>)
    ensures result == Success(WithMessage(r, m))
  {
    var doc := new SessionDocument.Load(r);
    doc.AddMessage(m);
    result := Success(doc.ToRecord());
  }

  method DocumentUpdateFeedback(r: SessionRecord, index: JsNumber, f: Feedback) returns (result: Result<SessionRecord, Error>)
    ensures result == SetFeedback(r, index, f)
  {
    var doc := new SessionDocument.Load(r);
    var thrown := doc.UpdateFeedback(index, f);
    if thrown.Some? {
      return Failure(thrown.value);
    }
    result := Success(doc.ToRecord());
  }

  method DocumentAddSpinInteraction(r: SessionRecord, index: JsNumber, action: SpinAction, now: int)
    returns (result: Result<SessionRecord, Error>)
    ensures result == RecordSpin(r, index, action, now)
  {
    var doc := new SessionDocument.Load(r);
    var thrown := doc.AddSpinInteraction(index, action, now);
    if thrown.Some? {
      return Failure(thrown.value);
    }
    result := Success(doc.ToRecord());
  }

  method DocumentAddCardInteraction(r: SessionRecord, card: CardData, now: int) returns (result: Result<SessionRecord, Error>)
    ensures result == Success(WithCard(r, card, now))
  {
    var doc := new SessionDocument.Load(r);
    doc.AddCardInteraction(card, now);
    result := Success(doc.ToRecord());
  }

  method DocumentEndSession(r: SessionRecord, now: int) returns (result: Result<SessionRecord, Error>)
    ensures result == Success(Ended(r, now))
  {
    var doc := new SessionDocument.Load(r);
    doc.EndSession(now);
    result := Success(doc.ToRecord());
  }

  method DocumentAddScratchpadSnapshot(r: SessionRecord, text: string, now: int) returns (result: Result<SessionRecord, Error>)
    ensures result == Success(WithSnapshot(r, text, now))
  {
    var doc := new SessionDocument.Load(r);
    doc.AddScratchpadSnapshot(text, now);
    result := Success(doc.ToRecord());
  }

  // ---------------------------------------------------------------- the service object

  /** The `SessionService` singleton over the session collection. */
  class SessionService {
    var sessions: Store

    ghost predicate Valid()
      reads this
    {
      ValidStore(sessions)
    }

    constructor ()
      ensures sessions == map[] && Valid()
    {
      sessions := map[];
    }

    method CreateSession(userId: Option<string>, metadata: Metadata, now: nat, random: seq<Base36Digit>)
      returns (result: Result<SessionRecord, Error>)
      modifies this
      ensures (result, sessions) == WithNewSession(old(sessions), userId, metadata, now, random)
      ensures old(Valid()) ==> Valid()
    {
      var id := SessionIdFor(now, random);
      if id in sessions {
        return Failure(DuplicateSessionId);
      }
      var created := NewSession(id, userId, metadata, now);
      sessions := sessions[id := created];
      result := Success(created);
      if old(Valid()) {
        NewSessionKeepsValid(old(sessions), userId, metadata, now, random);
      }
    }

    method AddMessage(id: string, m: Message) returns (result: Result<SessionRecord, Error>)
      modifies this
      ensures result == Mutate(old(sessions), id, AppendMessage(m))
      ensures sessions == Committed(old(sessions), id, result)
      ensures old(Valid()) ==> Valid()
    {
      if Valid() {
        MutateKeepsValid(sessions, id, AppendMessage(m));
      }
      if id !in sessions {
        return Failure(SessionNotFound);
      }
      result := DocumentAddMessage(sessions[id], m);
      if result.Success? {
        sessions := sessions[id := result.value];
      }
    }

    method UpdateFeedback(id: string, index: JsNumber, f: Feedback) returns (result: Result<SessionRecord, Error>)
      modifies this
      ensures result == Mutate(old(sessions), id, MarkFeedback(index, f))
      ensures sessions == Committed(old(sessions), id, result)
      ensures old(Valid()) ==> Valid()
    {
      if Valid() {
        MutateKeepsValid(sessions, id, MarkFeedback(index, f));
      }
      if id !in sessions {
        return Failure(SessionNotFound);
      }
      result := DocumentUpdateFeedback(sessions[id], index, f);
      if result.Success? {
        sessions := sessions[id := result.value];
      }
    }

    method AddSpinInteraction(id: string, index: JsNumber, action: SpinAction, now: int) returns (result: Result<SessionRecord, Error>)
      modifies this
      ensures result == Mutate(old(sessions), id, Spin(index, action, now))
      ensures sessions == Committed(old(sessions), id, result)
      ensures old(Valid()) ==> Valid()
    {
      if Valid() {
        MutateKeepsValid(sessions, id, Spin(index, action, now));
      }
      if id !in sessions {
        return Failure(SessionNotFound);
      }
      result := DocumentAddSpinInteraction(sessions[id], index, action, now);
      if result.Success? {
        sessions := sessions[id := result.value];
      }
    }

    method AddCardInteraction(id: string, card: CardData, now: int) returns (result: Result<SessionRecord, Error>)
      modifies this
      ensures result == Mutate(old(sessions), id, Card(card, now))
      ensures sessions == Committed(old(sessions), id, result)
      ensures old(Valid()) ==> Valid()
    {
      if Valid() {
        MutateKeepsValid(sessions, id, Card(card, now));
      }
      if id !in sessions {
        return Failure(SessionNotFound);
      }
      result := DocumentAddCardInteraction(sessions[id], card, now);
      if result.Success? {
        sessions := sessions[id := result.value];
      }
    }

    method EndSession(id: string, now: int) returns (result: Result<SessionRecord, Error>)
      modifies this
      ensures result == Mutate(old(sessions), id, End(now))
      ensures sessions == Committed(old(sessions), id, result)
      ensures old(Valid()) ==> Valid()
    {
      if Valid() {
        MutateKeepsValid(sessions, id, End(now));
      }
      if id !in sessions {
        return Failure(SessionNotFound);
      }
      result := DocumentEndSession(sessions[id], now);
      if result.Success? {
        sessions := sessions[id := result.value];
      }
    }

    method AddScratchpadSnapshot(id: string, text: string, now: int) returns (result: Result<SessionRecord, Error>)
      modifies this
      ensures result == Mutate(old(sessions), id, Snapshot(text, now))
      ensures sessions == Committed(old(sessions), id, result)
      ensures old(Valid()) ==> Valid()
    {
      if Valid() {
        MutateKeepsValid(sessions, id, Snapshot(text, now));
      }
      if id !in sessions {
        return Failure(SessionNotFound);
      }
      result := DocumentAddScratchpadSnapshot(sessions[id], text, now);
      if result.Success? {
        sessions := sessions[id := result.value];
      }
    }

    /** `cleanupOldSessions(daysOld = 30)`: deletes the expired sessions and returns how many. */
    method CleanupOldSessions(now: int, daysOld: Option<int>) returns (deletedCount: nat)
      modifies this
      ensures sessions == Retained(old(sessions), Cutoff(now, RetentionDays(daysOld)))
      ensures deletedCount == |ExpiredIds(old(sessions), Cutoff(now, RetentionDays(daysOld)))|
      ensures deletedCount == |old(sessions)| - |sessions|
      ensures old(Valid()) ==> Valid()
    {
      var cutoff := Cutoff(now, RetentionDays(daysOld));
      deletedCount := |ExpiredIds(sessions, cutoff)|;
      RetainedCount(sessions, cutoff);
      sessions := Retained(sessions, cutoff);
    }
  }
}
