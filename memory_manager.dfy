/** The memory manager: an object holding the memory tables, whose methods
    issue the table updates of `HealthAgentMemoryManager` in the order the
    Python code issues them. The language model that writes summaries is a
    function parameter; the current time (in whole seconds) is a parameter;
    a failing SQLite transaction is the `storageFails` parameter. */
module Memory {
  import opened Wrappers
  import opened Text
  import opened Schema
  import opened Conversation

  /** What `get_conversation_context` hands to prompt construction. */
  datatype MemoryContext = MemoryContext(
    sessionId: string,
    recentMessages: seq<ChatMessage>,
    summary: string,
    references: seq<ContextRef>,
    messageCount: int)

  /** `window_size` of the buffer memory: ten exchanges, twenty rows. */
  const WindowSize := 10

  /** How many context references the assembled context carries. */
  const ReferenceLimit := 5

  /** Conversation ids are positive and below the next one to be assigned. */
  ghost predicate IdsBelow(turns: seq<Turn>, next: nat) {
    forall t | t in turns :: 1 <= t.id < next
  }

  /** The memory tables, the next `conversations` row id, and the
      `agent_history` table, which plan generation writes and this core
      only reads. */
  datatype Tables = Tables(
    sessions: seq<Session>,
    conversations: seq<Turn>,
    summaries: seq<Summary>,
    references: seq<ContextRef>,
    nextTurnId: nat,
    agentHistory: seq<BasePlan>)

  ghost predicate TablesValid(db: Tables) {
    && SessionsValid(db.sessions)
    && TurnsWellFormed(db.conversations)
    && db.nextTurnId >= 1
    && IdsBelow(db.conversations, db.nextTurnId)
    && SummariesValid(db.summaries)
  }

  lemma AddSummaryKeepsTablesValid(db: Tables, x: Summary)
    requires TablesValid(db)
    requires ActiveSummaries(db.summaries, x.sessionId) == 0
    ensures TablesValid(db.(summaries := db.summaries + [x]))
  {
    AddSummaryKeepsValid(db.summaries, x);
  }

  /** The tables after `add_message`: the session lookup always takes
      effect; unless the transaction fails, the pair is then stored. */
  function AddMessageTables(db: Tables, userId: int, agent: string, human: string, ai: string,
                            containsPlanUpdate: bool, now: int, storageFails: bool): Tables
  {
    var o := OpenSession(db.sessions, userId, agent, now);
    if storageFails then db.(sessions := o.sessions)
    else StorePair(db.(sessions := o.sessions), o.sessionId, userId, agent, human, ai, containsPlanUpdate, now)
  }

  /** The transaction of `add_message` for session `sid`: the turn pair is
      appended, the session's counters are raised and the human turn's
      references are recorded. */
  function StorePair(db: Tables, sid: string, userId: int, agent: string, human: string, ai: string,
                     containsPlanUpdate: bool, now: int): Tables
  {
    db.(sessions := CountPair(db.sessions, sid, now),
        conversations := db.conversations
          + TurnPair(db.conversations, db.nextTurnId, sid, userId, agent, human, ai, containsPlanUpdate, now),
        references := db.references
          + ExtractReferences(db.nextTurnId, human, LatestBasePlanId(db.agentHistory, userId, agent)),
        nextTurnId := db.nextTurnId + 2)
  }

  lemma AddMessageKeepsValid(db: Tables, userId: int, agent: string, human: string, ai: string,
                             containsPlanUpdate: bool, now: int, storageFails: bool)
    requires TablesValid(db)
    ensures TablesValid(AddMessageTables(db, userId, agent, human, ai, containsPlanUpdate, now, storageFails))
  {
    var o := OpenSession(db.sessions, userId, agent, now);
    OpenSessionKeepsValid(db.sessions, userId, agent, now);
    if !storageFails {
      AddPairKeepsWellFormed(db.conversations, db.nextTurnId, o.sessionId, userId, agent, human, ai, containsPlanUpdate, now);
      SessionUpdatesKeepValid(o.sessions, o.sessionId, now);
    }
  }

  /** Storing a pair for a session puts the human row and then the assistant
      row at the end of that session, numbered after its last row, leaves
      every other session's rows alone and raises the session's stored count
      by 2. */
  lemma StorePairAppends(db: Tables, sid: string, userId: int, agent: string, human: string, ai: string,
                         containsPlanUpdate: bool, now: int)
    requires TurnsWellFormed(db.conversations)
    ensures var after := StorePair(db, sid, userId, agent, human, ai, containsPlanUpdate, now);
      var before := SessionTurns(db.conversations, sid);
      && SessionTurns(after.conversations, sid)
           == before + [Turn(db.nextTurnId, sid, userId, agent, Human, human, |before| + 1, now, false),
                        Turn(db.nextTurnId + 1, sid, userId, agent, Assistant, ai, |before| + 2, now,
                             containsPlanUpdate)]
      && (forall s | s != sid :: SessionTurns(after.conversations, s) == SessionTurns(db.conversations, s))
      && StoredMessageCount(after.sessions, sid)
           == StoredMessageCount(db.sessions, sid) + (if HasSessionId(db.sessions, sid) then 2 else 0)
  {
    PairAppended(db.conversations, db.nextTurnId, sid, userId, agent, human, ai, containsPlanUpdate, now);
    StoredCountAfterPair(db.sessions, sid, now);
  }

  /** `add_message` right after a lookup of the same session stores the pair
      exactly as it would have without that lookup. */
  lemma AddMessageAfterLookup(db: Tables, userId: int, agent: string, human: string, ai: string,
                              containsPlanUpdate: bool, now: int, storageFails: bool)
    requires SessionsValid(db.sessions)
    ensures var looked := db.(sessions := OpenSession(db.sessions, userId, agent, now).sessions);
      AddMessageTables(looked, userId, agent, human, ai, containsPlanUpdate, now, storageFails)
        == AddMessageTables(db, userId, agent, human, ai, containsPlanUpdate, now, storageFails)
  {
    OpenSessionIdempotent(db.sessions, userId, agent, now);
  }

  /** The session lookup after `add_message` returns the session the pair
      went to, and changes nothing, whether or not the pair was stored. */
  lemma LookupAfterAddMessage(db: Tables, userId: int, agent: string, human: string, ai: string,
                              containsPlanUpdate: bool, now: int, storageFails: bool)
    requires SessionsValid(db.sessions)
    ensures var after := AddMessageTables(db, userId, agent, human, ai, containsPlanUpdate, now, storageFails);
      OpenSession(after.sessions, userId, agent, now)
        == Opened(OpenSession(db.sessions, userId, agent, now).sessionId, after.sessions)
  {
    if storageFails {
      OpenSessionIdempotent(db.sessions, userId, agent, now);
    } else {
      ReopenAfterPair(db.sessions, userId, agent, now);
    }
  }

  /** After a stored `add_message`, the newest assistant row of the session
      is the pair's own assistant row. */
  lemma StoredReplyIsLatest(db: Tables, userId: int, agent: string, human: string, ai: string,
                            containsPlanUpdate: bool, now: int)
    requires TurnsWellFormed(db.conversations)
    ensures var after := AddMessageTables(db, userId, agent, human, ai, containsPlanUpdate, now, false);
      var sid := OpenSession(db.sessions, userId, agent, now).sessionId;
      LatestAssistantId(SessionTurns(after.conversations, sid)) == Some(db.nextTurnId + 1)
  {
    var o := OpenSession(db.sessions, userId, agent, now);
    StorePairAppends(db.(sessions := o.sessions), o.sessionId, userId, agent, human, ai, containsPlanUpdate, now);
  }

  /** The tables after `clear_session`: the session lookup always takes
      effect; unless the transaction fails, the session is then dropped. */
  function ClearSessionTables(db: Tables, userId: int, agent: string, now: int, storageFails: bool): Tables {
    var o := OpenSession(db.sessions, userId, agent, now);
    if storageFails then db.(sessions := o.sessions)
    else DropSession(db.(sessions := o.sessions), o.sessionId)
  }

  /** The transaction of `clear_session` for session `sid`: the session is
      marked cleared, and its rows and summaries are deleted. */
  function DropSession(db: Tables, sid: string): Tables {
    db.(sessions := MarkCleared(db.sessions, sid),
        conversations := RemoveSession(db.conversations, sid),
        summaries := RemoveSummaries(db.summaries, sid))
  }

  /** Dropping a session empties it, takes away its active summary, marks it
      cleared, and leaves every other session, its rows and its summaries as
      they were. */
  lemma DropSessionOutcome(db: Tables, sid: string)
    ensures var after := DropSession(db, sid);
      && (forall s :: SessionTurns(after.conversations, s) == if s == sid then [] else SessionTurns(db.conversations, s))
      && (forall s :: ActiveSummaries(after.summaries, s) == if s == sid then 0 else ActiveSummaries(db.summaries, s))
      && (forall x :: x in after.summaries <==> x in db.summaries && x.sessionId != sid)
      && |after.sessions| == |db.sessions|
      && (forall i | 0 <= i < |db.sessions| ::
            after.sessions[i] == if db.sessions[i].sessionId == sid then db.sessions[i].(status := Cleared) else db.sessions[i])
  {
    forall s ensures SessionTurns(RemoveSession(db.conversations, sid), s)
                       == if s == sid then [] else SessionTurns(db.conversations, s) {
      SessionTurnsAfterRemove(db.conversations, sid, s);
    }
    forall s ensures ActiveSummaries(RemoveSummaries(db.summaries, sid), s)
                       == if s == sid then 0 else ActiveSummaries(db.summaries, s) {
      RemoveSummariesCounts(db.summaries, sid, s);
    }
  }

  lemma ClearSessionKeepsValid(db: Tables, userId: int, agent: string, now: int, storageFails: bool)
    requires TablesValid(db)
    ensures TablesValid(ClearSessionTables(db, userId, agent, now, storageFails))
  {
    var o := OpenSession(db.sessions, userId, agent, now);
    OpenSessionKeepsValid(db.sessions, userId, agent, now);
    if !storageFails {
      SessionUpdatesKeepValid(o.sessions, o.sessionId, now);
      RemoveKeepsWellFormed(db.conversations, o.sessionId);
      DropSessionOutcome(db.(sessions := o.sessions), o.sessionId);
      var after := ClearSessionTables(db, userId, agent, now, storageFails);
      assert IdsBelow(after.conversations, after.nextTurnId);
      assert SummariesValid(after.summaries);
    }
  }

  /** After a stored reset (user, agent) has no active session, so the next
      lookup opens a new one. */
  lemma ClearLeavesNoActiveSession(db: Tables, userId: int, agent: string, now: int)
    requires TablesValid(db)
    ensures FindActive(ClearSessionTables(db, userId, agent, now, false).sessions, userId, agent).None?
  {
    ClearedSessionIsNotReopened(db.sessions, userId, agent, now);
  }

  /** What `_create_conversation_summary` stores for a session's rows: the
      trimmed reply to the summary prompt, or nothing when the call raised. */
  function SummaryText(ts: seq<Turn>, agent: string, summarizer: SummaryRequest -> LlmReply): Option<string> {
    match summarizer(SummaryRequest(agent, Transcript(Summarised(ts))))
    case Reply(content) => Some(Strip(content))
    case Raised => None
  }

  /** The summary table after the summary step of `get_conversation_context`
      for session `sid` with rows `ts`: a new active summary is appended when
      the session has none, has more than 20 rows and the model answered;
      otherwise the table is unchanged. */
  function SummaryStep(summaries: seq<Summary>, ts: seq<Turn>, sid: string, userId: int, agent: string,
                       summarizer: SummaryRequest -> LlmReply): (r: seq<Summary>)
    ensures summaries <= r && |r| <= |summaries| + 1
  {
    var text := SummaryText(ts, agent, summarizer);
    if LatestActiveSummary(summaries, sid).None? && |ts| > SummaryThreshold && text.Some? then
      summaries + [Summary(sid, userId, agent, SessionSummaryKind, text.value, true)]
    else summaries
  }

  /** The summary `get_conversation_context` reports for session `sid` with
      rows `ts`: its active summary; failing that "" for at most 20 rows, and
      otherwise the new summary, or "" when the model raised. */
  function SummaryFor(summaries: seq<Summary>, ts: seq<Turn>, sid: string, agent: string,
                      summarizer: SummaryRequest -> LlmReply): string
  {
    match LatestActiveSummary(summaries, sid)
    case Some(existing) => existing
    case None => if |ts| <= SummaryThreshold then "" else SummaryText(ts, agent, summarizer).GetOr("")
  }

  /** The summarising model of a second lookup made after a first: each
      lookup invokes the model on its own, and the second invokes it only
      when the first raised, with the same request. */
  function Retry(first: SummaryRequest -> LlmReply, second: SummaryRequest -> LlmReply): SummaryRequest -> LlmReply {
    req => if first(req).Raised? then second(req) else first(req)
  }

  /** Two summary steps over the same rows, each with its own model call,
      act as one step whose call is retried once. The second step adds a
      summary only when the first call raised and the second answered; a
      summary the first step wrote is the one the second step finds. */
  lemma SummaryStepTwice(summaries: seq<Summary>, ts: seq<Turn>, sid: string, userId: int, agent: string,
                         first: SummaryRequest -> LlmReply, second: SummaryRequest -> LlmReply)
    ensures var once := SummaryStep(summaries, ts, sid, userId, agent, first);
      SummaryStep(once, ts, sid, userId, agent, second)
        == SummaryStep(summaries, ts, sid, userId, agent, Retry(first, second))
    ensures var once := SummaryStep(summaries, ts, sid, userId, agent, first);
      && (SummaryStep(once, ts, sid, userId, agent, second) != once ==>
            once == summaries && SummaryText(ts, agent, first).None? && SummaryText(ts, agent, second).Some?)
      && (once != summaries ==> LatestActiveSummary(once, sid) == SummaryText(ts, agent, first))
  {
    var once := SummaryStep(summaries, ts, sid, userId, agent, first);
    var firstText := SummaryText(ts, agent, first);
    RetryText(ts, agent, first, second);
    if LatestActiveSummary(summaries, sid).None? && |ts| > SummaryThreshold {
      if firstText.Some? {
        var added := Summary(sid, userId, agent, SessionSummaryKind, firstText.value, true);
        assert once == summaries + [added];
        assert once[|once| - 1] == added;
        assert LatestActiveSummary(once, sid) == firstText;
      } else {
        assert once == summaries;
      }
    } else {
      assert once == summaries;
    }
  }

  /** The retried call answers with the first reply unless it raised. */
  lemma RetryText(ts: seq<Turn>, agent: string, first: SummaryRequest -> LlmReply, second: SummaryRequest -> LlmReply)
    ensures SummaryText(ts, agent, Retry(first, second))
            == if SummaryText(ts, agent, first).None? then SummaryText(ts, agent, second) else SummaryText(ts, agent, first)
  {
    var req := SummaryRequest(agent, Transcript(Summarised(ts)));
    assert Retry(first, second)(req) == if first(req).Raised? then second(req) else first(req);
  }

  /** The tables after `get_conversation_context`: the session lookup, and
      the summary step when summaries are included. */
  function ContextTables(db: Tables, userId: int, agent: string, now: int, summarizer: SummaryRequest -> LlmReply,
                         includeSummary: bool): Tables
  {
    var o := OpenSession(db.sessions, userId, agent, now);
    var ts := SessionTurns(db.conversations, o.sessionId);
    db.(sessions := o.sessions,
        summaries := if includeSummary then SummaryStep(db.summaries, ts, o.sessionId, userId, agent, summarizer)
                     else db.summaries)
  }

  /** The tables after a lookup, read field by field. */
  lemma ContextTablesFields(db: Tables, userId: int, agent: string, now: int, summarizer: SummaryRequest -> LlmReply,
                            includeSummary: bool, sid: string, sessions: seq<Session>, summaries: seq<Summary>)
    requires Opened(sid, sessions) == OpenSession(db.sessions, userId, agent, now)
    requires summaries == if includeSummary
      then SummaryStep(db.summaries, SessionTurns(db.conversations, sid), sid, userId, agent, summarizer)
      else db.summaries
    ensures db.(sessions := sessions, summaries := summaries)
            == ContextTables(db, userId, agent, now, summarizer, includeSummary)
  {
  }

  /** Two context lookups within the same second, each with its own
      summarising call, have the effect of one lookup whose call is retried
      once; when the first call answered, or both raised, that is the first
      lookup alone. */
  lemma ContextLookupTwice(db: Tables, userId: int, agent: string, now: int, includeSummary: bool,
                           first: SummaryRequest -> LlmReply, second: SummaryRequest -> LlmReply)
    requires SessionsValid(db.sessions)
    ensures var once := ContextTables(db, userId, agent, now, first, includeSummary);
      ContextTables(once, userId, agent, now, second, includeSummary)
        == ContextTables(db, userId, agent, now, Retry(first, second), includeSummary)
    ensures var o := OpenSession(db.sessions, userId, agent, now);
      var once := ContextTables(db, userId, agent, now, first, includeSummary);
      var ts := SessionTurns(db.conversations, o.sessionId);
      ContextTables(once, userId, agent, now, second, includeSummary) != once ==>
        && includeSummary && once == db.(sessions := o.sessions)
        && SummaryText(ts, agent, first).None? && SummaryText(ts, agent, second).Some?
  {
    var o := OpenSession(db.sessions, userId, agent, now);
    OpenSessionIdempotent(db.sessions, userId, agent, now);
    SummaryStepTwice(db.summaries, SessionTurns(db.conversations, o.sessionId), o.sessionId, userId, agent, first, second);
  }

  /** The loop of `_create_conversation_summary` that writes one line per
      row, oldest first. */
  method RenderTranscript(ts: seq<Turn>) returns (text: string)
    ensures text == Transcript(ts)
  {
    text := "";
    var i := 0;
    while i < |ts|
      invariant 0 <= i <= |ts|
      invariant text == Transcript(ts[..i])
    {
      assert ts[..i + 1] == ts[..i] + [ts[i]];
      TranscriptSnoc(ts[..i], ts[i]);
      text := text + TranscriptLine(ts[i]);
      i := i + 1;
    }
    assert ts[..i] == ts;
  }

  /** The model call of `_create_conversation_summary`: nothing for a
      session without rows; otherwise the transcript of every row but the
      newest ten is sent to the summarising model, and its stripped answer
      comes back, or `None` when it raised. */
  method RequestSummary(ts: seq<Turn>, agent: string, summarizer: SummaryRequest -> LlmReply)
    returns (text: Option<string>)
    ensures text == if ts == [] then None else SummaryText(ts, agent, summarizer)
  {
    if ts == [] {
      return None;
    }
    var conversationText := RenderTranscript(Summarised(ts));
    var reply := summarizer(SummaryRequest(agent, conversationText));
    text := match reply
      case Reply(content) => Some(Strip(content))
      case Raised => None;
  }

  class MemoryManager {
    var sessions: seq<Session>
    var conversations: seq<Turn>
    var summaries: seq<Summary>
    var references: seq<ContextRef>
    var nextTurnId: nat
    /** `agent_history`, written by plan generation outside this core and only read here. */
    var agentHistory: seq<BasePlan>

    /** The tables as one value. */
    function Db(): Tables
      reads this
    {
      Tables(sessions, conversations, summaries, references, nextTurnId, agentHistory)
    }

    ghost predicate Valid()
      reads this
    {
      TablesValid(Db())
    }

    constructor (history: seq<BasePlan>)
      ensures Valid()
      ensures sessions == [] && conversations == [] && summaries == [] && references == []
      ensures agentHistory == history
    {
      sessions, conversations, summaries, references := [], [], [], [];
      nextTurnId := 1;
      agentHistory := history;
    }

    /** `get_session_id`: the active session of (user, agent), refreshed, or a
        new one. */
    method GetSessionId(userId: int, agent: string, now: int) returns (sid: string)
      requires Valid()
      modifies this`sessions
      ensures Valid()
      ensures Opened(sid, sessions) == OpenSession(old(sessions), userId, agent, now)
    {
      var o := OpenSession(sessions, userId, agent, now);
      OpenSessionKeepsValid(sessions, userId, agent, now);
      sid, sessions := o.sessionId, o.sessions;
    }

    /** `add_message`: the session lookup, then, in one transaction, the
        turn pair, the session's counters and the human turn's references; a
        failing transaction is rolled back and leaves only the lookup's
        effect (StorePairAppends). */
    method AddMessage(userId: int, agent: string, human: string, ai: string, containsPlanUpdate: bool,
                      now: int, storageFails: bool) returns (ok: bool)
      requires Valid()
      modifies this
      ensures Valid()
      ensures ok == !storageFails
      ensures Db() == AddMessageTables(old(Db()), userId, agent, human, ai, containsPlanUpdate, now, storageFails)
    {
      AddMessageKeepsValid(Db(), userId, agent, human, ai, containsPlanUpdate, now, storageFails);
      var sid := GetSessionId(userId, agent, now);
      if storageFails {
        ok := false;
        return;
      }
      StoreTurnPair(sid, userId, agent, human, ai, containsPlanUpdate, now);
      ok := true;
    }

    /** The transaction of `add_message` for session `sid`. */
    method StoreTurnPair(sid: string, userId: int, agent: string, human: string, ai: string,
                         containsPlanUpdate: bool, now: int)
      modifies this
      ensures Db() == StorePair(old(Db()), sid, userId, agent, human, ai, containsPlanUpdate, now)
    {
      var pair := TurnPair(conversations, nextTurnId, sid, userId, agent, human, ai, containsPlanUpdate, now);
      var humanId := nextTurnId;
      conversations := conversations + pair;
      nextTurnId := nextTurnId + 2;
      sessions := CountPair(sessions, sid, now);
      references := references + ExtractReferences(humanId, human, LatestBasePlanId(agentHistory, userId, agent));
    }

    /** `_create_conversation_summary`: the transcript of every row but the
        newest ten goes to the summarising model, and its trimmed reply is
        stored as the session's active summary; "" when the session is empty
        or the call raised. Its one caller has checked that the session has
        no active summary. */
    method CreateConversationSummary(sid: string, userId: int, agent: string, summarizer: SummaryRequest -> LlmReply)
      returns (summary: string)
      requires Valid()
      requires LatestActiveSummary(summaries, sid).None?
      modifies this`summaries
      ensures Valid()
      ensures var ts := SessionTurns(conversations, sid);
        summary == if ts == [] then "" else SummaryText(ts, agent, summarizer).GetOr("")
      ensures var ts := SessionTurns(conversations, sid);
        summaries == if ts != [] && SummaryText(ts, agent, summarizer).Some?
          then old(summaries) + [Summary(sid, userId, agent, SessionSummaryKind, summary, true)]
          else old(summaries)
    {
      var ts := SessionTurns(conversations, sid);
      var found := RequestSummary(ts, agent, summarizer);
      if found.None? {
        return "";
      }
      summary := found.value;
      var row := Summary(sid, userId, agent, SessionSummaryKind, summary, true);
      AddSummaryKeepsTablesValid(Db(), row);
      summaries := summaries + [row];
      assert Db() == old(Db()).(summaries := old(summaries) + [row]);
    }

    /** `_get_or_create_session_summary`: the session's active summary if it
        has one; otherwise a new summary when the session has more than 20
        rows, and `None` when it has at most 20. */
    method GetOrCreateSessionSummary(sid: string, userId: int, agent: string, summarizer: SummaryRequest -> LlmReply)
      returns (r: Option<string>)
      requires Valid()
      modifies this`summaries
      ensures Valid()
      ensures summaries == SummaryStep(old(summaries), SessionTurns(conversations, sid), sid, userId, agent, summarizer)
      ensures r.GetOr("") == SummaryFor(old(summaries), SessionTurns(conversations, sid), sid, agent, summarizer)
      ensures r.None? <==> old(LatestActiveSummary(summaries, sid)).None? && |SessionTurns(conversations, sid)| <= SummaryThreshold
    {
      var existing := LatestActiveSummary(summaries, sid);
      if existing.Some? {
        return existing;
      }
      var messageCount := |SessionTurns(conversations, sid)|;
      if messageCount > SummaryThreshold {
        var s := CreateConversationSummary(sid, userId, agent, summarizer);
        return Some(s);
      }
      return None;
    }

    /** `get_conversation_context`: the session (found or created), its
        window of the last 20 rows formatted as messages, its summary or "",
        at most five references newest first, and its stored message count. */
    method GetConversationContext(userId: int, agent: string, now: int, summarizer: SummaryRequest -> LlmReply,
                                  includeSummary: bool) returns (ctx: MemoryContext)
      requires Valid()
      modifies this`sessions, this`summaries
      ensures Valid()
      ensures var o := OpenSession(old(sessions), userId, agent, now);
        && ctx.sessionId == o.sessionId
        && sessions == o.sessions
      ensures ctx.recentMessages == FormatMessages(RecentMessages(conversations, ctx.sessionId, WindowSize))
      ensures ctx.references == RecentReferences(references, conversations, ctx.sessionId, ReferenceLimit)
      ensures |ctx.references| <= ReferenceLimit
      ensures ctx.messageCount == StoredMessageCount(sessions, ctx.sessionId)
      ensures Db() == ContextTables(old(Db()), userId, agent, now, summarizer, includeSummary)
      ensures ctx.summary == if includeSummary
        then SummaryFor(old(summaries), SessionTurns(conversations, ctx.sessionId), ctx.sessionId, agent, summarizer)
        else ""
    {
      var sid := GetSessionId(userId, agent, now);
      // get_buffer_window_memory and get_summary_memory ask for the session
      // again; within the same second those calls return the same id and
      // leave the table as it is (OpenSessionIdempotent).
      ghost var o := Opened(sid, sessions);
      OpenSessionIdempotent(old(sessions), userId, agent, now);
      var windowSid := GetSessionId(userId, agent, now);
      assert windowSid == sid && sessions == o.sessions;
      var recent := FormatMessages(RecentMessages(conversations, windowSid, WindowSize));
      var summary := "";
      if includeSummary {
        var summarySid := GetSessionId(userId, agent, now);
        assert summarySid == sid && sessions == o.sessions;
        var found := GetOrCreateSessionSummary(summarySid, userId, agent, summarizer);
        summary := found.GetOr("");
      }
      var refs := RecentReferences(references, conversations, sid, ReferenceLimit);
      ctx := MemoryContext(sid, recent, summary, refs, StoredMessageCount(sessions, sid));
      ContextTablesFields(old(Db()), userId, agent, now, summarizer, includeSummary, sid, sessions, summaries);
    }

    /** `clear_session`: the session lookup, then, in one transaction, the
        session marked cleared and its rows and summaries deleted; a failing
        transaction is discarded and leaves only the lookup's effect
        (DropSessionOutcome, ClearLeavesNoActiveSession). */
    method ClearSession(userId: int, agent: string, now: int, storageFails: bool) returns (ok: bool)
      requires Valid()
      modifies this`sessions, this`conversations, this`summaries
      ensures Valid()
      ensures ok == !storageFails
      ensures Db() == ClearSessionTables(old(Db()), userId, agent, now, storageFails)
    {
      ClearSessionKeepsValid(Db(), userId, agent, now, storageFails);
      var sid := GetSessionId(userId, agent, now);
      if storageFails {
        // The connection closes without a commit: the updates are discarded.
        ok := false;
        return;
      }
      sessions := MarkCleared(sessions, sid);
      conversations := RemoveSession(conversations, sid);
      summaries := RemoveSummaries(summaries, sid);
      ok := true;
    }
  }
}
