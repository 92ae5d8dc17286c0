/** `EnhancedChatManager`: request validation and orchestration of a chat
    turn, the versioned plan store, conversation history and reset. The
    chat model's reply and the summarising model are parameters; the
    current time is the `now` parameter; failing SQLite transactions are the
    `memoryFails` and `planFails` parameters. */
module ChatAgent {
  import opened Wrappers
  import opened Text
  import opened Schema
  import opened Conversation
  import opened Memory
  import opened PlanVersions
  import opened PlanDetector

  /** The agent types a chat request may name. */
  const ValidAgents: seq<string> := ["HealthSummary", "FitnessTrainer", "Nutritionist", "HealthAdvisor"]

  /** How many characters of the user's message a modification summary quotes. */
  const QuotedLength := 200

  // ---------------------------------------------------------------------
  // Conversation history
  // ---------------------------------------------------------------------

  /** One exchange as `get_conversation_history` reports it. */
  datatype HistoryPair = HistoryPair(human: string, timestamp: int, ai: string, isUpdate: bool)

  /** The pairing loop's state: the exchanges so far and the human row still
      waiting for its answer (`current_pair`). */
  datatype PairState = PairState(pairs: seq<HistoryPair>, pending: Option<(string, int)>)

  /** One row of the loop: a human row opens a new exchange, dropping any
      unanswered one; an assistant row closes the open exchange, and is
      skipped when none is open. */
  function PairStep(st: PairState, row: Turn): PairState {
    match row.kind
    case Human => PairState(st.pairs, Some((row.content, row.timestamp)))
    case Assistant =>
      match st.pending
      case Some(h) => PairState(st.pairs + [HistoryPair(h.0, h.1, row.content, row.containsPlanUpdate)], None)
      case None => st
  }

  /** The loop's state after the rows, in chronological order. */
  function PairRows(rows: seq<Turn>): PairState {
    if rows == [] then PairState([], None)
    else PairStep(PairRows(rows[..|rows| - 1]), rows[|rows| - 1])
  }

  function Pairs(rows: seq<Turn>): seq<HistoryPair> {
    PairRows(rows).pairs
  }

  /** Every exchange uses up two rows, and an open one a third: there are
      never more than half as many exchanges as rows. */
  lemma {:induction false} PairsBound(rows: seq<Turn>)
    ensures 2 * |PairRows(rows).pairs| + (if PairRows(rows).pending.Some? then 1 else 0) <= |rows|
  {
    if rows != [] {
      PairsBound(rows[..|rows| - 1]);
    }
  }

  /** Two final rows that are a human row and its answer make the last
      exchange. */
  lemma PairsEndWithExchange(rows: seq<Turn>)
    requires |rows| >= 2
    requires rows[|rows| - 2].kind == Human && rows[|rows| - 1].kind == Assistant
    ensures var h := rows[|rows| - 2];
      var a := rows[|rows| - 1];
      Pairs(rows) == Pairs(rows[..|rows| - 2]) + [HistoryPair(h.content, h.timestamp, a.content, a.containsPlanUpdate)]
      && PairRows(rows).pending.None?
  {
    var n := |rows|;
    assert rows[..n - 1][..n - 2] == rows[..n - 2];
    assert PairRows(rows[..n - 1]) == PairStep(PairRows(rows[..n - 2]), rows[n - 2]);
  }

  /** Rows that alternate human, assistant, human, ... are read as
      consecutive exchanges: the k-th exchange is rows 2k and 2k+1. */
  lemma {:induction false} PairsOfAlternating(rows: seq<Turn>)
    requires Paired(rows)
    ensures PairRows(rows).pending.None?
    ensures |Pairs(rows)| == |rows| / 2
    ensures forall k | 0 <= k < |rows| / 2 ::
              Pairs(rows)[k] == HistoryPair(rows[2 * k].content, rows[2 * k].timestamp,
                                            rows[2 * k + 1].content, rows[2 * k + 1].containsPlanUpdate)
  {
    if rows != [] {
      var n := |rows|;
      var front := rows[..n - 2];
      assert Paired(front) by {
        forall k | 0 <= k < |front| ensures front[k].kind == if k % 2 == 0 then Human else Assistant {
          assert front[k] == rows[k];
        }
      }
      PairsOfAlternating(front);
      PairsEndWithExchange(rows);
      forall k | 0 <= k < n / 2 - 1
        ensures Pairs(rows)[k] == HistoryPair(rows[2 * k].content, rows[2 * k].timestamp,
                                              rows[2 * k + 1].content, rows[2 * k + 1].containsPlanUpdate)
      {
        assert front[2 * k] == rows[2 * k] && front[2 * k + 1] == rows[2 * k + 1];
      }
    }
  }

  /** The history read right after `add_message` stored a pair ends with
      that exchange, as long as the window holds at least one exchange. */
  lemma HistoryEndsWithStoredPair(db: Tables, sid: string, userId: int, agent: string, human: string, ai: string,
                                  containsPlanUpdate: bool, now: int, limit: int)
    requires TurnsWellFormed(db.conversations)
    requires limit >= 1
    ensures var after := StorePair(db, sid, userId, agent, human, ai, containsPlanUpdate, now);
      var ps := Pairs(RecentMessages(after.conversations, sid, limit));
      ps != [] && ps[|ps| - 1] == HistoryPair(human, now, ai, containsPlanUpdate)
  {
    var after := StorePair(db, sid, userId, agent, human, ai, containsPlanUpdate, now);
    StorePairAppends(db, sid, userId, agent, human, ai, containsPlanUpdate, now);
    var ts := SessionTurns(after.conversations, sid);
    var w := RecentMessages(after.conversations, sid, limit);
    assert |w| >= 2;
    assert w[|w| - 2] == ts[|ts| - 2] && w[|w| - 1] == ts[|ts| - 1];
    PairsEndWithExchange(w);
  }

  // ---------------------------------------------------------------------
  // Request validation
  // ---------------------------------------------------------------------

  /** Why a chat request gets no reply. */
  datatype ChatError = InvalidInput | InvalidAgent | EmptyResponse | ModelError

  /** What `generate_response` returns. */
  datatype ChatResult =
    | Success(response: string, containsPlanUpdate: bool, messageCount: int, sessionId: string)
    | Failure(error: ChatError)

  /** `all([user_id, agent_type, message.strip()])`. */
  predicate InputGiven(userId: int, agent: string, message: string) {
    userId != 0 && agent != "" && Strip(message) != ""
  }

  /** A message made only of the separator U+001F is blank to `strip()`, so
      the request is rejected as invalid input. */
  lemma SeparatorOnlyMessageRejected(userId: int, agent: string)
    ensures !InputGiven(userId, agent, "\U{001F}")
  {
    StripEmpty("\U{001F}");
  }

  /** The summary stored with a plan saved from a chat turn. */
  function ModificationSummary(message: string): (r: string)
    ensures 19 <= |r| <= 19 + QuotedLength
    ensures r[16..|r| - 3] == Take(message, QuotedLength)
  {
    "User requested: " + Take(message, QuotedLength) + "..."
  }

  /** The plan table after a plan update has been detected: the reply saved
      as the pair's new current version when it can be linked to an
      assistant row (`if conversation_id:`), the table as it was otherwise. */
  function LinkedRevision(plans: seq<PlanRow>, history: seq<BasePlan>, id: nat, userId: int, agent: string,
                          aiResponse: string, message: string, conversationId: Option<nat>): seq<PlanRow>
  {
    if conversationId.Some? && conversationId.value != 0
    then SaveRevision(plans, history, id, userId, agent, aiResponse, ModificationSummary(message), conversationId.value)
    else plans
  }

  /** When the exchange was stored, the plan saved for a detected update is
      linked to the assistant row just stored: one past the human row's id. */
  lemma StoredExchangeLinksPlan(db: Tables, plans: seq<PlanRow>, id: nat, userId: int, agent: string, message: string,
                                aiResponse: string, containsPlanUpdate: bool, now: int)
    requires TurnsWellFormed(db.conversations)
    ensures var after := AddMessageTables(db, userId, agent, message, aiResponse, containsPlanUpdate, now, false);
      var sid := OpenSession(db.sessions, userId, agent, now).sessionId;
      LinkedRevision(plans, db.agentHistory, id, userId, agent, aiResponse, message,
                     LatestAssistantId(SessionTurns(after.conversations, sid)))
        == SaveRevision(plans, db.agentHistory, id, userId, agent, aiResponse, ModificationSummary(message),
                        db.nextTurnId + 1)
  {
    StoredReplyIsLatest(db, userId, agent, message, aiResponse, containsPlanUpdate, now);
  }

  class ChatManager {
    /** The memory tables of the chat sessions. */
    const memory: MemoryManager
    /** The `updated_plans` table. */
    var plans: seq<PlanRow>
    var nextPlanId: nat

    ghost predicate Valid()
      reads this, memory
    {
      memory.Valid() && PlansValid(plans)
    }

    constructor (history: seq<BasePlan>)
      ensures Valid()
      ensures fresh(memory) && plans == [] && memory.agentHistory == history
    {
      memory := new MemoryManager(history);
      plans := [];
      nextPlanId := 1;
    }

    /** `save_updated_plan_with_versioning`: in one transaction, the pair's
        rows stop being current, the next version number is read, the newest
        base plan is looked up and the new row is inserted; a failing
        transaction is rolled back (SaveRevisionOutcome, SaveThenLookup). */
    method SaveUpdatedPlanWithVersioning(userId: int, agent: string, plan: string, summary: string,
                                         conversationId: nat, storageFails: bool) returns (ok: bool)
      requires Valid()
      modifies this`plans, this`nextPlanId
      ensures Valid()
      ensures ok == !storageFails
      ensures plans == if storageFails then old(plans)
        else SaveRevision(old(plans), memory.agentHistory, old(nextPlanId), userId, agent, plan, summary, conversationId)
    {
      var rows := ClearCurrent(plans, userId, agent);
      var nextVersion := MaxVersion(rows, userId, agent) + 1;
      var originalPlanId := LatestBasePlanId(memory.agentHistory, userId, agent);
      rows := rows + [PlanRow(nextPlanId, userId, agent, originalPlanId, plan, summary, conversationId, nextVersion, true)];
      if storageFails {
        return false;
      }
      SaveKeepsValid(plans, memory.agentHistory, nextPlanId, userId, agent, plan, summary, conversationId);
      plans, nextPlanId := rows, nextPlanId + 1;
      ok := true;
    }

    /** `clear_conversation`: the memory reset; when it succeeds, every plan
        of the pair stops being current, so the pair falls back to its base
        plan. A failing plan update makes the call report failure although
        the memory reset stays. */
    method ClearConversation(userId: int, agent: string, now: int, memoryFails: bool, planFails: bool)
      returns (ok: bool)
      requires Valid()
      modifies memory`sessions, memory`conversations, memory`summaries, this`plans
      ensures Valid()
      ensures ok == (!memoryFails && !planFails)
      ensures memory.Db() == ClearSessionTables(old(memory.Db()), userId, agent, now, memoryFails)
      ensures plans == if memoryFails || planFails then old(plans) else ClearCurrent(old(plans), userId, agent)
      ensures ok ==> FindActive(memory.sessions, userId, agent).None?
      ensures ok ==> PlanLookup(plans, memory.agentHistory, userId, agent) == BaseLookup(memory.agentHistory, userId, agent)
    {
      ghost var db := memory.Db();
      var cleared := memory.ClearSession(userId, agent, now, memoryFails);
      if !cleared || planFails {
        return false;
      }
      ClearLeavesNoActiveSession(db, userId, agent, now);
      ClearKeepsValid(plans, userId, agent);
      ClearThenLookup(plans, memory.agentHistory, userId, agent);
      plans := ClearCurrent(plans, userId, agent);
      ok := true;
    }

    /** `generate_response`: validation, the context lookup (made a second
        time for the system prompt), the model's reply, plan-update
        detection, storage of the exchange and, for a plan update, a new
        plan version linked to the session's newest assistant row. */
    method GenerateResponse(userId: int, agent: string, message: string, now: int, reply: LlmReply,
                            summarizer: SummaryRequest -> LlmReply, promptSummarizer: SummaryRequest -> LlmReply,
                            memoryFails: bool, planFails: bool)
      returns (r: ChatResult)
      requires Valid()
      modifies memory, this`plans, this`nextPlanId
      ensures Valid()
      ensures r == Failure(InvalidInput) <==> !InputGiven(userId, agent, message)
      ensures r == Failure(InvalidAgent) <==> InputGiven(userId, agent, message) && agent !in ValidAgents
      ensures r.Failure? && r.error in {InvalidInput, InvalidAgent} ==>
        memory.Db() == old(memory.Db()) && plans == old(plans)
      ensures r == Failure(ModelError) <==> InputGiven(userId, agent, message) && agent in ValidAgents && reply.Raised?
      ensures r == Failure(EmptyResponse) <==> InputGiven(userId, agent, message) && agent in ValidAgents && reply == Reply("")
      ensures var o := OpenSession(old(memory.sessions), userId, agent, now);
        var looked := ContextTables(old(memory.Db()), userId, agent, now, Retry(summarizer, promptSummarizer), true);
        && (r.Failure? && r.error in {EmptyResponse, ModelError} ==> memory.Db() == looked && plans == old(plans))
        && (r.Success? ==>
              && r.response == Strip(reply.content)
              && r.sessionId == o.sessionId
              && r.messageCount == StoredMessageCount(o.sessions, o.sessionId)
              && r.containsPlanUpdate == IsPlanUpdate(message, r.response,
                   FormatMessages(RecentMessages(old(memory.conversations), o.sessionId, WindowSize)))
              && memory.Db() == AddMessageTables(looked, userId, agent, message, r.response, r.containsPlanUpdate,
                                                 now, memoryFails)
              && plans == if !r.containsPlanUpdate || planFails then old(plans)
                 else LinkedRevision(old(plans), memory.agentHistory, old(nextPlanId), userId, agent, r.response, message,
                                     LatestAssistantId(SessionTurns(memory.conversations, o.sessionId))))
    {
      if !InputGiven(userId, agent, message) {
        return Failure(InvalidInput);
      }
      if agent !in ValidAgents {
        return Failure(InvalidAgent);
      }
      ghost var sessions := memory.sessions;
      var ctx := LoadContext(userId, agent, now, summarizer, promptSummarizer);
      match reply
      case Raised =>
        return Failure(ModelError);
      case Reply(content) =>
        if content == "" {
          return Failure(EmptyResponse);
        }
        var aiResponse := Strip(content);
        var containsPlanUpdate := IsPlanUpdate(message, aiResponse, ctx.recentMessages);
        OpenSessionIdempotent(sessions, userId, agent, now);
        RecordExchange(userId, agent, message, aiResponse, containsPlanUpdate, now, memoryFails, planFails);
        r := Success(aiResponse, containsPlanUpdate, ctx.messageCount, ctx.sessionId);
    }

    /** The context lookups of `generate_response`: the conversation context,
        and the same lookup again while the system prompt is built (which also
        reads the user's profile and current plan). Each lookup makes its own
        summarising call (`summarizer`, then `promptSummarizer`). Within the
        same second the second lookup returns the same session, and it adds a
        summary only when the first call raised (ContextLookupTwice). */
    method LoadContext(userId: int, agent: string, now: int, summarizer: SummaryRequest -> LlmReply,
                       promptSummarizer: SummaryRequest -> LlmReply)
      returns (ctx: MemoryContext)
      requires Valid()
      modifies memory`sessions, memory`summaries
      ensures Valid()
      ensures memory.Db() == ContextTables(old(memory.Db()), userId, agent, now, Retry(summarizer, promptSummarizer), true)
      ensures ctx.sessionId == OpenSession(old(memory.sessions), userId, agent, now).sessionId
      ensures ctx.recentMessages == FormatMessages(RecentMessages(memory.conversations, ctx.sessionId, WindowSize))
      ensures ctx.messageCount == StoredMessageCount(memory.sessions, ctx.sessionId)
    {
      ContextLookupTwice(memory.Db(), userId, agent, now, true, summarizer, promptSummarizer);
      ctx := memory.GetConversationContext(userId, agent, now, summarizer, true);
      var planContext := BuildPromptContext(userId, agent, now, promptSummarizer);
    }

    /** The lookups of `create_enhanced_system_prompt`: the current plan, then
        the conversation context once more. */
    method BuildPromptContext(userId: int, agent: string, now: int, summarizer: SummaryRequest -> LlmReply)
      returns (planContext: PlanContext)
      requires Valid()
      modifies memory`sessions, memory`summaries
      ensures Valid()
      ensures memory.Db() == ContextTables(old(memory.Db()), userId, agent, now, summarizer, true)
      ensures planContext == PlanLookup(plans, memory.agentHistory, userId, agent)
    {
      planContext := PlanLookup(plans, memory.agentHistory, userId, agent);
      var promptContext := memory.GetConversationContext(userId, agent, now, summarizer, true);
    }

    /** The storing half of `generate_response`: `add_message`, then, for a
        plan update, the session lookup, the id of the session's newest
        assistant row and, when there is one, the plan saved as a new
        version linked to it. */
    method RecordExchange(userId: int, agent: string, message: string, aiResponse: string, containsPlanUpdate: bool,
                          now: int, memoryFails: bool, planFails: bool)
      requires Valid()
      modifies memory, this`plans, this`nextPlanId
      ensures Valid()
      ensures memory.Db() == AddMessageTables(old(memory.Db()), userId, agent, message, aiResponse, containsPlanUpdate,
                                              now, memoryFails)
      ensures !containsPlanUpdate || planFails ==> plans == old(plans)
      ensures containsPlanUpdate && !planFails ==>
        plans == LinkedRevision(old(plans), memory.agentHistory, old(nextPlanId), userId, agent, aiResponse, message,
          LatestAssistantId(SessionTurns(memory.conversations, OpenSession(old(memory.sessions), userId, agent, now).sessionId)))
    {
      ghost var db := memory.Db();
      var stored := memory.AddMessage(userId, agent, message, aiResponse, containsPlanUpdate, now, memoryFails);
      if containsPlanUpdate {
        LookupAfterAddMessage(db, userId, agent, message, aiResponse, containsPlanUpdate, now, memoryFails);
        var sid := memory.GetSessionId(userId, agent, now);
        var conversationId := LatestAssistantId(SessionTurns(memory.conversations, sid));
        if conversationId.Some? && conversationId.value != 0 {
          var saved := SaveUpdatedPlanWithVersioning(userId, agent, aiResponse, ModificationSummary(message),
                                                     conversationId.value, planFails);
        }
      }
    }

    /** `get_conversation_history`: the context lookup, then the newest
        `2 * limit` rows of the session read back in order and paired into
        exchanges (PairsBound, PairsOfAlternating, HistoryEndsWithStoredPair). */
    method GetConversationHistory(userId: int, agent: string, limit: int, now: int,
                                  summarizer: SummaryRequest -> LlmReply) returns (pairs: seq<HistoryPair>)
      requires Valid()
      modifies memory`sessions, memory`summaries
      ensures Valid()
      ensures var sid := OpenSession(old(memory.sessions), userId, agent, now).sessionId;
        pairs == Pairs(RecentMessages(memory.conversations, sid, limit))
      ensures limit >= 0 ==> |pairs| <= limit
    {
      var ctx := memory.GetConversationContext(userId, agent, now, summarizer, true);
      var rows := RecentMessages(memory.conversations, ctx.sessionId, limit);
      pairs := PairExchanges(rows);
      PairsBound(rows);
    }
  }

  /** The loop of `get_conversation_history` over rows in chronological
      order: each human row opens an exchange and the next assistant row
      closes it. */
  method PairExchanges(rows: seq<Turn>) returns (pairs: seq<HistoryPair>)
    ensures pairs == Pairs(rows)
  {
    pairs := [];
    var pending: Option<(string, int)> := None;
    var i := 0;
    while i < |rows|
      invariant 0 <= i <= |rows|
      invariant PairRows(rows[..i]) == PairState(pairs, pending)
    {
      assert rows[..i + 1][..i] == rows[..i];
      var row := rows[i];
      if row.kind == Human {
        pending := Some((row.content, row.timestamp));
      } else if pending.Some? {
        pairs := pairs + [HistoryPair(pending.value.0, pending.value.1, row.content, row.containsPlanUpdate)];
        pending := None;
      }
      i := i + 1;
    }
    assert rows[..i] == rows;
  }
}
