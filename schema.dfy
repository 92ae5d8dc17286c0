/** The rows of the SQLite tables the core reads and writes, as values.
    Each table becomes a sequence of rows in insertion order, which is also
    the order of their `created_at` timestamps. */
module Schema {
  import opened Wrappers

  /** A JSON or column value as the Python code sees it. */
  datatype Value = Str(s: string) | Int(i: int) | Bool(b: bool) | Null

  datatype SessionStatus = Active | Cleared

  /** A row of `conversation_sessions`. */
  datatype Session = Session(
    sessionId: string,
    userId: int,
    agent: string,
    name: string,
    status: SessionStatus,
    lastActivity: int,
    messageCount: int)

  /** The two values `add_message` ever writes to `message_type`. */
  datatype MessageType = Human | Assistant

  /** A row of `conversations`: one turn of a session. */
  datatype Turn = Turn(
    id: nat,
    sessionId: string,
    userId: int,
    agent: string,
    kind: MessageType,
    content: string,
    order: int,
    timestamp: int,
    containsPlanUpdate: bool)

  /** `summary_type`: the memory manager writes and reads only
      'session_summary'; any other value stands for rows of other kinds. */
  datatype SummaryKind = SessionSummary | OtherSummary(name: string)

  /** A row of `memory_summaries`. */
  datatype Summary = Summary(
    sessionId: string,
    userId: int,
    agent: string,
    kind: SummaryKind,
    content: string,
    isActive: bool)

  datatype ReferenceKind = PlanReference | PreviousMessage

  /** A row of `context_references`; `confidence` is in hundredths
      (80 stands for 0.8). */
  datatype ContextRef = ContextRef(
    conversationId: nat,
    kind: ReferenceKind,
    referenceId: Option<nat>,
    text: string,
    confidence: nat)

  /** A row of `agent_history`: a base plan generated outside the chat core. */
  datatype BasePlan = BasePlan(id: nat, userId: int, agent: string, recommendation: string)

  /** A row of `updated_plans`: one version of a revised plan. */
  datatype PlanRow = PlanRow(
    id: nat,
    userId: int,
    agent: string,
    originalPlanId: Option<nat>,
    plan: string,
    modificationSummary: string,
    conversationId: nat,
    version: int,
    isCurrent: bool)

  /** Role of a formatted memory message (`'user'` or `'assistant'`). */
  datatype ChatRole = User | AssistantRole

  /** A message as handed to prompt construction: `{'role', 'content'}`. */
  datatype ChatMessage = ChatMessage(role: ChatRole, content: string)

  /** The outcome of one call to the language model: its text, or an exception. */
  datatype LlmReply = Reply(content: string) | Raised

  /** The newest `agent_history` row of (user, agent): `ORDER BY created_at
      DESC LIMIT 1`. */
  function LatestBasePlan(history: seq<BasePlan>, userId: int, agent: string): (r: Option<BasePlan>)
    ensures r.Some? ==> r.value in history && r.value.userId == userId && r.value.agent == agent
    ensures r.None? <==> forall i | 0 <= i < |history| :: history[i].userId != userId || history[i].agent != agent
    ensures r.Some? ==> exists i | 0 <= i < |history| :: history[i] == r.value && NoBasePlanAfter(history, i, userId, agent)
  {
    if history == [] then None
    else
      var n := |history| - 1;
      if history[n].userId == userId && history[n].agent == agent then Some(history[n])
      else
        var r := LatestBasePlan(history[..n], userId, agent);
        assert forall i | 0 <= i < n :: history[..n][i] == history[i];
        assert forall i | 0 <= i < n && NoBasePlanAfter(history[..n], i, userId, agent) ::
          NoBasePlanAfter(history, i, userId, agent);
        r
  }

  /** No row of (user, agent) was inserted after position `i`. */
  predicate NoBasePlanAfter(history: seq<BasePlan>, i: nat, userId: int, agent: string) {
    forall j | i < j < |history| :: history[j].userId != userId || history[j].agent != agent
  }

  /** The id of that row, or `None`. */
  function LatestBasePlanId(history: seq<BasePlan>, userId: int, agent: string): Option<nat> {
    match LatestBasePlan(history, userId, agent)
    case Some(b) => Some(b.id)
    case None => None
  }
}
