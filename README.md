# HealthAgent chat memory and plan versioning, modelled in Dafny

HealthAgent is a Flask back end. It runs three LLM agents (fitness trainer,
nutritionist, health advisor) over a user's profile to produce a base plan.
Users then chat with an agent about that plan. This project models the
bookkeeping around those LLM calls:

- **The conversation store of `HealthAgentMemoryManager`.** Sessions are
  found or created per (user, agent). Each chat turn is stored as a
  human/assistant row pair with consecutive `message_order` numbers. Each
  human turn yields keyword-driven context references. A session with more
  than 20 rows gets a summary. A conversation can be reset.
- **The chat orchestration of `EnhancedChatManager`.** A request is
  validated, its context is assembled, and the model's reply is stored. The
  reply is classified as a plan update or not. A plan update is saved as a
  new current version in `updated_plans`. The manager also pairs history
  rows into exchanges and resets a conversation together with its plans.
- **The profile handling of the plan generator in `Main.py`.** It validates
  the required sections, fills in defaults, maps stress levels, keeps the
  agents' usable answers and derives their file names.

Each SQLite table is a sequence of rows in insertion order (`schema.dfy`).
Each SQL statement is a function over those sequences (`conversation.dfy`,
`plan_versions.dfy`). The classes `Memory.MemoryManager` and
`ChatAgent.ChatManager` hold the tables as fields and apply the statements in
the order the Python code issues them. Their methods are proved against the
table functions, and the lemmas beside those functions state the invariants:

- the rows of a session are numbered 1..n without gaps and alternate human
  and assistant;
- a session has at most one active session summary;
- a (user, agent) pair has at most one current plan row, and it carries the
  pair's highest version.

The parts of the system that are not part of the model become parameters:

- the chat model's reply to a turn (`LlmReply`);
- the summarising model, one function from `SummaryRequest` to `LlmReply`
  per context lookup, so that a call that raised in one lookup may answer in
  the next;
- the current time in whole seconds (`now`);
- the failure of a SQLite transaction (`storageFails`, `memoryFails`,
  `planFails`);
- the agents' answers in `generate_plan`, as (agent, answer) pairs in
  completion order.

Files:

- `wrappers.dfy`: `Option`.
- `text.dfy`: the string operations the code uses. These are ASCII
  `lower()`, substring `in`, slices, `strip()`, `' '.join`, `replace` and
  `str(int)`.
- `schema.dfy`: the table rows.
- `stress.dfy`: both `map_stress_level` functions.
- `plan_detector.dfy`: `detect_plan_update_advanced`.
- `plan_versions.dfy`: the `updated_plans` statements and
  `get_current_plan_context`.
- `conversation.dfy`: the session, conversation, summary and reference
  statements.
- `memory_manager.dfy`: `HealthAgentMemoryManager`.
- `chat_agent.dfy`: `EnhancedChatManager`.
- `profile.dfy`: `validate_user_data`, `process_user_data` and `generate_plan`.

## Model

| member | source | states |
|---|---|---|
| Stress.StressWordScale | Utils/ChatAgent.py:121-124 | Every level gets one of the seven descriptions. Over 1..10 a higher level never gets a milder description. Outside 1..10 the answer is "moderate". Only 1 gives "very low" and only 10 gives "extreme". |
| Stress.ChatStressLevelNonEmpty | Utils/ChatAgent.py:117-120 | The chat variant never answers "". It returns a non-empty string unchanged. |
| Stress.VariantsDiffer | Main.py:68-76 | The two variants agree on every value except `None` and `''`. On those the chat variant says "unknown". The `Main.py` variant says "moderate" for `None` and returns `''` unchanged. |
| PlanDetector.UpdateNeedsLongPlanReply | Utils/ChatAgent.py:319-341 | A reply of at most 800 characters, or one without a plan phrase, is never an update. An update needs a change request in the message or recent messages about changes. With no recent messages, the decision is the four-way conjunction alone. |
| PlanDetector.OnlyLastFourCount | Utils/ChatAgent.py:326-329 | Only the last four context messages affect the decision. |
| PlanDetector.UpdateMonotoneInMessage | Utils/ChatAgent.py:311-313 | Text added around the user's message never withdraws a detected update. Lower-casing and substring search are preserved by concatenation. |
| PlanDetector.UpdateRequestDetected | Utils/ChatAgent.py:298-341 | This is the detector's scenario. The message asks to "update". The reply is over 800 characters, names an "updated plan" and numbers its steps with "1.". That is an update whatever the context. |
| Schema.LatestBasePlan | Utils/ChatAgent.py:152-158 | Gives an `agent_history` row of the pair such that no later row belongs to the pair, so it is the newest. It is `None` exactly when the pair has no base plan. |
| PlanVersions.ClearCurrent | Utils/ChatAgent.py:355-359 | The same rows, where only the pair's rows lose `is_current`. |
| PlanVersions.MaxVersionOf | Utils/ChatAgent.py:362-367 | It is `None` exactly when the pair has no row. Otherwise it is a version of one of the pair's rows, and no row of the pair has a higher one. |
| PlanVersions.LatestCurrent | Utils/ChatAgent.py:133-140 | Gives a current row of the pair, or `None` exactly when the pair has none. |
| PlanVersions.PlanLookup | Utils/ChatAgent.py:126-173 | The answer is an update exactly when the pair has a current row, and it then carries that row's plan and version. Without a current row the answer is the base-plan fallback. It is "no plan" exactly when the pair has neither a current row nor a base plan. |
| PlanVersions.BaseLookup | Utils/ChatAgent.py:152-173 | The fallback: the recommendation of the pair's newest `agent_history` row as version 1, not updated and with no modification note, or "no plan" exactly when the pair has no row. |
| PlanVersions.ClearKeepsMaxVersion | Utils/ChatAgent.py:355-367 | Clearing the flags does not change the highest version. So the version read after the `UPDATE`, and after a reset, continues from the old maximum. |
| PlanVersions.SaveRevisionOutcome | Utils/ChatAgent.py:354-385 | A save appends one row. It is current, belongs to the pair and carries the plan and the summary. Its version is the old maximum + 1. No older row of the pair stays current. Older rows of the pair only lose their flag, and rows of other pairs are unchanged. |
| PlanVersions.FirstRevisionIsVersionOne | Utils/ChatAgent.py:362-367 | A pair without rows gets version 1. |
| PlanVersions.SaveRevisionVersionGrows | Utils/ChatAgent.py:362-385 | The new version exceeds every version the pair had. |
| PlanVersions.SaveThenLookup | Utils/ChatAgent.py:347-389 | The lookup right after a save reports the saved plan as updated, with its summary and version. |
| PlanVersions.ClearThenLookup | Utils/ChatAgent.py:534-538 | After the flags are cleared, the lookup falls back to the newest base plan as version 1, or to "no plan". |
| PlanVersions.OtherPairsUnaffected | Utils/ChatAgent.py:355-385 | A save or a clear for one pair leaves every other pair's lookup as it was. |
| PlanVersions.ClearIdempotent | Utils/ChatAgent.py:534-538 | Clearing twice is clearing once. |
| PlanVersions.SaveKeepsValid | Utils/ChatAgent.py:354-385 | A save keeps at most one current row per pair, holding the pair's highest version. |
| PlanVersions.ClearKeepsValid | Utils/ChatAgent.py:534-538 | A clear keeps that invariant. |
| Conversation.FindActive | Utils/MemoryManager.py:49-55 | Gives an active session of (user, agent) with the latest `last_activity`. It is `None` exactly when there is none. |
| Conversation.Touch | Utils/MemoryManager.py:59-63 | Only the named session's `last_activity` changes. |
| Conversation.OpenSessionKeepsValid | Utils/MemoryManager.py:42-77 | `get_session_id` keeps at most one active session per (user, agent), and keeps session ids unique. |
| Conversation.OpenSessionOutcome | Utils/MemoryManager.py:42-81 | One of two things happens. Either the returned id names the one active session of (user, agent), or the fallback id comes back with the table untouched. A cleared session's id is never returned. |
| Conversation.OpenSessionIdempotent | Utils/MemoryManager.py:42-77 | A second call within the same second returns the same id and leaves the table as it is. |
| Conversation.OpenSessionActiveIds | Utils/MemoryManager.py:42-77 | After the call, every active session of (user, agent) carries the returned id. |
| Conversation.CountPair | Utils/MemoryManager.py:287-292 | Only the named session changes: its count goes up by 2 and its activity time is set. |
| Conversation.MarkCleared | Utils/MemoryManager.py:433-437 | Only the named session changes: its status becomes cleared. |
| Conversation.SessionUpdatesKeepValid | Utils/MemoryManager.py:287-292 | The count update and the status update keep the session invariant. |
| Conversation.ClearedSessionIsNotReopened | Utils/MemoryManager.py:427-437 | After a reset, (user, agent) has no active session. So the next lookup creates a new one. |
| Conversation.ReopenAfterPair | Utils/MemoryManager.py:256-292 | The lookup right after a stored pair returns the same session and changes nothing. |
| Conversation.StoredCountAfterPair | Utils/MemoryManager.py:286-292 | The stored `message_count` goes up by exactly 2 when the session row exists. Otherwise it stays as it was. |
| Conversation.SessionTurns | Utils/MemoryManager.py:133-139 | The rows of one session, taken from the table. |
| Conversation.RemoveSession | Utils/MemoryManager.py:440 | The remaining rows are rows of other sessions. |
| Conversation.SessionTurnsAfterRemove | Utils/MemoryManager.py:440 | The deletion empties the session and leaves every other session's rows as they were. |
| Conversation.MaxOrderNumbered | Utils/MemoryManager.py:262-266 | On a session numbered 1..n, `COALESCE(MAX(message_order), 0)` is n. |
| Conversation.TurnPair | Utils/MemoryManager.py:269-284 | The two inserted rows belong to the session. |
| Conversation.AddPairKeepsWellFormed | Utils/MemoryManager.py:262-284 | The pair lands at the end of its session with orders n+1 and n+2. Every session stays numbered 1..n without gaps and alternating human/assistant. |
| Conversation.PairAppended | Utils/MemoryManager.py:262-284 | The human row (flag false) and the assistant row (given flag) end the session in that order, and other sessions are unchanged. |
| Conversation.RemoveKeepsWellFormed | Utils/MemoryManager.py:440 | The deletion keeps every session well formed. |
| Conversation.LatestAssistantId | Utils/ChatAgent.py:448-454 | Gives the id of an assistant row of the session that no later assistant row follows. It is `None` exactly when the session has no assistant row. |
| Conversation.LatestAssistantHighestOrder | Utils/ChatAgent.py:448-454 | On a session numbered 1..n, that row has the highest `message_order` among the assistant rows, as `ORDER BY message_order DESC LIMIT 1` picks. |
| Conversation.Newest | Utils/MemoryManager.py:133-142 | `ORDER BY ... DESC LIMIT n` read back in order gives the newest min(n, rows) rows as a suffix. A negative limit, which SQLite reads as no limit, gives every row. |
| Conversation.RecentWindowShape | Utils/MemoryManager.py:126-149 | The window holds min(2·limit, n) rows. Their orders are consecutive, ascending and end at the newest. The window starts with a human row and alternates. |
| Conversation.FormatMessages | Utils/MemoryManager.py:391-399 | One message per row, in order, with the content unchanged. The role is "user" exactly for human rows. |
| Conversation.Summarised | Utils/MemoryManager.py:212 | `messages[:-10]` is a prefix holding all rows but the newest ten. |
| Conversation.TranscriptAppend | Utils/MemoryManager.py:211-214 | The transcript of consecutive runs of rows is the concatenation of their transcripts. |
| Conversation.TranscriptBound | Utils/MemoryManager.py:213-214 | The transcript has at most 215 characters per row, because the content is cut to 200. |
| Conversation.TranscriptPrefix | Utils/MemoryManager.py:211-214 | Later rows never change the transcript of earlier ones. |
| Conversation.SummaryPromptCarries | Utils/MemoryManager.py:217-230 | The prompt names the agent and carries the whole transcript. |
| Conversation.LatestActiveSummary | Utils/MemoryManager.py:164-172 | It is `None` exactly when the session has no active session summary. Otherwise it is the content of an active summary of the session that no later active summary follows. |
| Conversation.AddSummaryKeepsValid | Utils/MemoryManager.py:237-241 | Inserting into a session without an active summary keeps at most one active summary per session. |
| Conversation.RemoveSummaries | Utils/MemoryManager.py:441 | The remaining summaries are exactly the other sessions' summaries. |
| Conversation.RemoveSummariesCounts | Utils/MemoryManager.py:441 | The deletion leaves the session no active summary and the others theirs. |
| Conversation.ExtractReferences | Utils/MemoryManager.py:308-344 | At most two rows. A plan row appears exactly when a plan keyword is present and a base plan exists, and it points at that plan with confidence 0.8. A previous-message row appears exactly when a reference keyword is present, with no target and confidence 0.6. Both carry the human turn's id and the first 200 characters. |
| Conversation.SessionReferences | Utils/MemoryManager.py:408-413 | Only references whose turn belongs to the session. |
| Conversation.SessionReferencesComplete | Utils/MemoryManager.py:408-413 | Every reference whose turn belongs to the session is among them. |
| Conversation.SessionReferencesNewestFirst | Utils/MemoryManager.py:410-412 | References recorded later come first: those of `older + newer` are those of `newer` followed by those of `older`. |
| Conversation.RecentReferences | Utils/MemoryManager.py:401-417 | At most `limit` references, all of the session. A reference of the session is left out only when `limit` references were returned. |
| Conversation.OlderReferencesIgnored | Utils/MemoryManager.py:410-412 | Once the later references of the session fill the limit, earlier references make no difference: the newest `limit` are returned. |
| Memory.AddMessageKeepsValid | Utils/MemoryManager.py:253-306 | `add_message` keeps every table invariant, whether or not the transaction fails. |
| Memory.StorePairAppends | Utils/MemoryManager.py:260-299 | The stored pair ends its session: the human row and then the assistant row, numbered after the last row. Other sessions are untouched and the stored count goes up by 2. |
| Memory.AddMessageAfterLookup | Utils/MemoryManager.py:253-256 | `add_message` right after a context lookup stores the pair exactly as without it. |
| Memory.LookupAfterAddMessage | Utils/ChatAgent.py:435-445 | The lookup after `add_message` returns the session the pair went to and changes nothing. |
| Memory.StoredReplyIsLatest | Utils/ChatAgent.py:443-454 | After a stored pair, the newest assistant row of the session is the pair's own. |
| Memory.DropSessionOutcome | Utils/MemoryManager.py:431-445 | The reset session is marked cleared and emptied of rows and of its active summary. Every other session keeps its row, its rows and its counts. The summary rows left are exactly those of other sessions. |
| Memory.ClearSessionKeepsValid | Utils/MemoryManager.py:425-451 | `clear_session` keeps every table invariant. |
| Memory.ClearLeavesNoActiveSession | Utils/MemoryManager.py:425-445 | After a stored reset, (user, agent) has no active session. |
| Memory.SummaryStep | Utils/MemoryManager.py:157-185 | The summary step only appends, and appends at most one row. |
| Memory.SummaryStepTwice | Utils/MemoryManager.py:157-185 | Two summary steps over the same rows, each with its own model call, equal one step whose call is retried once after it raised. The second step adds a summary only when the first call raised and the second answered. A summary the first step wrote is the one the second step finds. |
| Memory.ContextLookupTwice | Utils/MemoryManager.py:353-372 | Two context lookups within the same second, each with its own model call, equal one lookup whose call is retried once. They differ from the first lookup alone only when summaries are included, the first call raised and the second answered. |
| Memory.RenderTranscript | Utils/MemoryManager.py:211-214 | The loop builds exactly the transcript of the rows. |
| Memory.RequestSummary | Utils/MemoryManager.py:199-234 | An empty session gets nothing. Otherwise the model receives the transcript of all rows but the newest ten, and its stripped answer comes back, or `None` when it raised. |
| Memory.MemoryManager.GetSessionId | Utils/MemoryManager.py:42-81 | The id and the table after the call are those of the session lookup, and the invariants hold. |
| Memory.MemoryManager.AddMessage | Utils/MemoryManager.py:253-306 | Reports success exactly when the transaction commits. The tables become the lookup followed by the stored pair, or the lookup alone on a rollback. |
| Memory.MemoryManager.StoreTurnPair | Utils/MemoryManager.py:260-299 | The transaction: the pair, the count update and the references. |
| Memory.MemoryManager.CreateConversationSummary | Utils/MemoryManager.py:193-251 | Gives "" for an empty session or a raised call, and stores nothing then. Otherwise it returns the stripped answer and stores it as the session's active summary. |
| Memory.MemoryManager.GetOrCreateSessionSummary | Utils/MemoryManager.py:157-191 | Returns an existing active summary untouched. Otherwise it returns `None` exactly when the session has at most 20 rows, and a new summary when it has more. |
| Memory.MemoryManager.GetConversationContext | Utils/MemoryManager.py:353-389 | The context's session is the lookup's. Its messages are the formatted window of the last 20 rows. Its summary is the session's (or "" when not requested). It has at most five references of the session, and the stored message count (0 without a row). Only the lookup and the summary step change the tables. |
| Memory.MemoryManager.ClearSession | Utils/MemoryManager.py:425-451 | Reports success exactly when the transaction commits. The tables become the lookup followed by the drop of the session, or the lookup alone. |
| ChatAgent.PairsBound | Utils/ChatAgent.py:501-514 | Never more exchanges than half the rows. |
| ChatAgent.PairsEndWithExchange | Utils/ChatAgent.py:504-514 | A final human row followed by an assistant row makes the last exchange. |
| ChatAgent.PairsOfAlternating | Utils/ChatAgent.py:504-514 | Alternating rows give exchange k from rows 2k and 2k+1, with the assistant row's flag as `isUpdate`. |
| ChatAgent.HistoryEndsWithStoredPair | Utils/ChatAgent.py:482-514 | The history read right after a pair was stored ends with that exchange's text and flag unchanged (limit ≥ 1). |
| ChatAgent.ModificationSummary | Utils/ChatAgent.py:458 | "User requested: " followed by at most 200 characters of the message and "...". |
| ChatAgent.StoredExchangeLinksPlan | Utils/ChatAgent.py:443-461 | When the exchange was stored, a detected update is saved linked to the assistant row just stored. |
| ChatAgent.PairExchanges | Utils/ChatAgent.py:501-514 | The pairing loop computes the exchanges of the rows. |
| ChatAgent.ChatManager.SaveUpdatedPlanWithVersioning | Utils/ChatAgent.py:347-396 | Reports success exactly when the transaction commits. The plan table becomes the saved revision, or stays unchanged on a rollback. |
| ChatAgent.ChatManager.ClearConversation | Utils/ChatAgent.py:524-548 | The memory reset always applies. The plan flags are cleared only when it and the plan update succeed. On success (user, agent) has no active session and the lookup falls back to the base plan. |
| ChatAgent.SeparatorOnlyMessageRejected | Utils/ChatAgent.py:404 | A message holding only the separator U+001F, which `strip()` removes, is invalid input. |
| ChatAgent.ChatManager.GenerateResponse | Utils/ChatAgent.py:398-480 | A request fails as invalid input, as an invalid agent, as a model error or as an empty reply exactly when its condition holds. Invalid requests change nothing, and model failures leave only the two context lookups, each with its own summarising call. Otherwise the stripped reply is returned with the detector's verdict over the window, the session id and the count. The tables become those of `add_message`, committed or rolled back. A plan version is saved exactly for a detected update that can be linked to an assistant row. |
| ChatAgent.ChatManager.LoadContext | Utils/ChatAgent.py:411-413 | The two context lookups of a turn, each with its own summarising call, act as one lookup whose call is retried once. The context is the session's. |
| ChatAgent.ChatManager.BuildPromptContext | Utils/ChatAgent.py:181-187 | The prompt's plan context is the plan lookup, and its context lookup is one more lookup with its own summarising call. |
| ChatAgent.ChatManager.RecordExchange | Utils/ChatAgent.py:434-462 | `add_message`, then a plan version only for a detected update. That version is linked to the session's newest assistant row. |
| ChatAgent.ChatManager.GetConversationHistory | Utils/ChatAgent.py:482-522 | The exchanges of the newest 2·limit rows of the session, and at most `limit` of them. |
| Profile.ErrorMessage | Main.py:30-33 | "Missing section: S" or "Missing field: S.F". |
| Profile.ValidateUserData | Main.py:19-33 | The nested loops stop at the first missing section or field, in the order profile, fitness, nutrition, health. |
| Profile.ValidationPassesIffComplete | Main.py:21-33 | Validation passes exactly when every required section holds all its fields. |
| Profile.ValidationFailsAtFirst | Main.py:28-33 | A failure names the first incomplete requirement, and every earlier one is complete. A missing section is reported before its fields, and a missing field is the first absent one. |
| Profile.EmptyProfileMessage | Main.py:28-30 | An empty profile fails with "Missing section: profile". |
| Profile.RequiredFieldsPresent | Main.py:38-43 | A validated profile holds each required key, so the direct reads succeed. |
| Profile.ProcessUserData | Main.py:35-66 | `None` exactly when validation fails. Otherwise `name` and `goals` are copied and `duration` is 4. |
| Profile.ProcessedFields | Main.py:47-62 | Each optional field is the given value or its default. `sleep_quality` is str(sleep_hours) + " hours". `stress_level` is the mapped value, "moderate" when absent. |
| Profile.Kept | Main.py:98-104 | An answer is kept exactly when it is non-empty and does not contain "Error". |
| Profile.Paths | Main.py:110-111 | One path per kept answer, in the same order. |
| Profile.KeepAccepted | Main.py:98-104 | The collecting loop yields the kept answers in completion order. |
| Profile.PlanPaths | Main.py:110-111 | The saving loop yields each kept answer's path. |
| Profile.GeneratePlan | Main.py:78-119 | There are three outcomes. No user data gives the early return. A non-text name raises. Otherwise the result is the kept answers and their paths. |
| Profile.KeptIsResponses | Main.py:98-101 | With one answer per agent, the kept answers are exactly the `responses` dict: one key per answer, holding it. |
| Profile.LateLabels | Main.py:93-96 | The labels as written: a worker reports the agent name the comprehension reached when the worker read it. |
| Profile.LateBindingLosesAnswers | Main.py:93-101 | When all workers read `name` after the comprehension finished, three accepted answers leave one dict entry, "HealthAdvisor". |
| Profile.UserFileIdShape | Main.py:108 | The file id has the name's length, with no spaces. Spaces become "_" and the other characters are lower-cased. |
| Profile.OutputPathShape | Main.py:111 | A path starts with "dir/" and ends with "_plan.txt". Two agents share a path only when their names agree in lower case. |
| Profile.AgentPathsDistinct | Main.py:84-111 | The three agents' files differ. |

## Findings

| source | as written | input that shows it | evidently intended | confidence | as-written member | corrected member |
|---|---|---|---|---|---|---|
| Main.py:93-101 | The worker's lambda reads the comprehension variable `name` when the worker runs. It does not read it when `executor.submit` is called. | The three agents, with every worker reading `name` after the comprehension has finished. All answers come back labelled "HealthAdvisor", `responses` keeps one entry, and two plans are never saved. | Each answer labelled with its own agent (for instance `lambda a, n=name: (n, a.run())`). | medium, not executed; depends on the thread schedule | Profile.LateBindingLosesAnswers | Profile.KeptIsResponses |

`Profile.GeneratePlan` takes the corrected labelling: its `requires` says that
each agent answers once under its own name.

## Where the code and its description differ

The model follows the code in each case.

- **Resetting a conversation.** The description says a reset marks the
  session cleared. The code first calls `get_session_id`, so resetting a
  (user, agent) pair without an active session creates one and then clears
  it.
- **Context references on reset.** `clear_session` does not delete the
  session's context references. They disappear from the context only
  because the join with `conversations` finds no rows, and only as long as
  conversation ids are not reused (see the `nextTurnId` line below).
- **Plan updates after a failed store.** The description links a saved plan
  to the turn just stored. When `add_message` fails, the code links it to the
  session's newest older assistant row, or saves nothing when there is none.
- **Session ids.** The description asks for collision-free session ids. The
  code composes them from the agent, the user and the epoch second. A second
  session for the same pair within one second collides. The model reads
  the collision as the failing insert that returns the fallback id.
- **Stress levels in `Main.py`.** The description says every non-string
  value outside 1..10 gives "moderate". The Python dict lookup treats `True`
  and `False` as the keys 1 and 0, so `True` gives "very low".

## Left out

- Language-model calls (`ChatOpenAI`, `invoke`) are parameters: the chat reply and the summarising function. Prompt texts other than the summary prompt are left out. So are the truncations inside `create_enhanced_system_prompt` (six messages, 150 and 500 characters), because they only shape template text.
- `get_user_profile_context` and the profile part of the system prompt are left out: they map database rows through `json.loads`.
- `get_session_analytics` is left out (both copies): it relies on datetime parsing and float division.
- `Utils/Agents.py` and the agents' prompts are not part of this model. Their answers are inputs to `Profile.GeneratePlan`.
- `ThreadPoolExecutor` concurrency is reduced to the completion order, taken as given. `os.makedirs`, the plan files' contents, `json.load` and `main` are left out: they are I/O.
- SQLite is reduced to sequences, with one case for a failing transaction. Other exceptions are not modelled: failures inside `get_session_id` other than an id collision, `_get_recent_messages` returning `[]` on error, and a failing summary insert. The same goes for the locking of the second connection that `_extract_context_references` opens inside the outer transaction. The model stores the references in the same transaction.
- `CURRENT_TIMESTAMP` and `created_at` are the `now` parameter, one value per turn. Every `ORDER BY created_at DESC LIMIT 1` is read as the newest row in insertion order.
- `Conversation.OpenSession`: the fallback id is returned only for a colliding id. This assumes a UNIQUE constraint on `session_id`; the schema is not part of this model.
- Memory.MemoryManager.CreateConversationSummary: deactivating earlier summaries is not modelled. The code never does it, and its one caller only creates a summary when there is no active one.
- Text.Lower: lower-casing covers ASCII letters only. Python's Unicode `lower()` is not modelled; the Persian keywords have no case. `Text.Strip` removes the characters Python's `str.isspace()` accepts, the separators U+001C to U+001F included.
- `Memory.Tables.nextTurnId`: conversation ids are never reused, as with `INTEGER PRIMARY KEY AUTOINCREMENT`. The table definition is not part of this model. With a plain `INTEGER PRIMARY KEY`, SQLite may hand a deleted row's id to a new row, and a stale context reference would then join with that new row.
- `temporal_keywords` in `_extract_context_references` is never used by the code, so it is not modelled.
- `Schema.Value` has text, integers, booleans and `None`. Floats, lists and nested objects in a profile are not modelled, and every profile section is taken to be an object.
- ChatAgent.ChatManager.GenerateResponse: exceptions other than a raised or empty model reply are not modelled. The `thread_id` argument is not modelled because the code never reads it.
- Profile.GeneratePlan: `user_data.get('name', 'user')` is modelled only for a present name. The processed profile always has one.
