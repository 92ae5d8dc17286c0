/** The session registry and conversation memory as queries and updates over
    the tables `conversation_sessions`, `conversations`, `memory_summaries`
    and `context_references`. Each SQL statement of the memory manager is one
    function here; the class in module Memory applies them in the order the
    Python code issues them. */
module Conversation {
  import opened Wrappers
  import opened Text
  import opened Schema

  // ---------------------------------------------------------------------
  // Sessions
  // ---------------------------------------------------------------------

  predicate IsActiveFor(s: Session, userId: int, agent: string) {
    s.status == Active && s.userId == userId && s.agent == agent
  }

  /** The active session of (user, agent) with the latest `last_activity`
      (`ORDER BY last_activity DESC LIMIT 1`; on a tie, the later row). */
  function FindActive(sessions: seq<Session>, userId: int, agent: string): (r: Option<nat>)
    ensures r.Some? ==> r.value < |sessions| && IsActiveFor(sessions[r.value], userId, agent)
    ensures r.Some? ==> forall i | 0 <= i < |sessions| && IsActiveFor(sessions[i], userId, agent) ::
              sessions[i].lastActivity <= sessions[r.value].lastActivity
    ensures r.None? <==> forall i | 0 <= i < |sessions| :: !IsActiveFor(sessions[i], userId, agent)
  {
    if sessions == [] then None
    else
      var n := |sessions| - 1;
      var best := FindActive(sessions[..n], userId, agent);
      assert forall i | 0 <= i < n :: sessions[..n][i] == sessions[i];
      if IsActiveFor(sessions[n], userId, agent)
         && (best.None? || sessions[best.value].lastActivity <= sessions[n].lastActivity)
      then Some(n)
      else best
  }

  /** `f"{agent_type}_{user_id}_{int(datetime.now().timestamp())}"` */
  function NewSessionId(agent: string, userId: int, epoch: int): string {
    agent + "_" + IntToString(userId) + "_" + IntToString(epoch)
  }

  /** `f"fallback_{agent_type}_{user_id}"`, returned when the store fails. */
  function FallbackSessionId(agent: string, userId: int): string {
    "fallback_" + agent + "_" + IntToString(userId)
  }

  predicate HasSessionId(sessions: seq<Session>, sid: string) {
    exists i | 0 <= i < |sessions| :: sessions[i].sessionId == sid
  }

  /** `UPDATE conversation_sessions SET last_activity = now WHERE session_id = sid` */
  function Touch(sessions: seq<Session>, sid: string, now: int): (r: seq<Session>)
    ensures |r| == |sessions|
    ensures forall i | 0 <= i < |r| ::
              r[i] == if sessions[i].sessionId == sid then sessions[i].(lastActivity := now) else sessions[i]
  {
    seq(|sessions|, i requires 0 <= i < |sessions| =>
      if sessions[i].sessionId == sid then sessions[i].(lastActivity := now) else sessions[i])
  }

  /** The session id `get_session_id` returns and the session table after it. */
  datatype Opened = Opened(sessionId: string, sessions: seq<Session>)

  /** `get_session_id`: reuse and refresh the active session of (user, agent),
      or insert a new active one with a zero message count. An id that is
      already taken makes the insert fail, and the fallback id is returned
      with the table unchanged. */
  function OpenSession(sessions: seq<Session>, userId: int, agent: string, now: int): Opened {
    match FindActive(sessions, userId, agent)
    case Some(i) =>
      Opened(sessions[i].sessionId, Touch(sessions, sessions[i].sessionId, now))
    case None =>
      var id := NewSessionId(agent, userId, now);
      if HasSessionId(sessions, id) then Opened(FallbackSessionId(agent, userId), sessions)
      else Opened(id, sessions + [Session(id, userId, agent, agent + " Chat Session", Active, now, 0)])
  }

  /** At most one active session per (user, agent), and session ids are keys. */
  ghost predicate SessionsValid(sessions: seq<Session>) {
    && (forall i, j | 0 <= i < |sessions| && 0 <= j < |sessions| ::
          sessions[i].status == Active && IsActiveFor(sessions[j], sessions[i].userId, sessions[i].agent) ==> i == j)
    && (forall i, j | 0 <= i < |sessions| && 0 <= j < |sessions| ::
          sessions[i].sessionId == sessions[j].sessionId ==> i == j)
  }

  lemma OpenSessionKeepsValid(sessions: seq<Session>, userId: int, agent: string, now: int)
    requires SessionsValid(sessions)
    ensures SessionsValid(OpenSession(sessions, userId, agent, now).sessions)
  {
    var o := OpenSession(sessions, userId, agent, now);
    if FindActive(sessions, userId, agent).Some? {
      assert forall k | 0 <= k < |o.sessions| ::
        o.sessions[k].(lastActivity := sessions[k].lastActivity) == sessions[k];
    }
  }

  /** A session is found or created for the caller: the returned id names the
      one active session of (user, agent), unless the fallback id is returned
      with the table untouched; either way no cleared session id is reused. */
  lemma OpenSessionOutcome(sessions: seq<Session>, userId: int, agent: string, now: int)
    requires SessionsValid(sessions)
    ensures var o := OpenSession(sessions, userId, agent, now);
      || (o.sessionId == FallbackSessionId(agent, userId) && o.sessions == sessions)
      || (exists i | 0 <= i < |o.sessions| :: o.sessions[i].sessionId == o.sessionId
            && IsActiveFor(o.sessions[i], userId, agent)
            && forall j | 0 <= j < |o.sessions| && IsActiveFor(o.sessions[j], userId, agent) :: j == i)
    ensures var o := OpenSession(sessions, userId, agent, now);
      o.sessionId == FallbackSessionId(agent, userId)
      || forall i | 0 <= i < |sessions| && sessions[i].status == Cleared :: sessions[i].sessionId != o.sessionId
  {
    var o := OpenSession(sessions, userId, agent, now);
    match FindActive(sessions, userId, agent)
    case Some(i) =>
      assert o.sessions[i].sessionId == o.sessionId && IsActiveFor(o.sessions[i], userId, agent);
    case None =>
      var id := NewSessionId(agent, userId, now);
      if !HasSessionId(sessions, id) {
        var n := |sessions|;
        assert o.sessions[n].sessionId == o.sessionId && IsActiveFor(o.sessions[n], userId, agent);
      }
  }

  /** Calling `get_session_id` twice within the same second has the effect of
      one call: same id, same table. */
  lemma OpenSessionIdempotent(sessions: seq<Session>, userId: int, agent: string, now: int)
    requires SessionsValid(sessions)
    ensures var o := OpenSession(sessions, userId, agent, now);
      OpenSession(o.sessions, userId, agent, now) == o
  {
    match FindActive(sessions, userId, agent)
    case Some(i) => ReopenFound(sessions, userId, agent, now, i);
    case None =>
      if !HasSessionId(sessions, NewSessionId(agent, userId, now)) {
        ReopenCreated(sessions, userId, agent, now);
      }
  }

  lemma ReopenFound(sessions: seq<Session>, userId: int, agent: string, now: int, i: nat)
    requires SessionsValid(sessions)
    requires FindActive(sessions, userId, agent) == Some(i)
    ensures var o := OpenSession(sessions, userId, agent, now);
      OpenSession(o.sessions, userId, agent, now) == o
  {
    var sid := sessions[i].sessionId;
    var t := Touch(sessions, sid, now);
    var k := FindActive(t, userId, agent);
    assert IsActiveFor(t[i], userId, agent);
    assert IsActiveFor(sessions[k.value], userId, agent);
    assert k == Some(i);
    assert Touch(t, sid, now) == t;
  }

  lemma ReopenCreated(sessions: seq<Session>, userId: int, agent: string, now: int)
    requires FindActive(sessions, userId, agent).None?
    requires !HasSessionId(sessions, NewSessionId(agent, userId, now))
    ensures var o := OpenSession(sessions, userId, agent, now);
      OpenSession(o.sessions, userId, agent, now) == o
  {
    var id := NewSessionId(agent, userId, now);
    var t := sessions + [Session(id, userId, agent, agent + " Chat Session", Active, now, 0)];
    var n := |sessions|;
    var k := FindActive(t, userId, agent);
    assert IsActiveFor(t[n], userId, agent);
    assert IsActiveFor(t[k.value], userId, agent);
    assert k == Some(n);
    assert Touch(t, id, now) == t;
  }

  /** `UPDATE conversation_sessions SET message_count = message_count + 2,
      last_activity = now WHERE session_id = sid` */
  function CountPair(sessions: seq<Session>, sid: string, now: int): (r: seq<Session>)
    ensures |r| == |sessions|
    ensures forall i | 0 <= i < |r| ::
              r[i] == if sessions[i].sessionId == sid
                      then sessions[i].(messageCount := sessions[i].messageCount + 2, lastActivity := now)
                      else sessions[i]
  {
    seq(|sessions|, i requires 0 <= i < |sessions| =>
      if sessions[i].sessionId == sid
      then sessions[i].(messageCount := sessions[i].messageCount + 2, lastActivity := now)
      else sessions[i])
  }

  /** `UPDATE conversation_sessions SET status = 'cleared' WHERE session_id = sid` */
  function MarkCleared(sessions: seq<Session>, sid: string): (r: seq<Session>)
    ensures |r| == |sessions|
    ensures forall i | 0 <= i < |r| ::
              r[i] == if sessions[i].sessionId == sid then sessions[i].(status := Cleared) else sessions[i]
  {
    seq(|sessions|, i requires 0 <= i < |sessions| =>
      if sessions[i].sessionId == sid then sessions[i].(status := Cleared) else sessions[i])
  }

  lemma SessionUpdatesKeepValid(sessions: seq<Session>, sid: string, now: int)
    requires SessionsValid(sessions)
    ensures SessionsValid(CountPair(sessions, sid, now))
    ensures SessionsValid(MarkCleared(sessions, sid))
  {
  }

  /** Every active session of (user, agent) after `get_session_id` carries the
      id it returned. */
  lemma OpenSessionActiveIds(sessions: seq<Session>, userId: int, agent: string, now: int)
    requires SessionsValid(sessions)
    ensures var o := OpenSession(sessions, userId, agent, now);
      forall j | 0 <= j < |o.sessions| && IsActiveFor(o.sessions[j], userId, agent) ::
        o.sessions[j].sessionId == o.sessionId
  {
    var o := OpenSession(sessions, userId, agent, now);
    match FindActive(sessions, userId, agent)
    case Some(i) =>
      forall j | 0 <= j < |o.sessions| && IsActiveFor(o.sessions[j], userId, agent)
        ensures o.sessions[j].sessionId == o.sessionId
      {
        assert IsActiveFor(sessions[j], userId, agent);
      }
    case None =>
  }

  /** After a reset, (user, agent) has no active session left, so the next
      `get_session_id` opens a new one. */
  lemma ClearedSessionIsNotReopened(sessions: seq<Session>, userId: int, agent: string, now: int)
    requires SessionsValid(sessions)
    ensures var o := OpenSession(sessions, userId, agent, now);
      FindActive(MarkCleared(o.sessions, o.sessionId), userId, agent).None?
  {
    OpenSessionActiveIds(sessions, userId, agent, now);
  }

  /** Two session tables that differ at most in counters and activity times. */
  predicate SameKeys(a: seq<Session>, b: seq<Session>) {
    && |a| == |b|
    && forall k | 0 <= k < |a| ::
         a[k].sessionId == b[k].sessionId && a[k].status == b[k].status
         && a[k].userId == b[k].userId && a[k].agent == b[k].agent
  }

  /** `get_session_id` right after `add_message` stored a pair returns the
      same id and leaves the table as it is. */
  lemma ReopenAfterPair(sessions: seq<Session>, userId: int, agent: string, now: int)
    requires SessionsValid(sessions)
    ensures var o := OpenSession(sessions, userId, agent, now);
      var c := CountPair(o.sessions, o.sessionId, now);
      OpenSession(c, userId, agent, now) == Opened(o.sessionId, c)
  {
    match FindActive(OpenSession(sessions, userId, agent, now).sessions, userId, agent)
    case Some(i) => ReopenActiveAfterPair(sessions, userId, agent, now, i);
    case None => ReopenNewAfterPair(sessions, userId, agent, now);
  }

  lemma ReopenActiveAfterPair(sessions: seq<Session>, userId: int, agent: string, now: int, i: nat)
    requires SessionsValid(sessions)
    requires FindActive(OpenSession(sessions, userId, agent, now).sessions, userId, agent) == Some(i)
    ensures var o := OpenSession(sessions, userId, agent, now);
      var c := CountPair(o.sessions, o.sessionId, now);
      OpenSession(c, userId, agent, now) == Opened(o.sessionId, c)
  {
    var o := OpenSession(sessions, userId, agent, now);
    var c := CountPair(o.sessions, o.sessionId, now);
    OpenSessionKeepsValid(sessions, userId, agent, now);
    assert SameKeys(o.sessions, c);
    OpenSessionActiveIds(sessions, userId, agent, now);
    var k := FindActive(c, userId, agent);
    assert IsActiveFor(c[i], userId, agent);
    assert IsActiveFor(o.sessions[k.value], userId, agent);
    assert Touch(c, o.sessionId, now) == c;
  }

  lemma ReopenNewAfterPair(sessions: seq<Session>, userId: int, agent: string, now: int)
    requires SessionsValid(sessions)
    requires FindActive(OpenSession(sessions, userId, agent, now).sessions, userId, agent).None?
    ensures var o := OpenSession(sessions, userId, agent, now);
      var c := CountPair(o.sessions, o.sessionId, now);
      OpenSession(c, userId, agent, now) == Opened(o.sessionId, c)
  {
    var o := OpenSession(sessions, userId, agent, now);
    var c := CountPair(o.sessions, o.sessionId, now);
    OpenSessionKeepsValid(sessions, userId, agent, now);
    assert SameKeys(o.sessions, c);
    OpenSessionOutcome(sessions, userId, agent, now);
    assert FindActive(c, userId, agent).None?;
    assert o.sessions == sessions;
    assert HasSessionId(c, NewSessionId(agent, userId, now)) == HasSessionId(sessions, NewSessionId(agent, userId, now));
  }

  /** `SELECT message_count FROM conversation_sessions WHERE session_id = ?`,
      or 0 when no row matches. */
  function StoredMessageCount(sessions: seq<Session>, sid: string): int {
    if sessions == [] then 0
    else if sessions[0].sessionId == sid then sessions[0].messageCount
    else StoredMessageCount(sessions[1..], sid)
  }

  /** The count update reaches the row `StoredMessageCount` reads: its count
      goes up by 2 when the id is in the table, and stays 0 otherwise. */
  lemma {:induction false} StoredCountAfterPair(sessions: seq<Session>, sid: string, now: int)
    ensures StoredMessageCount(CountPair(sessions, sid, now), sid)
            == StoredMessageCount(sessions, sid) + (if HasSessionId(sessions, sid) then 2 else 0)
  {
    if sessions != [] {
      var r := CountPair(sessions, sid, now);
      if sessions[0].sessionId == sid {
        assert r[0].sessionId == sid;
      } else {
        assert r[1..] == CountPair(sessions[1..], sid, now);
        StoredCountAfterPair(sessions[1..], sid, now);
        if HasSessionId(sessions, sid) {
          var i :| 0 <= i < |sessions| && sessions[i].sessionId == sid;
          assert sessions[1..][i - 1].sessionId == sid;
        }
        if HasSessionId(sessions[1..], sid) {
          var i :| 0 <= i < |sessions[1..]| && sessions[1..][i].sessionId == sid;
          assert sessions[i + 1].sessionId == sid;
        }
      }
    }
  }

  // ---------------------------------------------------------------------
  // Turns
  // ---------------------------------------------------------------------

  /** The rows of one session: `WHERE session_id = sid`, in insertion order. */
  function SessionTurns(turns: seq<Turn>, sid: string): (r: seq<Turn>)
    ensures |r| <= |turns|
    ensures forall t | t in r :: t in turns && t.sessionId == sid
  {
    if turns == [] then []
    else
      var n := |turns| - 1;
      SessionTurns(turns[..n], sid) + (if turns[n].sessionId == sid then [turns[n]] else [])
  }

  lemma {:induction false} SessionTurnsAppend(turns: seq<Turn>, extra: seq<Turn>, sid: string)
    ensures SessionTurns(turns + extra, sid) == SessionTurns(turns, sid) + SessionTurns(extra, sid)
    decreases |extra|
  {
    if extra == [] {
      assert turns + extra == turns;
    } else {
      var n := |extra| - 1;
      var all := turns + extra;
      assert all[..|all| - 1] == turns + extra[..n];
      SessionTurnsAppend(turns, extra[..n], sid);
      var x := if extra[n].sessionId == sid then [extra[n]] else [];
      calc {
        SessionTurns(all, sid);
        SessionTurns(turns + extra[..n], sid) + x;
        SessionTurns(turns, sid) + SessionTurns(extra[..n], sid) + x;
        SessionTurns(turns, sid) + SessionTurns(extra, sid);
      }
    }
  }

  /** `DELETE FROM conversations WHERE session_id = sid` */
  function RemoveSession(turns: seq<Turn>, sid: string): (r: seq<Turn>)
    ensures forall t | t in r :: t in turns && t.sessionId != sid
  {
    if turns == [] then []
    else
      var n := |turns| - 1;
      RemoveSession(turns[..n], sid) + (if turns[n].sessionId != sid then [turns[n]] else [])
  }

  /** Deleting a session's rows empties that session and leaves every other
      session's rows as they were. */
  lemma {:induction false} SessionTurnsAfterRemove(turns: seq<Turn>, sid: string, other: string)
    ensures SessionTurns(RemoveSession(turns, sid), other) == if other == sid then [] else SessionTurns(turns, other)
  {
    if turns != [] {
      var n := |turns| - 1;
      SessionTurnsAfterRemove(turns[..n], sid, other);
      var x := turns[n];
      SessionTurnsAppend(RemoveSession(turns[..n], sid), if x.sessionId != sid then [x] else [], other);
    }
  }

  /** `message_order` numbers the rows of a session 1, 2, 3, ... */
  ghost predicate Numbered(ts: seq<Turn>) {
    forall k | 0 <= k < |ts| :: ts[k].order == k + 1
  }

  /** Human and assistant rows alternate, starting with a human row, and
      every human row has its assistant row. */
  ghost predicate Paired(ts: seq<Turn>) {
    && |ts| % 2 == 0
    && forall k | 0 <= k < |ts| :: ts[k].kind == if k % 2 == 0 then Human else Assistant
  }

  ghost predicate WellFormed(ts: seq<Turn>) {
    Numbered(ts) && Paired(ts)
  }

  /** Every session of the table is well formed. */
  ghost predicate TurnsWellFormed(turns: seq<Turn>) {
    forall sid :: WellFormed(SessionTurns(turns, sid))
  }

  /** `COALESCE(MAX(message_order), 0)` over the rows of a session. */
  function MaxOrder(ts: seq<Turn>): int {
    if ts == [] then 0
    else if |ts| == 1 then ts[0].order
    else
      var m := MaxOrder(ts[..|ts| - 1]);
      if m < ts[|ts| - 1].order then ts[|ts| - 1].order else m
  }

  lemma {:induction false} MaxOrderNumbered(ts: seq<Turn>)
    requires Numbered(ts)
    ensures MaxOrder(ts) == |ts|
  {
    if |ts| > 1 {
      var p := ts[..|ts| - 1];
      assert Numbered(p) by {
        forall k | 0 <= k < |p| ensures p[k].order == k + 1 { assert p[k] == ts[k]; }
      }
      MaxOrderNumbered(p);
    }
  }

  /** The two rows `add_message` inserts: the human row at order max+1 with a
      false flag, then the assistant row at max+2 with the given flag. */
  function TurnPair(turns: seq<Turn>, firstId: nat, sid: string, userId: int, agent: string,
                    human: string, ai: string, containsPlanUpdate: bool, now: int): (r: seq<Turn>)
    ensures |r| == 2 && r[0].sessionId == sid && r[1].sessionId == sid
  {
    var next := MaxOrder(SessionTurns(turns, sid)) + 1;
    [Turn(firstId, sid, userId, agent, Human, human, next, now, false),
     Turn(firstId + 1, sid, userId, agent, Assistant, ai, next + 1, now, containsPlanUpdate)]
  }

  lemma TurnPairRows(turns: seq<Turn>, firstId: nat, sid: string, userId: int, agent: string,
                     human: string, ai: string, containsPlanUpdate: bool, now: int, s: string)
    ensures var pair := TurnPair(turns, firstId, sid, userId, agent, human, ai, containsPlanUpdate, now);
      SessionTurns(pair, s) == if s == sid then pair else []
  {
    var pair := TurnPair(turns, firstId, sid, userId, agent, human, ai, containsPlanUpdate, now);
    assert pair[..1][..0] == [];
    assert pair[..1] == [pair[0]];
  }

  /** Appending a turn pair keeps every session numbered 1..n without gaps and
      alternating; the pair lands at the end of its own session with orders
      n+1 and n+2. */
  lemma AddPairKeepsWellFormed(turns: seq<Turn>, firstId: nat, sid: string, userId: int, agent: string,
                               human: string, ai: string, containsPlanUpdate: bool, now: int)
    requires TurnsWellFormed(turns)
    ensures var pair := TurnPair(turns, firstId, sid, userId, agent, human, ai, containsPlanUpdate, now);
      && SessionTurns(turns + pair, sid) == SessionTurns(turns, sid) + pair
      && pair[0].order == |SessionTurns(turns, sid)| + 1
      && pair[1].order == |SessionTurns(turns, sid)| + 2
      && TurnsWellFormed(turns + pair)
  {
    var pair := TurnPair(turns, firstId, sid, userId, agent, human, ai, containsPlanUpdate, now);
    var ts := SessionTurns(turns, sid);
    assert WellFormed(ts);
    MaxOrderNumbered(ts);
    TurnPairRows(turns, firstId, sid, userId, agent, human, ai, containsPlanUpdate, now, sid);
    SessionTurnsAppend(turns, pair, sid);
    forall s ensures WellFormed(SessionTurns(turns + pair, s)) {
      SessionTurnsAppend(turns, pair, s);
      TurnPairRows(turns, firstId, sid, userId, agent, human, ai, containsPlanUpdate, now, s);
      assert WellFormed(SessionTurns(turns, s));
      if s == sid {
        PairedExtend(ts, pair);
      } else {
        assert SessionTurns(turns, s) + [] == SessionTurns(turns, s);
      }
    }
  }

  /** The pair appended by `add_message`, row by row: the human row and the
      assistant row close the session numbered after its last row, and
      every other session keeps its rows. */
  lemma PairAppended(turns: seq<Turn>, firstId: nat, sid: string, userId: int, agent: string,
                     human: string, ai: string, containsPlanUpdate: bool, now: int)
    requires TurnsWellFormed(turns)
    ensures var after := turns + TurnPair(turns, firstId, sid, userId, agent, human, ai, containsPlanUpdate, now);
      var before := SessionTurns(turns, sid);
      && SessionTurns(after, sid)
           == before + [Turn(firstId, sid, userId, agent, Human, human, |before| + 1, now, false),
                        Turn(firstId + 1, sid, userId, agent, Assistant, ai, |before| + 2, now, containsPlanUpdate)]
      && forall s | s != sid :: SessionTurns(after, s) == SessionTurns(turns, s)
  {
    var pair := TurnPair(turns, firstId, sid, userId, agent, human, ai, containsPlanUpdate, now);
    AddPairKeepsWellFormed(turns, firstId, sid, userId, agent, human, ai, containsPlanUpdate, now);
    forall s | s != sid
      ensures SessionTurns(turns + pair, s) == SessionTurns(turns, s)
    {
      SessionTurnsAppend(turns, pair, s);
      TurnPairRows(turns, firstId, sid, userId, agent, human, ai, containsPlanUpdate, now, s);
      assert SessionTurns(turns, s) + [] == SessionTurns(turns, s);
    }
  }

  lemma PairedExtend(ts: seq<Turn>, pair: seq<Turn>)
    requires WellFormed(ts) && |pair| == 2
    requires pair[0].kind == Human && pair[1].kind == Assistant
    requires pair[0].order == |ts| + 1 && pair[1].order == |ts| + 2
    ensures WellFormed(ts + pair)
  {
    var r := ts + pair;
    forall k | 0 <= k < |r|
      ensures r[k].order == k + 1
      ensures r[k].kind == if k % 2 == 0 then Human else Assistant
    {
      if k < |ts| { assert r[k] == ts[k]; }
    }
  }

  /** Deleting a session's rows keeps every session well formed. */
  lemma RemoveKeepsWellFormed(turns: seq<Turn>, sid: string)
    requires TurnsWellFormed(turns)
    ensures TurnsWellFormed(RemoveSession(turns, sid))
  {
    forall s ensures WellFormed(SessionTurns(RemoveSession(turns, sid), s)) {
      SessionTurnsAfterRemove(turns, sid, s);
      assert WellFormed(SessionTurns(turns, s));
    }
  }

  /** The id of the newest assistant row of a session (`WHERE message_type =
      'assistant' ORDER BY message_order DESC LIMIT 1`), or `None`. The rows
      of a session are in `message_order` order (`Numbered`), so the newest
      is the last one. */
  function LatestAssistantId(ts: seq<Turn>): (r: Option<nat>)
    ensures r.None? <==> forall k | 0 <= k < |ts| :: ts[k].kind != Assistant
    ensures r.Some? ==> exists k | 0 <= k < |ts| ::
      ts[k].kind == Assistant && ts[k].id == r.value && NoAssistantAfter(ts, k)
  {
    if ts == [] then None
    else
      var n := |ts| - 1;
      if ts[n].kind == Assistant then Some(ts[n].id)
      else
        var r := LatestAssistantId(ts[..n]);
        assert forall k | 0 <= k < n :: ts[..n][k] == ts[k];
        assert forall k | 0 <= k < n && NoAssistantAfter(ts[..n], k) :: NoAssistantAfter(ts, k);
        r
  }

  /** No assistant row follows position `k`. */
  predicate NoAssistantAfter(ts: seq<Turn>, k: nat) {
    forall j | k < j < |ts| :: ts[j].kind != Assistant
  }

  /** In a session numbered by `message_order`, the row `LatestAssistantId`
      picks has the highest order of all its assistant rows. */
  lemma LatestAssistantHighestOrder(ts: seq<Turn>)
    requires Numbered(ts)
    ensures var r := LatestAssistantId(ts);
      r.Some? ==> exists k | 0 <= k < |ts| ::
        && ts[k].kind == Assistant && ts[k].id == r.value
        && forall j | 0 <= j < |ts| && ts[j].kind == Assistant :: ts[j].order <= ts[k].order
  {
    var r := LatestAssistantId(ts);
    if r.Some? {
      var k :| 0 <= k < |ts| && ts[k].kind == Assistant && ts[k].id == r.value && NoAssistantAfter(ts, k);
      assert forall j | 0 <= j < |ts| && ts[j].kind == Assistant :: j <= k;
    }
  }

  /** The last `n` rows, `ORDER BY message_order DESC LIMIT n` read back in
      chronological order; a negative SQLite LIMIT means no limit. */
  function Newest<T>(xs: seq<T>, n: int): (r: seq<T>)
    ensures |r| <= |xs| && r == xs[|xs| - |r|..]
    ensures n < 0 ==> r == xs
    ensures n >= 0 ==> |r| == if |xs| <= n then |xs| else n
  {
    if n < 0 || |xs| <= n then xs else xs[|xs| - n..]
  }

  /** `_get_recent_messages(session_id, limit)`: the window of the last
      `2 * limit` rows of the session. */
  function RecentMessages(turns: seq<Turn>, sid: string, limit: int): seq<Turn> {
    Newest(SessionTurns(turns, sid), limit * 2)
  }

  /** The recent window of a well-formed session holds min(2 * limit, n) rows,
      numbered consecutively in ascending order up to the newest, and it
      starts with a human row and alternates. */
  lemma RecentWindowShape(turns: seq<Turn>, sid: string, limit: nat)
    requires TurnsWellFormed(turns)
    ensures var ts := SessionTurns(turns, sid);
      var w := RecentMessages(turns, sid, limit);
      && |w| == (if |ts| <= 2 * limit then |ts| else 2 * limit)
      && (forall k | 0 <= k < |w| :: w[k].order == |ts| - |w| + k + 1)
      && Paired(w)
  {
    var ts := SessionTurns(turns, sid);
    assert WellFormed(ts);
    var w := RecentMessages(turns, sid, limit);
    forall k | 0 <= k < |w|
      ensures w[k].order == |ts| - |w| + k + 1
      ensures w[k].kind == if k % 2 == 0 then Human else Assistant
    {
      assert w[k] == ts[|ts| - |w| + k];
    }
  }

  /** `_format_memory_messages` over the loaded window: human rows become
      `'user'` messages and every other row an `'assistant'` message, in
      order and with the content unchanged. */
  function FormatMessages(ts: seq<Turn>): (r: seq<ChatMessage>)
    ensures |r| == |ts|
    ensures forall k | 0 <= k < |ts| ::
              r[k].content == ts[k].content && (r[k].role == User <==> ts[k].kind == Human)
  {
    if ts == [] then []
    else
      var n := |ts| - 1;
      FormatMessages(ts[..n]) + [ChatMessage(if ts[n].kind == Human then User else AssistantRole, ts[n].content)]
  }

  // ---------------------------------------------------------------------
  // Summaries
  // ---------------------------------------------------------------------

  const SessionSummaryKind := SessionSummary

  /** More rows than this and a session gets a summary. */
  const SummaryThreshold := 20

  /** The newest rows left out of the summary transcript. */
  const UnsummarisedTail := 10

  /** One transcript line: `f"{role}: {content[:200]}...\n"`. */
  function TranscriptLine(t: Turn): string {
    (if t.kind == Human then "User" else "Assistant") + ": " + Take(t.content, 200) + "...\n"
  }

  /** The lines of `ts`, concatenated. */
  function Transcript(ts: seq<Turn>): string {
    if ts == [] then "" else Transcript(ts[..|ts| - 1]) + TranscriptLine(ts[|ts| - 1])
  }

  /** Python's `messages[:-10]`: every row but the newest ten. */
  function Summarised(ts: seq<Turn>): (r: seq<Turn>)
    ensures |r| == if |ts| <= UnsummarisedTail then 0 else |ts| - UnsummarisedTail
    ensures r <= ts
  {
    if |ts| <= UnsummarisedTail then [] else ts[..|ts| - UnsummarisedTail]
  }

  /** The transcript of consecutive runs of rows is the concatenation of
      their transcripts. */
  lemma {:induction false} TranscriptAppend(a: seq<Turn>, b: seq<Turn>)
    ensures Transcript(a + b) == Transcript(a) + Transcript(b)
    decreases |b|
  {
    if b == [] {
      assert a + b == a;
    } else {
      var n := |b| - 1;
      assert a + b == (a + b[..n]) + [b[n]];
      assert b == b[..n] + [b[n]];
      TranscriptSnoc(a + b[..n], b[n]);
      TranscriptSnoc(b[..n], b[n]);
      TranscriptAppend(a, b[..n]);
    }
  }

  /** One more row adds its line at the end. */
  lemma TranscriptSnoc(ts: seq<Turn>, t: Turn)
    ensures Transcript(ts + [t]) == Transcript(ts) + TranscriptLine(t)
  {
    assert (ts + [t])[..|ts|] == ts;
  }

  /** Each line is at most 215 characters: a role of at most 9, `": "`, 200
      characters of content and `"...\n"`. */
  lemma {:induction false} TranscriptBound(ts: seq<Turn>)
    ensures |Transcript(ts)| <= 215 * |ts|
  {
    if ts != [] {
      TranscriptBound(ts[..|ts| - 1]);
    }
  }

  /** Rows added later never change the transcript of the rows before them. */
  lemma TranscriptPrefix(ts: seq<Turn>, later: seq<Turn>)
    ensures Transcript(ts) <= Transcript(ts + later)
  {
    TranscriptAppend(ts, later);
  }

  /** What `_create_conversation_summary` sends to the summarising model:
      the agent and the transcript, which `SummaryPrompt` renders. */
  datatype SummaryRequest = SummaryRequest(agent: string, transcript: string)

  /** The prompt text the summarising model receives for a request. */
  function SummaryPrompt(req: SummaryRequest): string {
    PromptLead() + req.agent + PromptColon() + req.transcript + PromptClosing()
  }

  function PromptLead(): string {
    "\nPlease create a concise summary of this conversation between a user and their "
  }

  function PromptColon(): string {
    ":\n\n"
  }

  function PromptClosing(): string {
    "\n\nFocus on:\n- Key topics discussed\n- Important decisions made\n- User's preferences and feedback\n"
    + "- Plan modifications or updates\n- Health goals and progress\n\nSummary:\n"
  }

  /** The prompt names the agent and carries the whole transcript. */
  lemma SummaryPromptCarries(req: SummaryRequest)
    ensures Contains(SummaryPrompt(req), req.agent)
    ensures Contains(SummaryPrompt(req), req.transcript)
  {
    FramedPieces(PromptLead(), req.agent, PromptColon(), req.transcript, PromptClosing());
  }

  /** Both pieces framed by three texts occur in the whole. */
  lemma FramedPieces(lead: string, x: string, mid: string, y: string, tail: string)
    ensures Contains(lead + x + mid + y + tail, x)
    ensures Contains(lead + x + mid + y + tail, y)
  {
    ContainsSelf(x);
    ContainsExtend(x, x, lead, mid);
    ContainsAppend(lead + x + mid, x, y);
    ContainsAppend(lead + x + mid + y, x, tail);
    ContainsSelf(y);
    ContainsExtend(y, y, lead + x + mid, tail);
  }

  predicate IsActiveSummaryOf(x: Summary, sid: string) {
    x.sessionId == sid && x.kind == SessionSummaryKind && x.isActive
  }

  /** The newest active `session_summary` of a session (`ORDER BY created_at
      DESC LIMIT 1`). */
  function LatestActiveSummary(summaries: seq<Summary>, sid: string): (r: Option<string>)
    ensures r.None? <==> ActiveSummaries(summaries, sid) == 0
    ensures r.Some? ==> exists i | 0 <= i < |summaries| ::
      && IsActiveSummaryOf(summaries[i], sid) && summaries[i].content == r.value
      && forall j | i < j < |summaries| :: !IsActiveSummaryOf(summaries[j], sid)
  {
    if summaries == [] then None
    else
      var n := |summaries| - 1;
      if IsActiveSummaryOf(summaries[n], sid) then Some(summaries[n].content)
      else
        var r := LatestActiveSummary(summaries[..n], sid);
        assert forall i | 0 <= i < n :: summaries[..n][i] == summaries[i];
        r
  }

  /** How many active `session_summary` rows a session has. */
  function ActiveSummaries(summaries: seq<Summary>, sid: string): nat {
    if summaries == [] then 0
    else
      var n := |summaries| - 1;
      ActiveSummaries(summaries[..n], sid) + (if IsActiveSummaryOf(summaries[n], sid) then 1 else 0)
  }

  /** At most one active session summary per session. */
  ghost predicate SummariesValid(summaries: seq<Summary>) {
    forall sid :: ActiveSummaries(summaries, sid) <= 1
  }

  /** Inserting a summary for a session that has no active one keeps at most
      one active summary per session. */
  lemma AddSummaryKeepsValid(summaries: seq<Summary>, x: Summary)
    requires SummariesValid(summaries)
    requires ActiveSummaries(summaries, x.sessionId) == 0
    ensures SummariesValid(summaries + [x])
  {
    forall sid ensures ActiveSummaries(summaries + [x], sid) <= 1 {
      assert (summaries + [x])[..|summaries|] == summaries;
    }
  }

  /** `DELETE FROM memory_summaries WHERE session_id = sid` */
  function RemoveSummaries(summaries: seq<Summary>, sid: string): (r: seq<Summary>)
    ensures forall s | s in r :: s in summaries && s.sessionId != sid
    ensures forall s | s in summaries && s.sessionId != sid :: s in r
  {
    if summaries == [] then []
    else
      var n := |summaries| - 1;
      RemoveSummaries(summaries[..n], sid) + (if summaries[n].sessionId != sid then [summaries[n]] else [])
  }

  /** Deleting a session's summaries leaves it none and the other sessions
      theirs. */
  lemma {:induction false} RemoveSummariesCounts(summaries: seq<Summary>, sid: string, other: string)
    ensures ActiveSummaries(RemoveSummaries(summaries, sid), other)
            == if other == sid then 0 else ActiveSummaries(summaries, other)
  {
    if summaries != [] {
      var n := |summaries| - 1;
      var x := summaries[n];
      var rest := RemoveSummaries(summaries[..n], sid);
      RemoveSummariesCounts(summaries[..n], sid, other);
      if x.sessionId != sid {
        assert (rest + [x])[..|rest|] == rest;
      } else {
        assert rest + [] == rest;
      }
    }
  }

  // ---------------------------------------------------------------------
  // Context references
  // ---------------------------------------------------------------------

  const PlanKeywords: seq<string> := ["plan", "برنامه", "program", "routine", "schedule"]
  const ReferenceKeywords: seq<string> := ["that", "this", "it", "اون", "این", "همون"]

  /** Confidence of a plan reference and of a previous-message reference, in hundredths. */
  const PlanConfidence := 80
  const PreviousMessageConfidence := 60

  /** `_extract_context_references`: the rows it records for a human turn,
      given the id of the newest base plan of (user, agent), if any. */
  function ExtractReferences(conversationId: nat, message: string, basePlanId: Option<nat>): (r: seq<ContextRef>)
    ensures |r| <= 2
    ensures forall c | c in r :: c.conversationId == conversationId && c.text == Take(message, 200)
    ensures (exists c | c in r :: c.kind == PlanReference)
            <==> ContainsAny(Lower(message), PlanKeywords) && basePlanId.Some?
    ensures (exists c | c in r :: c.kind == PreviousMessage)
            <==> ContainsAny(Lower(message), ReferenceKeywords)
    ensures forall c | c in r ::
              if c.kind == PlanReference then c.confidence == PlanConfidence && c.referenceId == basePlanId
              else c.confidence == PreviousMessageConfidence && c.referenceId.None?
  {
    var lower := Lower(message);
    var snippet := Take(message, 200);
    (if ContainsAny(lower, PlanKeywords) && basePlanId.Some?
     then [ContextRef(conversationId, PlanReference, basePlanId, snippet, PlanConfidence)] else [])
    + (if ContainsAny(lower, ReferenceKeywords)
       then [ContextRef(conversationId, PreviousMessage, None, snippet, PreviousMessageConfidence)] else [])
  }

  predicate TurnInSession(turns: seq<Turn>, id: nat, sid: string) {
    exists k | 0 <= k < |turns| :: turns[k].id == id && turns[k].sessionId == sid
  }

  /** References whose turn belongs to the session, newest first. */
  function SessionReferences(refs: seq<ContextRef>, turns: seq<Turn>, sid: string): (r: seq<ContextRef>)
    ensures forall c | c in r :: c in refs && TurnInSession(turns, c.conversationId, sid)
  {
    if refs == [] then []
    else
      var last := refs[|refs| - 1];
      (if TurnInSession(turns, last.conversationId, sid) then [last] else [])
      + SessionReferences(refs[..|refs| - 1], turns, sid)
  }

  /** References recorded later come first: the session's references of
      `older + newer` are those of `newer`, then those of `older`. */
  lemma {:induction false} SessionReferencesNewestFirst(older: seq<ContextRef>, newer: seq<ContextRef>,
                                                        turns: seq<Turn>, sid: string)
    ensures SessionReferences(older + newer, turns, sid)
            == SessionReferences(newer, turns, sid) + SessionReferences(older, turns, sid)
    decreases |newer|
  {
    if newer == [] {
      assert older + newer == older;
    } else {
      var n := |newer| - 1;
      var last := newer[n];
      var head := if TurnInSession(turns, last.conversationId, sid) then [last] else [];
      assert older + newer == (older + newer[..n]) + [last];
      assert newer == newer[..n] + [last];
      SessionReferencesSnoc(older + newer[..n], last, turns, sid);
      SessionReferencesSnoc(newer[..n], last, turns, sid);
      SessionReferencesNewestFirst(older, newer[..n], turns, sid);
      AppendAssociative(head, SessionReferences(newer[..n], turns, sid), SessionReferences(older, turns, sid));
      calc {
        SessionReferences(older + newer, turns, sid);
        head + SessionReferences(older + newer[..n], turns, sid);
        head + (SessionReferences(newer[..n], turns, sid) + SessionReferences(older, turns, sid));
        (head + SessionReferences(newer[..n], turns, sid)) + SessionReferences(older, turns, sid);
        SessionReferences(newer, turns, sid) + SessionReferences(older, turns, sid);
      }
    }
  }

  lemma AppendAssociative<T>(a: seq<T>, b: seq<T>, c: seq<T>)
    ensures a + (b + c) == (a + b) + c
  {
  }

  /** Every reference of the session is among the session's references. */
  lemma {:induction false} SessionReferencesComplete(refs: seq<ContextRef>, turns: seq<Turn>, sid: string)
    ensures forall c | c in refs && TurnInSession(turns, c.conversationId, sid) :: c in SessionReferences(refs, turns, sid)
  {
    if refs != [] {
      var n := |refs| - 1;
      SessionReferencesComplete(refs[..n], turns, sid);
      assert refs == refs[..n] + [refs[n]];
    }
  }

  /** One more reference comes first when it belongs to the session. */
  lemma SessionReferencesSnoc(refs: seq<ContextRef>, c: ContextRef, turns: seq<Turn>, sid: string)
    ensures SessionReferences(refs + [c], turns, sid)
            == (if TurnInSession(turns, c.conversationId, sid) then [c] else []) + SessionReferences(refs, turns, sid)
  {
    assert (refs + [c])[..|refs|] == refs;
  }

  /** `_get_recent_references(session_id, limit)`: the join with
      `conversations`, newest first, at most `limit` rows. */
  function RecentReferences(refs: seq<ContextRef>, turns: seq<Turn>, sid: string, limit: nat): (r: seq<ContextRef>)
    ensures |r| <= limit
    ensures forall c | c in r :: c in refs && TurnInSession(turns, c.conversationId, sid)
    ensures forall c | c in refs && TurnInSession(turns, c.conversationId, sid) && c !in r :: |r| == limit
  {
    SessionReferencesComplete(refs, turns, sid);
    Take(SessionReferences(refs, turns, sid), limit)
  }

  /** Only the newest references count: once the later references of a
      session fill the limit, earlier ones make no difference. */
  lemma OlderReferencesIgnored(older: seq<ContextRef>, newer: seq<ContextRef>, turns: seq<Turn>, sid: string,
                               limit: nat)
    requires |SessionReferences(newer, turns, sid)| >= limit
    ensures RecentReferences(older + newer, turns, sid, limit) == RecentReferences(newer, turns, sid, limit)
  {
    SessionReferencesNewestFirst(older, newer, turns, sid);
    var a := SessionReferences(newer, turns, sid);
    assert (a + SessionReferences(older, turns, sid))[..limit] == a[..limit];
  }
}
