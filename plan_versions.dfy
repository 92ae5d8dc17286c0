/** The `updated_plans` table: revised versions of a (user, agent) plan, of
    which at most one is current. Each SQL statement of the plan store is a
    function here; `ChatAgent.ChatManager` applies them. */
module PlanVersions {
  import opened Wrappers
  import opened Schema

  predicate OfPair(row: PlanRow, userId: int, agent: string) {
    row.userId == userId && row.agent == agent
  }

  /** `UPDATE updated_plans SET is_current = FALSE WHERE user_id = ? AND
      agent_type = ?`: only the flag of the pair's rows changes. */
  function ClearCurrent(rows: seq<PlanRow>, userId: int, agent: string): (r: seq<PlanRow>)
    ensures |r| == |rows|
    ensures forall i | 0 <= i < |r| ::
              r[i] == if OfPair(rows[i], userId, agent) then rows[i].(isCurrent := false) else rows[i]
  {
    seq(|rows|, i requires 0 <= i < |rows| =>
      if OfPair(rows[i], userId, agent) then rows[i].(isCurrent := false) else rows[i])
  }

  /** `MAX(version_number)` over the rows of the pair, current or not; `None`
      when the pair has no row. */
  function MaxVersionOf(rows: seq<PlanRow>, userId: int, agent: string): (m: Option<int>)
    ensures m.None? <==> forall i | 0 <= i < |rows| :: !OfPair(rows[i], userId, agent)
    ensures m.Some? ==> exists i | 0 <= i < |rows| :: OfPair(rows[i], userId, agent) && rows[i].version == m.value
    ensures m.Some? ==> forall i | 0 <= i < |rows| && OfPair(rows[i], userId, agent) :: rows[i].version <= m.value
  {
    if rows == [] then None
    else
      var n := |rows| - 1;
      var m := MaxVersionOf(rows[..n], userId, agent);
      assert forall i | 0 <= i < n :: rows[..n][i] == rows[i];
      if !OfPair(rows[n], userId, agent) then m
      else if m.None? || m.value < rows[n].version then Some(rows[n].version)
      else m
  }

  /** `COALESCE(MAX(version_number), 0)`. */
  function MaxVersion(rows: seq<PlanRow>, userId: int, agent: string): int {
    MaxVersionOf(rows, userId, agent).GetOr(0)
  }

  /** `save_updated_plan_with_versioning`: the pair's rows stop being current,
      and the new plan is appended as the current row, numbered one past the
      pair's highest version and linked to the newest base plan. */
  function SaveRevision(rows: seq<PlanRow>, history: seq<BasePlan>, id: nat, userId: int, agent: string,
                        plan: string, summary: string, conversationId: nat): seq<PlanRow>
  {
    var cleared := ClearCurrent(rows, userId, agent);
    cleared + [PlanRow(id, userId, agent, LatestBasePlanId(history, userId, agent), plan, summary,
                       conversationId, MaxVersion(cleared, userId, agent) + 1, true)]
  }

  /** The current row of the pair (`WHERE is_current = TRUE ORDER BY
      created_at DESC LIMIT 1`). */
  function LatestCurrent(rows: seq<PlanRow>, userId: int, agent: string): (r: Option<PlanRow>)
    ensures r.Some? ==> r.value in rows && OfPair(r.value, userId, agent) && r.value.isCurrent
    ensures r.None? <==> forall i | 0 <= i < |rows| :: !(OfPair(rows[i], userId, agent) && rows[i].isCurrent)
  {
    if rows == [] then None
    else
      var last := rows[|rows| - 1];
      if OfPair(last, userId, agent) && last.isCurrent then Some(last)
      else LatestCurrent(rows[..|rows| - 1], userId, agent)
  }

  /** What `get_current_plan_context` reports. */
  datatype PlanContext =
    | CurrentPlan(plan: string, isUpdated: bool, lastModification: Option<string>, version: int)
    | NoPlan

  /** The answer without a current revision: the newest base plan as an
      unrevised version 1, or no plan. */
  function BaseLookup(history: seq<BasePlan>, userId: int, agent: string): (r: PlanContext)
    ensures r.CurrentPlan? ==> !r.isUpdated && r.version == 1 && r.lastModification.None?
    ensures r.CurrentPlan? ==> exists i | 0 <= i < |history| ::
      && history[i].userId == userId && history[i].agent == agent && history[i].recommendation == r.plan
      && NoBasePlanAfter(history, i, userId, agent)
    ensures r.NoPlan? <==> forall i | 0 <= i < |history| :: history[i].userId != userId || history[i].agent != agent
  {
    match LatestBasePlan(history, userId, agent)
    case Some(base) => CurrentPlan(base.recommendation, false, None, 1)
    case None => NoPlan
  }

  /** `get_current_plan_context`: the current revision; failing that the
      newest base plan as version 1; failing that no plan. */
  function PlanLookup(rows: seq<PlanRow>, history: seq<BasePlan>, userId: int, agent: string): (r: PlanContext)
    ensures r.CurrentPlan? && r.isUpdated <==> exists i | 0 <= i < |rows| :: OfPair(rows[i], userId, agent) && rows[i].isCurrent
    ensures r.CurrentPlan? && r.isUpdated ==> exists i | 0 <= i < |rows| ::
              OfPair(rows[i], userId, agent) && rows[i].isCurrent && r.plan == rows[i].plan && r.version == rows[i].version
    ensures r.NoPlan? <==> (forall i | 0 <= i < |rows| :: !(OfPair(rows[i], userId, agent) && rows[i].isCurrent))
                           && (forall i | 0 <= i < |history| :: history[i].userId != userId || history[i].agent != agent)
    ensures (forall i | 0 <= i < |rows| :: !(OfPair(rows[i], userId, agent) && rows[i].isCurrent))
            ==> r == BaseLookup(history, userId, agent)
  {
    match LatestCurrent(rows, userId, agent)
    case Some(row) => CurrentPlan(row.plan, true, Some(row.modificationSummary), row.version)
    case None => BaseLookup(history, userId, agent)
  }

  /** At most one current row per pair, and it carries the pair's highest
      version. */
  ghost predicate PlansValid(rows: seq<PlanRow>) {
    forall i, j | 0 <= i < |rows| && 0 <= j < |rows| && rows[i].isCurrent
                  && OfPair(rows[j], rows[i].userId, rows[i].agent) ::
      (rows[j].isCurrent ==> i == j) && rows[j].version <= rows[i].version
  }

  lemma {:induction false} ClearKeepsMaxVersion(rows: seq<PlanRow>, userId: int, agent: string, u: int, a: string)
    ensures MaxVersionOf(ClearCurrent(rows, userId, agent), u, a) == MaxVersionOf(rows, u, a)
  {
    if rows != [] {
      var n := |rows| - 1;
      assert ClearCurrent(rows, userId, agent)[..n] == ClearCurrent(rows[..n], userId, agent);
      ClearKeepsMaxVersion(rows[..n], userId, agent, u, a);
    }
  }

  /** After a save the new row is the one current row of its pair and its
      version is one past the pair's highest version before the save (1 for
      a pair without rows); the pair's older rows only lose their flag and
      rows of other pairs are unchanged. */
  lemma SaveRevisionOutcome(rows: seq<PlanRow>, history: seq<BasePlan>, id: nat, userId: int, agent: string,
                            plan: string, summary: string, conversationId: nat)
    ensures var r := SaveRevision(rows, history, id, userId, agent, plan, summary, conversationId);
      && |r| == |rows| + 1
      && r[|rows|].isCurrent && OfPair(r[|rows|], userId, agent)
      && r[|rows|].plan == plan && r[|rows|].modificationSummary == summary
      && r[|rows|].version == MaxVersion(rows, userId, agent) + 1
      && (forall i | 0 <= i < |rows| :: !(OfPair(r[i], userId, agent) && r[i].isCurrent))
      && (forall i | 0 <= i < |rows| :: r[i] == if OfPair(rows[i], userId, agent) then rows[i].(isCurrent := false) else rows[i])
  {
    ClearKeepsMaxVersion(rows, userId, agent, userId, agent);
  }

  /** A pair that never had a revision starts at version 1. */
  lemma FirstRevisionIsVersionOne(rows: seq<PlanRow>, history: seq<BasePlan>, id: nat, userId: int, agent: string,
                                  plan: string, summary: string, conversationId: nat)
    requires forall i | 0 <= i < |rows| :: !OfPair(rows[i], userId, agent)
    ensures SaveRevision(rows, history, id, userId, agent, plan, summary, conversationId)[|rows|].version == 1
  {
    ClearKeepsMaxVersion(rows, userId, agent, userId, agent);
  }

  /** Versions of a pair only grow: the new row's version exceeds every
      version the pair had. */
  lemma SaveRevisionVersionGrows(rows: seq<PlanRow>, history: seq<BasePlan>, id: nat, userId: int, agent: string,
                                 plan: string, summary: string, conversationId: nat)
    ensures var r := SaveRevision(rows, history, id, userId, agent, plan, summary, conversationId);
      forall i | 0 <= i < |rows| && OfPair(rows[i], userId, agent) :: rows[i].version < r[|rows|].version
  {
    ClearKeepsMaxVersion(rows, userId, agent, userId, agent);
  }

  /** The lookup right after a save returns the saved plan as an update,
      with its modification summary and its version. */
  lemma SaveThenLookup(rows: seq<PlanRow>, history: seq<BasePlan>, id: nat, userId: int, agent: string,
                       plan: string, summary: string, conversationId: nat)
    ensures PlanLookup(SaveRevision(rows, history, id, userId, agent, plan, summary, conversationId), history, userId, agent)
            == CurrentPlan(plan, true, Some(summary), MaxVersion(rows, userId, agent) + 1)
  {
    ClearKeepsMaxVersion(rows, userId, agent, userId, agent);
  }

  /** Clearing falls back to the newest base plan as version 1, or to no
      plan when there is none. */
  lemma ClearThenLookup(rows: seq<PlanRow>, history: seq<BasePlan>, userId: int, agent: string)
    ensures PlanLookup(ClearCurrent(rows, userId, agent), history, userId, agent) == BaseLookup(history, userId, agent)
  {
    var r := ClearCurrent(rows, userId, agent);
    assert forall i | 0 <= i < |r| :: !(OfPair(r[i], userId, agent) && r[i].isCurrent);
  }

  /** Saving or clearing one pair leaves the lookup of every other pair as
      it was. */
  lemma OtherPairsUnaffected(rows: seq<PlanRow>, history: seq<BasePlan>, id: nat, userId: int, agent: string,
                             plan: string, summary: string, conversationId: nat, u: int, a: string)
    requires u != userId || a != agent
    ensures PlanLookup(SaveRevision(rows, history, id, userId, agent, plan, summary, conversationId), history, u, a)
            == PlanLookup(rows, history, u, a)
    ensures PlanLookup(ClearCurrent(rows, userId, agent), history, u, a) == PlanLookup(rows, history, u, a)
  {
    var r := ClearCurrent(rows, userId, agent);
    var s := SaveRevision(rows, history, id, userId, agent, plan, summary, conversationId);
    assert s[..|rows|] == r;
    LatestCurrentOtherPair(rows, userId, agent, u, a);
  }

  lemma {:induction false} LatestCurrentOtherPair(rows: seq<PlanRow>, userId: int, agent: string, u: int, a: string)
    requires u != userId || a != agent
    ensures LatestCurrent(ClearCurrent(rows, userId, agent), u, a) == LatestCurrent(rows, u, a)
  {
    if rows != [] {
      var n := |rows| - 1;
      assert ClearCurrent(rows, userId, agent)[..n] == ClearCurrent(rows[..n], userId, agent);
      LatestCurrentOtherPair(rows[..n], userId, agent, u, a);
    }
  }

  /** Clearing twice is clearing once. */
  lemma ClearIdempotent(rows: seq<PlanRow>, userId: int, agent: string)
    ensures ClearCurrent(ClearCurrent(rows, userId, agent), userId, agent) == ClearCurrent(rows, userId, agent)
  {
  }

  /** Saves keep at most one current row per pair, holding its highest
      version. */
  lemma SaveKeepsValid(rows: seq<PlanRow>, history: seq<BasePlan>, id: nat, userId: int, agent: string,
                       plan: string, summary: string, conversationId: nat)
    requires PlansValid(rows)
    ensures PlansValid(SaveRevision(rows, history, id, userId, agent, plan, summary, conversationId))
  {
    SaveRevisionOutcome(rows, history, id, userId, agent, plan, summary, conversationId);
    SaveRevisionVersionGrows(rows, history, id, userId, agent, plan, summary, conversationId);
  }

  lemma ClearKeepsValid(rows: seq<PlanRow>, userId: int, agent: string)
    requires PlansValid(rows)
    ensures PlansValid(ClearCurrent(rows, userId, agent))
  {
  }
}
