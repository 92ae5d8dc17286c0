/** The plan generator's handling of a user profile: `validate_user_data`
    checks the required sections and fields in order, `process_user_data`
    turns the raw profile into the agents' fields with their defaults, and
    `generate_plan` keeps the usable agent answers and names their files. */
module Profile {
  import opened Wrappers
  import opened Text
  import opened Schema
  import opened Stress

  /** The loaded JSON profile: sections of named values. */
  type RawData = map<string, map<string, Value>>

  /** A section and the fields it must hold, as in the `required` dict. */
  datatype Requirement = Requirement(section: string, fields: seq<string>)

  /** `required`, in the dict's insertion order. */
  const Required: seq<Requirement> := [
    Requirement("profile", ["name", "goals"]),
    Requirement("fitness", ["level"]),
    Requirement("nutrition", ["preferences"]),
    Requirement("health", ["sleep_hours"])]

  /** The `ValueError` raised by `validate_user_data`. */
  datatype ValidationError = MissingSection(section: string) | MissingField(section: string, field: string)

  /** The text of the raised error. */
  function ErrorMessage(e: ValidationError): (r: string)
    ensures e.MissingSection? ==> r == "Missing section: " + e.section
    ensures e.MissingField? ==> r == "Missing field: " + e.section + "." + e.field
  {
    match e
    case MissingSection(s) => "Missing section: " + s
    case MissingField(s, f) => "Missing field: " + s + "." + f
  }

  /** The section is present and holds all its fields. */
  predicate Complete(raw: RawData, req: Requirement) {
    req.section in raw && forall k | 0 <= k < |req.fields| :: req.fields[k] in raw[req.section]
  }

  /** The first of `fields` that `section` lacks. */
  function MissingFieldOf(section: map<string, Value>, name: string, fields: seq<string>): Option<ValidationError> {
    if fields == [] then None
    else if fields[0] !in section then Some(MissingField(name, fields[0]))
    else MissingFieldOf(section, name, fields[1..])
  }

  /** The error the checks meet first, sections in order and, within a
      section, fields in order; `None` when all are present. */
  function FirstMissing(raw: RawData, reqs: seq<Requirement>): Option<ValidationError> {
    if reqs == [] then None
    else if reqs[0].section !in raw then Some(MissingSection(reqs[0].section))
    else
      match MissingFieldOf(raw[reqs[0].section], reqs[0].section, reqs[0].fields)
      case Some(e) => Some(e)
      case None => FirstMissing(raw, reqs[1..])
  }

  /** `validate_user_data`: the nested loops over `required`, stopping at the
      first missing section or field. */
  method ValidateUserData(raw: RawData) returns (err: Option<ValidationError>)
    ensures err == FirstMissing(raw, Required)
  {
    var required := Required;
    var i := 0;
    while i < |required|
      invariant 0 <= i <= |required|
      invariant FirstMissing(raw, required) == FirstMissing(raw, required[i..])
    {
      var req := required[i];
      assert required[i..][1..] == required[i + 1..];
      if req.section !in raw {
        return Some(MissingSection(req.section));
      }
      var j := 0;
      while j < |req.fields|
        invariant 0 <= j <= |req.fields|
        invariant MissingFieldOf(raw[req.section], req.section, req.fields)
                  == MissingFieldOf(raw[req.section], req.section, req.fields[j..])
      {
        assert req.fields[j..][1..] == req.fields[j + 1..];
        if req.fields[j] !in raw[req.section] {
          return Some(MissingField(req.section, req.fields[j]));
        }
        j := j + 1;
      }
      assert req.fields[j..] == [];
      i := i + 1;
    }
    return None;
  }

  lemma {:induction false} MissingFieldOfNone(section: map<string, Value>, name: string, fields: seq<string>)
    ensures MissingFieldOf(section, name, fields).None? <==> forall k | 0 <= k < |fields| :: fields[k] in section
  {
    if fields != [] {
      MissingFieldOfNone(section, name, fields[1..]);
      assert forall k | 1 <= k < |fields| :: fields[k] == fields[1..][k - 1];
    }
  }

  /** Validation passes exactly when every required section is present
      with all its fields. */
  lemma {:induction false} ValidationPassesIffComplete(raw: RawData, reqs: seq<Requirement>)
    ensures FirstMissing(raw, reqs).None? <==> forall k | 0 <= k < |reqs| :: Complete(raw, reqs[k])
  {
    if reqs != [] {
      if reqs[0].section in raw {
        MissingFieldOfNone(raw[reqs[0].section], reqs[0].section, reqs[0].fields);
      }
      ValidationPassesIffComplete(raw, reqs[1..]);
      assert forall k | 1 <= k < |reqs| :: reqs[k] == reqs[1..][k - 1];
    }
  }

  lemma {:induction false} MissingFieldOfIsFirst(section: map<string, Value>, name: string, fields: seq<string>)
    ensures var r := MissingFieldOf(section, name, fields);
      r.Some? ==> exists k | 0 <= k < |fields| ::
        && r.value == MissingField(name, fields[k]) && fields[k] !in section
        && forall m | 0 <= m < k :: fields[m] in section
  {
    var r := MissingFieldOf(section, name, fields);
    if fields != [] && fields[0] in section && r.Some? {
      MissingFieldOfIsFirst(section, name, fields[1..]);
      var k :| 0 <= k < |fields[1..]| && r.value == MissingField(name, fields[1..][k]) && fields[1..][k] !in section
               && forall m | 0 <= m < k :: fields[1..][m] in section;
      assert forall m | 1 <= m < k + 1 :: fields[m] == fields[1..][m - 1];
      assert fields[k + 1] == fields[1..][k];
    } else if fields != [] && fields[0] !in section {
      assert r.value == MissingField(name, fields[0]);
    }
  }

  /** A failing validation names the first incomplete requirement: every
      requirement before it is complete, and the error is its missing
      section, or its first missing field. */
  lemma {:induction false} ValidationFailsAtFirst(raw: RawData, reqs: seq<Requirement>)
    ensures var r := FirstMissing(raw, reqs);
      r.Some? ==> exists k | 0 <= k < |reqs| ::
        && (forall m | 0 <= m < k :: Complete(raw, reqs[m]))
        && r.value.section == reqs[k].section
        && (r.value.MissingSection? <==> reqs[k].section !in raw)
        && (r.value.MissingField? ==>
              && reqs[k].section in raw
              && MissingFieldOf(raw[reqs[k].section], reqs[k].section, reqs[k].fields) == r)
  {
    var r := FirstMissing(raw, reqs);
    if reqs != [] && r.Some? && reqs[0].section in raw {
      var first := MissingFieldOf(raw[reqs[0].section], reqs[0].section, reqs[0].fields);
      if first.None? {
        MissingFieldOfNone(raw[reqs[0].section], reqs[0].section, reqs[0].fields);
        assert Complete(raw, reqs[0]);
        ValidationFailsAtFirst(raw, reqs[1..]);
        var k :| 0 <= k < |reqs[1..]|
                 && (forall m | 0 <= m < k :: Complete(raw, reqs[1..][m]))
                 && r.value.section == reqs[1..][k].section
                 && (r.value.MissingSection? <==> reqs[1..][k].section !in raw)
                 && (r.value.MissingField? ==>
                       && reqs[1..][k].section in raw
                       && MissingFieldOf(raw[reqs[1..][k].section], reqs[1..][k].section, reqs[1..][k].fields) == r);
        assert forall m | 1 <= m < k + 1 :: reqs[m] == reqs[1..][m - 1];
        assert reqs[k + 1] == reqs[1..][k];
      } else {
        MissingFieldOfIsFirst(raw[reqs[0].section], reqs[0].section, reqs[0].fields);
      }
    }
  }

  /** An empty profile fails on its first section. */
  lemma EmptyProfileMessage()
    ensures ErrorMessage(FirstMissing(map[], Required).value) == "Missing section: profile"
  {
  }

  // ---------------------------------------------------------------------
  // process_user_data
  // ---------------------------------------------------------------------

  /** The dict handed to the agents. */
  datatype UserProfile = UserProfile(
    name: Value,
    goals: Value,
    duration: int,
    fitnessLevel: Value,
    equipment: Value,
    workoutDays: Value,
    workoutTime: Value,
    restrictions: Value,
    dietPreferences: Value,
    allergies: Value,
    caloricTarget: Value,
    lifestyle: Value,
    sleepQuality: string,
    stressLevel: string,
    habits: Value)

  /** `section.get(key, default)`. */
  function Get(section: map<string, Value>, key: string, default: Value): (r: Value)
    ensures key in section ==> r == section[key]
    ensures key !in section ==> r == default
  {
    if key in section then section[key] else default
  }

  /** Python's `str(v)` inside an f-string. */
  function Show(v: Value): string {
    match v
    case Str(s) => s
    case Int(i) => IntToString(i)
    case Bool(b) => if b then "True" else "False"
    case Null => "None"
  }

  /** A profile that passes validation holds each required key. */
  lemma RequiredFieldsPresent(raw: RawData)
    requires FirstMissing(raw, Required).None?
    ensures "profile" in raw && "name" in raw["profile"] && "goals" in raw["profile"]
    ensures "fitness" in raw && "level" in raw["fitness"]
    ensures "nutrition" in raw && "preferences" in raw["nutrition"]
    ensures "health" in raw && "sleep_hours" in raw["health"]
  {
    ValidationPassesIffComplete(raw, Required);
    assert Complete(raw, Required[0]) && Required[0].fields[0] == "name" && Required[0].fields[1] == "goals";
    assert Complete(raw, Required[1]) && Required[1].fields[0] == "level";
    assert Complete(raw, Required[2]) && Required[2].fields[0] == "preferences";
    assert Complete(raw, Required[3]) && Required[3].fields[0] == "sleep_hours";
  }

  /** The default plan length in weeks. */
  const DefaultDuration := 4

  /** `process_user_data`: `None` when validation raises; otherwise the
      profile's fields, with their defaults where a key is absent. */
  function ProcessUserData(raw: RawData): (r: Option<UserProfile>)
    ensures r.None? <==> FirstMissing(raw, Required).Some?
    ensures r.Some? ==>
      && "profile" in raw && "name" in raw["profile"] && "goals" in raw["profile"]
      && r.value.name == raw["profile"]["name"] && r.value.goals == raw["profile"]["goals"]
      && r.value.duration == DefaultDuration
  {
    if FirstMissing(raw, Required).Some? then None
    else
      RequiredFieldsPresent(raw);
      var profile, fitness, nutrition, health := raw["profile"], raw["fitness"], raw["nutrition"], raw["health"];
      Some(UserProfile(
        profile["name"],
        profile["goals"],
        DefaultDuration,
        Get(fitness, "level", Str("beginner")),
        Get(fitness, "equipment", Str("none")),
        Get(fitness, "days_per_week", Int(3)),
        Get(fitness, "session_minutes", Int(30)),
        Get(fitness, "injuries", Str("none")),
        Get(nutrition, "preferences", Str("balanced")),
        Get(nutrition, "allergies", Str("none")),
        Get(nutrition, "target_calories", Int(2000)),
        Get(profile, "activity", Str("moderately active")),
        Show(Get(health, "sleep_hours", Int(7))) + " hours",
        MainStressLevel(Get(health, "stress_level", Int(5))),
        Get(health, "habits", Str("none reported"))))
  }

  /** The optional fields of a processed profile: each takes the given value
      when present and its default when absent; the required level and
      preferences are copied; sleep quality is the sleep hours followed by
      " hours"; the stress level is the mapped given value, "moderate" when
      absent. */
  lemma ProcessedFields(raw: RawData)
    requires ProcessUserData(raw).Some?
    ensures "fitness" in raw && "nutrition" in raw && "health" in raw && "profile" in raw
    ensures var p, f, n, h := ProcessUserData(raw).value, raw["fitness"], raw["nutrition"], raw["health"];
      && "level" in f && p.fitnessLevel == f["level"]
      && "preferences" in n && p.dietPreferences == n["preferences"]
      && "sleep_hours" in h && p.sleepQuality == Show(h["sleep_hours"]) + " hours"
      && p.equipment == (if "equipment" in f then f["equipment"] else Str("none"))
      && p.workoutDays == (if "days_per_week" in f then f["days_per_week"] else Int(3))
      && p.workoutTime == (if "session_minutes" in f then f["session_minutes"] else Int(30))
      && p.restrictions == (if "injuries" in f then f["injuries"] else Str("none"))
      && p.allergies == (if "allergies" in n then n["allergies"] else Str("none"))
      && p.caloricTarget == (if "target_calories" in n then n["target_calories"] else Int(2000))
      && p.lifestyle == (if "activity" in raw["profile"] then raw["profile"]["activity"] else Str("moderately active"))
      && p.habits == (if "habits" in h then h["habits"] else Str("none reported"))
      && p.stressLevel == (if "stress_level" in h then MainStressLevel(h["stress_level"]) else "moderate")
  {
    RequiredFieldsPresent(raw);
  }

  // ---------------------------------------------------------------------
  // generate_plan
  // ---------------------------------------------------------------------

  /** The three agents run for a plan. */
  const AgentNames: seq<string> := ["FitnessTrainer", "Nutritionist", "HealthAdvisor"]

  /** `response and "Error" not in response`. */
  predicate Accepted(response: string) {
    response != "" && !Contains(response, "Error")
  }

  /** The accepted answers, in the order the agents completed. */
  function Kept(completed: seq<(string, string)>): (r: seq<(string, string)>)
    ensures |r| <= |completed|
    ensures forall x :: x in r <==> x in completed && Accepted(x.1)
  {
    if completed == [] then []
    else
      var n := |completed| - 1;
      Kept(completed[..n]) + (if Accepted(completed[n].1) then [completed[n]] else [])
  }

  /** `user_data.get('name', 'user').replace(' ', '_').lower()`. */
  function UserFileId(name: string): string {
    Lower(ReplaceChar(name, ' ', '_'))
  }

  /** `f"{output_dir}/{user_id}_{agent_name.lower()}_plan.txt"`. */
  function OutputPath(dir: string, userId: string, agent: string): string {
    dir + "/" + userId + "_" + Lower(agent) + "_plan.txt"
  }

  /** The path of each kept answer, in the same order. */
  function Paths(dir: string, userId: string, kept: seq<(string, string)>): (r: seq<string>)
    ensures |r| == |kept|
    ensures forall i | 0 <= i < |kept| :: r[i] == OutputPath(dir, userId, kept[i].0)
  {
    if kept == [] then [] else Paths(dir, userId, kept[..|kept| - 1]) + [OutputPath(dir, userId, kept[|kept| - 1].0)]
  }

  /** What `generate_plan` ends with: no user data, an exception because the
      name is not text, or the kept answers and the files they go to. */
  datatype PlanRun =
    | NoUserData
    | NameNotText
    | Generated(responses: seq<(string, string)>, paths: seq<string>)

  /** Each agent completes once. */
  predicate DistinctAgents(completed: seq<(string, string)>) {
    forall i, j | 0 <= i < j < |completed| :: completed[i].0 != completed[j].0
  }

  /** The collecting loop of `generate_plan`: an answer is kept when it is
      non-empty and does not mention "Error". */
  method KeepAccepted(completed: seq<(string, string)>) returns (responses: seq<(string, string)>)
    ensures responses == Kept(completed)
  {
    responses := [];
    var i := 0;
    while i < |completed|
      invariant 0 <= i <= |completed|
      invariant responses == Kept(completed[..i])
    {
      assert completed[..i + 1][..i] == completed[..i];
      var (agentName, response) := completed[i];
      if response != "" && !Contains(response, "Error") {
        responses := responses + [(agentName, response)];
      }
      i := i + 1;
    }
    assert completed[..i] == completed;
  }

  /** The saving loop of `generate_plan`: one path per kept answer. */
  method PlanPaths(outputDir: string, userId: string, responses: seq<(string, string)>) returns (paths: seq<string>)
    ensures paths == Paths(outputDir, userId, responses)
  {
    paths := [];
    var k := 0;
    while k < |responses|
      invariant 0 <= k <= |responses|
      invariant paths == Paths(outputDir, userId, responses[..k])
    {
      assert responses[..k + 1][..k] == responses[..k];
      paths := paths + [OutputPath(outputDir, userId, responses[k].0)];
      k := k + 1;
    }
    assert responses[..k] == responses;
  }

  /** `generate_plan`, given each agent's answer in the order the agents
      completed: the accepted answers are collected in that order and each
      gets its output path. */
  method GeneratePlan(userData: Option<UserProfile>, outputDir: string, completed: seq<(string, string)>)
    returns (run: PlanRun)
    requires DistinctAgents(completed)
    ensures userData.None? <==> run == NoUserData
    ensures userData.Some? && !userData.value.name.Str? <==> run == NameNotText
    ensures userData.Some? && userData.value.name.Str? ==>
      run == Generated(Kept(completed), Paths(outputDir, UserFileId(userData.value.name.s), Kept(completed)))
  {
    if userData.None? {
      return NoUserData;
    }
    var responses := KeepAccepted(completed);
    if !userData.value.name.Str? {
      return NameNotText;
    }
    var userId := UserFileId(userData.value.name.s);
    var paths := PlanPaths(outputDir, userId, responses);
    return Generated(responses, paths);
  }

  /** The `responses` dict after `responses[agent_name] = response` for each
      accepted answer in completion order: an answer under a name already
      present replaces the earlier one. */
  function ResponsesDict(completed: seq<(string, string)>): map<string, string> {
    if completed == [] then map[]
    else
      var n := |completed| - 1;
      var d := ResponsesDict(completed[..n]);
      if Accepted(completed[n].1) then d[completed[n].0 := completed[n].1] else d
  }

  /** A name no answer carries is not a key of the dict. */
  lemma {:induction false} AbsentName(completed: seq<(string, string)>, name: string)
    requires forall i | 0 <= i < |completed| :: completed[i].0 != name
    ensures name !in ResponsesDict(completed)
  {
    if completed != [] {
      var n := |completed| - 1;
      assert forall i | 0 <= i < n :: completed[..n][i] == completed[i];
      AbsentName(completed[..n], name);
    }
  }

  /** Without its last answer, a run of distinct agents stays distinct and
      does not name the last agent. */
  lemma DistinctFront(completed: seq<(string, string)>)
    requires completed != [] && DistinctAgents(completed)
    ensures var n := |completed| - 1;
      && DistinctAgents(completed[..n])
      && forall i | 0 <= i < n :: completed[..n][i].0 != completed[n].0
  {
    var n := |completed| - 1;
    assert forall i | 0 <= i < n :: completed[..n][i] == completed[i];
  }

  /** With one answer per agent, the kept answers are exactly the dict's
      entries: one key per kept answer, holding that answer. */
  lemma {:induction false} KeptIsResponses(completed: seq<(string, string)>)
    requires DistinctAgents(completed)
    ensures |ResponsesDict(completed)| == |Kept(completed)|
    ensures forall x | x in Kept(completed) :: x.0 in ResponsesDict(completed) && ResponsesDict(completed)[x.0] == x.1
  {
    if completed != [] {
      var n := |completed| - 1;
      var front, last := completed[..n], completed[n];
      DistinctFront(completed);
      KeptIsResponses(front);
      AbsentName(front, last.0);
      var before := ResponsesDict(front);
      var d := ResponsesDict(completed);
      if Accepted(last.1) {
        assert Kept(completed) == Kept(front) + [last];
        assert d == before[last.0 := last.1];
        assert |d| == |before| + 1;
      } else {
        assert Kept(completed) == Kept(front);
        assert d == before;
      }
      forall x | x in Kept(completed) ensures x.0 in d && d[x.0] == x.1 {
        if x in Kept(front) {
          assert x.0 in before && x.0 != last.0;
        }
      }
    }
  }

  /** The answers of the agents at their positions, labelled as written: the
      worker's lambda reads the comprehension's `name` when it runs, when the
      comprehension may already have moved on to the agent at `readAt[i]`. */
  function LateLabels(names: seq<string>, answers: seq<string>, readAt: seq<nat>): (r: seq<(string, string)>)
    requires |answers| == |names| && |readAt| == |names|
    requires forall i | 0 <= i < |names| :: i <= readAt[i] < |names|
    ensures |r| == |names|
    ensures forall i | 0 <= i < |names| :: r[i] == (names[readAt[i]], answers[i])
  {
    seq(|names|, i requires 0 <= i < |names| => (names[readAt[i]], answers[i]))
  }

  /** When every worker reads `name` after the comprehension has finished,
      all three accepted answers are labelled "HealthAdvisor": the dict keeps
      only the last one, and two of the three plans are never saved. */
  lemma LateBindingLosesAnswers(answers: seq<string>)
    requires |answers| == 3 && Accepted(answers[0]) && Accepted(answers[1]) && Accepted(answers[2])
    ensures var c := LateLabels(AgentNames, answers, [2, 2, 2]);
      && |Kept(c)| == 3
      && ResponsesDict(c) == map["HealthAdvisor" := answers[2]]
  {
    var c := LateLabels(AgentNames, answers, [2, 2, 2]);
    assert c[..2][..1] == c[..1] && c[..1][..0] == [];
    assert c[..2] == c[..2] && c[..3] == c;
    assert c[2] == ("HealthAdvisor", answers[2]);
    assert ResponsesDict(c[..1]) == map["HealthAdvisor" := answers[0]];
    assert ResponsesDict(c[..2]) == map["HealthAdvisor" := answers[1]];
  }

  /** The file id has no spaces: each space became an underscore and every
      other character is lower-cased. */
  lemma UserFileIdShape(name: string)
    ensures |UserFileId(name)| == |name|
    ensures forall i | 0 <= i < |name| ::
      UserFileId(name)[i] == (if name[i] == ' ' then '_' else LowerChar(name[i])) && UserFileId(name)[i] != ' '
  {
  }

  /** A path sits in the output directory, ends in "_plan.txt", and tells
      the agent apart: two agents get the same path only when their names
      agree in lower case. */
  lemma OutputPathShape(dir: string, userId: string, a1: string, a2: string)
    ensures var p := OutputPath(dir, userId, a1);
      && p[..|dir| + 1] == dir + "/"
      && p[|p| - 9..] == "_plan.txt"
      && |p| == |dir| + |userId| + |a1| + 11
    ensures OutputPath(dir, userId, a1) == OutputPath(dir, userId, a2) ==> Lower(a1) == Lower(a2)
  {
    var p, q := OutputPath(dir, userId, a1), OutputPath(dir, userId, a2);
    var start := |dir| + |userId| + 2;
    assert p[start..|p| - 9] == Lower(a1);
    assert q[start..|q| - 9] == Lower(a2);
  }

  /** Agents whose names start with different letters, ignoring case, get
      different files. */
  lemma PathsDifferAt(dir: string, userId: string, a: string, b: string)
    requires a != [] && b != [] && LowerChar(a[0]) != LowerChar(b[0])
    ensures OutputPath(dir, userId, a) != OutputPath(dir, userId, b)
  {
    var at := |dir| + |userId| + 2;
    assert OutputPath(dir, userId, a)[at] == Lower(a)[0];
    assert OutputPath(dir, userId, b)[at] == Lower(b)[0];
  }

  /** The three agents' files differ, so no plan overwrites another. */
  lemma AgentPathsDistinct(dir: string, userId: string, i: int, j: int)
    requires 0 <= i < |AgentNames| && 0 <= j < |AgentNames| && i != j
    ensures OutputPath(dir, userId, AgentNames[i]) != OutputPath(dir, userId, AgentNames[j])
  {
    var initials := ['f', 'n', 'h'];
    forall k | 0 <= k < 3
      ensures AgentNames[k] != [] && LowerChar(AgentNames[k][0]) == initials[k]
    {
    }
    PathsDifferAt(dir, userId, AgentNames[i], AgentNames[j]);
  }


}
