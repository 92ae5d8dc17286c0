/** The two `map_stress_level` functions: the one of the chat manager and the
    one of the plan generator share the 1..10 table and differ on strings and
    `None`. */
module Stress {
  import opened Schema

  /** The description dictionary, read with `.get(level, 'moderate')`. */
  function StressWord(level: int): string {
    if level == 1 then "very low"
    else if level == 2 then "low"
    else if level == 3 then "mild"
    else if 4 <= level <= 6 then "moderate"
    else if 7 <= level <= 8 then "high"
    else if level == 9 then "very high"
    else if level == 10 then "extreme"
    else "moderate"
  }

  /** How severe a description is, from 0 for "very low" to 6 for "extreme". */
  function Severity(word: string): int {
    if word == "very low" then 0
    else if word == "low" then 1
    else if word == "mild" then 2
    else if word == "moderate" then 3
    else if word == "high" then 4
    else if word == "very high" then 5
    else if word == "extreme" then 6
    else -1
  }

  /** Python hashes `True` and `False` as 1 and 0 when they key a dict. */
  function KeyOf(b: bool): int {
    if b then 1 else 0
  }

  /** `EnhancedChatManager.map_stress_level`: a string or `None` comes back
      as is, with `'unknown'` for a falsy one; anything else goes through
      the table. */
  function ChatStressLevel(level: Value): string {
    match level
    case Str(s) => if s == "" then "unknown" else s
    case Null => "unknown"
    case Int(i) => StressWord(i)
    case Bool(b) => StressWord(KeyOf(b))
  }

  /** `Main.map_stress_level`: any string comes back unchanged; everything
      else, `None` included, goes through the table. */
  function MainStressLevel(level: Value): string {
    match level
    case Str(s) => s
    case Null => StressWord(0)
    case Int(i) => StressWord(i)
    case Bool(b) => StressWord(KeyOf(b))
  }

  /** Every level gets one of the seven descriptions, and a higher level
      within 1..10 never gets a milder one; outside 1..10 the answer is
      "moderate". */
  lemma StressWordScale(i: int, j: int)
    ensures 0 <= Severity(StressWord(i)) <= 6
    ensures 1 <= i <= j <= 10 ==> Severity(StressWord(i)) <= Severity(StressWord(j))
    ensures (i < 1 || 10 < i) ==> StressWord(i) == "moderate"
    ensures Severity(StressWord(i)) == 0 <==> i == 1
    ensures Severity(StressWord(i)) == 6 <==> i == 10
  {
  }

  /** The chat variant never answers with an empty string, and it returns a
      non-empty string unchanged. */
  lemma ChatStressLevelNonEmpty(level: Value)
    ensures ChatStressLevel(level) != ""
    ensures level.Str? && level.s != "" ==> ChatStressLevel(level) == level.s
  {
  }

  /** The two variants agree on every value except `None` and `''`, where the
      chat variant says "unknown" and the plan generator says "moderate" and
      "" respectively. */
  lemma VariantsDiffer(level: Value)
    ensures ChatStressLevel(level) == MainStressLevel(level) <==> level != Null && level != Str("")
    ensures ChatStressLevel(Null) == "unknown" && MainStressLevel(Null) == "moderate"
    ensures ChatStressLevel(Str("")) == "unknown" && MainStressLevel(Str("")) == ""
  {
  }
}
