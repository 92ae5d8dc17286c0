/** `detect_plan_update_advanced`: whether an assistant reply is a new
    version of the user's plan, decided from keyword tests on the user's
    message, the reply and the recent conversation. */
module PlanDetector {
  import opened Text
  import opened Schema

  /** Words that ask for a change of plan, matched in lower case. */
  const UpdateKeywords: seq<string> := [
    "change", "modify", "update", "different", "alternative", "new plan",
    "plan b", "plan c", "revise", "adjust", "replace", "switch",
    "تغییر", "تبدیل", "جدید", "متفاوت", "دیگه", "عوض"]

  /** Phrases that show a reply holds a plan, matched in lower case. */
  const PlanResponseKeywords: seq<string> := [
    "updated plan", "new plan", "modified plan", "here's your plan",
    "complete plan", "revised plan", "alternative plan", "full plan",
    "workout plan", "meal plan", "nutrition plan", "fitness plan"]

  /** Markers of a structured reply, matched case-sensitively. */
  const StructureMarkers: seq<string> := ["##", "**", "1.", "2.", "Week", "Day"]

  /** A reply longer than this many characters is substantial. */
  const SubstantialLength := 800

  /** How many of the newest context messages are read. */
  const RecentWindow := 4

  predicate UserWantsUpdate(userMessage: string) {
    ContainsAny(Lower(userMessage), UpdateKeywords)
  }

  predicate ResponseHasPlan(reply: string) {
    ContainsAny(Lower(reply), PlanResponseKeywords)
  }

  predicate IsSubstantial(reply: string) {
    |reply| > SubstantialLength
  }

  predicate HasStructure(reply: string) {
    ContainsAny(reply, StructureMarkers)
  }

  function Contents(messages: seq<ChatMessage>): (r: seq<string>)
    ensures |r| == |messages|
    ensures forall k | 0 <= k < |messages| :: r[k] == messages[k].content
  {
    if messages == [] then [] else Contents(messages[..|messages| - 1]) + [messages[|messages| - 1].content]
  }

  /** The last four context messages, joined by single spaces, mention an
      update keyword; false when the context has no messages. */
  predicate RecentAboutPlans(recent: seq<ChatMessage>) {
    recent != [] && ContainsAny(Lower(Join(Contents(Last(recent, RecentWindow)), " ")), UpdateKeywords)
  }

  /** The decision: an asked-for change answered by a long structured plan,
      or a long plan while the recent conversation was about changes. */
  predicate IsPlanUpdate(userMessage: string, reply: string, recent: seq<ChatMessage>) {
    || (UserWantsUpdate(userMessage) && ResponseHasPlan(reply) && IsSubstantial(reply) && HasStructure(reply))
    || (RecentAboutPlans(recent) && ResponseHasPlan(reply) && IsSubstantial(reply))
  }

  /** A reply of at most 800 characters, or one without a plan phrase, is
      never a plan update; and an update needs either a request in the
      message or a recent conversation about changes. */
  lemma UpdateNeedsLongPlanReply(userMessage: string, reply: string, recent: seq<ChatMessage>)
    ensures |reply| <= SubstantialLength ==> !IsPlanUpdate(userMessage, reply, recent)
    ensures !ResponseHasPlan(reply) ==> !IsPlanUpdate(userMessage, reply, recent)
    ensures IsPlanUpdate(userMessage, reply, recent) ==> UserWantsUpdate(userMessage) || RecentAboutPlans(recent)
    ensures recent == [] ==>
      (IsPlanUpdate(userMessage, reply, recent)
       <==> UserWantsUpdate(userMessage) && ResponseHasPlan(reply) && IsSubstantial(reply) && HasStructure(reply))
  {
  }

  /** Only the last four context messages matter. */
  lemma OnlyLastFourCount(userMessage: string, reply: string, older: seq<ChatMessage>, recent: seq<ChatMessage>)
    requires |recent| >= RecentWindow
    ensures IsPlanUpdate(userMessage, reply, older + recent) == IsPlanUpdate(userMessage, reply, recent)
  {
    var all := older + recent;
    assert Last(all, RecentWindow) == Last(recent, RecentWindow);
  }

  /** Adding text around the user's message never withdraws a request for a
      change, so a detected update stays detected. */
  lemma UpdateMonotoneInMessage(userMessage: string, before: string, after: string, reply: string,
                                recent: seq<ChatMessage>)
    requires IsPlanUpdate(userMessage, reply, recent)
    ensures IsPlanUpdate(before + userMessage + after, reply, recent)
  {
    if UserWantsUpdate(userMessage) {
      LowerAppend(before, userMessage);
      LowerAppend(before + userMessage, after);
      ContainsAnyExtend(Lower(userMessage), UpdateKeywords, Lower(before), Lower(after));
    }
  }

  /** A message asking to "update" the plan, answered by a reply of more
      than 800 characters that names an "updated plan" and numbers its
      steps, is a plan update whatever the context. */
  lemma UpdateRequestDetected(userMessage: string, reply: string, recent: seq<ChatMessage>)
    requires Contains(Lower(userMessage), "update")
    requires Contains(Lower(reply), "updated plan")
    requires Contains(reply, "1.")
    requires |reply| > SubstantialLength
    ensures IsPlanUpdate(userMessage, reply, recent)
  {
    assert UpdateKeywords[2] == "update";
    assert PlanResponseKeywords[0] == "updated plan";
    assert StructureMarkers[2] == "1.";
  }
}
