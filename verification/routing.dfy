/**
  The routing policy `conditional_edges` (evaluation.py:232-261): a
  case-insensitive substring test on the skills verdict and the experience
  label, with the "yes" test ahead of the "no" test.
 */
module Routing {
  import opened Wrappers
  import opened Text
  import opened Agent

  const ToInterview: string := "To Interview"
  const ToRecruiter: string := "To Recruiter"
  const Rejected: string := "Rejected"

  /** The labels the router can return. */
  const RouteLabels: set<string> := {ToInterview, ToRecruiter, Rejected}

  /** The three route labels are pairwise distinct. */
  lemma LabelsDistinct()
    ensures ToInterview != ToRecruiter && ToInterview != Rejected && ToRecruiter != Rejected
  {
    assert ToInterview[3] != ToRecruiter[3];
  }

  /** The experience label names a senior candidate. */
  ghost predicate SaysSenior(level: string) {
    Occurs(Lower(level), "senior")
  }

  /** The skills verdict says yes. */
  ghost predicate SaysYes(verdict: string) {
    Occurs(Lower(verdict), "yes")
  }

  /** The skills verdict says no. */
  ghost predicate SaysNo(verdict: string) {
    Occurs(Lower(verdict), "no")
  }

  /** The decision on two present values: `verdict` is `match`, `level` is `level_experience`. */
  function Route(verdict: string, level: string): (route: string)
    ensures route in RouteLabels
    ensures route == ToInterview <==> SaysYes(verdict) && SaysSenior(level)
    ensures route == ToRecruiter <==> SaysSenior(level) && SaysNo(verdict) && !SaysYes(verdict)
    ensures route == Rejected <==> !SaysSenior(level) || (!SaysYes(verdict) && !SaysNo(verdict))
  {
    LabelsDistinct();
    if Contains(Lower(verdict), "yes") && Contains(Lower(level), "senior") then
      ToInterview
    else if Contains(Lower(verdict), "no") && Contains(Lower(level), "senior") then
      ToRecruiter
    else
      Rejected
  }

  /**
    `conditional_edges(graph)` on the state record. Python's `and`
    short-circuits, so `level_experience` is read only when the verdict
    already contains "yes" or "no"; a missing key raises.
   */
  function ConditionalEdges(g: RecruiterAgent): (r: Result<string, Error>)
    ensures g.skillsMatch.None? ==> r == Err(MissingKey(Match))
    ensures g.skillsMatch.Some? && g.levelExperience.Some? ==>
      r == Ok(Route(g.skillsMatch.value, g.levelExperience.value))
    ensures g.skillsMatch.Some? && g.levelExperience.None? ==>
      if SaysYes(g.skillsMatch.value) || SaysNo(g.skillsMatch.value)
      then r == Err(MissingKey(LevelExperience))
      else r == Ok(Rejected)
  {
    match g.skillsMatch
    case None => Err(MissingKey(Match))
    case Some(verdict) =>
      if Contains(Lower(verdict), "yes") || Contains(Lower(verdict), "no") then
        match g.levelExperience
        case None => Err(MissingKey(LevelExperience))
        case Some(level) => Ok(Route(verdict, level))
      else
        Ok(Rejected)
  }

  /**
    Routing ignores letter case: re-casing either input never changes the
    route.
   */
  lemma RouteIgnoresCase(verdict: string, recased: string, level: string, relevelled: string)
    requires SameUpToCase(verdict, recased) && SameUpToCase(level, relevelled)
    ensures Route(verdict, level) == Route(recased, relevelled)
  {
    LowerIgnoresCase(verdict, recased);
    LowerIgnoresCase(level, relevelled);
  }

  /**
    Ambiguous verdicts favour the interview: a senior whose verdict holds
    both "yes" and "no" is sent to interview.
   */
  lemma AmbiguousVerdictGoesToInterview(verdict: string, level: string)
    requires SaysYes(verdict) && SaysNo(verdict) && SaysSenior(level)
    ensures Route(verdict, level) == ToInterview
  {
  }

  /**
    Any word that begins with "no" counts as a "no": a senior whose verdict
    says "not" or "none" (and no "yes") goes to the recruiter.
   */
  lemma NegativeWordsCountAsNo(verdict: string, level: string)
    requires SaysSenior(level) && !SaysYes(verdict)
    requires Occurs(Lower(verdict), "not") || Occurs(Lower(verdict), "none")
    ensures Route(verdict, level) == ToRecruiter
  {
    if Occurs(Lower(verdict), "not") {
      assert "no" + "t" == "not";
      OccursPrefix(Lower(verdict), "no", "t");
    } else {
      assert "no" + "ne" == "none";
      OccursPrefix(Lower(verdict), "no", "ne");
    }
  }

  /** Without "senior" in the experience label the candidate is rejected, whatever the verdict. */
  lemma NonSeniorRejected(verdict: string, level: string)
    requires !SaysSenior(level)
    ensures Route(verdict, level) == Rejected
  {
  }
}
