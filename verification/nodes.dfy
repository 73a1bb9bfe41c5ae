/**
  The five node functions of evaluation.py (lines 94-229). Each takes the
  state record and returns a record holding the one key it sets. The two
  classifier nodes resolve a model client first (which may change the
  endpoint cache) and store the model's answer unvalidated; the three
  terminal nodes build the outcome text.
 */
module Nodes {
  import opened Wrappers
  import opened Agent
  import opened Resolver

  /**
    Everything outside the program a node depends on: the `OLLAMA_HOST`
    override, the reachability probe, and the language model's answer to
    each classifier prompt for given candidate details (None when the call
    fails).
   */
  datatype Oracles = Oracles(
    override: Option<string>,
    probe: string -> bool,
    categorize: string -> Option<string>,
    evaluate: string -> Option<string>)

  /** What running a node yields: its update or the error it raised, and the endpoint cache afterwards. */
  datatype NodeResult = NodeResult(update: Result<RecruiterAgent, Error>, cache: Option<string>)

  const SelectedForInterview: string := "Selected for Interview"
  const RecruiterPrefix: string := "The candidate requires further evaluation as its category is "
  const RecruiterSuffix: string := " but seems they lack the skills for the role"
  const RejectionReason: string :=
    "Rejected because candidate does not meet the minimum requirements of the job description"

  /**
    The shared shape of the classifier nodes: `GetLLM(...)`, then read
    `candidate_details`, then invoke the model, then return `{into: answer}`.
   */
  function AskModel(g: RecruiterAgent, o: Oracles, cache: Option<string>,
                    model: string -> Option<string>, into: Field): (r: NodeResult)
    ensures r.cache == GetLLM(cache, o.override, o.probe).cache
    ensures GetLLM(cache, o.override, o.probe).client.None? ==> r.update == Err(ServiceUnavailable)
    ensures GetLLM(cache, o.override, o.probe).client.Some? ==>
      match g.candidateDetails
      case None => r.update == Err(MissingKey(CandidateDetails))
      case Some(details) =>
        match model(details)
        case None => r.update == Err(ModelInvocationError)
        case Some(answer) => r.update.Ok? && Keys(r.update.value) == {into} && Get(r.update.value, into) == Some(answer)
  {
    var client := GetLLM(cache, o.override, o.probe);
    if client.client.None? then
      NodeResult(Err(ServiceUnavailable), client.cache)
    else
      match g.candidateDetails
      case None => NodeResult(Err(MissingKey(CandidateDetails)), client.cache)
      case Some(details) =>
        match model(details)
        case None => NodeResult(Err(ModelInvocationError), client.cache)
        case Some(answer) => NodeResult(Ok(Single(into, answer)), client.cache)
  }

  /** `CategorizeCandidateExperience`: stores the model's experience label verbatim. */
  function CategorizeCandidateExperience(g: RecruiterAgent, o: Oracles, cache: Option<string>): (r: NodeResult)
    ensures r.update.Ok? <==>
      GetLLM(cache, o.override, o.probe).client.Some? && g.candidateDetails.Some? && o.categorize(g.candidateDetails.value).Some?
    ensures r.update.Ok? ==>
      Keys(r.update.value) == {LevelExperience} && r.update.value.levelExperience == o.categorize(g.candidateDetails.value)
    ensures r.cache == GetLLM(cache, o.override, o.probe).cache
  {
    AskModel(g, o, cache, o.categorize, LevelExperience)
  }

  /** `EvaluateCandidateSkills`: stores the model's yes/no verdict verbatim under `match`. */
  function EvaluateCandidateSkills(g: RecruiterAgent, o: Oracles, cache: Option<string>): (r: NodeResult)
    ensures r.update.Ok? <==>
      GetLLM(cache, o.override, o.probe).client.Some? && g.candidateDetails.Some? && o.evaluate(g.candidateDetails.value).Some?
    ensures r.update.Ok? ==>
      Keys(r.update.value) == {Match} && r.update.value.skillsMatch == o.evaluate(g.candidateDetails.value)
    ensures r.cache == GetLLM(cache, o.override, o.probe).cache
  {
    AskModel(g, o, cache, o.evaluate, Match)
  }

  /** `EligibleForInterview`: a fixed outcome, whatever the state. */
  function EligibleForInterview(g: RecruiterAgent): (u: RecruiterAgent)
    ensures Keys(u) == {Outcome} && u.outcome == Some(SelectedForInterview)
  {
    Single(Outcome, SelectedForInterview)
  }

  /** The recruiter-review sentence around an experience label. */
  function RecruiterSentence(level: string): (s: string)
    ensures |s| == |RecruiterPrefix| + |level| + |RecruiterSuffix|
    ensures s[..|RecruiterPrefix|] == RecruiterPrefix
    ensures s[|RecruiterPrefix|..|s| - |RecruiterSuffix|] == level
    ensures s[|s| - |RecruiterSuffix|..] == RecruiterSuffix
  {
    RecruiterPrefix + level + RecruiterSuffix
  }

  /** The experience label a recruiter-review sentence was built from, if it is one. */
  function LevelInSentence(s: string): (level: Option<string>)
    ensures level.Some? ==> RecruiterSentence(level.value) == s
  {
    if |s| >= |RecruiterPrefix| + |RecruiterSuffix|
       && s[..|RecruiterPrefix|] == RecruiterPrefix
       && s[|s| - |RecruiterSuffix|..] == RecruiterSuffix
    then
      var level := s[|RecruiterPrefix|..|s| - |RecruiterSuffix|];
      assert s == s[..|RecruiterPrefix|] + level + s[|s| - |RecruiterSuffix|..];
      Some(level)
    else
      None
  }

  /** The sentence keeps the label verbatim: it can be read back out, so distinct labels give distinct sentences. */
  lemma RecruiterSentenceRoundTrip(level: string)
    ensures LevelInSentence(RecruiterSentence(level)) == Some(level)
  {
  }

  /** `EvaluateByRecruiter`: the fixed sentence around `level_experience`, which it reads. */
  function EvaluateByRecruiter(g: RecruiterAgent): (r: Result<RecruiterAgent, Error>)
    ensures g.levelExperience.None? ==> r == Err(MissingKey(LevelExperience))
    ensures g.levelExperience.Some? ==>
      r.Ok? && Keys(r.value) == {Outcome} && r.value.outcome == Some(RecruiterSentence(g.levelExperience.value))
  {
    match g.levelExperience
    case None => Err(MissingKey(LevelExperience))
    case Some(level) => Ok(Single(Outcome, RecruiterSentence(level)))
  }

  /** `RejectCandidate`: a fixed outcome, whatever the state. */
  function RejectCandidate(g: RecruiterAgent): (u: RecruiterAgent)
    ensures Keys(u) == {Outcome} && u.outcome == Some(RejectionReason)
  {
    Single(Outcome, RejectionReason)
  }

  /** The three outcomes are told apart: no recruiter sentence equals either fixed outcome. */
  lemma OutcomesDistinct(level: string)
    ensures RecruiterSentence(level) != SelectedForInterview
    ensures RecruiterSentence(level) != RejectionReason
    ensures SelectedForInterview != RejectionReason
  {
  }

  /**
    The classifier nodes are repeatable: once a call has succeeded, calling
    it again with the cache it left gives the same update and the same cache.
   */
  lemma ClassifierRepeatable(g: RecruiterAgent, o: Oracles, cache: Option<string>)
    requires CategorizeCandidateExperience(g, o, cache).update.Ok?
    ensures
      var first := CategorizeCandidateExperience(g, o, cache);
      CategorizeCandidateExperience(g, o, first.cache) == first
  {
    GetLLMReusesCache(cache, o.override, o.probe);
  }
}
