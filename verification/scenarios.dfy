/**
  Concrete runs of the model: three end-to-end evaluations with stub model
  answers, and the resolver's discovery and failure paths with stub probes.
 */
module Scenarios {
  import opened Wrappers
  import opened Text
  import opened Agent
  import opened Resolver
  import opened Routing
  import opened Nodes
  import opened Workflow

  /** The model answers `level` and `verdict` for `details`, and some host answers the probe. */
  ghost predicate Answers(details: string, o: Oracles, cache: Option<string>, level: string, verdict: string) {
    && GetLLM(cache, o.override, o.probe).client.Some?
    && o.categorize(details) == Some(level)
    && o.evaluate(details) == Some(verdict)
  }

  /** The label "Senior" lower-cases to "senior". */
  lemma LowerSenior()
    ensures Lower("Senior") == "senior"
  {
    var r := Lower("Senior");
    assert r[0] == 's';
  }

  /** A senior with verdict "yes" is routed to interview. */
  lemma SeniorYesRoute()
    ensures Route("yes", "Senior") == ToInterview
  {
    LowerSenior();
    assert OccursAt(Lower("Senior"), "senior", 0);
    assert Lower("yes") == "yes";
    assert OccursAt(Lower("yes"), "yes", 0);
  }

  /** A senior with verdict "no" is routed to the recruiter. */
  lemma SeniorNoRoute()
    ensures Route("no", "Senior") == ToRecruiter
  {
    LowerSenior();
    assert OccursAt(Lower("Senior"), "senior", 0);
    assert Lower("no") == "no";
    assert OccursAt(Lower("no"), "no", 0);
    assert !SaysYes("no");
  }

  /** A senior candidate whose skills match is selected for interview. */
  lemma SeniorWithMatchIsSelected(details: string, o: Oracles, cache: Option<string>)
    requires Answers(details, o, cache, "Senior", "yes")
    ensures
      var r := Run(details, o, cache);
      && r.state.Ok? && r.state.value.outcome == Some("Selected for Interview")
      && |r.trace| == 3 && r.trace[2].node == "Eligible For Interview"
  {
    SeniorYesRoute();
    BranchTargets();
    RunCompletes(details, o, cache);
  }

  /** A senior candidate whose skills do not match goes to the recruiter, with the label quoted. */
  lemma SeniorWithoutMatchGoesToRecruiter(details: string, o: Oracles, cache: Option<string>)
    requires Answers(details, o, cache, "Senior", "no")
    ensures
      var r := Run(details, o, cache);
      r.state.Ok? && r.state.value.outcome == Some(RecruiterSentence("Senior"))
  {
    SeniorNoRoute();
    LabelsDistinct();
    RunExactly(details, o, cache);
  }

  /** The recruiter sentence for a senior candidate opens with the label in place. */
  lemma SeniorRecruiterSentence()
    ensures RecruiterSentence("Senior")[..|RecruiterPrefix| + 6]
      == "The candidate requires further evaluation as its category is Senior"
  {
    assert RecruiterSentence("Senior")[..|RecruiterPrefix| + 6] == RecruiterPrefix + "Senior";
  }

  /** An entry-level candidate is rejected even when the skills match. */
  lemma EntryLevelIsRejected(details: string, o: Oracles, cache: Option<string>)
    requires Answers(details, o, cache, "Entry", "yes")
    ensures
      var r := Run(details, o, cache);
      r.state.Ok? && r.state.value.outcome == Some(
        "Rejected because candidate does not meet the minimum requirements of the job description")
  {
    assert !SaysSenior("Entry");
    RunCompletes(details, o, cache);
  }

  const ThirdHost: string := "http://172.17.0.1:11434"

  /**
    The first two candidate hosts fail and the third answers: it is cached,
    and the next call reuses it without probing the first two again.
   */
  lemma ThirdHostIsCached()
    ensures
      var probe := (h: string) => h == ThirdHost;
      var first := GetLLM(None, None, probe);
      && first.client == Some(ThirdHost)
      && first.cache == Some(ThirdHost)
      && first.probed == DefaultHosts[..3]
      && GetLLM(first.cache, None, probe).probed == [ThirdHost]
  {
    var probe := (h: string) => h == ThirdHost;
    var d := Discover(DefaultHosts, probe);
    assert !probe(DefaultHosts[0]) && !probe(DefaultHosts[1]) && probe(DefaultHosts[2]);
    assert d.probed <= DefaultHosts;
    assert d.probed == DefaultHosts[..3];
  }

  /** No host answers: the call raises and the cache is left empty, whatever it held. */
  lemma NoHostAnswers(cache: Option<string>, override: Option<string>)
    ensures
      var r := GetLLM(cache, override, (h: string) => false);
      r.client.None? && r.cache.None?
  {
  }
}
