/**
  The workflow graph of main.py: the nodes `add_nodes` registers
  (main.py:25-29), the edges and conditional branch `add_edges` declares
  (main.py:54-70), and `evaluate_candidate.invoke` as a walk over them
  (main.py:184-199) that merges each node's update into the state record.
 */
module Workflow {
  import opened Wrappers
  import opened Agent
  import opened Resolver
  import opened Routing
  import opened Nodes

  /** The graph's entry and exit sentinels. */
  const Start: string := "__start__"
  const End: string := "__end__"

  const CategorizeNode: string := "Categorize Candidate Experience"
  const EvaluateNode: string := "Evaluate Candidate Skills"
  const RecruiterNode: string := "Evaluate By Recruiter"
  const EligibleNode: string := "Eligible For Interview"
  const RejectNode: string := "Reject Candidate"

  /** The node functions of evaluation.py. */
  datatype Step = Categorize | Evaluate | ByRecruiter | Eligible | Reject

  /** `add_nodes`: each registered name and the function it runs. */
  const Registry: map<string, Step> := map[
    CategorizeNode := Categorize,
    EvaluateNode := Evaluate,
    RecruiterNode := ByRecruiter,
    EligibleNode := Eligible,
    RejectNode := Reject
  ]

  /** `add_edge` calls, in order. */
  const Edges: seq<(string, string)> := [
    (Start, CategorizeNode),
    (CategorizeNode, EvaluateNode),
    (RecruiterNode, End),
    (EligibleNode, End),
    (RejectNode, End)
  ]

  /** `add_conditional_edges`: the node it leaves and its route-to-node map. */
  const BranchSource: string := EvaluateNode
  const Branches: map<string, string> := map[
    ToInterview := EligibleNode,
    ToRecruiter := RecruiterNode,
    Rejected := RejectNode
  ]

  /** The terminal nodes, the ones that lead straight to END. */
  const Terminals: set<string> := {RecruiterNode, EligibleNode, RejectNode}

  /** The target of the first static edge leaving `src` in `edges`, if any. */
  function TargetIn(edges: seq<(string, string)>, src: string): (t: Option<string>)
    ensures t.Some? ==> (src, t.value) in edges
    ensures t.None? ==> forall i :: 0 <= i < |edges| ==> edges[i].0 != src
  {
    if |edges| == 0 then None
    else if edges[0].0 == src then Some(edges[0].1)
    else TargetIn(edges[1..], src)
  }

  /** The first edge leaving `src` decides its target. */
  lemma {:induction false} TargetInFirst(edges: seq<(string, string)>, src: string, k: nat)
    requires k < |edges| && edges[k].0 == src
    requires forall j :: 0 <= j < k ==> edges[j].0 != src
    ensures TargetIn(edges, src) == Some(edges[k].1)
    decreases k
  {
    if k > 0 {
      TargetInFirst(edges[1..], src, k - 1);
    }
  }

  /** The static successor of a node: the target of the `add_edge` call leaving it. */
  function StaticTarget(src: string): Option<string> {
    TargetIn(Edges, src)
  }

  /**
    Where the walk goes after `at`, given the state just after `at` ran:
    the branch map applied to the router's label for the conditional
    source, the static edge otherwise; a node with no outgoing edge ends
    the run.
   */
  function Next(at: string, g: RecruiterAgent): (r: Result<string, Error>)
    ensures r.Ok? ==> r.value == End || r.value in Registry
  {
    if at == BranchSource then
      match ConditionalEdges(g)
      case Err(e) => Err(e)
      case Ok(route) => if route in Branches then Ok(Branches[route]) else Err(UnmappedRoute(route))
    else
      match StaticTarget(at)
      case None => Ok(End)
      case Some(t) => Ok(t)
  }

  /** The one key a node function writes. */
  function Writes(step: Step): Field {
    match step
    case Categorize => LevelExperience
    case Evaluate => Match
    case _ => Outcome
  }

  /**
    Runs the node function registered for `step`. Whatever the node, a
    completed run writes exactly that node's key; only the two classifier
    nodes resolve a client and so may change the cache; and a node raises
    only the service error, a model failure, or a missing input key.
   */
  function Execute(step: Step, g: RecruiterAgent, o: Oracles, cache: Option<string>): (r: NodeResult)
    ensures r.update.Ok? ==> Keys(r.update.value) == {Writes(step)}
    ensures step != Categorize && step != Evaluate ==> r.cache == cache
    ensures r.update.Err? ==>
      || r.update.error == ServiceUnavailable
      || r.update.error == ModelInvocationError
      || r.update.error == MissingKey(CandidateDetails)
      || r.update.error == MissingKey(LevelExperience)
  {
    match step
    case Categorize => CategorizeCandidateExperience(g, o, cache)
    case Evaluate => EvaluateCandidateSkills(g, o, cache)
    case ByRecruiter => NodeResult(EvaluateByRecruiter(g), cache)
    case Eligible => NodeResult(Ok(EligibleForInterview(g)), cache)
    case Reject => NodeResult(Ok(RejectCandidate(g)), cache)
  }

  /** One node that ran to completion and the update it returned. */
  datatype Visit = Visit(node: string, update: RecruiterAgent)

  /**
    The result of invoking the graph: the final state or the error raised,
    the endpoint cache afterwards, and the nodes that completed, in order.
   */
  datatype RunResult = RunResult(state: Result<RecruiterAgent, Error>, cache: Option<string>, trace: seq<Visit>)

  /** The most node executions a walk may take before it is cut off. */
  const RecursionLimit: nat := 25

  /**
    Walks the graph from node `at` with state `g`, at most `budget` more
    nodes. Every visit is of a registered node and its update writes
    exactly that node's key.
   */
  function Walk(at: string, g: RecruiterAgent, o: Oracles, cache: Option<string>, budget: nat): (r: RunResult)
    requires at == End || at in Registry
    ensures |r.trace| <= budget
    ensures forall i :: 0 <= i < |r.trace| ==>
      r.trace[i].node in Registry && Keys(r.trace[i].update) == {Writes(Registry[r.trace[i].node])}
    decreases budget
  {
    if at == End then
      RunResult(Ok(g), cache, [])
    else if budget == 0 then
      RunResult(Err(RecursionLimitReached), cache, [])
    else
      var ran := Execute(Registry[at], g, o, cache);
      match ran.update
      case Err(e) => RunResult(Err(e), ran.cache, [])
      case Ok(u) =>
        var merged := Merge(g, u);
        match Next(at, merged)
        case Err(e) => RunResult(Err(e), ran.cache, [Visit(at, u)])
        case Ok(next) =>
          var rest := Walk(next, merged, o, ran.cache, budget - 1);
          rest.(trace := [Visit(at, u)] + rest.trace)
  }

  /** The caller's input record: `{"candidate_details": details}`. */
  function Initial(details: string): RecruiterAgent {
    Single(CandidateDetails, details)
  }

  /**
    `evaluate_candidate.invoke({"candidate_details": details})` with the
    endpoint cache made explicit: at most the recursion limit of nodes run,
    each a registered node writing exactly its own key.
   */
  function Run(details: string, o: Oracles, cache: Option<string>): (r: RunResult)
    ensures |r.trace| <= RecursionLimit
    ensures forall i :: 0 <= i < |r.trace| ==>
      r.trace[i].node in Registry && Keys(r.trace[i].update) == {Writes(Registry[r.trace[i].node])}
  {
    match Next(Start, Initial(details))
    case Err(e) => RunResult(Err(e), cache, [])
    case Ok(first) => Walk(first, Initial(details), o, cache, RecursionLimit)
  }

  /** The updates of a trace, in order. */
  function Updates(trace: seq<Visit>): seq<RecruiterAgent> {
    seq(|trace|, i requires 0 <= i < |trace| => trace[i].update)
  }

  // ---------------------------------------------------------------------
  // Topology
  // ---------------------------------------------------------------------

  /**
    START leads only to categorisation, which leads only to skills
    evaluation; skills evaluation has no static edge (only the branch);
    every terminal node leads straight to END.
   */
  lemma Topology()
    ensures StaticTarget(Start) == Some(CategorizeNode)
    ensures StaticTarget(CategorizeNode) == Some(EvaluateNode)
    ensures StaticTarget(EvaluateNode) == None
    ensures forall t :: t in Terminals ==> StaticTarget(t) == Some(End)
    ensures forall i :: 0 <= i < |Edges| ==> Edges[i].0 != BranchSource
  {
    TargetInFirst(Edges, Start, 0);
    TargetInFirst(Edges, CategorizeNode, 1);
    forall t | t in Terminals
      ensures StaticTarget(t) == Some(End)
    {
      if t == RecruiterNode {
        TargetInFirst(Edges, RecruiterNode, 2);
      } else if t == EligibleNode {
        TargetInFirst(Edges, EligibleNode, 3);
      } else {
        TargetInFirst(Edges, RejectNode, 4);
      }
    }
  }

  /** No node has two static edges: each edge source appears once. */
  lemma StaticEdgesFunctional()
    ensures forall i, j :: 0 <= i < j < |Edges| ==> Edges[i].0 != Edges[j].0
  {
  }

  /** Every edge and branch endpoint other than START and END is a registered node. */
  lemma EdgesUseRegisteredNodes()
    ensures forall i :: 0 <= i < |Edges| ==> (Edges[i].0 == Start || Edges[i].0 in Registry)
    ensures forall i :: 0 <= i < |Edges| ==> (Edges[i].1 == End || Edges[i].1 in Registry)
    ensures BranchSource in Registry
    ensures forall route :: route in Branches ==> Branches[route] in Registry
  {
  }

  /** Each route label selects its own terminal node. */
  lemma BranchTargets()
    ensures Branches[ToInterview] == EligibleNode
    ensures Branches[ToRecruiter] == RecruiterNode
    ensures Branches[Rejected] == RejectNode
  {
    LabelsDistinct();
  }

  /**
    The branch map is total on the router's labels and one-to-one onto the
    terminal nodes.
   */
  lemma BranchMapTotalAndInjective()
    ensures Branches.Keys == RouteLabels
    ensures Branches.Values == Terminals
    ensures forall a, b :: a in Branches && b in Branches && a != b ==> Branches[a] != Branches[b]
  {
    LabelsDistinct();
  }

  // ---------------------------------------------------------------------
  // Runs
  // ---------------------------------------------------------------------

  /** The outcome text of the terminal node a route leads to. */
  function TerminalOutcome(route: string, level: string): string {
    if route == ToInterview then SelectedForInterview
    else if route == ToRecruiter then RecruiterSentence(level)
    else RejectionReason
  }

  /** The record once the input, the label and (optionally) the verdict are set. */
  function Classified(details: string, level: string, verdict: Option<string>): RecruiterAgent {
    RecruiterAgent(Some(details), Some(level), verdict, None, None)
  }

  /** One step of the walk: a node that completes with `u` and leads on to `next`. */
  lemma WalkStep(at: string, g: RecruiterAgent, o: Oracles, cache: Option<string>, budget: nat,
                 u: RecruiterAgent, c: Option<string>, next: string)
    requires at in Registry && at != End && budget > 0
    requires Execute(Registry[at], g, o, cache) == NodeResult(Ok(u), c)
    requires Next(at, Merge(g, u)) == Ok(next)
    ensures next == End || next in Registry
    ensures
      var rest := Walk(next, Merge(g, u), o, c, budget - 1);
      Walk(at, g, o, cache, budget) == rest.(trace := [Visit(at, u)] + rest.trace)
  {
  }

  /** A node that raises stops the walk with that error and the cache the node left. */
  lemma WalkStops(at: string, g: RecruiterAgent, o: Oracles, cache: Option<string>, budget: nat, e: Error, c: Option<string>)
    requires at in Registry && at != End && budget > 0
    requires Execute(Registry[at], g, o, cache) == NodeResult(Err(e), c)
    ensures Walk(at, g, o, cache, budget) == RunResult(Err(e), c, [])
  {
  }

  /** Every run starts at categorisation, from the caller's record. */
  lemma RunEntersCategorize(details: string, o: Oracles, cache: Option<string>)
    ensures Run(details, o, cache) == Walk(CategorizeNode, Initial(details), o, cache, RecursionLimit)
  {
    TargetInFirst(Edges, Start, 0);
    assert Next(Start, Initial(details)) == Ok(CategorizeNode);
  }

  /** A terminal node's only edge leads to END. */
  lemma TerminalNext(t: string, g: RecruiterAgent)
    requires t in Terminals
    ensures Next(t, g) == Ok(End)
  {
    if t == RecruiterNode {
      TargetInFirst(Edges, RecruiterNode, 2);
    } else if t == EligibleNode {
      TargetInFirst(Edges, EligibleNode, 3);
    } else {
      TargetInFirst(Edges, RejectNode, 4);
    }
  }

  /** The registered categorisation node runs `CategorizeCandidateExperience`. */
  lemma CategorizeRegistered(g: RecruiterAgent, o: Oracles, cache: Option<string>)
    ensures Execute(Registry[CategorizeNode], g, o, cache) == CategorizeCandidateExperience(g, o, cache)
  {
    assert Registry[CategorizeNode] == Categorize;
  }

  /** The registered skills node runs `EvaluateCandidateSkills`. */
  lemma EvaluateRegistered(g: RecruiterAgent, o: Oracles, cache: Option<string>)
    ensures Execute(Registry[EvaluateNode], g, o, cache) == EvaluateCandidateSkills(g, o, cache)
  {
    assert Registry[EvaluateNode] == Evaluate;
  }

  /** The terminal node a route selects records that route's outcome and leaves the cache alone. */
  lemma TerminalRuns(route: string, g: RecruiterAgent, o: Oracles, cache: Option<string>)
    requires route in RouteLabels && g.levelExperience.Some?
    ensures Branches[route] in Registry && Branches[route] in Terminals
    ensures Execute(Registry[Branches[route]], g, o, cache)
      == NodeResult(Ok(Single(Outcome, TerminalOutcome(route, g.levelExperience.value))), cache)
  {
    LabelsDistinct();
    BranchTargets();
  }

  /** From a terminal node the walk runs that node, records its outcome and ends. */
  lemma WalkTerminal(route: string, g: RecruiterAgent, o: Oracles, cache: Option<string>, budget: nat)
    requires route in RouteLabels && g.levelExperience.Some? && budget > 0
    ensures Branches[route] in Registry
    ensures
      var u := Single(Outcome, TerminalOutcome(route, g.levelExperience.value));
      Walk(Branches[route], g, o, cache, budget) == RunResult(Ok(Merge(g, u)), cache, [Visit(Branches[route], u)])
  {
    var t := Branches[route];
    var u := Single(Outcome, TerminalOutcome(route, g.levelExperience.value));
    TerminalRuns(route, g, o, cache);
    TerminalNext(t, Merge(g, u));
    WalkStep(t, g, o, cache, budget, u, cache, End);
  }

  /** With a cache that answers, skills evaluation stores the model's verdict, or raises when the model fails. */
  lemma EvaluateRuns(details: string, level: string, verdict: Option<string>, o: Oracles, cache: Option<string>)
    requires CacheHit(cache, o.probe) && o.evaluate(details) == verdict
    ensures Execute(Registry[EvaluateNode], Classified(details, level, None), o, cache)
      == NodeResult(if verdict.Some? then Ok(Single(Match, verdict.value)) else Err(ModelInvocationError), cache)
  {
    EvaluateRegistered(Classified(details, level, None), o, cache);
  }

  /** Once the verdict is stored, the branch map sends the walk to the terminal node its route selects. */
  lemma EvaluateLeadsToTerminal(details: string, level: string, verdict: string)
    ensures Merge(Classified(details, level, None), Single(Match, verdict)) == Classified(details, level, Some(verdict))
    ensures Next(EvaluateNode, Classified(details, level, Some(verdict))) == Ok(Branches[Route(verdict, level)])
  {
    LabelsDistinct();
  }

  /** From skills evaluation, with a cache that answers, the walk records the verdict and takes the routed branch. */
  lemma WalkEvaluate(details: string, level: string, verdict: string, o: Oracles, cache: Option<string>, budget: nat)
    requires CacheHit(cache, o.probe) && o.evaluate(details) == Some(verdict) && budget > 1
    ensures
      var route := Route(verdict, level);
      var outcome := TerminalOutcome(route, level);
      Walk(EvaluateNode, Classified(details, level, None), o, cache, budget)
        == RunResult(Ok(RecruiterAgent(Some(details), Some(level), Some(verdict), None, Some(outcome))), cache,
                     [Visit(EvaluateNode, Single(Match, verdict)), Visit(Branches[route], Single(Outcome, outcome))])
  {
    var route := Route(verdict, level);
    var outcome := TerminalOutcome(route, level);
    assert Merge(Classified(details, level, Some(verdict)), Single(Outcome, outcome))
        == RecruiterAgent(Some(details), Some(level), Some(verdict), None, Some(outcome));
    EvaluateRuns(details, level, Some(verdict), o, cache);
    EvaluateLeadsToTerminal(details, level, verdict);
    WalkStep(EvaluateNode, Classified(details, level, None), o, cache, budget,
             Single(Match, verdict), cache, Branches[route]);
    WalkTerminal(route, Classified(details, level, Some(verdict)), o, cache, budget - 1);
  }

  /** Categorisation with a host and a model answer stores the label, keeping the cache the resolution left. */
  lemma CategorizeRuns(details: string, level: string, o: Oracles, cache: Option<string>)
    requires GetLLM(cache, o.override, o.probe).client.Some? && o.categorize(details) == Some(level)
    ensures Execute(Registry[CategorizeNode], Initial(details), o, cache)
      == NodeResult(Ok(Single(LevelExperience, level)), GetLLM(cache, o.override, o.probe).cache)
  {
    CategorizeRegistered(Initial(details), o, cache);
  }

  /** Categorisation with no host that answers raises the service error and empties the cache. */
  lemma NoHostToCategorize(details: string, o: Oracles, cache: Option<string>)
    requires GetLLM(cache, o.override, o.probe).client.None?
    ensures Execute(Registry[CategorizeNode], Initial(details), o, cache) == NodeResult(Err(ServiceUnavailable), None)
  {
    CategorizeRegistered(Initial(details), o, cache);
  }

  /** Categorisation whose model request fails raises the invocation error, keeping the cache the resolution left. */
  lemma CategorizeModelFails(details: string, o: Oracles, cache: Option<string>)
    requires GetLLM(cache, o.override, o.probe).client.Some? && o.categorize(details).None?
    ensures Execute(Registry[CategorizeNode], Initial(details), o, cache)
      == NodeResult(Err(ModelInvocationError), GetLLM(cache, o.override, o.probe).cache)
  {
    CategorizeRegistered(Initial(details), o, cache);
  }

  /** Categorisation fails with the service error when no host answers, and with the invocation error otherwise. */
  lemma CategorizeFails(details: string, o: Oracles, cache: Option<string>)
    requires GetLLM(cache, o.override, o.probe).client.None? || o.categorize(details).None?
    ensures
      var e := if GetLLM(cache, o.override, o.probe).client.None? then ServiceUnavailable else ModelInvocationError;
      Execute(Registry[CategorizeNode], Initial(details), o, cache)
        == NodeResult(Err(e), GetLLM(cache, o.override, o.probe).cache)
  {
    if GetLLM(cache, o.override, o.probe).client.None? {
      NoHostToCategorize(details, o, cache);
    } else {
      CategorizeModelFails(details, o, cache);
    }
  }

  /** Once the label is stored, the walk moves on to skills evaluation. */
  lemma CategorizeLeadsToEvaluate(details: string, level: string)
    ensures Merge(Initial(details), Single(LevelExperience, level)) == Classified(details, level, None)
    ensures Next(CategorizeNode, Classified(details, level, None)) == Ok(EvaluateNode)
  {
    TargetInFirst(Edges, CategorizeNode, 1);
  }

  /**
    A run that gets past resolution and categorisation records the label,
    then continues from skills evaluation with the cache the first
    resolution left.
   */
  lemma WalkCategorize(details: string, level: string, o: Oracles, cache: Option<string>)
    requires GetLLM(cache, o.override, o.probe).client.Some? && o.categorize(details) == Some(level)
    ensures
      var c := GetLLM(cache, o.override, o.probe).cache;
      var rest := Walk(EvaluateNode, Classified(details, level, None), o, c, RecursionLimit - 1);
      Run(details, o, cache) == rest.(trace := [Visit(CategorizeNode, Single(LevelExperience, level))] + rest.trace)
  {
    var u := Single(LevelExperience, level);
    var c := GetLLM(cache, o.override, o.probe).cache;
    RunEntersCategorize(details, o, cache);
    CategorizeRuns(details, level, o, cache);
    CategorizeLeadsToEvaluate(details, level);
    WalkStep(CategorizeNode, Initial(details), o, cache, RecursionLimit, u, c, EvaluateNode);
  }

  /**
    How a run fails. It fails exactly when no host answers, or the model
    fails either classifier request; no other error is ever raised, so in
    particular no node reads a key that was not yet written and the router
    never names an unmapped route.
   */
  lemma RunFails(details: string, o: Oracles, cache: Option<string>)
    ensures
      var first := GetLLM(cache, o.override, o.probe);
      var r := Run(details, o, cache);
      && (r.state.Err? <==> first.client.None? || o.categorize(details).None? || o.evaluate(details).None?)
      && (r.state.Err? ==> r.state.error == ServiceUnavailable || r.state.error == ModelInvocationError)
      && (first.client.None? ==> r == RunResult(Err(ServiceUnavailable), None, []))
      && (first.client.Some? && o.categorize(details).None? ==>
            r == RunResult(Err(ModelInvocationError), first.cache, []))
      && (first.client.Some? && o.categorize(details).Some? && o.evaluate(details).None? ==>
            r == RunResult(Err(ModelInvocationError), first.cache,
                           [Visit(CategorizeNode, Single(LevelExperience, o.categorize(details).value))]))
  {
    var first := GetLLM(cache, o.override, o.probe);
    if first.client.None? || o.categorize(details).None? {
      RunFailsAtCategorize(details, o, cache);
    } else if o.evaluate(details).None? {
      RunFailsAtEvaluate(details, o, cache);
    } else {
      RunExactly(details, o, cache);
    }
  }

  /** A run whose categorisation fails ends at once with that error and no visit. */
  lemma RunFailsAtCategorize(details: string, o: Oracles, cache: Option<string>)
    requires GetLLM(cache, o.override, o.probe).client.None? || o.categorize(details).None?
    ensures
      var first := GetLLM(cache, o.override, o.probe);
      var e := if first.client.None? then ServiceUnavailable else ModelInvocationError;
      Run(details, o, cache) == RunResult(Err(e), first.cache, [])
  {
    var first := GetLLM(cache, o.override, o.probe);
    var e := if first.client.None? then ServiceUnavailable else ModelInvocationError;
    RunEntersCategorize(details, o, cache);
    CategorizeFails(details, o, cache);
    WalkStops(CategorizeNode, Initial(details), o, cache, RecursionLimit, e, first.cache);
  }

  /** A run whose skills request fails ends after the one categorisation visit. */
  lemma RunFailsAtEvaluate(details: string, o: Oracles, cache: Option<string>)
    requires GetLLM(cache, o.override, o.probe).client.Some? && o.categorize(details).Some? && o.evaluate(details).None?
    ensures
      var first := GetLLM(cache, o.override, o.probe);
      Run(details, o, cache) == RunResult(Err(ModelInvocationError), first.cache,
                                          [Visit(CategorizeNode, Single(LevelExperience, o.categorize(details).value))])
  {
    var first := GetLLM(cache, o.override, o.probe);
    var level := o.categorize(details).value;
    WalkCategorize(details, level, o, cache);
    assert CacheHit(first.cache, o.probe);
    EvaluateRuns(details, level, None, o, first.cache);
    WalkStops(EvaluateNode, Classified(details, level, None), o, first.cache, RecursionLimit - 1,
              ModelInvocationError, first.cache);
  }

  /** The exact result of a run in which every external call succeeds. */
  lemma RunExactly(details: string, o: Oracles, cache: Option<string>)
    requires GetLLM(cache, o.override, o.probe).client.Some?
    requires o.categorize(details).Some? && o.evaluate(details).Some?
    ensures
      var level := o.categorize(details).value;
      var verdict := o.evaluate(details).value;
      var route := Route(verdict, level);
      var outcome := TerminalOutcome(route, level);
      Run(details, o, cache) == RunResult(
        Ok(RecruiterAgent(Some(details), Some(level), Some(verdict), None, Some(outcome))),
        GetLLM(cache, o.override, o.probe).cache,
        [Visit(CategorizeNode, Single(LevelExperience, level)),
         Visit(EvaluateNode, Single(Match, verdict)),
         Visit(Branches[route], Single(Outcome, outcome))])
  {
    var level := o.categorize(details).value;
    var verdict := o.evaluate(details).value;
    var c := GetLLM(cache, o.override, o.probe).cache;
    var route := Route(verdict, level);
    var outcome := TerminalOutcome(route, level);
    var rest := Walk(EvaluateNode, Classified(details, level, None), o, c, RecursionLimit - 1);
    WalkCategorize(details, level, o, cache);
    assert CacheHit(c, o.probe);
    WalkEvaluate(details, level, verdict, o, c, RecursionLimit - 1);
    PrependVisit(rest, Visit(CategorizeNode, Single(LevelExperience, level)),
      RecruiterAgent(Some(details), Some(level), Some(verdict), None, Some(outcome)), c,
      Visit(EvaluateNode, Single(Match, verdict)), Visit(Branches[route], Single(Outcome, outcome)));
  }

  /** Putting a visit in front of a finished two-visit walk gives the three-visit trace. */
  lemma PrependVisit(rest: RunResult, v0: Visit, final: RecruiterAgent, c: Option<string>, v1: Visit, v2: Visit)
    requires rest == RunResult(Ok(final), c, [v1, v2])
    ensures rest.(trace := [v0] + rest.trace) == RunResult(Ok(final), c, [v0, v1, v2])
  {
    assert [v0] + [v1, v2] == [v0, v1, v2];
  }

  /**
    A run in which a host answers and the model answers both classifier
    requests visits exactly categorisation, skills evaluation and the one
    terminal node the route selects, then ends. Its final state keeps the
    input, holds both answers verbatim, never sets `resume`, and its outcome
    is the selected terminal node's text. The cache is the one the first
    resolution left; the second resolution reuses it.
   */
  lemma RunCompletes(details: string, o: Oracles, cache: Option<string>)
    requires GetLLM(cache, o.override, o.probe).client.Some?
    requires o.categorize(details).Some? && o.evaluate(details).Some?
    ensures
      var level := o.categorize(details).value;
      var verdict := o.evaluate(details).value;
      var route := Route(verdict, level);
      var r := Run(details, o, cache);
      && r.state.Ok?
      && r.state.value.candidateDetails == Some(details)
      && r.state.value.levelExperience == Some(level)
      && r.state.value.skillsMatch == Some(verdict)
      && r.state.value.resume == None
      && (r.state.value.outcome == Some(SelectedForInterview) <==> route == ToInterview)
      && (r.state.value.outcome == Some(RecruiterSentence(level)) <==> route == ToRecruiter)
      && (r.state.value.outcome == Some(RejectionReason) <==> route == Rejected)
      && r.cache == GetLLM(cache, o.override, o.probe).cache
      && |r.trace| == 3
      && r.trace[0].node == CategorizeNode && Keys(r.trace[0].update) == {LevelExperience}
      && r.trace[1].node == EvaluateNode && Keys(r.trace[1].update) == {Match}
      && r.trace[2].node == Branches[route] && Keys(r.trace[2].update) == {Outcome}
      && r.trace[2].node in Terminals
  {
    var level := o.categorize(details).value;
    var verdict := o.evaluate(details).value;
    var route := Route(verdict, level);
    RunExactly(details, o, cache);
    LabelsDistinct();
    OutcomesDistinct(level);
    BranchTargets();
  }

  /** Writing the label into the input record overwrites nothing. */
  lemma WritesOnceLabel(details: string, level: string)
    ensures WritesOnce(Initial(details), [Single(LevelExperience, level)])
  {
    assert WritesOnce(Merge(Initial(details), Single(LevelExperience, level)), []);
  }

  /** Writing the label, the verdict and the outcome into the input record overwrites nothing. */
  lemma WritesOnceClassified(details: string, level: string, verdict: string, outcome: string)
    ensures WritesOnce(Initial(details),
      [Single(LevelExperience, level), Single(Match, verdict), Single(Outcome, outcome)])
  {
    var us := [Single(LevelExperience, level), Single(Match, verdict), Single(Outcome, outcome)];
    var g1 := Merge(Initial(details), us[0]);
    var g2 := Merge(g1, us[1]);
    assert us[1..][1..] == [us[2]];
    assert WritesOnce(Merge(g2, us[2]), []);
    assert WritesOnce(g2, [us[2]]);
    assert WritesOnce(g1, us[1..]);
  }

  /** The empty trace has no updates. */
  lemma UpdatesOfEmpty()
    ensures Updates([]) == []
  {
  }

  /** The updates of a one-visit trace. */
  lemma UpdatesOfOne(a: Visit)
    ensures Updates([a]) == [a.update]
  {
  }

  /** The updates of a three-visit trace, in order. */
  lemma UpdatesOfThree(a: Visit, b: Visit, c: Visit)
    ensures Updates([a, b, c]) == [a.update, b.update, c.update]
  {
  }

  /** A completed run writes the label, the verdict and the outcome once each. */
  lemma CompletedRunWritesOnce(details: string, o: Oracles, cache: Option<string>)
    requires GetLLM(cache, o.override, o.probe).client.Some?
    requires o.categorize(details).Some? && o.evaluate(details).Some?
    ensures WritesOnce(Initial(details), Updates(Run(details, o, cache).trace))
  {
    var level := o.categorize(details).value;
    var verdict := o.evaluate(details).value;
    var route := Route(verdict, level);
    var outcome := TerminalOutcome(route, level);
    RunExactly(details, o, cache);
    UpdatesOfThree(Visit(CategorizeNode, Single(LevelExperience, level)),
                    Visit(EvaluateNode, Single(Match, verdict)),
                    Visit(Branches[route], Single(Outcome, outcome)));
    WritesOnceClassified(details, level, verdict, outcome);
  }

  /**
    A failed run leaves either no visit or only the categorisation visit,
    so it writes at most the label.
   */
  lemma FailedRunWritesOnce(details: string, o: Oracles, cache: Option<string>)
    requires GetLLM(cache, o.override, o.probe).client.None? || o.categorize(details).None? || o.evaluate(details).None?
    ensures WritesOnce(Initial(details), Updates(Run(details, o, cache).trace))
  {
    if GetLLM(cache, o.override, o.probe).client.None? || o.categorize(details).None? {
      RunFailsAtCategorize(details, o, cache);
      UpdatesOfEmpty();
    } else {
      var level := o.categorize(details).value;
      var visit := Visit(CategorizeNode, Single(LevelExperience, level));
      RunFailsAtEvaluate(details, o, cache);
      UpdatesOfOne(visit);
      WritesOnceLabel(details, level);
    }
  }

  /**
    Every run writes each key at most once: each node's update touches only
    keys absent from the state it is merged into.
   */
  lemma RunWritesOnce(details: string, o: Oracles, cache: Option<string>)
    ensures WritesOnce(Initial(details), Updates(Run(details, o, cache).trace))
  {
    if GetLLM(cache, o.override, o.probe).client.Some? && o.categorize(details).Some? && o.evaluate(details).Some? {
      CompletedRunWritesOnce(details, o, cache);
    } else {
      FailedRunWritesOnce(details, o, cache);
    }
  }
}
