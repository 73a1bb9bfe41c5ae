# Candidate evaluation workflow — a Dafny model

The system is a recruitment workflow built as a LangGraph state graph. It is
invoked with the text of a candidate's CV. The workflow has three steps:

1. A language model labels the candidate's experience level.
2. A second model request asks whether the candidate's skills fit an ML
   engineer role.
3. A string-matching router sends the record to one of three terminal
   nodes: interview, review by a recruiter, or rejection. Each terminal
   node writes a fixed or templated `outcome` sentence.

Before each model request, the program locates a reachable Ollama server.
It first tries the host cached from the previous call. Otherwise it probes an
ordered list of hosts, with the `OLLAMA_HOST` override first, and caches the
first host that answers.

This project models that core as pure functions and proves the properties
the code and its design promise:

- `Text` (text.dfy): Python's `str.lower` and `in` on strings.
  - `Lower` is tied to a characterisation ("lower-case, and equal up to
    case").
  - `Contains` is tied to a reference definition ("some window spells the
    word").
- `Agent` (agent.dfy): the `RecruiterAgent` record.
  - Each key is optional, as in a `TypedDict` a node returns partially.
  - `Merge` is dictionary update.
  - The error cases a run can raise are listed here.
- `Resolver` (resolver.dfy): `GetLLM` and `reset_ollama_config` over an
  explicit cache `Option<string>`.
  - The environment override is a parameter.
  - The connection test is an oracle `probe: string -> bool`.
- `Routing` (routing.dfy): `conditional_edges`, including its
  short-circuit reading of the two keys.
- `Nodes` (nodes.dfy): the five node functions. The two model answers are
  oracles from candidate details to `Option<string>`, where None means the
  request failed.
- `Workflow` (workflow.dfy): the graph that `add_nodes` and `add_edges`
  build, and `Run`, a walk over it that merges each node's update into the
  record. It also has the lemmas that pin down every run exactly.
- `Scenarios` (scenarios.dfy): concrete runs and resolutions.

## Model

| member | source | states |
|---|---|---|
| Text.LowerChar | evaluation.py:256-259 | `.lower()` on one character gives a character that is not upper case, and leaves every character that is not upper case unchanged |
| Text.SameLowerChar | evaluation.py:256-259 | two characters have the same lower-case form exactly when they are equal or one is the upper-case letter of the other |
| Text.Lower | evaluation.py:256-259 | `.lower()` yields a text with no upper-case letter that equals the input up to letter case |
| Text.LowerUnique | evaluation.py:256-259 | the lower-case spelling of a text is unique: any lower-case text equal to it up to case is `Lower` of it |
| Text.LowerIgnoresCase | evaluation.py:256-259 | texts that differ only in letter case lower-case to the same text |
| Text.LowerIdempotent | evaluation.py:256-259 | lower-casing twice is lower-casing once |
| Text.Contains | evaluation.py:256-259 | the scan `sub in s` is true exactly when some window of `s` spells `sub` |
| Text.OccursPrefix | evaluation.py:258 | wherever a word occurs, each of its prefixes occurs, so "not" and "none" contain "no" |
| Agent.Keys | evaluation.py:7-12 | a key is in the key set exactly when the record holds a value for it |
| Agent.Single | evaluation.py:135 | the one-key update `{f: v}` holds exactly the key `f`, with value `v` |
| Agent.Merge | evaluation.py:7-12 | a dictionary update: keys of the update take its values, every other key keeps its old value; the key set is the union |
| Agent.Extensionality | evaluation.py:7-12 | two records are equal exactly when they agree on all five keys |
| Agent.MergeDetermined | evaluation.py:7-12 | the per-key description of a dictionary update determines the whole record: any record that takes the update's values on its keys and the old values elsewhere equals `Merge` |
| Resolver.CandidateHosts | evaluation.py:48-57 | the four fixed hosts in order, preceded by the override only when it is set and non-empty |
| Resolver.Discover | evaluation.py:59-81 | hosts are probed in order until one answers; every earlier host failed; the one that answered is returned and cached; if none answers, all were probed, there is no client and the cache is empty |
| Resolver.GetLLM | evaluation.py:36-81 | a cached host that still answers is returned after probing only it; otherwise the stale host is probed once and discovery runs over the candidates; a returned host answered its probe; the cache afterwards is exactly the returned host, so it is empty on failure |
| Resolver.ResetOllamaConfig | evaluation.py:83-92 | the cache is empty after a reset |
| Resolver.GetLLMReusesCache | evaluation.py:37-42 | after a successful call, the next call probes only the cached host and returns the same client, with the cache unchanged |
| Resolver.ResetForcesDiscovery | evaluation.py:83-92 | after a reset the cached-host probe is skipped: the call is exactly discovery over the candidate hosts, so it probes the first candidate host first |
| Resolver.OverrideProbedFirst | evaluation.py:55-57 | with no cache, a non-empty override is the first host probed; if it answers, it is the only host probed and becomes the client |
| Routing.LabelsDistinct | evaluation.py:256-261 | the three route labels are pairwise distinct |
| Routing.Route | evaluation.py:256-261 | the label is one of the three; "To Interview" iff the verdict says yes and the level says senior; "To Recruiter" iff senior, says no and does not say yes; "Rejected" iff not senior or neither yes nor no (each test ignores case) |
| Routing.ConditionalEdges | evaluation.py:232-261 | a missing `match` raises a KeyError; a missing `level_experience` raises only when the verdict contains "yes" or "no", and otherwise the route is "Rejected"; with both keys present the route is `Route` of the two |
| Routing.RouteIgnoresCase | evaluation.py:256-259 | re-casing either input never changes the route |
| Routing.AmbiguousVerdictGoesToInterview | evaluation.py:256-257 | a senior whose verdict contains both "yes" and "no" goes to interview |
| Routing.NegativeWordsCountAsNo | evaluation.py:258-259 | a senior whose verdict contains "not" or "none" and no "yes" goes to the recruiter |
| Routing.NonSeniorRejected | evaluation.py:256-261 | without "senior" in the level, the route is "Rejected" whatever the verdict says |
| Nodes.AskModel | evaluation.py:129-135 | a classifier node resolves a client first (no host: the service error), then reads `candidate_details` (absent: KeyError), then asks the model (failure: invocation error); on success it returns the model's answer verbatim under its one key; the cache is whatever resolution left |
| Nodes.CategorizeCandidateExperience | evaluation.py:94-135 | succeeds iff a host answers, the details are present and the model answers; sets only `level_experience`, to the unmodified answer |
| Nodes.EvaluateCandidateSkills | evaluation.py:137-167 | succeeds iff a host answers, the details are present and the model answers; sets only `match`, to the unmodified answer |
| Nodes.EligibleForInterview | evaluation.py:169-187 | sets only `outcome`, to "Selected for Interview", whatever the state |
| Nodes.RecruiterSentence | evaluation.py:209 | the sentence is the fixed prefix, then the label verbatim, then the fixed suffix |
| Nodes.LevelInSentence | evaluation.py:209 | any label read back out of a sentence rebuilds exactly that sentence |
| Nodes.RecruiterSentenceRoundTrip | evaluation.py:209 | the label can be read back out of its sentence, so distinct labels give distinct sentences |
| Nodes.EvaluateByRecruiter | evaluation.py:190-209 | raises a KeyError when `level_experience` is absent; otherwise sets only `outcome`, to the recruiter sentence around that label |
| Nodes.RejectCandidate | evaluation.py:212-229 | sets only `outcome`, to the rejection sentence, whatever the state |
| Nodes.OutcomesDistinct | evaluation.py:187-229 | the three outcome texts can never coincide, whatever the label |
| Nodes.ClassifierRepeatable | evaluation.py:36-42 | after categorisation succeeds, calling it again with the cache it left gives the same update and the same cache |
| Workflow.Execute | main.py:25-29 | the function each registered name runs: a completed node writes exactly its own key (the label, the verdict or the outcome); only the two classifier nodes can change the cache; a node raises only the service error, a model failure, or a missing `candidate_details` or `level_experience` |
| Workflow.Walk | main.py:54-70 | the walk from a node, merging each node's update into the state before following the edge: it makes at most `budget` visits, each to a registered node whose update writes exactly that node's key |
| Workflow.Run | main.py:199 | `invoke` from START: at most 25 nodes run, each a registered node whose update writes exactly its own key |
| Workflow.TargetIn | main.py:54-70 | a target found for a source is the target of one of its edges; no target means no edge leaves that source |
| Workflow.TargetInFirst | main.py:54-70 | the first edge leaving a source decides its static target |
| Workflow.Next | main.py:54-70 | the walk only ever moves to END or to a node registered by `add_nodes` |
| Workflow.Topology | main.py:54-70 | START leads only to categorisation, which leads only to skills evaluation; skills evaluation has no static edge; each terminal node leads to END |
| Workflow.StaticEdgesFunctional | main.py:54-70 | no node is the source of two static edges |
| Workflow.EdgesUseRegisteredNodes | main.py:25-29 | every edge and branch endpoint other than START and END is a registered node |
| Workflow.BranchTargets | main.py:57-65 | "To Interview" selects Eligible For Interview, "To Recruiter" selects Evaluate By Recruiter, and "Rejected" selects Reject Candidate |
| Workflow.BranchMapTotalAndInjective | main.py:57-65 | the branch map is defined on exactly the three route labels and maps them one-to-one onto the three terminal nodes |
| Workflow.TerminalNext | main.py:68-70 | after any terminal node, the walk goes to END |
| Workflow.WalkTerminal | main.py:68-70 | from the selected terminal node, the walk runs that node once, records its outcome and ends |
| Workflow.WalkEvaluate | main.py:57-65 | after skills evaluation, the walk stores the verdict and continues to the terminal node that the route selects |
| Workflow.WalkCategorize | main.py:54-55 | every run whose first resolution and categorisation succeed first runs categorisation, stores the label and continues at skills evaluation with the cache the resolution left |
| Workflow.RunFails | main.py:199 | a run fails exactly when no host answers or either model request fails; the only errors are those two, so no KeyError, unmapped route or step limit ever occurs; the exact failed result in each case |
| Workflow.RunExactly | main.py:184-199 | when every external call succeeds: the exact final record, the cache, and the three visits with their updates |
| Workflow.RunCompletes | main.py:57-70 | the final state keeps the input, holds both answers verbatim and never sets `resume`; the outcome is the interview text iff the route is "To Interview", the recruiter sentence iff "To Recruiter", and the rejection text iff "Rejected"; exactly three nodes run, each writing one key, and the last is a terminal node |
| Workflow.RunWritesOnce | main.py:199 | in every run, each node writes only keys that are still absent, so no field is ever overwritten |
| Scenarios.SeniorWithMatchIsSelected | evaluation.py:256-257 | a "Senior" candidate with verdict "yes" ends "Selected for Interview" after visiting Eligible For Interview |
| Scenarios.SeniorWithoutMatchGoesToRecruiter | evaluation.py:258-259 | a "Senior" candidate with verdict "no" ends with the recruiter sentence for "Senior" |
| Scenarios.SeniorRecruiterSentence | evaluation.py:209 | the recruiter sentence for "Senior" begins "The candidate requires further evaluation as its category is Senior" |
| Scenarios.EntryLevelIsRejected | evaluation.py:260-261 | an "Entry" candidate with verdict "yes" is rejected |
| Scenarios.ThirdHostIsCached | evaluation.py:48-71 | when only the Docker bridge host answers, it is found third and cached, and the next call probes only it |
| Scenarios.NoHostAnswers | evaluation.py:76-81 | when no host answers, the call fails and leaves the cache empty, whatever it held |

## Left out

- The language-model requests, prompt templates, `ChatPromptTemplate` and
  `OllamaLLM` are foreign library calls. Each classifier's answer is an
  oracle from candidate details to an optional string. Answers are assumed
  not to depend on which host serves them.
- The connection test `llm.invoke("test")` is the oracle `probe`. It is
  assumed to give the same answer every time for a host within one run.
- The model name argument of `GetLLM` ("gemma3:12b", or the "mistral"
  default) only selects which model a host serves, so it is not modelled.
- Reading the `OLLAMA_HOST` environment variable is I/O. Its value is the
  parameter `override`, and an empty value counts as unset, as Python's
  truthiness test does.
- data.py is not part of this model: it reads a PDF from a fixed path. The
  discarded `get_details` call and the sample input in main.py are left out
  for the same reason.
- `visualize_graph`, `display_Summary` and every diagnostic `print` are left
  out, because they only produce output.
- LangGraph's `StateGraph` machinery is reduced to the registered names, the
  static edges, the conditional branch map and a sequential walk.
  - Parallel branches, checkpointing and state reducers do not arise in this
    graph.
  - The walk's step budget is LangGraph's default recursion limit of 25.
    `RunFails` shows that no run ever reaches it.
- Exception types and messages are reduced to the `Error` cases. The
  service error stands for the resolver's final `raise`. The invocation error
  stands for a model request that fails after a successful probe.
- The trace records the node functions that ran. START and END are
  sentinels, not nodes. A completed run therefore has three visits: four
  steps if the move from START is counted.
- Text.Lower, Text.LowerChar: lower-case ASCII letters only. Python's `str.lower` also
  maps non-ASCII letters, including the few that lower-case to ASCII
  letters, such as the Kelvin sign. Those mappings are not modelled.
- Resolver.GetLLM: a failed cache probe prints a warning and clears the cache
  before discovery. Only the cleared cache and the probe order are modelled,
  not the message.
