/**
  The workflow's state record, `RecruiterAgent` (evaluation.py:7-12).
  The source declares it as a typed dictionary, so any key may be absent;
  every field is therefore optional. A node returns a record of the same
  type holding only the keys it sets, and the graph merges it into the state
  the way a dictionary update does.
 */
module Agent {
  import opened Wrappers

  /** The five keys of the record. */
  datatype Field = CandidateDetails | LevelExperience | Match | Resume | Outcome

  datatype RecruiterAgent = RecruiterAgent(
    candidateDetails: Option<string>,
    levelExperience: Option<string>,
    skillsMatch: Option<string>,  // the key "match"
    resume: Option<string>,
    outcome: Option<string>)

  /** What a run can raise. */
  datatype Error =
    | ServiceUnavailable      // no language-model host answered the probe
    | ModelInvocationError    // the host answered the probe but failed the request
    | MissingKey(key: Field)  // a node read a key that was never written
    | UnmappedRoute(route: string)  // the router named a label the branch map lacks
    | RecursionLimitReached   // the walk did not reach END within its step budget

  /** The record with no key present. */
  const Empty: RecruiterAgent := RecruiterAgent(None, None, None, None, None)

  /** `g[f]`, or None when the key is absent. */
  function Get(g: RecruiterAgent, f: Field): Option<string> {
    match f
    case CandidateDetails => g.candidateDetails
    case LevelExperience => g.levelExperience
    case Match => g.skillsMatch
    case Resume => g.resume
    case Outcome => g.outcome
  }

  /** The keys present in `g`. */
  function Keys(g: RecruiterAgent): (ks: set<Field>)
    ensures forall f :: f in ks <==> Get(g, f).Some?
  {
    (if g.candidateDetails.Some? then {CandidateDetails} else {})
    + (if g.levelExperience.Some? then {LevelExperience} else {})
    + (if g.skillsMatch.Some? then {Match} else {})
    + (if g.resume.Some? then {Resume} else {})
    + (if g.outcome.Some? then {Outcome} else {})
  }

  /** The one-key dictionary `{f: v}`. */
  function Single(f: Field, v: string): (u: RecruiterAgent)
    ensures Keys(u) == {f}
    ensures Get(u, f) == Some(v)
  {
    match f
    case CandidateDetails => Empty.(candidateDetails := Some(v))
    case LevelExperience => Empty.(levelExperience := Some(v))
    case Match => Empty.(skillsMatch := Some(v))
    case Resume => Empty.(resume := Some(v))
    case Outcome => Empty.(outcome := Some(v))
  }

  /**
    `g.update(u)`: the keys of `u` take their values from `u`, every other
    key keeps its value in `g`.
   */
  function Merge(g: RecruiterAgent, u: RecruiterAgent): (r: RecruiterAgent)
    ensures forall f :: Get(r, f) == if f in Keys(u) then Get(u, f) else Get(g, f)
    ensures Keys(r) == Keys(g) + Keys(u)
  {
    RecruiterAgent(
      if u.candidateDetails.Some? then u.candidateDetails else g.candidateDetails,
      if u.levelExperience.Some? then u.levelExperience else g.levelExperience,
      if u.skillsMatch.Some? then u.skillsMatch else g.skillsMatch,
      if u.resume.Some? then u.resume else g.resume,
      if u.outcome.Some? then u.outcome else g.outcome)
  }

  /** Records are equal exactly when they agree on every key. */
  lemma Extensionality(g: RecruiterAgent, h: RecruiterAgent)
    ensures g == h <==> forall f :: Get(g, f) == Get(h, f)
  {
    if forall f :: Get(g, f) == Get(h, f) {
      assert Get(g, CandidateDetails) == Get(h, CandidateDetails);
      assert Get(g, LevelExperience) == Get(h, LevelExperience);
      assert Get(g, Match) == Get(h, Match);
      assert Get(g, Resume) == Get(h, Resume);
      assert Get(g, Outcome) == Get(h, Outcome);
    }
  }

  /**
    The per-key description of a dictionary update fixes the whole record:
    any record that takes the update's values on its keys and the old
    values elsewhere is `Merge(g, u)`.
   */
  lemma MergeDetermined(g: RecruiterAgent, u: RecruiterAgent, r: RecruiterAgent)
    requires forall f :: Get(r, f) == if f in Keys(u) then Get(u, f) else Get(g, f)
    ensures r == Merge(g, u)
  {
    Extensionality(r, Merge(g, u));
  }

  /**
    Each update in `updates`, applied in order to `g`, writes only keys that
    are absent at that point: no field is ever overwritten.
   */
  ghost predicate WritesOnce(g: RecruiterAgent, updates: seq<RecruiterAgent>)
    decreases |updates|
  {
    |updates| == 0
    || (Keys(updates[0]) !! Keys(g) && WritesOnce(Merge(g, updates[0]), updates[1..]))
  }
}
