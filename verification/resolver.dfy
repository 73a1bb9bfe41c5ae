/**
  The endpoint-cache resolver: `GetLLM` and `reset_ollama_config`
  (evaluation.py:14-92). The process-wide cache `ollama_config` is passed in
  and returned explicitly; the `OLLAMA_HOST` environment variable is the
  parameter `override`; building a client for a host and sending it the test
  query is the oracle `probe`.
 */
module Resolver {
  import opened Wrappers

  /** The fixed host list, tried in this order (evaluation.py:48-53). */
  const DefaultHosts: seq<string> := [
    "http://localhost:11434",
    "http://host.docker.internal:11434",
    "http://172.17.0.1:11434",
    "http://ollama:11434"
  ]

  /**
    The hosts full discovery tries: the override first when it is set to a
    non-empty value (an empty environment variable is falsy), then the
    fixed list.
   */
  function CandidateHosts(override: Option<string>): (hosts: seq<string>)
    ensures |hosts| >= |DefaultHosts| && hosts[|hosts| - |DefaultHosts|..] == DefaultHosts
    ensures override.Some? && override.value != "" ==> |hosts| == |DefaultHosts| + 1 && hosts[0] == override.value
    ensures !(override.Some? && override.value != "") ==> hosts == DefaultHosts
  {
    if override.Some? && override.value != "" then [override.value] + DefaultHosts else DefaultHosts
  }

  /**
    One call of `GetLLM`: the host of the client it returns (None when it
    raises), the cache afterwards, and the hosts it probed, in order.
   */
  datatype Resolution = Resolution(client: Option<string>, cache: Option<string>, probed: seq<string>)

  /**
    Probing `hosts` in order until one answers probed exactly `probed` and
    returned `client`: `probed` is a prefix of `hosts` whose every host but
    the last failed; its last host answered and is the client; when no host
    answers, all of them were probed and there is no client.
   */
  ghost predicate FirstToAnswer(hosts: seq<string>, probe: string -> bool, client: Option<string>, probed: seq<string>) {
    && probed <= hosts
    && (forall j :: 0 <= j < |probed| - 1 ==> !probe(probed[j]))
    && (client.Some? ==> |probed| > 0 && client.value == probed[|probed| - 1] && probe(client.value))
    && (client.None? ==> probed == hosts && forall j :: 0 <= j < |hosts| ==> !probe(hosts[j]))
  }

  /**
    The `for host in ollama_hosts` loop: probe each host in turn, cache and
    return the first that answers, and raise when none does.
   */
  function Discover(hosts: seq<string>, probe: string -> bool): (r: Resolution)
    ensures FirstToAnswer(hosts, probe, r.client, r.probed)
    ensures r.cache == r.client
    decreases |hosts|
  {
    if |hosts| == 0 then
      Resolution(None, None, [])
    else if probe(hosts[0]) then
      Resolution(Some(hosts[0]), Some(hosts[0]), [hosts[0]])
    else
      var rest := Discover(hosts[1..], probe);
      rest.(probed := [hosts[0]] + rest.probed)
  }

  /** The cached host is set and still answers the probe. */
  predicate CacheHit(cache: Option<string>, probe: string -> bool) {
    cache.Some? && probe(cache.value)
  }

  /** `GetLLM(model)` with the module-level cache made explicit. */
  function GetLLM(cache: Option<string>, override: Option<string>, probe: string -> bool): (r: Resolution)
    // a cached host that still answers is returned without trying the list
    ensures CacheHit(cache, probe) ==> r == Resolution(cache, cache, [cache.value])
    // otherwise the stale cache entry is probed once, then the candidates in order
    ensures !CacheHit(cache, probe) ==>
      var stale := if cache.Some? then [cache.value] else [];
      && |stale| <= |r.probed| && r.probed[..|stale|] == stale
      && FirstToAnswer(CandidateHosts(override), probe, r.client, r.probed[|stale|..])
    // whatever is returned answered the probe and is what the cache now holds;
    // on failure the cache is left empty
    ensures r.client.Some? ==> probe(r.client.value)
    ensures r.cache == r.client
  {
    if CacheHit(cache, probe) then
      Resolution(cache, cache, [cache.value])
    else
      var stale := if cache.Some? then [cache.value] else [];
      var d := Discover(CandidateHosts(override), probe);
      assert (stale + d.probed)[|stale|..] == d.probed;
      d.(probed := stale + d.probed)
  }

  /** `reset_ollama_config()`: the cache after the call. */
  function ResetOllamaConfig(): (cache: Option<string>)
    ensures cache.None?
  {
    None
  }

  /**
    After a successful call, the next call reuses the cached host: it probes
    that host alone and returns the same client with the cache unchanged.
   */
  lemma GetLLMReusesCache(cache: Option<string>, override: Option<string>, probe: string -> bool)
    ensures
      var first := GetLLM(cache, override, probe);
      first.client.Some? ==>
        GetLLM(first.cache, override, probe) == Resolution(first.client, first.cache, [first.client.value])
  {
  }

  /**
    After `reset_ollama_config`, the cached-host probe is skipped: the next
    call is exactly discovery over the candidate hosts, so the first host it
    probes is the first candidate host.
   */
  lemma ResetForcesDiscovery(override: Option<string>, probe: string -> bool)
    ensures GetLLM(ResetOllamaConfig(), override, probe) == Discover(CandidateHosts(override), probe)
    ensures
      var r := GetLLM(ResetOllamaConfig(), override, probe);
      |r.probed| > 0 && r.probed[0] == CandidateHosts(override)[0]
  {
  }

  /** The override, when set, is always the first host discovery probes. */
  lemma OverrideProbedFirst(h: string, probe: string -> bool)
    requires h != ""
    ensures
      var r := GetLLM(None, Some(h), probe);
      |r.probed| > 0 && r.probed[0] == h
      && (probe(h) ==> r.client == Some(h) && r.probed == [h])
  {
  }
}
