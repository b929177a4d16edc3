/** What a completed or aborted collection cycle reports, stated over the
    cycle's specification (which the collector's loops are proved to
    compute). */
module Cycle {
  import opened Options
  import opened Json
  import opened Metrics
  import opened Claims
  import opened Dedup
  import opened Collector

  /** Every claim the walk yields is coherent. */
  lemma CycleClaimsCoherent(nodes: NodeList, fetch: string -> Fetch)
    requires CycleClaims(nodes, fetch).Some?
    ensures forall c :: c in CycleClaims(nodes, fetch).value ==> Coherent(c)
  {
    forall node | ClaimsOfNode(fetch)(node).Some?
      ensures forall c :: c in ClaimsOfNode(fetch)(node).value ==> Coherent(c)
    {
      PayloadClaimsCoherent(fetch(SummaryUri(node)).body);
    }
    GatherAll(nodes.names, ClaimsOfNode(fetch), Coherent);
  }

  /** The claims whose gauges are sent are among the claims walked over. */
  lemma {:induction false} FirstsWithin(seen: set<string>, cs: seq<Claim>)
    ensures forall c :: c in Firsts(seen, cs) ==> c in cs
    decreases |cs|
  {
    if cs != [] {
      FirstsWithin(seen, cs[1..]);
      FirstsWithin(seen + {cs[0].key}, cs[1..]);
      assert forall c :: c in cs[1..] ==> c in cs;
    }
  }

  /** A cycle that completes has reported every claim key the walk met and
      no other; it sent the six gauges of the first claim of each key, in
      walk order; so it sent exactly six observations per reported key and
      six times as many observations as keys. */
  lemma CompletedCycle(nodes: NodeList, fetch: string -> Fetch)
    requires CycleOutcome(nodes, fetch).Completed?
    ensures CycleClaims(nodes, fetch).Some?
    ensures var cs := CycleClaims(nodes, fetch).value;
            var out := CycleOutcome(nodes, fetch);
            && out.claims == KeySet(cs)
            && Gather(Firsts({}, cs), Emission) == Some(out.observations)
            && |out.observations| == 6 * |out.claims|
            && forall key :: CountKey(out.observations, key) == if key in out.claims then 6 else 0
  {
    var cs := CycleClaims(nodes, fetch).value;
    var out := CycleOutcome(nodes, fetch);
    VisitAllIsFirsts(Start, cs);
    var fs := Firsts({}, cs);
    var obs := Gather(fs, Emission).value;
    assert [] + obs == obs;
    assert {} + KeySet(cs) == KeySet(cs);
    FirstsDistinct({}, cs);
    FirstsKeys({}, cs);
    DistinctKeyCount(fs);
    CycleClaimsCoherent(nodes, fetch);
    FirstsWithin({}, cs);
    forall key ensures CountKey(out.observations, key) == if key in out.claims then 6 else 0 {
      GatheredCounts(fs, key);
    }
    GatheredCounts(fs, "");
  }

  /** A node whose summary cannot be fetched or does not walk (a request
      error, an undecodable body, a `pods` entry that is not a list, a
      malformed pod, volume or claim reference) aborts the whole cycle,
      whatever the other nodes hold. */
  lemma NodeFailureAborts(names: seq<string>, fetch: string -> Fetch, i: nat)
    requires i < |names| && NodeClaims(fetch, names[i]).None?
    ensures CycleOutcome(Listed(names), fetch) == Panicked
  {
    assert ClaimsOfNode(fetch)(names[i]).None?;
    GatherFailsIff(names, ClaimsOfNode(fetch));
  }

  /** In particular a failed fetch aborts the cycle. */
  lemma FetchFailureAborts(names: seq<string>, fetch: string -> Fetch, i: nat)
    requires i < |names| && fetch(SummaryUri(names[i])) == FetchFailed
    ensures CycleOutcome(Listed(names), fetch) == Panicked
  {
    NodeFailureAborts(names, fetch, i);
  }

  /** And so does a payload whose `pods` entry is absent, null or not a list,
      or that does not decode at all. */
  lemma MalformedPayloadAborts(names: seq<string>, fetch: string -> Fetch, i: nat)
    requires i < |names| && fetch(SummaryUri(names[i])).Fetched?
    requires var pods := Field(RootFields(fetch(SummaryUri(names[i])).body), "pods");
             !(pods.Some? && pods.value.Array?)
    ensures CycleOutcome(Listed(names), fetch) == Panicked
  {
    NodeFailureAborts(names, fetch, i);
  }

  /** A node that contributes no claims (its `pods` list is empty, or none of
      its volumes has a claim reference) can be dropped from the node list
      without changing what the cycle reports. */
  lemma EmptyNodeChangesNothing(names: seq<string>, fetch: string -> Fetch, i: nat)
    requires i < |names| && NodeClaims(fetch, names[i]) == Some([])
    ensures CycleOutcome(Listed(names), fetch) == CycleOutcome(Listed(names[..i] + names[i + 1..]), fetch)
  {
    assert names == names[..i] + [names[i]] + names[i + 1..];
    assert ClaimsOfNode(fetch)(names[i]) == Some([]);
    GatherSkip(names[..i], names[i], names[i + 1..], ClaimsOfNode(fetch));
  }

  /** First occurrence wins: when a cycle completes, the first claim walked
      over with a given key had well-formed labels and readings, its six
      gauges were sent as one contiguous run, and they are the only
      observations with that key. */
  lemma FirstOccurrenceWins(nodes: NodeList, fetch: string -> Fetch, f: nat)
    requires CycleOutcome(nodes, fetch).Completed?
    requires CycleClaims(nodes, fetch).Some? && f < |CycleClaims(nodes, fetch).value|
    requires var cs := CycleClaims(nodes, fetch).value;
             forall g :: 0 <= g < f ==> cs[g].key != cs[f].key
    ensures var c := CycleClaims(nodes, fetch).value[f];
            var out := CycleOutcome(nodes, fetch);
            && c.gauges.Some?
            && (exists p :: RunAt(out.observations, c.gauges.value, p))
            && c.key in out.claims
            && CountKey(out.observations, c.key) == 6
  {
    var cs := CycleClaims(nodes, fetch).value;
    CompletedCycle(nodes, fetch);
    FirstOccurrenceKept({}, cs, f);
    var fs := Firsts({}, cs);
    var idx :| 0 <= idx < |fs| && fs[idx] == cs[f];
    GatherMember(fs, Emission, idx);
  }
}
