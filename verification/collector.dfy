/** One collection cycle: list the nodes, fetch each node's statistics
    summary through the API server proxy, walk its pods, volumes and claim
    references, and send six gauges for every claim key not seen before in
    the cycle. Any failed list, failed fetch or failed type assertion panics,
    which ends the cycle with nothing reported. */
module Collector {
  import opened Options
  import opened Json
  import opened Metrics
  import opened Claims
  import opened Dedup

  /** The result of listing the cluster's nodes: an error, or their names in
      list order. */
  datatype NodeList = ListFailed | Listed(names: seq<string>)

  /** The result of one raw GET through the API server: an error, or the
      response body. */
  datatype Fetch = FetchFailed | Fetched(body: Body)

  const SummaryPrefix := "/api/v1/nodes/"
  const SummarySuffix := "/proxy/stats/summary"

  /** The request URI of a node's statistics summary. */
  function SummaryUri(node: string): (uri: string)
    ensures |uri| == |SummaryPrefix| + |node| + |SummarySuffix|
    ensures uri[..|SummaryPrefix|] == SummaryPrefix
    ensures uri[|SummaryPrefix|..|SummaryPrefix| + |node|] == node
    ensures uri[|SummaryPrefix| + |node|..] == SummarySuffix
  {
    SummaryPrefix + node + SummarySuffix
  }

  /** Distinct nodes are fetched through distinct URIs. */
  lemma SummaryUriInjective(a: string, b: string)
    requires SummaryUri(a) == SummaryUri(b)
    ensures a == b
  {
    assert |a| == |b|;
  }

  /** The claims one node contributes, in walk order, or a panic when its
      summary cannot be fetched or is malformed. */
  function NodeClaims(fetch: string -> Fetch, node: string): (r: Option<seq<Claim>>)
    ensures fetch(SummaryUri(node)) == FetchFailed ==> r.None?
    ensures fetch(SummaryUri(node)).Fetched? ==> r == PayloadClaims(fetch(SummaryUri(node)).body)
  {
    match fetch(SummaryUri(node))
    case FetchFailed => None
    case Fetched(body) => PayloadClaims(body)
  }

  /** `NodeClaims` for a fixed cluster, as a function of the node name. */
  function ClaimsOfNode(fetch: string -> Fetch): string -> Option<seq<Claim>> {
    node => NodeClaims(fetch, node)
  }

  /** Every claim-bearing volume entry the cycle walks over, in walk order,
      or `None` when the cycle panics before the dedup step is considered. */
  function CycleClaims(nodes: NodeList, fetch: string -> Fetch): Option<seq<Claim>> {
    match nodes
    case ListFailed => None
    case Listed(names) => Gather(names, ClaimsOfNode(fetch))
  }

  /** How a cycle ends: a panic, or normally with the gauges sent, in order,
      and the final dedup set. */
  datatype Outcome = Panicked | Completed(observations: seq<Observation>, claims: set<string>)

  /** The specification of a cycle: the walk's claims, deduplicated from an
      empty set. */
  function CycleOutcome(nodes: NodeList, fetch: string -> Fetch): Outcome {
    match CycleClaims(nodes, fetch)
    case None => Panicked
    case Some(cs) =>
      match VisitAll(Start, cs)
      case None => Panicked
      case Some(st) => Completed(st.observations, st.seen)
  }

  /** The dedup walk over the claims of `xs`, one element at a time: the
      order in which the collector interleaves walking and deduplicating. */
  function Resume<X>(st: State, xs: seq<X>, f: X -> Option<seq<Claim>>): Option<State>
    decreases |xs|
  {
    if xs == [] then Some(st)
    else
      match f(xs[0])
      case None => None
      case Some(cs) =>
        match VisitAll(st, cs)
        case None => None
        case Some(st') => Resume(st', xs[1..], f)
  }

  /** Continues a walk that has not panicked over `xs`. */
  function Then<X>(o: Option<State>, xs: seq<X>, f: X -> Option<seq<Claim>>): Option<State> {
    match o
    case None => None
    case Some(st) => Resume(st, xs, f)
  }

  /** Interleaving the walk with the dedup step is walking everything first
      and deduplicating afterwards: a panic in either is a panic. */
  lemma {:induction false} ResumeIsGather<X>(st: State, xs: seq<X>, f: X -> Option<seq<Claim>>)
    ensures Resume(st, xs, f) ==
              match Gather(xs, f)
              case None => None
              case Some(cs) => VisitAll(st, cs)
    decreases |xs|
  {
    if xs == [] {
    } else {
      match f(xs[0])
      case None =>
      case Some(cs) =>
        VisitAllAppend(st, cs, if Gather(xs[1..], f).Some? then Gather(xs[1..], f).value else []);
        match VisitAll(st, cs)
        case None =>
        case Some(st') => ResumeIsGather(st', xs[1..], f);
    }
  }

  /** Descending into an element whose claims are those of its children. */
  lemma ResumeNest<X, Z>(st: State, xs: seq<X>, f: X -> Option<seq<Claim>>, ys: seq<Z>, g: Z -> Option<seq<Claim>>)
    requires xs != [] && f(xs[0]) == Gather(ys, g)
    ensures Resume(st, xs, f) == Then(Resume(st, ys, g), xs[1..], f)
  {
    ResumeIsGather(st, ys, g);
  }

  /** An element that panics ends the walk. */
  lemma ResumeFails<X>(st: State, xs: seq<X>, f: X -> Option<seq<Claim>>)
    requires xs != [] && f(xs[0]).None?
    ensures Resume(st, xs, f).None?
  {
  }

  /** An element without claims changes nothing. */
  lemma ResumeSkips<X>(st: State, xs: seq<X>, f: X -> Option<seq<Claim>>)
    requires xs != [] && f(xs[0]) == Some([])
    ensures Resume(st, xs, f) == Resume(st, xs[1..], f)
  {
  }

  /** An element with one claim is one dedup step. */
  lemma ResumeVisits<X>(st: State, xs: seq<X>, f: X -> Option<seq<Claim>>, c: Claim)
    requires xs != [] && f(xs[0]) == Some([c])
    ensures Resume(st, xs, f) ==
              match Visit(st, c)
              case None => None
              case Some(st') => Resume(st', xs[1..], f)
  {
    assert [c][1..] == [];
    match Visit(st, c)
    case None =>
    case Some(st') => assert VisitAll(st, [c]) == VisitAll(st', []) == Some(st');
  }

  /** A cycle's outcome is that of the interleaved walk over the nodes. */
  lemma CycleResumes(nodes: NodeList, fetch: string -> Fetch)
    requires nodes.Listed?
    ensures CycleOutcome(nodes, fetch) ==
              match Resume(Start, nodes.names, ClaimsOfNode(fetch))
              case None => Panicked
              case Some(st) => Completed(st.observations, st.seen)
  {
    ResumeIsGather(Start, nodes.names, ClaimsOfNode(fetch));
  }

  /** The inner loop over one pod's volume entries, from the running state
      `st`: its result is the dedup walk over their claims. */
  method CollectVolumes(st: State, volumes: seq<Json>) returns (r: Option<State>)
    ensures r == Resume(st, volumes, VolumeClaims)
  {
    var emitted, allPVCs := st.observations, st.seen;
    for k := 0 to |volumes|
      invariant Resume(st, volumes, VolumeClaims) == Resume(State(emitted, allPVCs), volumes[k..], VolumeClaims)
    {
      var volume := volumes[k];
      assert volumes[k..][1..] == volumes[k + 1..];
      if !volume.Object? {
        ResumeFails(State(emitted, allPVCs), volumes[k..], VolumeClaims);
        return None;
      }
      var refField := Field(volume.fields, "pvcRef");
      if refField.None? {
        ResumeSkips(State(emitted, allPVCs), volumes[k..], VolumeClaims);
      } else {
        if !refField.value.Object? {
          ResumeFails(State(emitted, allPVCs), volumes[k..], VolumeClaims);
          return None;
        }
        var ref := refField.value.fields;
        ResumeVisits(State(emitted, allPVCs), volumes[k..], VolumeClaims, ClaimOf(ref, volume.fields));
        var key := KeyOf(ref);
        if key !in allPVCs {
          var gauges := GaugesOf(ref, volume.fields);
          if gauges.None? {
            return None;
          }
          emitted := emitted + gauges.value;
          allPVCs := allPVCs + {key};
        }
      }
    }
    return Some(State(emitted, allPVCs));
  }

  /** The loop over one node's pods, from the running state `st`. */
  method CollectPods(st: State, pods: seq<Json>) returns (r: Option<State>)
    ensures r == Resume(st, pods, PodClaims)
  {
    var current := st;
    for j := 0 to |pods|
      invariant Resume(st, pods, PodClaims) == Resume(current, pods[j..], PodClaims)
    {
      var pod := pods[j];
      assert pods[j..][1..] == pods[j + 1..];
      if !pod.Object? {
        ResumeFails(current, pods[j..], PodClaims);
        return None;
      }
      var volumeField := Field(pod.fields, "volume");
      if volumeField.None? {
        ResumeSkips(current, pods[j..], PodClaims);
      } else {
        if !volumeField.value.Array? {
          ResumeFails(current, pods[j..], PodClaims);
          return None;
        }
        ResumeNest(current, pods[j..], PodClaims, volumeField.value.items, VolumeClaims);
        var next := CollectVolumes(current, volumeField.value.items);
        if next.None? {
          return None;
        }
        current := next.value;
      }
    }
    return Some(current);
  }

  /** A collection cycle: the model of the collector's `Collect`. The
      observations it sends and the dedup set it ends with are those of the
      specification, and it panics exactly when the specification does. */
  method Collect(nodes: NodeList, fetch: string -> Fetch) returns (outcome: Outcome)
    ensures outcome == CycleOutcome(nodes, fetch)
  {
    if nodes.ListFailed? {
      return Panicked;
    }
    var names := nodes.names;
    ghost var F := ClaimsOfNode(fetch);
    CycleResumes(nodes, fetch);
    var current := Start;
    for i := 0 to |names|
      invariant Resume(Start, names, F) == Resume(current, names[i..], F)
    {
      var response := fetch(SummaryUri(names[i]));
      assert F(names[i]) == NodeClaims(fetch, names[i]);
      assert names[i..][1..] == names[i + 1..];
      if response.FetchFailed? {
        ResumeFails(current, names[i..], F);
        return Panicked;
      }
      var podsField := Field(RootFields(response.body), "pods");
      if !(podsField.Some? && podsField.value.Array?) {
        ResumeFails(current, names[i..], F);
        return Panicked;
      }
      ResumeNest(current, names[i..], F, podsField.value.items, PodClaims);
      var next := CollectPods(current, podsField.value.items);
      if next.None? {
        return Panicked;
      }
      current := next.value;
    }
    return Completed(current.observations, current.seen);
  }
}
