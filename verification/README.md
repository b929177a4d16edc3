# Volume usage collector, modelled in Dafny

The exporter publishes per-PersistentVolumeClaim volume statistics as
Prometheus gauges. Its core is the collector in
`pkg/collectors/volume_stats.go`, which works in two parts.

- **Describe** declares six gauge descriptors:
  - `kubelet_volume_stats_capacity_bytes`
  - `..._available_bytes`
  - `..._used_bytes`
  - `..._inodes`
  - `..._inodes_free`
  - `..._inodes_used`

  Each is labelled by `namespace` and `persistentvolumeclaim`.
- **Collect** runs one collection cycle:
  1. It lists the cluster's nodes.
  2. It fetches each node's kubelet statistics summary through the API server proxy (`/api/v1/nodes/<name>/proxy/stats/summary`).
  3. It walks `pods[] -> volume[] -> pvcRef` in the decoded JSON.
  4. For every claim reference whose key `namespace + "/" + name` it has not seen before in the cycle, it sends six constant gauges and records the key in the set `allPVCs`.
  5. A failed list, a failed fetch or a failed Go type assertion panics and ends the cycle.

The model has seven modules:

- `Options`: `Option`, and `Gather`. `Gather` concatenates per-element results and fails as soon as one element fails, the way a panic inside a `for ... range` ends the walk.
- `Json`: the decoded payload. `Field` is Go's `m[k] != nil`, where an absent key and a JSON `null` both read as nil. `RootFields` is the nil map left by a body that does not decode.
- `Metrics`: the six descriptors, `Describe`, and `Gauges`, the six observations sent for one claim.
- `Claims`: the walk from a node's payload to the claim-bearing volume entries. It also covers each claim's key (`KeyOf`) and its six gauges (`GaugesOf`), which exist only when the labels are strings and the readings are numbers.
- `Dedup`: the dedup step (`Visit`), the walk over claims (`VisitAll`), and its declarative reading. That reading is "send the gauges of the first claim of each key, in walk order" (`Firsts`, `Declared`).
- `Collector`: the cluster as inputs (`NodeList`, and a `fetch` function from request URI to response). It holds the specification of a cycle (`CycleOutcome`) and the imperative `Collect`. `Collect` keeps the source's three nested loops as `Collect`, `CollectPods` and `CollectVolumes`. It is proved to compute exactly `CycleOutcome`.
- `Cycle`: what a cycle reports.
  - A completed cycle sends exactly six observations per key it reports.
  - The first claim of a key is the one reported.
  - Any node that fails to fetch or walk aborts the cycle.
  - A node without claims changes nothing.

A panic anywhere is not recovered: `Collect` runs in the registry's collect goroutine, so the panic ends the whole exporter process, and the scrape reports nothing. The model represents every panic as one outcome, `Panicked`. So the order in which the source meets the failures does not matter, and the specification can walk everything first and deduplicate afterwards. `ResumeIsGather` proves that this reading equals the source's interleaved order.

A payload whose `pods` entry is absent or `null` fails the type assertion at line 113, so the cycle panics; it is not treated as a node with no pods.

## Model

| member | source | states |
|---|---|---|
| Metrics.Describe | pkg/collectors/volume_stats.go:75-82 | six descriptors, named capacity, available, used, inodes, inodes free, inodes used, in that order; a constant reading no cluster state |
| Metrics.DescribeCoversEveryMetric | pkg/collectors/volume_stats.go:26-57 | every gauge kind is declared and every descriptor carries the labels `namespace`, `persistentvolumeclaim` |
| Metrics.DescribedNamesDistinct | pkg/collectors/volume_stats.go:17-24 | the six descriptor names are pairwise distinct |
| Metrics.Gauges | pkg/collectors/volume_stats.go:138-143 | six observations in declaration order, all labelled with the claim's namespace and name, carrying the six readings unchanged and in order |
| Claims.VolumeClaims | pkg/collectors/volume_stats.go:126-133 | a volume entry yields no claim iff its `pvcRef` is absent or null, panics iff it is not an object or its `pvcRef` is not an object, and otherwise yields exactly the claim of that reference |
| Claims.PodClaims | pkg/collectors/volume_stats.go:115-126 | a non-object pod panics; a pod without `volume` yields nothing; a `volume` that is not a list panics; otherwise the pod fails iff one of its volumes does |
| Claims.PayloadClaims | pkg/collectors/volume_stats.go:109-115 | a body that does not decode, or whose `pods` is absent, null or not a list, panics; an empty pod list yields nothing; otherwise the payload fails iff one of its pods does |
| Claims.ReadingsOf | pkg/collectors/volume_stats.go:138-143 | the readings exist iff all six fields are numbers, and then they are those six numbers |
| Claims.KeyOf | pkg/collectors/volume_stats.go:134 | for string labels the key is `namespace + "/" + name` |
| Claims.GaugesOf | pkg/collectors/volume_stats.go:96-99 | the six gauges exist iff both labels are strings and all readings are numbers; then they are six and each carries the claim's key |
| Claims.ClaimOf | pkg/collectors/volume_stats.go:133-143 | every claim is coherent: its gauges, when present, are six and carry its own key |
| Claims.WellFormedClaim | pkg/collectors/volume_stats.go:133-143 | a reference with string labels over six numeric readings has key `ns + "/" + name` and sends exactly `Gauges(ns, name, readings)` |
| Claims.ClaimGauges | pkg/collectors/volume_stats.go:96-99 | a claim's gauges follow the descriptor order, take their labels from the reference's `namespace` and `name` fields, and carry the volume's six readings unchanged |
| Claims.PayloadClaimsCoherent | pkg/collectors/volume_stats.go:126-143 | every claim a payload yields is coherent |
| Dedup.VisitAllIsFirsts | pkg/collectors/volume_stats.go:134-146 | the dedup walk equals: gather the gauges of the first claim of each new key in walk order, failing iff one of those is malformed, with the set extended by every key walked over |
| Dedup.FirstsDistinct | pkg/collectors/volume_stats.go:136-145 | no reported claim has a key seen before, and no two reported claims share a key |
| Dedup.FirstsKeys | pkg/collectors/volume_stats.go:136-145 | the reported keys are exactly the walked keys not seen before |
| Dedup.FirstOccurrenceKept | pkg/collectors/volume_stats.go:136 | a claim whose key was not seen and is carried by no earlier claim is reported |
| Dedup.DuplicateChangesNothing | pkg/collectors/volume_stats.go:136-146 | dropping a later claim with an already walked key, malformed or not, leaves the walk's result unchanged |
| Dedup.DistinctKeyCount | pkg/collectors/volume_stats.go:145 | claims with pairwise distinct keys add one set element each |
| Dedup.CountKeyAppend | pkg/collectors/volume_stats.go:138-143 | the number of observations with a key is additive over concatenation |
| Dedup.CountUniform | pkg/collectors/volume_stats.go:138-143 | observations that all carry one key count fully for it and not for any other |
| Dedup.GatheredCounts | pkg/collectors/volume_stats.go:136-145 | the gauges of coherent claims with distinct keys hold six observations per key among them, none for any other, and six per claim |
| Dedup.VisitAllAppend | pkg/collectors/volume_stats.go:101-151 | walking two runs of claims is walking the first, then the second from where it ended |
| Dedup.SameKeyTwice | pkg/collectors/volume_stats.go:136-146 | a second claim under the first one's key adds neither observations nor keys |
| Dedup.CollidingKeysAreOneClaim | pkg/collectors/volume_stats.go:134-146 | two references whose `namespace + "/" + name` coincide, e.g. (`a/b`, `c`) and (`a`, `b/c`), are reported once, with the first one's labels and readings |
| Collector.SummaryUri | pkg/collectors/volume_stats.go:104 | the request URI starts with `/api/v1/nodes/`, continues with the node name and ends with `/proxy/stats/summary` |
| Collector.SummaryUriInjective | pkg/collectors/volume_stats.go:104 | distinct nodes are fetched through distinct URIs |
| Collector.NodeClaims | pkg/collectors/volume_stats.go:104-113 | a failed fetch panics; otherwise the node contributes what its payload does |
| Collector.ResumeIsGather | pkg/collectors/volume_stats.go:101-151 | deduplicating while walking equals walking everything and then deduplicating, with a panic in either being a panic |
| Collector.CycleResumes | pkg/collectors/volume_stats.go:85-153 | a cycle's outcome is that of the interleaved walk over the listed nodes |
| Collector.CollectVolumes | pkg/collectors/volume_stats.go:126-148 | the volume loop ends in the state, or the panic, of the dedup walk over that pod's claims |
| Collector.CollectPods | pkg/collectors/volume_stats.go:115-150 | the pod loop ends in the state, or the panic, of the dedup walk over that node's claims |
| Collector.Collect | pkg/collectors/volume_stats.go:85-153 | a cycle panics exactly when the specification does, and otherwise sends exactly its observations, in order, and ends with its dedup set |
| Cycle.CycleClaimsCoherent | pkg/collectors/volume_stats.go:101-151 | every claim the cycle walks over is coherent |
| Cycle.FirstsWithin | pkg/collectors/volume_stats.go:136 | every reported claim is one of the walked claims |
| Cycle.CompletedCycle | pkg/collectors/volume_stats.go:94-153 | a completed cycle's set holds exactly the walked keys; it sent the gauges of the first claim of each key in walk order, six per key and none for any unreported key, `6 * |allPVCs|` in all |
| Cycle.NodeFailureAborts | pkg/collectors/volume_stats.go:104-133 | one node that cannot be fetched or walked aborts the whole cycle |
| Cycle.FetchFailureAborts | pkg/collectors/volume_stats.go:104-107 | a failed fetch aborts the cycle |
| Cycle.MalformedPayloadAborts | pkg/collectors/volume_stats.go:109-113 | a payload that does not decode or whose `pods` is absent, null or not a list aborts the cycle |
| Cycle.EmptyNodeChangesNothing | pkg/collectors/volume_stats.go:101-151 | a node contributing no claims can be dropped from the node list without changing the outcome |
| Cycle.FirstOccurrenceWins | pkg/collectors/volume_stats.go:134-146 | in a completed cycle, the first claim of a key was well formed, its six gauges were sent as one contiguous run, its key is in the set, and they are the only observations with that key |

## Left out

- The Kubernetes client. The clientset, REST calls, the 60-second context timeout and the error values are not modelled. The node list is a parameter, and a fetch is a function from request URI to response that is fixed for the cycle.
- JSON decoding. The body either does not decode at all (`Undecodable`, leaving the nil map) or is one decoded document. A decode that fails half-way and leaves a partly filled map is not modelled.
- Float64 arithmetic. The readings are passed through unchanged and stand as `real`. Rounding, NaN and infinities are not modelled.
- The Prometheus channel and `MustNewConstMetric`. Sending is appending to the cycle's observation sequence. Label values are always valid strings here, so the library's label validation has no failing case to model.
- Observations already sent before a panic. The outcome of a panicking cycle is `Panicked`, without them, because the unrecovered panic ends the whole exporter process.
- The `glog` line at the end of `Collect`, logging, and `main.go` (flags, HTTP server, registration).
- Concurrency between scrapes. Each cycle starts from an empty `allPVCs`, and one cycle is modelled at a time.
- Claims.KeyOf: Go's `%s` rendering is modelled exactly for strings, for nil (`%!s(<nil>)`) and for booleans (`%!s(bool=true)`). Other values are rendered differently by `fmt`: a number as `%!s(float64=5)` with its value, a list with its elements (`[]`, `[a b]`), an object as `map[k:v]` with its sorted entries. The model renders each of these as a fixed marker naming only its Go type (`%!s(float64)`, `%!s([]interface {})`, `%!s(map[string]interface {})`). A claim with such a label panics when its key is new, so the difference only shows when an earlier well-formed claim's string labels spell out the same key, and it runs both ways. First, keys that Go tells apart by their value can coincide in the model, so the model skips a claim Go would report, and Go then panics. Second, keys that coincide in Go can differ in the model. For example, an earlier claim (`"[]"`, `"x"`) and a later claim whose namespace is an empty list and whose name is `"x"` are both `[]/x` in Go, so Go skips the later claim and completes, while the model panics on it.
- The descriptors' const-label argument (always nil) and the gauge value type (always `GaugeValue`) are not represented.
