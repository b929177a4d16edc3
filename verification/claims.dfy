/** The walk `pods[] -> volume[] -> pvcRef` over one node's payload: which
    volume entries refer to a claim, what key a claim is deduplicated under,
    and the six observations a claim's volume entry yields. */
module Claims {
  import opened Options
  import opened Json
  import opened Metrics

  /** A volume entry that carries a claim reference, as the dedup step sees
      it: the key it is deduplicated under, and the six gauges it would send
      if its key is new, or `None` when sending them would fail a type
      assertion (a label that is not a string, a reading that is not a
      number). Those assertions only run for a new key, so a malformed entry
      is harmless until the dedup step reaches it with a new key. */
  datatype Claim = Claim(key: string, gauges: Option<seq<Observation>>)

  /** What one volume entry contributes: nothing when it has no `pvcRef`
      (absent or null), one claim when `pvcRef` is an object, and a failed
      type assertion (the cycle panics) otherwise. */
  function VolumeClaims(v: Json): (r: Option<seq<Claim>>)
    ensures r.Some? ==> |r.value| <= 1
    ensures r == Some([]) <==> v.Object? && Field(v.fields, "pvcRef").None?
    ensures r.None? <==>
              !v.Object? || (Field(v.fields, "pvcRef").Some? && !Field(v.fields, "pvcRef").value.Object?)
    ensures r.Some? && r.value != [] ==>
              r.value[0] == ClaimOf(Field(v.fields, "pvcRef").value.fields, v.fields)
  {
    if !v.Object? then None
    else
      match Field(v.fields, "pvcRef")
      case None => Some([])
      case Some(Object(ref)) => Some([ClaimOf(ref, v.fields)])
      case Some(_) => None
  }

  /** What one pod entry contributes: the claims of its volumes in order,
      nothing when its `volume` list is absent or null, and a panic when the
      pod is not an object, its `volume` is not a list, or one of its volumes
      is malformed. */
  function PodClaims(p: Json): (r: Option<seq<Claim>>)
    ensures !p.Object? ==> r.None?
    ensures p.Object? && Field(p.fields, "volume").None? ==> r == Some([])
    ensures p.Object? && Field(p.fields, "volume").Some? ==>
              match Field(p.fields, "volume").value
              case Array(vs) => r.None? <==> exists i :: 0 <= i < |vs| && VolumeClaims(vs[i]).None?
              case _ => r.None?
  {
    if !p.Object? then None
    else
      match Field(p.fields, "volume")
      case None => Some([])
      case Some(Array(vs)) => GatherFailsIff(vs, VolumeClaims); Gather(vs, VolumeClaims)
      case Some(_) => None
  }

  /** What one node's payload contributes: the claims of its pods in order.
      A `pods` entry that is absent, null or not a list is a failed type
      assertion, not an empty list; so is an undecodable body, whose map
      stays nil. */
  function PayloadClaims(b: Body): (r: Option<seq<Claim>>)
    ensures !(Field(RootFields(b), "pods").Some? && Field(RootFields(b), "pods").value.Array?) ==> r.None?
    ensures b == Undecodable ==> r.None?
    ensures Field(RootFields(b), "pods") == Some(Array([])) ==> r == Some([])
    ensures Field(RootFields(b), "pods").Some? && Field(RootFields(b), "pods").value.Array? ==>
              var ps := Field(RootFields(b), "pods").value.items;
              r.None? <==> exists i :: 0 <= i < |ps| && PodClaims(ps[i]).None?
  {
    match Field(RootFields(b), "pods")
    case Some(Array(ps)) => GatherFailsIff(ps, PodClaims); Gather(ps, PodClaims)
    case _ => None
  }

  /** Go's `%s` rendering of a `pvcRef` field inside the key. A string is
      itself, nil (absent or null) is `%!s(<nil>)` and a boolean is
      `%!s(bool=true)` or `%!s(bool=false)`, exactly as `fmt` prints them.
      `fmt` prints a number with its value (`%!s(float64=5)`), a list with its
      elements (`[a b]`) and an object with its entries (`map[k:v]`); here
      those render as a fixed marker naming only the Go type, so the model's
      key can coincide where Go's differs and differ where Go's coincides. */
  function KeyPart(v: Option<Json>): string {
    match v
    case None => "%!s(<nil>)"
    case Some(String(s)) => s
    case Some(Null) => "%!s(<nil>)"
    case Some(Bool(b)) => if b then "%!s(bool=true)" else "%!s(bool=false)"
    case Some(Number(_)) => "%!s(float64)"
    case Some(Array(_)) => "%!s([]interface {})"
    case Some(Object(_)) => "%!s(map[string]interface {})"
  }

  /** The keys of a sequence of claims. */
  function KeySet(cs: seq<Claim>): set<string> {
    set i | 0 <= i < |cs| :: cs[i].key
  }

  lemma KeySetCons(cs: seq<Claim>)
    requires cs != []
    ensures KeySet(cs) == {cs[0].key} + KeySet(cs[1..])
  {
    forall k | k in KeySet(cs) ensures k in {cs[0].key} + KeySet(cs[1..]) {
      var i :| 0 <= i < |cs| && cs[i].key == k;
      if i > 0 { assert cs[1..][i - 1].key == k; }
    }
    forall k | k in KeySet(cs[1..]) ensures k in KeySet(cs) {
      var i :| 0 <= i < |cs[1..]| && cs[1..][i].key == k;
      assert cs[i + 1].key == k;
    }
  }

  /** Go's `.(string)` assertion on a label field. */
  function Label(v: Option<Json>): Option<string> {
    match v
    case Some(String(s)) => Some(s)
    case _ => None
  }

  /** Go's `.(float64)` assertion on a numeric field. */
  function Reading(v: Option<Json>): Option<Float64> {
    match v
    case Some(Number(n)) => Some(n)
    case _ => None
  }

  /** The six readings of a volume entry, if every one is a number. */
  function ReadingsOf(vol: map<string, Json>): (r: Option<Readings>)
    ensures r.Some? <==>
              Reading(Field(vol, "capacityBytes")).Some? && Reading(Field(vol, "availableBytes")).Some?
              && Reading(Field(vol, "usedBytes")).Some? && Reading(Field(vol, "inodes")).Some?
              && Reading(Field(vol, "inodesFree")).Some? && Reading(Field(vol, "inodesUsed")).Some?
    ensures r.Some? ==>
              r.value == Readings(
                Reading(Field(vol, "capacityBytes")).value, Reading(Field(vol, "availableBytes")).value,
                Reading(Field(vol, "usedBytes")).value, Reading(Field(vol, "inodes")).value,
                Reading(Field(vol, "inodesFree")).value, Reading(Field(vol, "inodesUsed")).value)
  {
    match (Reading(Field(vol, "capacityBytes")), Reading(Field(vol, "availableBytes")),
           Reading(Field(vol, "usedBytes")), Reading(Field(vol, "inodes")),
           Reading(Field(vol, "inodesFree")), Reading(Field(vol, "inodesUsed")))
    case (Some(c), Some(a), Some(u), Some(i), Some(f), Some(iu)) => Some(Readings(c, a, u, i, f, iu))
    case _ => None
  }

  /** The gauges a claim sends when its key is new. */
  function Emission(c: Claim): Option<seq<Observation>> {
    c.gauges
  }

  /** The dedup key of an observation, rebuilt from its two labels. */
  function SeriesKey(o: Observation): string {
    o.namespace + "/" + o.claim
  }

  /** A claim's gauges, when it has them, are six and all carry its key. */
  predicate Coherent(c: Claim) {
    c.gauges.Some? ==> |c.gauges.value| == 6 && forall o :: o in c.gauges.value ==> SeriesKey(o) == c.key
  }

  /** The dedup key of a `pvcRef` object: `namespace + "/" + name` as `%s`
      renders the two fields, so for a well-formed reference exactly that
      concatenation, and two references whose concatenations coincide share
      one key. */
  function KeyOf(ref: map<string, Json>): (k: string)
    ensures Label(Field(ref, "namespace")).Some? && Label(Field(ref, "name")).Some? ==>
              k == Label(Field(ref, "namespace")).value + "/" + Label(Field(ref, "name")).value
  {
    KeyPart(Field(ref, "namespace")) + "/" + KeyPart(Field(ref, "name"))
  }

  /** The six gauges sent for a new key: they exist exactly when both labels
      are strings and all six readings are numbers, and then they are six,
      each carrying the reference's key. */
  function GaugesOf(ref: map<string, Json>, vol: map<string, Json>): (g: Option<seq<Observation>>)
    ensures g.Some? <==>
              Label(Field(ref, "namespace")).Some? && Label(Field(ref, "name")).Some? && ReadingsOf(vol).Some?
    ensures g.Some? ==> |g.value| == 6 && forall o :: o in g.value ==> SeriesKey(o) == KeyOf(ref)
  {
    match (Label(Field(ref, "namespace")), Label(Field(ref, "name")), ReadingsOf(vol))
    case (Some(ns), Some(name), Some(r)) => Some(Gauges(ns, name, r))
    case _ => None
  }

  /** The claim a `pvcRef` object and its volume entry make. */
  function ClaimOf(ref: map<string, Json>, vol: map<string, Json>): (c: Claim)
    ensures Coherent(c)
  {
    Claim(KeyOf(ref), GaugesOf(ref, vol))
  }

  /** A well-formed reference (two string labels) over a volume entry with
      six numeric readings is keyed by `namespace + "/" + name` and sends the
      six gauges of those readings under those labels. */
  lemma WellFormedClaim(ref: map<string, Json>, vol: map<string, Json>, ns: string, name: string, r: Readings)
    requires Field(ref, "namespace") == Some(String(ns)) && Field(ref, "name") == Some(String(name))
    requires ReadingsOf(vol) == Some(r)
    ensures KeyOf(ref) == ns + "/" + name
    ensures GaugesOf(ref, vol) == Some(Gauges(ns, name, r))
  {
  }

  /** For a claim whose gauges exist: one per descriptor in declaration
      order, labelled with the reference's namespace and name, each carrying
      the volume entry's reading unchanged. */
  lemma ClaimGauges(ref: map<string, Json>, vol: map<string, Json>)
    requires GaugesOf(ref, vol).Some?
    ensures var obs := GaugesOf(ref, vol).value;
            && [obs[0].metric, obs[1].metric, obs[2].metric, obs[3].metric, obs[4].metric, obs[5].metric]
               == Order
            && (forall o :: o in obs ==>
                  Field(ref, "namespace") == Some(String(o.namespace))
                  && Field(ref, "name") == Some(String(o.claim)))
            && [obs[0].value, obs[1].value, obs[2].value, obs[3].value, obs[4].value, obs[5].value]
               == [Reading(Field(vol, "capacityBytes")).value, Reading(Field(vol, "availableBytes")).value,
                   Reading(Field(vol, "usedBytes")).value, Reading(Field(vol, "inodes")).value,
                   Reading(Field(vol, "inodesFree")).value, Reading(Field(vol, "inodesUsed")).value]
  {
  }

  /** Every claim a payload yields has six gauges, when it has any, carrying
      its own key. */
  lemma PayloadClaimsCoherent(b: Body)
    requires PayloadClaims(b).Some?
    ensures forall c :: c in PayloadClaims(b).value ==> Coherent(c)
  {
    forall p | PodClaims(p).Some? ensures forall c :: c in PodClaims(p).value ==> Coherent(c) {
      if Field(p.fields, "volume").Some? {
        GatherAll(Field(p.fields, "volume").value.items, VolumeClaims, Coherent);
      }
    }
    GatherAll(Field(RootFields(b), "pods").value.items, PodClaims, Coherent);
  }
}
