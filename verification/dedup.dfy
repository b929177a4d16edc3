/** Deduplication of claims within one collection cycle: the dedup set
    `allPVCs`, checked before and extended after each claim's six gauges are
    sent. */
module Dedup {
  import opened Options
  import opened Metrics
  import opened Claims
  import Json

  /** The cycle's running state: the observations sent so far and the set of
      claim keys already reported. */
  datatype State = State(observations: seq<Observation>, seen: set<string>)

  /** The state at the start of a cycle: nothing sent, empty dedup set. */
  const Start: State := State([], {})

  /** One claim-bearing volume entry: a key already in the set is skipped;
      otherwise its six gauges are sent (or the cycle panics on a bad field)
      and then its key is inserted. */
  function Visit(st: State, c: Claim): Option<State> {
    if c.key in st.seen then Some(st)
    else
      match c.gauges
      case None => None
      case Some(obs) => Some(State(st.observations + obs, st.seen + {c.key}))
  }

  /** Visits the claims in order, stopping at the first panic. */
  function VisitAll(st: State, cs: seq<Claim>): Option<State>
    decreases |cs|
  {
    if cs == [] then Some(st)
    else
      match Visit(st, cs[0])
      case None => None
      case Some(st') => VisitAll(st', cs[1..])
  }

  /** The claims whose gauges a cycle sends: each claim whose key was neither
      seen before the walk nor carried by an earlier claim, in walk order. */
  function Firsts(seen: set<string>, cs: seq<Claim>): seq<Claim>
    decreases |cs|
  {
    if cs == [] then []
    else if cs[0].key in seen then Firsts(seen, cs[1..])
    else [cs[0]] + Firsts(seen + {cs[0].key}, cs[1..])
  }

  /** Visiting two runs of claims is visiting the first, then the second. */
  lemma {:induction false} VisitAllAppend(st: State, a: seq<Claim>, b: seq<Claim>)
    ensures VisitAll(st, a + b) ==
              match VisitAll(st, a)
              case None => None
              case Some(st') => VisitAll(st', b)
    decreases |a|
  {
    if a == [] {
      assert a + b == b;
    } else {
      assert (a + b)[0] == a[0];
      assert (a + b)[1..] == a[1..] + b;
      match Visit(st, a[0])
      case None =>
      case Some(st') => VisitAllAppend(st', a[1..], b);
    }
  }

  /** The dedup walk is, declaratively: send the six gauges of every first
      occurrence of a key, in order, panicking if any of those is malformed;
      the final set holds every key walked over. Malformed later duplicates
      are never looked at. */
  lemma {:induction false} VisitAllIsFirsts(st: State, cs: seq<Claim>)
    ensures VisitAll(st, cs) == Declared(st, cs)
    decreases |cs|, 1
  {
    if cs == [] {
      assert st.observations + [] == st.observations;
      assert KeySet(cs) == {};
      assert st.seen + KeySet(cs) == st.seen;
      assert Gather(Firsts(st.seen, cs), Emission) == Some([]);
    } else if cs[0].key in st.seen {
      VisitAllIsFirsts(st, cs[1..]);
      KeySetCons(cs);
      assert st.seen + KeySet(cs) == st.seen + KeySet(cs[1..]);
    } else {
      FreshKeyStep(st, cs);
    }
  }

  /** The declarative reading of the walk from `st` over `cs`. */
  function Declared(st: State, cs: seq<Claim>): Option<State> {
    match Gather(Firsts(st.seen, cs), Emission)
    case None => None
    case Some(obs) => Some(State(st.observations + obs, st.seen + KeySet(cs)))
  }

  lemma {:induction false} FreshKeyStep(st: State, cs: seq<Claim>)
    requires cs != [] && cs[0].key !in st.seen
    ensures VisitAll(st, cs) == Declared(st, cs)
    decreases |cs|, 0
  {
    match cs[0].gauges
    case None =>
      DeclaredFresh(st, cs);
    case Some(obs) =>
      var st' := State(st.observations + obs, st.seen + {cs[0].key});
      assert VisitAll(st, cs) == VisitAll(st', cs[1..]);
      VisitAllIsFirsts(st', cs[1..]);
      DeclaredFresh(st, cs);
  }

  lemma KeySetStep(seen: set<string>, cs: seq<Claim>)
    requires cs != []
    ensures (seen + {cs[0].key}) + KeySet(cs[1..]) == seen + KeySet(cs)
  {
    KeySetCons(cs);
  }

  /** One step of the declarative reading, at a claim whose key is new. */
  lemma DeclaredFresh(st: State, cs: seq<Claim>)
    requires cs != [] && cs[0].key !in st.seen
    ensures Declared(st, cs) ==
              match cs[0].gauges
              case None => None
              case Some(obs) => Declared(State(st.observations + obs, st.seen + {cs[0].key}), cs[1..])
  {
    var c, rest := cs[0], cs[1..];
    var fs := Firsts(st.seen + {c.key}, rest);
    assert Firsts(st.seen, cs) == [c] + fs;
    var cfs := [c] + fs;
    assert cfs[0] == c && cfs[1..] == fs;
    match c.gauges
    case None =>
      assert Gather(cfs, Emission) == None;
    case Some(obs) =>
      KeySetStep(st.seen, cs);
      match Gather(fs, Emission)
      case None =>
        assert Gather(cfs, Emission) == None;
      case Some(more) =>
        assert Gather(cfs, Emission) == Some(obs + more);
        assert (st.observations + obs) + more == st.observations + (obs + more);
  }

  /** No key is reported twice, and none that was already seen. */
  lemma {:induction false} FirstsDistinct(seen: set<string>, cs: seq<Claim>)
    ensures forall i :: 0 <= i < |Firsts(seen, cs)| ==> Firsts(seen, cs)[i].key !in seen
    ensures forall i, j :: 0 <= i < j < |Firsts(seen, cs)| ==>
              Firsts(seen, cs)[i].key != Firsts(seen, cs)[j].key
    decreases |cs|
  {
    if cs != [] {
      var c := cs[0];
      if c.key in seen {
        FirstsDistinct(seen, cs[1..]);
      } else {
        var fs := Firsts(seen + {c.key}, cs[1..]);
        FirstsDistinct(seen + {c.key}, cs[1..]);
        assert Firsts(seen, cs) == [c] + fs;
        forall i | 0 < i < |[c] + fs| ensures ([c] + fs)[i] == fs[i - 1] { }
      }
    }
  }

  /** Every key walked over and not seen before is reported. */
  lemma {:induction false} FirstsKeys(seen: set<string>, cs: seq<Claim>)
    ensures KeySet(Firsts(seen, cs)) == KeySet(cs) - seen
    decreases |cs|
  {
    if cs == [] {
      assert KeySet(cs) == {};
      assert KeySet(Firsts(seen, cs)) == {};
    } else {
      var c := cs[0];
      KeySetCons(cs);
      if c.key in seen {
        FirstsKeys(seen, cs[1..]);
      } else {
        var fs := Firsts(seen + {c.key}, cs[1..]);
        FirstsKeys(seen + {c.key}, cs[1..]);
        assert Firsts(seen, cs) == [c] + fs;
        assert ([c] + fs)[1..] == fs;
        KeySetCons([c] + fs);
      }
    }
  }

  /** First occurrence wins: a claim whose key was not seen before it is the
      one whose gauges are sent for that key. */
  lemma {:induction false} FirstOccurrenceKept(seen: set<string>, cs: seq<Claim>, f: nat)
    requires f < |cs| && cs[f].key !in seen
    requires forall g :: 0 <= g < f ==> cs[g].key != cs[f].key
    ensures cs[f] in Firsts(seen, cs)
    decreases f
  {
    if f > 0 {
      var seen' := if cs[0].key in seen then seen else seen + {cs[0].key};
      forall g | 0 <= g < f - 1 ensures cs[1..][g].key != cs[1..][f - 1].key {
        assert cs[1..][g] == cs[g + 1];
      }
      FirstOccurrenceKept(seen', cs[1..], f - 1);
    }
  }

  /** A later duplicate changes nothing, neither the observations nor the
      set: the walk with it equals the walk without it, whatever its fields. */
  lemma DuplicateChangesNothing(st: State, cs: seq<Claim>, f: nat, g: nat)
    requires g < f < |cs| && cs[g].key == cs[f].key
    ensures VisitAll(st, cs) == VisitAll(st, cs[..f] + cs[f + 1..])
  {
    assert cs == cs[..f] + ([cs[f]] + cs[f + 1..]);
    VisitAllAppend(st, cs[..f], [cs[f]] + cs[f + 1..]);
    VisitAllAppend(st, cs[..f], cs[f + 1..]);
    match VisitAll(st, cs[..f])
    case None =>
    case Some(mid) =>
      VisitAllIsFirsts(st, cs[..f]);
      assert cs[..f][g] == cs[g];
      assert cs[f].key in KeySet(cs[..f]);
      assert cs[f].key in mid.seen;
      assert ([cs[f]] + cs[f + 1..])[1..] == cs[f + 1..];
  }

  /** A sequence of claims with pairwise distinct keys has as many keys as
      claims. */
  lemma {:induction false} DistinctKeyCount(fs: seq<Claim>)
    requires forall i, j :: 0 <= i < j < |fs| ==> fs[i].key != fs[j].key
    ensures |KeySet(fs)| == |fs|
  {
    if fs == [] {
      assert KeySet(fs) == {};
    } else {
      KeySetCons(fs);
      forall i, j | 0 <= i < j < |fs[1..]| ensures fs[1..][i].key != fs[1..][j].key {
        assert fs[1..][i] == fs[i + 1] && fs[1..][j] == fs[j + 1];
      }
      DistinctKeyCount(fs[1..]);
      forall i | 0 <= i < |fs[1..]| ensures fs[1..][i].key != fs[0].key {
        assert fs[1..][i] == fs[i + 1];
      }
    }
  }

  /** The number of observations carrying the dedup key `key`. */
  function CountKey(obs: seq<Observation>, key: string): nat {
    if obs == [] then 0
    else (if SeriesKey(obs[0]) == key then 1 else 0) + CountKey(obs[1..], key)
  }

  lemma {:induction false} CountKeyAppend(a: seq<Observation>, b: seq<Observation>, key: string)
    ensures CountKey(a + b, key) == CountKey(a, key) + CountKey(b, key)
  {
    if a == [] {
      assert a + b == b;
    } else {
      assert (a + b)[0] == a[0];
      assert (a + b)[1..] == a[1..] + b;
      CountKeyAppend(a[1..], b, key);
    }
  }

  /** Observations that all carry one key count fully for it and not at all
      for any other. */
  lemma {:induction false} CountUniform(obs: seq<Observation>, k: string, key: string)
    requires forall o :: o in obs ==> SeriesKey(o) == k
    ensures CountKey(obs, key) == if k == key then |obs| else 0
  {
    if obs != [] {
      assert obs[0] in obs;
      assert forall o :: o in obs[1..] ==> o in obs;
      CountUniform(obs[1..], k, key);
    }
  }

  /** Gathering the gauges of coherent claims with distinct keys sends exactly
      six observations per key among them, none for any other key, and six
      per claim in all. */
  lemma {:induction false} GatheredCounts(fs: seq<Claim>, key: string)
    requires forall i, j :: 0 <= i < j < |fs| ==> fs[i].key != fs[j].key
    requires forall c :: c in fs ==> Coherent(c)
    requires Gather(fs, Emission).Some?
    ensures CountKey(Gather(fs, Emission).value, key) == if key in KeySet(fs) then 6 else 0
    ensures |Gather(fs, Emission).value| == 6 * |fs|
  {
    if fs == [] {
      assert KeySet(fs) == {};
    } else {
      KeySetCons(fs);
      forall i, j | 0 <= i < j < |fs[1..]| ensures fs[1..][i].key != fs[1..][j].key {
        assert fs[1..][i] == fs[i + 1] && fs[1..][j] == fs[j + 1];
      }
      assert forall c :: c in fs[1..] ==> c in fs;
      GatheredCounts(fs[1..], key);
      assert fs[0] in fs;
      CountKeyAppend(fs[0].gauges.value, Gather(fs[1..], Emission).value, key);
      CountUniform(fs[0].gauges.value, fs[0].key, key);
      if key == fs[0].key {
        forall i | 0 <= i < |fs[1..]| ensures fs[1..][i].key != key {
          assert fs[1..][i] == fs[i + 1];
        }
      }
    }
  }

  /** Two references whose `namespace + "/" + name` coincide are one claim,
      even when their labels differ (`"a/b"`, `"c"` and `"a"`, `"b/c"`): only
      the first is reported, under its own labels and with its own readings. */
  lemma CollidingKeysAreOneClaim(ref1: map<string, Json.Json>, vol1: map<string, Json.Json>, ns1: string, name1: string, r1: Readings,
                                 ref2: map<string, Json.Json>, vol2: map<string, Json.Json>, ns2: string, name2: string)
    requires Json.Field(ref1, "namespace") == Some(Json.String(ns1)) && Json.Field(ref1, "name") == Some(Json.String(name1))
    requires Json.Field(ref2, "namespace") == Some(Json.String(ns2)) && Json.Field(ref2, "name") == Some(Json.String(name2))
    requires ReadingsOf(vol1) == Some(r1)
    requires ns1 + "/" + name1 == ns2 + "/" + name2
    ensures VisitAll(Start, [ClaimOf(ref1, vol1), ClaimOf(ref2, vol2)])
            == Some(State(Gauges(ns1, name1, r1), {ns1 + "/" + name1}))
  {
    WellFormedClaim(ref1, vol1, ns1, name1, r1);
    SameKeyTwice(ClaimOf(ref1, vol1), ClaimOf(ref2, vol2));
  }

  /** A second claim under the key of the first adds nothing. */
  lemma SameKeyTwice(first: Claim, second: Claim)
    requires first.key == second.key && first.gauges.Some?
    ensures VisitAll(Start, [first, second]) == Some(State(first.gauges.value, {first.key}))
  {
    var st := State(first.gauges.value, {first.key});
    assert [] + first.gauges.value == first.gauges.value;
    assert {} + {first.key} == {first.key};
    assert Visit(Start, first) == Some(st);
    assert [first, second][1..] == [second];
    assert VisitAll(Start, [first, second]) == VisitAll(st, [second]);
    assert Visit(st, second) == Some(st);
    assert [second][1..] == [];
    assert VisitAll(st, [second]) == VisitAll(st, []);
  }
}
