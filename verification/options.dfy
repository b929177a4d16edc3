/** Optional values, and the ordered gathering of per-element results in which
    one failing element fails the whole walk (the way a Go panic inside a
    `for ... range` loop ends the enclosing collection cycle). */
module Options {

  datatype Option<+T> = None | Some(value: T)

  /** Concatenates the results of `f` over `xs`, in order; fails as soon as
      one element fails. */
  function Gather<X, Y>(xs: seq<X>, f: X -> Option<seq<Y>>): Option<seq<Y>> {
    if xs == [] then Some([])
    else
      match f(xs[0])
      case None => None
      case Some(a) =>
        match Gather(xs[1..], f)
        case None => None
        case Some(b) => Some(a + b)
  }

  /** The gathering fails exactly when some element fails. */
  lemma {:induction false} GatherFailsIff<X, Y>(xs: seq<X>, f: X -> Option<seq<Y>>)
    ensures Gather(xs, f).None? <==> exists i :: 0 <= i < |xs| && f(xs[i]).None?
  {
    if xs != [] {
      GatherFailsIff(xs[1..], f);
      if f(xs[0]).Some? && Gather(xs[1..], f).None? {
        var i :| 0 <= i < |xs[1..]| && f(xs[1..][i]).None?;
        assert f(xs[i + 1]).None?;
      }
      if f(xs[0]).Some? && Gather(xs[1..], f).Some? {
        forall i | 0 <= i < |xs| ensures f(xs[i]).Some? {
          if i > 0 { assert xs[i] == xs[1..][i - 1]; }
        }
      }
    }
  }

  /** Gathering over two consecutive runs is gathering over each run and
      concatenating. */
  lemma {:induction false} GatherAppend<X, Y>(xs: seq<X>, ys: seq<X>, f: X -> Option<seq<Y>>)
    ensures Gather(xs + ys, f) ==
              match (Gather(xs, f), Gather(ys, f))
              case (Some(a), Some(b)) => Some(a + b)
              case _ => None
  {
    if xs == [] {
      assert xs + ys == ys;
      match Gather(ys, f)
      case None =>
      case Some(b) => assert [] + b == b;
    } else {
      assert (xs + ys)[0] == xs[0];
      assert (xs + ys)[1..] == xs[1..] + ys;
      GatherAppend(xs[1..], ys, f);
      match f(xs[0])
      case None =>
      case Some(a) =>
        match (Gather(xs[1..], f), Gather(ys, f))
        case (Some(b), Some(c)) =>
          assert a + (b + c) == (a + b) + c;
        case _ =>
    }
  }

  /** An element whose result is empty changes nothing, wherever it stands. */
  lemma GatherSkip<X, Y>(xs: seq<X>, x: X, ys: seq<X>, f: X -> Option<seq<Y>>)
    requires f(x) == Some([])
    ensures Gather(xs + [x] + ys, f) == Gather(xs + ys, f)
  {
    GatherAppend(xs + [x], ys, f);
    GatherAppend(xs, [x], f);
    GatherAppend(xs, ys, f);
    assert [x][1..] == [];
    assert Gather([x][1..], f) == Some([]);
    var none: seq<Y> := [];
    assert none + none == none;
    assert Gather([x], f) == Some([]);
    match Gather(xs, f)
    case None =>
    case Some(a) =>
      assert a + [] == a;
  }

  /** `run` occurs in `whole` starting at position `p`. */
  ghost predicate RunAt<Y>(whole: seq<Y>, run: seq<Y>, p: int) {
    0 <= p && p + |run| <= |whole| && whole[p..p + |run|] == run
  }

  /** Every successful element's result appears, contiguously, in the
      gathered whole. */
  lemma {:induction false} GatherMember<X, Y>(xs: seq<X>, f: X -> Option<seq<Y>>, i: nat)
    requires i < |xs| && Gather(xs, f).Some?
    ensures f(xs[i]).Some?
    ensures exists p :: RunAt(Gather(xs, f).value, f(xs[i]).value, p)
  {
    var a := f(xs[0]).value;
    var b := Gather(xs[1..], f).value;
    assert Gather(xs, f).value == a + b;
    if i == 0 {
      assert (a + b)[0..|a|] == a;
      assert RunAt(a + b, a, 0);
    } else {
      GatherMember(xs[1..], f, i - 1);
      assert xs[1..][i - 1] == xs[i];
      var v := f(xs[i]).value;
      var p :| RunAt(b, v, p);
      assert (a + b)[|a| + p..|a| + p + |v|] == b[p..p + |v|];
      assert RunAt(a + b, v, |a| + p);
    }
  }

  /** A property every element's result satisfies holds of the gathered
      whole. */
  lemma {:induction false} GatherAll<X, Y>(xs: seq<X>, f: X -> Option<seq<Y>>, p: Y -> bool)
    requires forall x :: f(x).Some? ==> forall y :: y in f(x).value ==> p(y)
    requires Gather(xs, f).Some?
    ensures forall y :: y in Gather(xs, f).value ==> p(y)
  {
    if xs != [] {
      GatherAll(xs[1..], f, p);
      var a, b := f(xs[0]).value, Gather(xs[1..], f).value;
      assert Gather(xs, f).value == a + b;
      assert forall y :: y in a + b ==> y in a || y in b;
    }
  }
}
