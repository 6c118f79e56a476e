/** Sequences: facts between neighbours carried along the whole of it, and what a filter keeps. */
module Chains {

  ghost predicate Transitive<T(!new)>(rel: (T, T) -> bool) {
    forall a, b, c :: rel(a, b) && rel(b, c) ==> rel(a, c)
  }

  ghost predicate Reflexive<T(!new)>(rel: (T, T) -> bool) {
    forall a :: rel(a, a)
  }

  lemma {:induction false} Chain<T(!new)>(ts: seq<T>, rel: (T, T) -> bool, i: nat, j: nat)
    requires i <= j < |ts| && Transitive(rel) && Reflexive(rel)
    requires forall k | i <= k < j :: rel(ts[k], ts[k + 1])
    ensures rel(ts[i], ts[j])
    decreases j - i
  {
    if i < j {
      Chain(ts, rel, i, j - 1);
      assert rel(ts[j - 1], ts[j - 1 + 1]);
    }
  }

  /** The elements with a property, in order. */
  function Filter<T(!new)>(xs: seq<T>, p: T -> bool): (r: seq<T>)
    ensures |r| <= |xs| && forall x :: x in r <==> x in xs && p(x)
    ensures r == [] <==> forall x | x in xs :: !p(x)
  {
    if xs == [] then []
    else Filter(xs[..|xs| - 1], p) + if p(xs[|xs| - 1]) then [xs[|xs| - 1]] else []
  }

  lemma FilterPair<T(!new)>(xs: seq<T>, p: T -> bool)
    requires |xs| == 2
    ensures |Filter(xs, p)| == (if p(xs[0]) then 1 else 0) + if p(xs[1]) then 1 else 0
  {
    assert xs[..1] == [xs[0]] && [xs[0]][..0] == [];
  }
}
