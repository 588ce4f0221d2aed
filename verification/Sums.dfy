// Sums over the loops of a state, and how they move when one loop changes.

module Sums {
  function Sum<T>(xs: seq<T>, f: T -> nat): nat {
    if xs == [] then 0 else Sum(xs[..|xs| - 1], f) + f(xs[|xs| - 1])
  }

  lemma SumAppend<T>(xs: seq<T>, x: T, f: T -> nat)
    ensures Sum(xs + [x], f) == Sum(xs, f) + f(x)
  {
    assert (xs + [x])[..|xs|] == xs;
  }

  lemma {:induction false} SumUpdate<T>(xs: seq<T>, i: nat, x: T, f: T -> nat)
    requires i < |xs|
    ensures Sum(xs[i := x], f) + f(xs[i]) == Sum(xs, f) + f(x)
  {
    var n := |xs| - 1;
    if i == n {
      assert xs[i := x][..n] == xs[..n];
    } else {
      assert xs[i := x][..n] == xs[..n][i := x];
      SumUpdate(xs[..n], i, x, f);
    }
  }

  lemma {:induction false} SumMono<T>(xs: seq<T>, ys: seq<T>, f: T -> nat, g: T -> nat)
    requires |xs| <= |ys| && forall i | 0 <= i < |xs| :: f(xs[i]) <= g(ys[i])
    ensures Sum(xs, f) <= Sum(ys, g)
    decreases |ys|
  {
    if |xs| < |ys| {
      SumMono(xs, ys[..|ys| - 1], f, g);
    } else if xs != [] {
      SumMono(xs[..|xs| - 1], ys[..|ys| - 1], f, g);
    }
  }

  lemma SumMonoStrict<T>(xs: seq<T>, ys: seq<T>, f: T -> nat, g: T -> nat, k: nat)
    requires |xs| == |ys| && forall i | 0 <= i < |xs| :: f(xs[i]) <= g(ys[i])
    requires k < |xs| && f(xs[k]) < g(ys[k])
    ensures Sum(xs, f) < Sum(ys, g)
    decreases |xs|
  {
    var n := |xs| - 1;
    if k == n {
      SumMono(xs[..n], ys[..n], f, g);
    } else {
      SumMonoStrict(xs[..n], ys[..n], f, g, k);
    }
  }

  lemma {:induction false} SumZero<T>(xs: seq<T>, f: T -> nat)
    ensures Sum(xs, f) == 0 <==> forall i | 0 <= i < |xs| :: f(xs[i]) == 0
  {
    if xs != [] {
      SumZero(xs[..|xs| - 1], f);
      assert forall i | 0 <= i < |xs| - 1 :: xs[..|xs| - 1][i] == xs[i];
    }
  }
}
