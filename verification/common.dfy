/** Option, and finite sums over sequences: what the ledgers of this project are made of. */
module Common {
  datatype Option<+T> = None | Some(value: T)
}

module Sums {
  /** The sum of `f` over the elements of `xs`, taken from the right. */
  function Sum<T>(xs: seq<T>, f: T -> real): real {
    if xs == [] then 0.0 else Sum(xs[..|xs| - 1], f) + f(xs[|xs| - 1])
  }

  /** Replacing one element moves the sum by the difference of the two contributions. */
  lemma {:induction false} SumUpdate<T>(xs: seq<T>, i: nat, x: T, f: T -> real)
    requires i < |xs|
    ensures Sum(xs[i := x], f) == Sum(xs, f) - f(xs[i]) + f(x)
  {
    var n := |xs| - 1;
    if i == n {
      assert xs[i := x][..n] == xs[..n];
    } else {
      assert xs[i := x][..n] == xs[..n][i := x];
      SumUpdate(xs[..n], i, x, f);
    }
  }

  lemma SumAppend<T>(xs: seq<T>, x: T, f: T -> real)
    ensures Sum(xs + [x], f) == Sum(xs, f) + f(x)
  {
    assert (xs + [x])[..|xs|] == xs;
  }

  lemma {:induction false} SumZero<T>(xs: seq<T>, f: T -> real)
    requires forall i :: 0 <= i < |xs| ==> f(xs[i]) == 0.0
    ensures Sum(xs, f) == 0.0
  {
    if xs != [] {
      SumZero(xs[..|xs| - 1], f);
    }
  }

  lemma {:induction false} SumNonNegative<T>(xs: seq<T>, f: T -> real)
    requires forall i :: 0 <= i < |xs| ==> f(xs[i]) >= 0.0
    ensures Sum(xs, f) >= 0.0
  {
    if xs != [] {
      SumNonNegative(xs[..|xs| - 1], f);
    }
  }

  /** Two functions that agree on every element have the same sum. */
  lemma {:induction false} SumSame<T>(xs: seq<T>, f: T -> real, g: T -> real)
    requires forall i :: 0 <= i < |xs| ==> f(xs[i]) == g(xs[i])
    ensures Sum(xs, f) == Sum(xs, g)
  {
    if xs != [] {
      SumSame(xs[..|xs| - 1], f, g);
    }
  }

  lemma {:induction false} SumAtMost<T>(xs: seq<T>, f: T -> real, g: T -> real)
    requires forall i :: 0 <= i < |xs| ==> f(xs[i]) <= g(xs[i])
    ensures Sum(xs, f) <= Sum(xs, g)
  {
    if xs != [] {
      SumAtMost(xs[..|xs| - 1], f, g);
    }
  }
}
