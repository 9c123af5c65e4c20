/** Occurrences in a sequence, and sums over it, under the updates the models make. */
module Counting {
  function Count<T(==)>(xs: seq<T>, x: T): nat {
    if xs == [] then 0 else Count(xs[..|xs| - 1], x) + (if xs[|xs| - 1] == x then 1 else 0)
  }

  lemma {:induction false} CountUpdate<T>(xs: seq<T>, i: nat, y: T, x: T)
    requires i < |xs|
    ensures Count(xs[i := y], x) + (if xs[i] == x then 1 else 0) == Count(xs, x) + (if y == x then 1 else 0)
    decreases |xs|
  {
    var n := |xs| - 1;
    if i < n {
      CountUpdate(xs[..n], i, y, x);
      assert xs[i := y][..n] == xs[..n][i := y];
    } else {
      assert xs[i := y][..n] == xs[..n];
    }
  }

  lemma {:induction false} CountTail<T>(xs: seq<T>, x: T)
    requires xs != []
    ensures Count(xs, x) == (if xs[0] == x then 1 else 0) + Count(xs[1..], x)
    decreases |xs|
  {
    var n := |xs| - 1;
    if n > 0 {
      CountTail(xs[..n], x);
      assert xs[1..][..n - 1] == xs[..n][1..];
    }
  }

  lemma {:induction false} CountPositive<T>(xs: seq<T>, x: T)
    ensures Count(xs, x) > 0 <==> x in xs
    decreases |xs|
  {
    if xs != [] {
      var n := |xs| - 1;
      CountPositive(xs[..n], x);
      assert xs == xs[..n] + [xs[n]];
    }
  }

  function Sum(xs: seq<nat>): nat {
    if xs == [] then 0 else Sum(xs[..|xs| - 1]) + xs[|xs| - 1]
  }

  lemma {:induction false} SumUpdate(xs: seq<nat>, i: nat, y: nat)
    requires i < |xs|
    ensures Sum(xs[i := y]) + xs[i] == Sum(xs) + y
    decreases |xs|
  {
    var n := |xs| - 1;
    if i < n {
      SumUpdate(xs[..n], i, y);
      assert xs[i := y][..n] == xs[..n][i := y];
    } else {
      assert xs[i := y][..n] == xs[..n];
    }
  }

  lemma {:induction false} SumAtLeast(xs: seq<nat>, i: nat)
    requires i < |xs|
    ensures xs[i] <= Sum(xs)
    decreases |xs|
  {
    if i < |xs| - 1 { SumAtLeast(xs[..|xs| - 1], i); }
  }
}
