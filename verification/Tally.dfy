// How many members of a sequence satisfy a predicate, and what one update does to that number.
module Tally {

  function Tally<T>(xs: seq<T>, p: T -> bool): nat
  {
    if xs == [] then 0
    else Tally(xs[..|xs| - 1], p) + if p(xs[|xs| - 1]) then 1 else 0
  }

  lemma {:induction false} Append<T>(xs: seq<T>, x: T, p: T -> bool)
    ensures Tally(xs + [x], p) == Tally(xs, p) + if p(x) then 1 else 0
  {
    assert (xs + [x])[..|xs|] == xs;
  }

  lemma {:induction false} Update<T>(xs: seq<T>, i: nat, x: T, p: T -> bool)
    requires i < |xs|
    ensures Tally(xs[i := x], p) + (if p(xs[i]) then 1 else 0)
         == Tally(xs, p) + if p(x) then 1 else 0
  {
    var n := |xs| - 1;
    var ys := xs[i := x];
    if i == n {
      assert ys[..n] == xs[..n];
    } else {
      assert ys[..n] == xs[..n][i := x];
      Update(xs[..n], i, x, p);
    }
  }

  lemma {:induction false} Member<T>(xs: seq<T>, i: nat, p: T -> bool)
    requires i < |xs| && p(xs[i])
    ensures Tally(xs, p) >= 1
  {
    var n := |xs| - 1;
    if i < n {
      assert xs[..n][i] == xs[i];
      Member(xs[..n], i, p);
    }
  }

  lemma {:induction false} Two<T>(xs: seq<T>, i: nat, j: nat, p: T -> bool)
    requires i < j < |xs| && p(xs[i]) && p(xs[j])
    ensures Tally(xs, p) >= 2
  {
    var n := |xs| - 1;
    if j < n {
      assert xs[..n][i] == xs[i] && xs[..n][j] == xs[j];
      Two(xs[..n], i, j, p);
    } else {
      assert xs[..n][i] == xs[i];
      Member(xs[..n], i, p);
    }
  }

  lemma {:induction false} Witness<T>(xs: seq<T>, p: T -> bool) returns (i: nat)
    requires Tally(xs, p) >= 1
    ensures i < |xs| && p(xs[i])
  {
    var n := |xs| - 1;
    if p(xs[n]) {
      i := n;
    } else {
      i := Witness(xs[..n], p);
    }
  }

  lemma {:induction false} AtMost<T>(xs: seq<T>, p: T -> bool)
    ensures Tally(xs, p) <= |xs|
  {
    if xs != [] { AtMost(xs[..|xs| - 1], p); }
  }

  lemma {:induction false} Remove<T>(xs: seq<T>, i: nat, p: T -> bool)
    requires i < |xs|
    ensures Tally(xs[..i] + xs[i + 1..], p) + (if p(xs[i]) then 1 else 0) == Tally(xs, p)
  {
    var n := |xs| - 1;
    if i == n {
      assert xs[..i] + xs[i + 1..] == xs[..n];
    } else {
      Remove(xs[..n], i, p);
      assert xs[..i] + xs[i + 1..] == (xs[..n][..i] + xs[..n][i + 1..]) + [xs[n]];
      Append(xs[..n][..i] + xs[..n][i + 1..], xs[n], p);
    }
  }

  // The sum of a measure over a sequence.
  function Sum<T>(xs: seq<T>, f: T -> nat): nat
  {
    if xs == [] then 0 else Sum(xs[..|xs| - 1], f) + f(xs[|xs| - 1])
  }

  lemma {:induction false} SumUpdate<T>(xs: seq<T>, i: nat, x: T, f: T -> nat)
    requires i < |xs|
    ensures Sum(xs[i := x], f) + f(xs[i]) == Sum(xs, f) + f(x)
  {
    var n := |xs| - 1;
    var ys := xs[i := x];
    if i == n {
      assert ys[..n] == xs[..n];
    } else {
      assert ys[..n] == xs[..n][i := x];
      SumUpdate(xs[..n], i, x, f);
    }
  }
}
