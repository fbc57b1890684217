/**
 Sums over sequences. The protocol models keep one record per wave or per PE in
 a sequence and account for a shared counter as a sum over those records.
 */
module Sums {

  function Sum<T>(f: T -> nat, xs: seq<T>): nat
  {
    if xs == [] then 0 else f(xs[0]) + Sum(f, xs[1..])
  }

  /** Replacing one record changes the sum by exactly that record's share. */
  lemma {:induction false} SumUpdate<T>(f: T -> nat, xs: seq<T>, i: nat, x: T)
    requires i < |xs|
    ensures Sum(f, xs[i := x]) + f(xs[i]) == Sum(f, xs) + f(x)
  {
    if i == 0 {
      assert xs[i := x][1..] == xs[1..];
    } else {
      assert xs[i := x][1..] == xs[1..][i - 1 := x];
      SumUpdate(f, xs[1..], i - 1, x);
    }
  }

  lemma {:induction false} SumAtLeast<T>(f: T -> nat, xs: seq<T>, i: nat)
    requires i < |xs|
    ensures f(xs[i]) <= Sum(f, xs)
  {
    if i > 0 {
      SumAtLeast(f, xs[1..], i - 1);
    }
  }

  /** A positive sum has a positive share. */
  lemma {:induction false} SumWitness<T>(f: T -> nat, xs: seq<T>) returns (i: nat)
    requires Sum(f, xs) > 0
    ensures i < |xs| && f(xs[i]) > 0
  {
    if f(xs[0]) > 0 {
      i := 0;
    } else {
      i := SumWitness(f, xs[1..]);
      i := i + 1;
    }
  }

  /** Two families of shares, one dominating the other pointwise. */
  lemma {:induction false} SumDominated<S, T>(f: S -> nat, xs: seq<S>, g: T -> nat, ys: seq<T>, k: nat)
    requires |xs| == |ys|
    requires forall i :: 0 <= i < |xs| ==> f(xs[i]) <= k * g(ys[i])
    ensures Sum(f, xs) <= k * Sum(g, ys)
  {
    if xs != [] {
      forall i | 0 <= i < |xs[1..]| ensures f(xs[1..][i]) <= k * g(ys[1..][i]) {
        assert f(xs[i + 1]) <= k * g(ys[i + 1]);
      }
      SumDominated(f, xs[1..], g, ys[1..], k);
      assert f(xs[0]) <= k * g(ys[0]);
    }
  }

  lemma {:induction false} SumConstant<T>(f: T -> nat, xs: seq<T>, k: nat)
    requires forall i :: 0 <= i < |xs| ==> f(xs[i]) == k
    ensures Sum(f, xs) == k * |xs|
  {
    if xs != [] {
      forall i | 0 <= i < |xs[1..]| ensures f(xs[1..][i]) == k {
        assert f(xs[i + 1]) == k;
      }
      SumConstant(f, xs[1..], k);
    }
  }

  lemma {:induction false} SumBounded<T>(f: T -> nat, xs: seq<T>, k: nat)
    requires forall i :: 0 <= i < |xs| ==> f(xs[i]) <= k
    ensures Sum(f, xs) <= k * |xs|
  {
    SumDominated(f, xs, (x: T) => 1, xs, k);
    SumConstant((x: T) => 1, xs, 1);
  }
}
