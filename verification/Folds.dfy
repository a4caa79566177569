/** Sums and multiset unions over a sequence: how the per-thread parts of a state add up.
    A step of one thread replaces one element, so one update lemma serves every total. */
module Folds {

  datatype Option<+T> = None | Some(value: T)

  ghost predicate Distinct<T>(xs: seq<T>) {
    forall i, j :: 0 <= i < j < |xs| ==> xs[i] != xs[j]
  }

  function Sum<T>(xs: seq<T>, f: T -> int): int {
    if xs == [] then 0 else f(xs[0]) + Sum(xs[1..], f)
  }

  function Gather<T, U>(xs: seq<T>, f: T -> multiset<U>): multiset<U> {
    if xs == [] then multiset{} else f(xs[0]) + Gather(xs[1..], f)
  }

  lemma {:induction false} SumUpdate<T>(xs: seq<T>, i: nat, x: T, f: T -> int)
    requires i < |xs|
    ensures Sum(xs[i := x], f) == Sum(xs, f) - f(xs[i]) + f(x)
  {
    if i == 0 {
      assert xs[i := x][1..] == xs[1..];
    } else {
      assert xs[i := x][1..] == xs[1..][i - 1 := x];
      SumUpdate(xs[1..], i - 1, x, f);
    }
  }

  /** Two sequences with pointwise equal weights have equal sums. */
  lemma {:induction false} SumSame<T>(xs: seq<T>, ys: seq<T>, f: T -> int)
    requires |xs| == |ys|
    requires forall i :: 0 <= i < |xs| ==> f(xs[i]) == f(ys[i])
    ensures Sum(xs, f) == Sum(ys, f)
  {
    if xs != [] {
      assert forall i :: 0 <= i < |xs[1..]| ==> xs[1..][i] == xs[i + 1] && ys[1..][i] == ys[i + 1];
      SumSame(xs[1..], ys[1..], f);
    }
  }

  lemma {:induction false} SumNonNegative<T>(xs: seq<T>, f: T -> int)
    requires forall i :: 0 <= i < |xs| ==> 0 <= f(xs[i])
    ensures 0 <= Sum(xs, f)
  {
    if xs != [] {
      assert forall i :: 0 <= i < |xs[1..]| ==> xs[1..][i] == xs[i + 1];
      SumNonNegative(xs[1..], f);
    }
  }

  lemma {:induction false} SumWithout<T>(xs: seq<T>, i: nat, f: T -> int)
    requires i < |xs|
    ensures Sum(xs, f) == f(xs[i]) + Sum(xs[..i] + xs[i + 1..], f)
  {
    if i == 0 {
      assert xs[..0] + xs[1..] == xs[1..];
    } else {
      SumWithout(xs[1..], i - 1, f);
      assert (xs[..i] + xs[i + 1..])[1..] == xs[1..][..i - 1] + xs[1..][i..];
    }
  }

  lemma {:induction false} SumAppend<T>(xs: seq<T>, x: T, f: T -> int)
    ensures Sum(xs + [x], f) == Sum(xs, f) + f(x)
  {
    if xs == [] {
      assert xs + [x] == [x];
    } else {
      SumAppend(xs[1..], x, f);
      assert (xs + [x])[1..] == xs[1..] + [x];
    }
  }

  function Range(n: nat): seq<nat> {
    seq(n, i requires 0 <= i < n => i)
  }

  function Without<T>(xs: seq<T>, p: nat): seq<T>
    requires p < |xs|
  {
    xs[..p] + xs[p + 1..]
  }

  lemma WithoutLast(xs: seq<nat>, p: nat, n: nat)
    requires p < |xs| && xs[p] == n - 1
    requires Distinct(xs)
    requires forall k: nat :: k in xs <==> k < n
    ensures forall k: nat :: k in Without(xs, p) <==> k < n - 1
  {
    forall k: nat
      ensures k in Without(xs, p) <==> k < n - 1
    {
      if k in xs && k != n - 1 {
        var q :| 0 <= q < |xs| && xs[q] == k;
        assert Without(xs, p)[if q < p then q else q - 1] == k;
      }
    }
  }

  /** A sequence of the indices below n, each once, sums like 0, 1, ..., n-1. */
  lemma {:induction false} SumPermutation(xs: seq<nat>, n: nat, f: nat -> int)
    requires Distinct(xs)
    requires forall k: nat :: k in xs <==> k < n
    ensures |xs| == n && Sum(xs, f) == Sum(Range(n), f)
  {
    if xs == [] {
      assert n == 0 || n - 1 !in xs;
    } else {
      assert xs[0] in xs;
      assert n - 1 in xs;
      var p :| 0 <= p < |xs| && xs[p] == n - 1;
      SumWithout(xs, p, f);
      WithoutLast(xs, p, n);
      SumPermutation(Without(xs, p), n - 1, f);
      SumAppend<nat>(Range(n - 1), n - 1, f);
      assert Range(n) == Range(n - 1) + [n - 1];
      hide Sum;
    }
  }

  lemma {:induction false} SumScaled<T>(xs: seq<T>, f: T -> int, g: T -> int, k: nat)
    requires forall i :: 0 <= i < |xs| ==> f(xs[i]) <= k * g(xs[i])
    ensures Sum(xs, f) <= k * Sum(xs, g)
  {
    if xs != [] {
      assert forall i :: 0 <= i < |xs[1..]| ==> xs[1..][i] == xs[i + 1];
      SumScaled(xs[1..], f, g, k);
      assert k * Sum(xs, g) == k * g(xs[0]) + k * Sum(xs[1..], g);
    }
  }

  lemma {:induction false} SumAtMost<T>(xs: seq<T>, f: T -> int, hi: int)
    requires forall i :: 0 <= i < |xs| ==> f(xs[i]) <= hi
    ensures Sum(xs, f) <= hi * |xs|
  {
    if xs != [] {
      assert forall i :: 0 <= i < |xs[1..]| ==> xs[1..][i] == xs[i + 1];
      SumAtMost(xs[1..], f, hi);
      assert hi * |xs| == hi * |xs[1..]| + hi;
    }
  }

  /** A positive sum of weights has a positive weight in it. */
  lemma {:induction false} SumWitness<T>(xs: seq<T>, f: T -> int) returns (i: nat)
    requires Sum(xs, f) > 0
    ensures i < |xs| && f(xs[i]) > 0
  {
    if f(xs[0]) > 0 {
      i := 0;
    } else {
      var k := SumWitness(xs[1..], f);
      i := k + 1;
    }
  }

  lemma {:induction false} GatherUpdate<T, U>(xs: seq<T>, i: nat, x: T, f: T -> multiset<U>)
    requires i < |xs|
    ensures f(xs[i]) <= Gather(xs, f)
    ensures Gather(xs[i := x], f) == Gather(xs, f) - f(xs[i]) + f(x)
  {
    if i == 0 {
      assert xs[i := x][1..] == xs[1..];
    } else {
      assert xs[i := x][1..] == xs[1..][i - 1 := x];
      GatherUpdate(xs[1..], i - 1, x, f);
    }
  }

  lemma GatherGain<T, U>(xs: seq<T>, i: nat, x: T, f: T -> multiset<U>)
    requires i < |xs| && f(xs[i]) == multiset{}
    ensures Gather(xs[i := x], f) == Gather(xs, f) + f(x)
  {
    GatherUpdate(xs, i, x, f);
  }

  lemma GatherLose<T, U>(xs: seq<T>, i: nat, x: T, f: T -> multiset<U>)
    requires i < |xs| && f(x) == multiset{}
    ensures Gather(xs, f) == Gather(xs[i := x], f) + f(xs[i])
  {
    GatherUpdate(xs, i, x, f);
  }

  lemma GatherKeep<T, U>(xs: seq<T>, i: nat, x: T, f: T -> multiset<U>)
    requires i < |xs| && f(x) == f(xs[i])
    ensures Gather(xs[i := x], f) == Gather(xs, f)
  {
    GatherUpdate(xs, i, x, f);
  }

  lemma GatherMember<T, U>(xs: seq<T>, i: nat, f: T -> multiset<U>)
    requires i < |xs|
    ensures f(xs[i]) <= Gather(xs, f)
  {
    GatherUpdate(xs, i, xs[i], f);
  }

  lemma {:induction false} GatherEmpty<T, U>(xs: seq<T>, f: T -> multiset<U>)
    requires forall i :: 0 <= i < |xs| ==> f(xs[i]) == multiset{}
    ensures Gather(xs, f) == multiset{}
  {
    if xs != [] {
      assert forall i :: 0 <= i < |xs[1..]| ==> xs[1..][i] == xs[i + 1];
      GatherEmpty(xs[1..], f);
    }
  }

  lemma {:induction false} GatherSame<T, U>(xs: seq<T>, ys: seq<T>, f: T -> multiset<U>)
    requires |xs| == |ys|
    requires forall i :: 0 <= i < |xs| ==> f(xs[i]) == f(ys[i])
    ensures Gather(xs, f) == Gather(ys, f)
  {
    if xs != [] {
      assert forall i :: 0 <= i < |xs[1..]| ==> xs[1..][i] == xs[i + 1] && ys[1..][i] == ys[i + 1];
      GatherSame(xs[1..], ys[1..], f);
    }
  }

  /** Whatever the union holds, some element contributed. */
  lemma {:induction false} GatherWitness<T, U>(xs: seq<T>, f: T -> multiset<U>, u: U) returns (i: nat)
    requires u in Gather(xs, f)
    ensures i < |xs| && u in f(xs[i])
  {
    if u in f(xs[0]) {
      i := 0;
    } else {
      var k := GatherWitness(xs[1..], f, u);
      i := k + 1;
    }
  }

  /** The size of the union is the sum of the sizes. */
  lemma {:induction false} GatherSize<T, U>(xs: seq<T>, f: T -> multiset<U>, size: T -> int)
    requires forall i :: 0 <= i < |xs| ==> |f(xs[i])| == size(xs[i])
    ensures |Gather(xs, f)| == Sum(xs, size)
  {
    if xs != [] {
      assert forall i :: 0 <= i < |xs[1..]| ==> xs[1..][i] == xs[i + 1];
      GatherSize(xs[1..], f, size);
    }
  }
}
