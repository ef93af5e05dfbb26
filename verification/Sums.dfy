/** Sums over sequences: of numbers, and of bags. */
module Sums {

  function Count<T>(xs: seq<T>, w: T -> int): int {
    if xs == [] then 0 else Count(xs[..|xs| - 1], w) + w(xs[|xs| - 1])
  }

  function Gather<T>(xs: seq<T>, g: T -> multiset<int>): multiset<int> {
    if xs == [] then multiset{} else Gather(xs[..|xs| - 1], g) + g(xs[|xs| - 1])
  }

  lemma CountOne<T>(xs: seq<T>, x: T, w: T -> int)
    ensures Count(xs + [x], w) == Count(xs, w) + w(x)
  {
    assert (xs + [x])[..|xs|] == xs;
  }

  lemma GatherOne<T>(xs: seq<T>, x: T, g: T -> multiset<int>)
    ensures Gather(xs + [x], g) == Gather(xs, g) + g(x)
  {
    assert (xs + [x])[..|xs|] == xs;
  }

  lemma {:induction false} CountConcat<T>(xs: seq<T>, ys: seq<T>, w: T -> int)
    ensures Count(xs + ys, w) == Count(xs, w) + Count(ys, w)
  {
    if ys == [] {
      assert xs + ys == xs;
    } else {
      assert xs + ys == (xs + ys[..|ys| - 1]) + [ys[|ys| - 1]];
      CountOne(xs + ys[..|ys| - 1], ys[|ys| - 1], w);
      CountConcat(xs, ys[..|ys| - 1], w);
    }
  }

  lemma {:induction false} GatherConcat<T>(xs: seq<T>, ys: seq<T>, g: T -> multiset<int>)
    ensures Gather(xs + ys, g) == Gather(xs, g) + Gather(ys, g)
  {
    if ys == [] {
      assert xs + ys == xs;
    } else {
      assert xs + ys == (xs + ys[..|ys| - 1]) + [ys[|ys| - 1]];
      GatherOne(xs + ys[..|ys| - 1], ys[|ys| - 1], g);
      GatherConcat(xs, ys[..|ys| - 1], g);
    }
  }

  lemma CountUpdate<T>(xs: seq<T>, i: nat, x: T, w: T -> int)
    requires i < |xs|
    ensures Count(xs[i := x], w) == Count(xs, w) - w(xs[i]) + w(x)
  {
    var a, b := xs[..i], xs[i + 1..];
    assert xs == a + [xs[i]] + b && xs[i := x] == a + [x] + b;
    CountConcat(a + [xs[i]], b, w);
    CountConcat(a + [x], b, w);
    CountOne(a, xs[i], w);
    CountOne(a, x, w);
  }

  lemma GatherUpdate<T>(xs: seq<T>, i: nat, x: T, g: T -> multiset<int>)
    requires i < |xs|
    ensures Gather(xs[i := x], g) + g(xs[i]) == Gather(xs, g) + g(x)
  {
    var a, b := xs[..i], xs[i + 1..];
    assert xs == a + [xs[i]] + b && xs[i := x] == a + [x] + b;
    GatherConcat(a + [xs[i]], b, g);
    GatherConcat(a + [x], b, g);
    GatherOne(a, xs[i], g);
    GatherOne(a, x, g);
  }

  lemma {:induction false} CountNone<T>(xs: seq<T>, w: T -> int)
    requires forall i :: 0 <= i < |xs| ==> w(xs[i]) == 0
    ensures Count(xs, w) == 0
  {
    if xs != [] {
      CountNone(xs[..|xs| - 1], w);
    }
  }

  lemma {:induction false} GatherNone<T>(xs: seq<T>, g: T -> multiset<int>)
    requires forall i :: 0 <= i < |xs| ==> g(xs[i]) == multiset{}
    ensures Gather(xs, g) == multiset{}
  {
    if xs != [] {
      GatherNone(xs[..|xs| - 1], g);
    }
  }
}
