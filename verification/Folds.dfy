/** Totals over a sequence, and what changing one element does to them. The protocols keep one entry
per thread, so each of their steps changes one or two entries. */
module Folds {

  // ---------- numbers ----------

  ghost function Total<T>(f: T -> int, xs: seq<T>): int
    decreases |xs|
  {
    if xs == [] then 0 else Total(f, xs[..|xs| - 1]) + f(xs[|xs| - 1])
  }

  lemma TotalAppend<T>(f: T -> int, xs: seq<T>, x: T)
    ensures Total(f, xs + [x]) == Total(f, xs) + f(x)
  {
    assert (xs + [x])[..|xs|] == xs;
  }

  lemma {:induction false} TotalUpdate<T>(f: T -> int, xs: seq<T>, i: nat, x: T)
    requires i < |xs|
    ensures Total(f, xs[i := x]) == Total(f, xs) - f(xs[i]) + f(x)
    decreases |xs|
  {
    var n := |xs| - 1;
    if i == n {
      assert xs[i := x][..n] == xs[..n];
    } else {
      assert xs[i := x][..n] == xs[..n][i := x];
      TotalUpdate(f, xs[..n], i, x);
    }
  }

  /** A total of non-negative entries is at least each of them. */
  lemma {:induction false} TotalBounds<T>(f: T -> int, xs: seq<T>)
    requires forall i :: 0 <= i < |xs| ==> f(xs[i]) >= 0
    ensures Total(f, xs) >= 0
    ensures forall i :: 0 <= i < |xs| ==> f(xs[i]) <= Total(f, xs)
    decreases |xs|
  {
    if xs != [] {
      var n := |xs| - 1;
      TotalBounds(f, xs[..n]);
      forall i | 0 <= i < |xs| ensures f(xs[i]) <= Total(f, xs) {
        if i < n {
          assert xs[..n][i] == xs[i];
        }
      }
    }
  }

  /** Entries that all have the same value. */
  lemma {:induction false} TotalConstant<T>(f: T -> int, xs: seq<T>, c: int)
    requires forall i :: 0 <= i < |xs| ==> f(xs[i]) == c
    ensures Total(f, xs) == c * |xs|
    decreases |xs|
  {
    if xs != [] {
      TotalConstant(f, xs[..|xs| - 1], c);
    }
  }

  /** Flags that add up to the number of entries are all set. */
  lemma {:induction false} TotalFull<T>(f: T -> int, xs: seq<T>)
    requires forall i :: 0 <= i < |xs| ==> f(xs[i]) == 0 || f(xs[i]) == 1
    ensures 0 <= Total(f, xs) <= |xs|
    ensures Total(f, xs) == |xs| ==> forall i :: 0 <= i < |xs| ==> f(xs[i]) == 1
    decreases |xs|
  {
    if xs != [] {
      var n := |xs| - 1;
      TotalFull(f, xs[..n]);
      if Total(f, xs) == |xs| {
        forall i | 0 <= i < |xs| ensures f(xs[i]) == 1 {
          assert i < n ==> xs[..n][i] == xs[i];
        }
      }
    }
  }

  // ---------- collections of items ----------

  ghost function Union<T>(f: T -> multiset<nat>, xs: seq<T>): multiset<nat>
    decreases |xs|
  {
    if xs == [] then multiset{} else Union(f, xs[..|xs| - 1]) + f(xs[|xs| - 1])
  }

  /** Whatever one entry gains or loses, the union gains or loses. */
  lemma {:induction false} UnionChange<T>(f: T -> multiset<nat>, xs: seq<T>, i: nat, x: T,
                                          lost: multiset<nat>, gained: multiset<nat>)
    requires i < |xs| && f(xs[i]) + gained == f(x) + lost
    ensures Union(f, xs) + gained == Union(f, xs[i := x]) + lost
    decreases |xs|
  {
    var n := |xs| - 1;
    var rest := Union(f, xs[..n]);
    if i == n {
      assert xs[i := x][..n] == xs[..n];
      assert rest + f(xs[i]) + gained == rest + (f(xs[i]) + gained);
      assert rest + f(x) + lost == rest + (f(x) + lost);
    } else {
      assert xs[i := x][..n] == xs[..n][i := x];
      UnionChange(f, xs[..n], i, x, lost, gained);
      var rest' := Union(f, xs[..n][i := x]);
      assert rest + f(xs[n]) + gained == (rest + gained) + f(xs[n]);
      assert rest' + f(xs[n]) + lost == (rest' + lost) + f(xs[n]);
    }
  }

  lemma UnionLess<T>(f: T -> multiset<nat>, xs: seq<T>, i: nat, x: T, lost: multiset<nat>)
    requires i < |xs| && f(xs[i]) == f(x) + lost
    ensures Union(f, xs) == Union(f, xs[i := x]) + lost
  {
    assert f(xs[i]) + multiset{} == f(xs[i]);
    UnionChange(f, xs, i, x, lost, multiset{});
    assert Union(f, xs) + multiset{} == Union(f, xs);
  }

  lemma UnionTake<T>(f: T -> multiset<nat>, xs: seq<T>, i: nat, x: T, item: nat)
    requires i < |xs| && f(xs[i]) == f(x) + multiset{item}
    ensures Union(f, xs) == Union(f, xs[i := x]) + multiset{item}
  {
    UnionLess(f, xs, i, x, multiset{item});
  }

  lemma UnionGive<T>(f: T -> multiset<nat>, xs: seq<T>, i: nat, x: T, item: nat)
    requires i < |xs| && f(x) == f(xs[i]) + multiset{item}
    ensures Union(f, xs[i := x]) == Union(f, xs) + multiset{item}
  {
    UnionTake(f, xs[i := x], i, xs[i], item);
    assert xs[i := x][i := xs[i]] == xs;
  }

  lemma UnionSame<T>(f: T -> multiset<nat>, xs: seq<T>, i: nat, x: T)
    requires i < |xs| && f(xs[i]) == f(x)
    ensures Union(f, xs) == Union(f, xs[i := x])
  {
    UnionChange(f, xs, i, x, multiset{}, multiset{});
    assert Union(f, xs) + multiset{} == Union(f, xs);
    assert Union(f, xs[i := x]) + multiset{} == Union(f, xs[i := x]);
  }

  lemma {:induction false} UnionEmpty<T>(f: T -> multiset<nat>, xs: seq<T>)
    requires forall i :: 0 <= i < |xs| ==> f(xs[i]) == multiset{}
    ensures Union(f, xs) == multiset{}
    decreases |xs|
  {
    if xs != [] {
      UnionEmpty(f, xs[..|xs| - 1]);
    }
  }
}
