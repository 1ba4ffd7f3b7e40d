/** The items a pool has to process, numbered from one, and the zeros that tell consumers to stop. */
module Workload {
  import opened Folds

  ghost function Zeros(n: nat): multiset<nat> {
    multiset{}[0 := n]
  }

  /** Boundaries between the ranges of items that the producers get. */
  ghost predicate Ascending(bounds: seq<nat>) {
    forall p, q :: 0 <= p < q < |bounds| ==> bounds[p] <= bounds[q]
  }

  /** The items numbered from `lo + 1` to `hi`. */
  ghost function Range(lo: nat, hi: nat): multiset<nat>
    decreases hi - lo
  {
    if lo >= hi then multiset{} else multiset{lo + 1} + Range(lo + 1, hi)
  }

  lemma AddNothing(a: multiset<nat>)
    ensures multiset{} + a == a
  {
  }

  lemma AddOne(x: nat, a: multiset<nat>, b: multiset<nat>, c: multiset<nat>)
    requires c == a + b
    ensures multiset{x} + c == (multiset{x} + a) + b
  {
  }

  lemma {:induction false} RangeJoin(a: nat, b: nat, c: nat)
    requires a <= b <= c
    ensures Range(a, c) == Range(a, b) + Range(b, c)
    decreases b - a
  {
    if a == b {
      AddNothing(Range(b, c));
    } else {
      RangeJoin(a + 1, b, c);
      AddOne(a + 1, Range(a + 1, b), Range(b, c), Range(a + 1, c));
    }
  }

  lemma {:induction false} RangeHasNoZero(lo: nat, hi: nat)
    ensures 0 !in Range(lo, hi)
    decreases hi - lo
  {
    if lo < hi {
      RangeHasNoZero(lo + 1, hi);
    }
  }

  lemma {:induction false} RangeSize(lo: nat, hi: nat)
    requires lo <= hi
    ensures |Range(lo, hi)| == hi - lo
    decreases hi - lo
  {
    if lo < hi {
      RangeSize(lo + 1, hi);
    }
  }

  /** The items in order: 1, 2, ..., n. */
  ghost function Numbered(n: nat): seq<nat> {
    if n == 0 then [] else Numbered(n - 1) + [n]
  }

  lemma {:induction false} NumberedIsRange(n: nat)
    ensures multiset(Numbered(n)) == Range(0, n)
  {
    if n > 0 {
      NumberedIsRange(n - 1);
      RangeJoin(0, n - 1, n);
      assert Range(n - 1, n) == multiset{n} + Range(n, n);
    }
  }

  lemma MoveAcross(a: multiset<nat>, b: multiset<nat>, x: nat)
    ensures a + (b + multiset{x}) == a + multiset{x} + b
  {
  }

  lemma Cancel(a: multiset<nat>, b: multiset<nat>, c: multiset<nat>)
    requires a + c == b + c
    ensures a == b
  {
    forall x ensures a[x] == b[x] {
      assert (a + c)[x] == (b + c)[x];
    }
  }

  /** No item comes after a zero. */
  ghost predicate ZerosLast(xs: seq<nat>) {
    forall a, b :: 0 <= a < b < |xs| && xs[a] == 0 ==> xs[b] == 0
  }

  lemma ZerosLastAppend(xs: seq<nat>, x: nat)
    requires ZerosLast(xs) && (x == 0 || 0 !in xs)
    ensures ZerosLast(xs + [x])
  {
  }

  /** An item moves from the queue into somebody's hands. */
  lemma Received(taken: seq<nat>, published: seq<nat>, hands: multiset<nat>, hands': multiset<nat>, x: nat)
    requires multiset(taken) == multiset(published) + hands && hands' == hands + multiset{x}
    ensures multiset(taken + [x]) == multiset(published) + hands'
  {
    MoveAcross(multiset(published), hands, x);
  }

  /** What one consumer has in hand becomes part of the result. */
  lemma Publish(taken: multiset<nat>, published: seq<nat>, hands: multiset<nat>, hands': multiset<nat>,
                mine: seq<nat>)
    requires taken == multiset(published) + hands && hands == hands' + multiset(mine)
    ensures taken == multiset(published + mine) + hands'
  {
    assert multiset(published + mine) == multiset(published) + multiset(mine);
  }

  lemma EndsWithZero(xs: seq<nat>)
    requires ZerosLast(xs)
    requires multiset(xs)[0] > 0
    ensures |xs| > 0 && xs[|xs| - 1] == 0
  {
    assert 0 in multiset(xs);
    assert 0 in xs;
  }

  /** Only the whole of a sequence that ends with a zero has all of its zeros. */
  lemma OnlyTheWhole(xs: seq<nat>, n: nat)
    requires n <= |xs| && |xs| > 0 && xs[|xs| - 1] == 0
    ensures multiset(xs[..n])[0] == multiset(xs)[0] ==> n == |xs|
  {
    if n < |xs| {
      var rest := xs[n..];
      assert xs == xs[..n] + rest;
      assert rest[|rest| - 1] == 0 && 0 in multiset(rest);
    }
  }

  // ---------- the producers' ranges ----------

  /** `f` of the entry for producer `p` is the items of its range, which are together all items. */
  lemma {:induction false} RangesCover<T>(f: T -> multiset<nat>, ts: seq<T>, bounds: seq<nat>)
    requires |bounds| == |ts| + 1 && Ascending(bounds)
    requires forall p {:trigger ts[p]} :: 0 <= p < |ts| ==> f(ts[p]) == Range(bounds[p], bounds[p + 1])
    ensures Union(f, ts) == Range(bounds[0], bounds[|ts|])
    decreases |ts|
  {
    if ts != [] {
      var n := |ts| - 1;
      RangesCover(f, ts[..n], bounds[..n + 1]);
      RangeJoin(bounds[0], bounds[n], bounds[n + 1]);
      assert f(ts[n]) == Range(bounds[n], bounds[n + 1]);
    }
  }

  lemma Steps(each: nat, once: nat, a: nat, b: nat, c: nat, n: nat)
    ensures (each * (b - a) + n * once) + (each * (c - b) + once) == each * (c - a) + (n + 1) * once
  {
  }

  /** Work that is proportional to a producer's range, and a constant for each. */
  lemma {:induction false} RangesTotal<T>(f: T -> int, ts: seq<T>, bounds: seq<nat>, each: nat, once: nat)
    requires |bounds| == |ts| + 1 && Ascending(bounds)
    requires forall p {:trigger ts[p]} :: 0 <= p < |ts| ==>
               f(ts[p]) == each * (bounds[p + 1] - bounds[p]) + once
    ensures Total(f, ts) == each * (bounds[|ts|] - bounds[0]) + |ts| * once
    decreases |ts|
  {
    if ts == [] {
      assert each * (bounds[0] - bounds[0]) == 0;
    } else {
      var n := |ts| - 1;
      assert f(ts[n]) == each * (bounds[n + 1] - bounds[n]) + once;
      RangesTotal(f, ts[..n], bounds[..n + 1], each, once);
      Steps(each, once, bounds[0], bounds[n], bounds[n + 1], n);
    }
  }
}
