/** How `main` divides the items among the producers: producer `p` of `producers` gets the items from
`p * items / producers` up to `(p + 1) * items / producers`, computed on 64-bit words. */
module EvenSplit {
  import opened Arithmetic
  import opened Checksum
  import opened Workload

  ghost function Bound(items: nat, producers: nat, p: nat): nat
    requires producers > 0
  {
    p * items / producers
  }

  ghost function Bounds(items: nat, producers: nat): seq<nat>
    requires producers > 0
  {
    seq(producers + 1, p requires 0 <= p => Bound(items, producers, p))
  }

  /** Floor or ceiling of a quotient. */
  ghost predicate NearQuotient(x: int, n: nat, d: nat)
    requires d > 0
  {
    x == n / d || x == (n + d - 1) / d
  }

  lemma CeilingIs(n: nat, d: nat)
    requires d > 0
    ensures (n + d - 1) / d == if n % d == 0 then n / d else n / d + 1
  {
    var q, r := n / d, n % d;
    assert n == q * d + r;
    if r == 0 {
      QuotientIs(n + d - 1, d, q, d - 1);
    } else {
      QuotientIs(n + d - 1, d, q + 1, r - 1);
    }
  }

  lemma AddTimes(q: nat, k: nat, d: nat)
    ensures (q + k) * d == q * d + k * d
  {
  }

  lemma SumQuotient(x: nat, y: nat, d: nat, q: nat, r: nat, k: nat, m: nat)
    requires x == q * d + r && y == k * d + m && r < d && m < d
    ensures (x + y) / d == q + k + if r + m < d then 0 else 1
  {
    AddTimes(q, k, d);
    if r + m < d {
      QuotientIs(x + y, d, q + k, r + m);
    } else {
      AddTimes(q + k, 1, d);
      QuotientIs(x + y, d, q + k + 1, r + m - d);
    }
  }

  lemma QuotientGrowsBy(a: nat, n: nat, d: nat)
    requires d > 0
    ensures var growth := (a + n) / d - a / d;
            growth == n / d || (n % d > 0 && growth == n / d + 1)
  {
    SumQuotient(a, n, d, a / d, a % d, n / d, n % d);
  }

  /** Adding `n` to a dividend raises the quotient by the floor or the ceiling of `n / d`. */
  lemma QuotientGrows(a: nat, n: nat, d: nat)
    requires d > 0
    ensures (a + n) / d >= a / d && NearQuotient((a + n) / d - a / d, n, d)
  {
    QuotientGrowsBy(a, n, d);
    CeilingIs(n, d);
  }

  lemma QuotientMonotone(a: nat, b: nat, d: nat)
    requires d > 0 && a <= b
    ensures a / d <= b / d
  {
    QuotientGrows(a, b - a, d);
  }

  lemma NextBound(items: nat, producers: nat, p: nat)
    requires producers > 0
    ensures NearQuotient(Bound(items, producers, p + 1) - Bound(items, producers, p), items, producers)
  {
    assert (p + 1) * items == p * items + items;
    QuotientGrows(p * items, items, producers);
  }

  /** The ranges follow each other from the first item to the last, and no two differ by more than
  one item. */
  lemma SplitIsEven(items: nat, producers: nat)
    requires producers > 0
    ensures var bs := Bounds(items, producers);
            && bs[0] == 0 && bs[producers] == items && Ascending(bs)
            && forall p :: 0 <= p < producers ==>
                 || bs[p + 1] - bs[p] == items / producers
                 || bs[p + 1] - bs[p] == (items + producers - 1) / producers
  {
    var bs := Bounds(items, producers);
    QuotientIs(0, producers, 0, 0);
    assert 0 * items == 0;
    assert producers * items == items * producers;
    QuotientIs(producers * items, producers, items, 0);
    forall p, q | 0 <= p < q < |bs| ensures bs[p] <= bs[q] {
      Scale(p, q, items);
      QuotientMonotone(p * items, q * items, producers);
    }
    forall p | 0 <= p < producers
      ensures NearQuotient(bs[p + 1] - bs[p], items, producers)
    {
      NextBound(items, producers, p);
    }
  }

  // ---------- on 64-bit words ----------

  /** The same expression with the product reduced to a word. */
  function WordBound(items: nat, producers: nat, p: nat): nat
    requires producers > 0
  {
    p * items % WORD / producers
  }

  /** The boundaries that a program computes. */
  ghost function WordBounds(items: nat, producers: nat): seq<nat>
    requires producers > 0
  {
    seq(producers + 1, p requires 0 <= p => WordBound(items, producers, p))
  }

  datatype Slice = Slice(start: nat, end: nat)

  /** The loop in `main` that hands every producer its range. */
  method Split(items: nat, producers: nat) returns (slices: seq<Slice>)
    requires 0 < producers < 18446744073709551616 && items < 18446744073709551616
    ensures |slices| == producers
    ensures forall p :: 0 <= p < producers ==>
              slices[p] == Slice(WordBound(items, producers, p), WordBound(items, producers, p + 1))
    ensures producers * items < 18446744073709551616 ==>
              forall p :: 0 <= p < producers ==>
                slices[p] == Slice(Bounds(items, producers)[p], Bounds(items, producers)[p + 1])
  {
    slices := [];
    var p := 0;
    while p < producers
      invariant p == |slices| <= producers
      invariant forall i :: 0 <= i < p ==>
                  slices[i] == Slice(WordBound(items, producers, i), WordBound(items, producers, i + 1))
    {
      slices := slices + [Slice(WordBound(items, producers, p), WordBound(items, producers, p + 1))];
      p := p + 1;
    }
    if producers * items < WORD {
      forall i | 0 <= i <= producers
        ensures WordBound(items, producers, i) == Bound(items, producers, i)
      {
        NoOverflow(items, producers, i);
      }
    }
  }

  lemma NoOverflow(items: nat, producers: nat, p: nat)
    requires 0 < producers && p <= producers && producers * items < 18446744073709551616
    ensures p * items < 18446744073709551616 && WordBound(items, producers, p) == Bound(items, producers, p)
  {
    assert p * items <= producers * items;
  }

  lemma WordBoundsAreBounds(items: nat, producers: nat)
    requires 0 < producers && producers * items < 18446744073709551616
    ensures WordBounds(items, producers) == Bounds(items, producers)
  {
    forall p: nat | p <= producers ensures WordBound(items, producers, p) == Bound(items, producers, p) {
      NoOverflow(items, producers, p);
    }
  }

  /** Some producer has this item. */
  ghost predicate Covered(items: nat, producers: nat, i: nat)
    requires producers > 0
  {
    exists p: nat :: p < producers && InSlice(items, producers, p, i)
  }

  ghost predicate AllCovered(items: nat, producers: nat)
    requires producers > 0
  {
    forall i: nat :: i < items ==> Covered(items, producers, i)
  }

  ghost predicate InSlice(items: nat, producers: nat, p: nat, i: nat)
    requires producers > 0
  {
    WordBound(items, producers, p) <= i < WordBound(items, producers, p + 1)
  }

  /** A range of the ascending bounds holds every item below the last bound. */
  lemma {:induction false} SomeRange(bs: seq<nat>, n: nat, i: nat) returns (p: nat)
    requires n < |bs| && bs[0] <= i < bs[n]
    ensures p < n && bs[p] <= i < bs[p + 1]
    decreases n
  {
    if n > 0 && bs[n - 1] > i {
      p := SomeRange(bs, n - 1, i);
    } else {
      p := n - 1;
    }
  }

  /** Once a product overflows, no producer's range reaches the last item. */
  lemma OverflowStopsShort(items: nat, producers: nat, p: nat)
    requires 0 < producers && 0 < items && p <= producers && producers * items >= WORD
    ensures WordBound(items, producers, p) < items
  {
    var x := p * items % WORD;
    assert x < producers * items by {
      if p < producers {
        assert p * items < producers * items;
      }
    }
    if x / producers >= items {
      assert x >= (x / producers) * producers;
      assert (x / producers) * producers >= items * producers;
    }
  }

  /** Every item gets a producer exactly when the largest product fits a word; then the ranges are
  those of `Bounds`, and otherwise the last item, for one, is never sent. */
  lemma SplitCoversIff(items: nat, producers: nat)
    requires 0 < producers
    ensures AllCovered(items, producers) <==> producers * items < 18446744073709551616
    ensures producers * items >= 18446744073709551616 ==> !Covered(items, producers, items - 1)
  {
    if producers * items < WORD {
      SplitIsEven(items, producers);
      forall i | 0 <= i < items ensures Covered(items, producers, i) {
        var p := SomeRange(Bounds(items, producers), producers, i);
        NoOverflow(items, producers, p);
        NoOverflow(items, producers, p + 1);
        assert InSlice(items, producers, p, i);
      }
    } else {
      assert items > 0;
      var last := items - 1;
      forall p: nat | p < producers ensures !InSlice(items, producers, p, last) {
        OverflowStopsShort(items, producers, p + 1);
      }
      assert !Covered(items, producers, last);
    }
  }

  lemma LaterStartsAfter(items: nat, producers: nat, p: nat, q: nat)
    requires 0 < producers && p < q
    ensures Bound(items, producers, p + 1) <= Bound(items, producers, q)
  {
    Scale(p + 1, q, items);
    QuotientMonotone((p + 1) * items, q * items, producers);
  }

  /** No item gets two producers when the ranges do not overflow. */
  lemma SplitIsDisjoint(items: nat, producers: nat, i: nat, p: nat, q: nat)
    requires 0 < producers && producers * items < 18446744073709551616 && p < producers && q < producers
    requires InSlice(items, producers, p, i) && InSlice(items, producers, q, i)
    ensures p == q
  {
    NoOverflow(items, producers, p);
    NoOverflow(items, producers, p + 1);
    NoOverflow(items, producers, q);
    NoOverflow(items, producers, q + 1);
    if p < q {
      LaterStartsAfter(items, producers, p, q);
    } else if q < p {
      LaterStartsAfter(items, producers, q, p);
    }
  }
}
