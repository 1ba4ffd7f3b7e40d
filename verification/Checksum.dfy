/** The per-item work and the order-independent checksum that every runtime must agree on.

The pools are stated for any way of combining results that is commutative and associative; the
benchmark combines 64-bit words with exclusive or. */
module Checksum {
  import opened Arithmetic

  // ---------- combining results ----------

  /** What a pool does with items: `work` turns one into a result, `mix` combines results. */
  datatype Algebra<!W> = Algebra(zero: W, mix: (W, W) -> W, work: nat -> W)

  ghost predicate Commutes<W>(g: Algebra<W>, a: W, b: W) {
    g.mix(a, b) == g.mix(b, a)
  }

  ghost predicate Associates<W>(g: Algebra<W>, a: W, b: W, c: W) {
    g.mix(g.mix(a, b), c) == g.mix(a, g.mix(b, c))
  }

  ghost predicate Neutral<W>(g: Algebra<W>, a: W) {
    g.mix(a, g.zero) == a
  }

  ghost predicate Commutative<W(!new)>(g: Algebra<W>) {
    && (forall a, b :: Commutes(g, a, b))
    && (forall a, b, c :: Associates(g, a, b, c))
    && (forall a :: Neutral(g, a))
  }

  /** The combined result of a sequence of items, in the order in which a loop accumulates it. */
  ghost function Fold<W>(g: Algebra<W>, xs: seq<nat>): W
    decreases |xs|
  {
    if xs == [] then g.zero else g.mix(Fold(g, xs[..|xs| - 1]), g.work(xs[|xs| - 1]))
  }

  lemma FoldAppend<W>(g: Algebra<W>, xs: seq<nat>, x: nat)
    ensures Fold(g, xs + [x]) == g.mix(Fold(g, xs), g.work(x))
  {
    assert (xs + [x])[..|xs|] == xs;
  }

  lemma {:induction false} FoldConcat<W(!new)>(g: Algebra<W>, xs: seq<nat>, ys: seq<nat>)
    requires Commutative(g)
    ensures Fold(g, xs + ys) == g.mix(Fold(g, xs), Fold(g, ys))
    decreases |ys|
  {
    if ys == [] {
      assert xs + ys == xs;
      assert Neutral(g, Fold(g, xs));
    } else {
      var n := |ys| - 1;
      FoldConcat(g, xs, ys[..n]);
      assert Associates(g, Fold(g, xs), Fold(g, ys[..n]), g.work(ys[n]));
      assert (xs + ys)[..|xs + ys| - 1] == xs + ys[..n];
    }
  }

  lemma FoldRemove<W(!new)>(g: Algebra<W>, xs: seq<nat>, k: nat)
    requires Commutative(g) && k < |xs|
    ensures Fold(g, xs) == g.mix(Fold(g, xs[..k] + xs[k + 1..]), g.work(xs[k]))
  {
    var a, x, b := xs[..k], xs[k], xs[k + 1..];
    assert xs == (a + [x]) + b;
    FoldConcat(g, a + [x], b);
    FoldAppend(g, a, x);
    FoldConcat(g, a, b);
    var p, q, w := Fold(g, a), Fold(g, b), g.work(x);
    assert Associates(g, p, w, q) && Commutes(g, w, q) && Associates(g, p, q, w);
  }

  lemma TakeOut(xs: seq<nat>, k: nat)
    requires k < |xs|
    ensures multiset(xs[..k] + xs[k + 1..]) == multiset(xs) - multiset{xs[k]}
  {
    assert xs == xs[..k] + [xs[k]] + xs[k + 1..];
  }

  /** The checksum does not depend on the order in which items are processed. */
  lemma {:induction false} FoldPermutation<W(!new)>(g: Algebra<W>, xs: seq<nat>, ys: seq<nat>)
    requires Commutative(g) && multiset(xs) == multiset(ys)
    ensures Fold(g, xs) == Fold(g, ys)
    decreases |xs|
  {
    if xs == [] {
      assert |ys| == |multiset(ys)|;
    } else {
      var n := |xs| - 1;
      var x := xs[n];
      assert x in multiset(ys);
      var k :| 0 <= k < |ys| && ys[k] == x;
      TakeOut(xs, n);
      TakeOut(ys, k);
      assert xs[..n] + xs[n + 1..] == xs[..n];
      FoldRemove(g, ys, k);
      FoldPermutation(g, xs[..n], ys[..k] + ys[k + 1..]);
    }
  }

  // ---------- 64-bit words ----------

  ghost function Power2(n: nat): (r: nat)
    ensures r > 0
  {
    if n == 0 then 1 else 2 * Power2(n - 1)
  }

  lemma TwiceProduct(a: nat, b: nat)
    ensures (2 * a) * b == 2 * (a * b)
  {
  }

  lemma {:induction false} Power2Adds(a: nat, b: nat)
    ensures Power2(a + b) == Power2(a) * Power2(b)
    decreases a
  {
    if a > 0 {
      Power2Adds(a - 1, b);
      TwiceProduct(Power2(a - 1), Power2(b));
      assert Power2(a + b) == 2 * Power2(a - 1 + b);
    }
  }

  const WORD: nat := 0x1_0000_0000_0000_0000

  lemma SmallPowers()
    ensures Power2(5) == 32 && Power2(8) == 0x100
  {
    assert Power2(4) == 16;
    Power2Adds(4, 4);
  }

  lemma WordHas64Bits()
    ensures WORD == Power2(64) && WORD == 18446744073709551616
  {
    var byte, half, word := Power2(8), Power2(16), Power2(32);
    SmallPowers();
    Power2Adds(8, 8);
    assert half == 0x1_0000;
    Power2Adds(16, 16);
    assert word == 0x1_0000_0000;
    Power2Adds(32, 32);
  }

  /** A word as the set of the positions of its one bits, which is what exclusive or works on. */
  type Bits = set<nat>

  function BitsFrom(n: nat, position: nat, width: nat): (r: Bits)
    ensures forall i :: i in r ==> position <= i < position + width
    decreases width
  {
    if width == 0 then {}
    else (if n % 2 == 1 then {position} else {}) + BitsFrom(n / 2, position + 1, width - 1)
  }

  const WIDTH: nat := 64

  function ToBits(n: nat): Bits {
    BitsFrom(n, 0, WIDTH)
  }

  function ExclusiveOr(a: Bits, b: Bits): Bits {
    (a - b) + (b - a)
  }

  /** Bit `i` of a number, counting from the lowest. */
  ghost predicate BitAt(n: nat, i: nat) {
    (n / Power2(i)) % 2 == 1
  }

  lemma HalfThenDivide(n: nat, d: nat)
    requires d > 0
    ensures n / 2 / d == n / (2 * d)
  {
    var q, r := n / 2 / d, n / 2 % d;
    assert n / 2 == q * d + r;
    assert n == q * (2 * d) + (2 * r + n % 2);
    QuotientIs(n, 2 * d, q, 2 * r + n % 2);
  }

  lemma {:induction false} DivideTwice(n: nat, a: nat, b: nat)
    ensures n / Power2(a) / Power2(b) == n / Power2(a + b)
    decreases a
  {
    if a > 0 {
      HalfThenDivide(n, Power2(a - 1));
      DivideTwice(n / 2, a - 1, b);
      HalfThenDivide(n, Power2(a - 1 + b));
    }
  }

  lemma {:induction false} BitsFromAre(n: nat, position: nat, width: nat, i: nat)
    ensures i in BitsFrom(n, position, width) <==>
              position <= i < position + width && BitAt(n, i - position)
    decreases width
  {
    if width > 0 {
      BitsFromAre(n / 2, position + 1, width - 1, i);
      if i > position {
        HalfThenDivide(n, Power2(i - position - 1));
      }
    }
  }

  /** The bits of a word are its binary digits. */
  lemma BitsAre(n: nat, i: nat)
    ensures i in ToBits(n) <==> i < 64 && BitAt(n, i)
  {
    BitsFromAre(n, 0, WIDTH, i);
  }

  /** Exclusive or: what is in one of the two, but not in both. */
  lemma ExclusiveOrIs(a: Bits, b: Bits, i: nat)
    ensures i in ExclusiveOr(a, b) <==> ((i in a) != (i in b))
    ensures ExclusiveOr(a, a) == {} && ExclusiveOr(ExclusiveOr(a, b), b) == a
  {
  }

  /** Different words have different bits, so equal checksums are equal numbers. */
  lemma {:induction false} BitsDetermine(a: nat, b: nat, position: nat, width: nat)
    requires a < Power2(width) && b < Power2(width)
    requires BitsFrom(a, position, width) == BitsFrom(b, position, width)
    ensures a == b
    decreases width
  {
    if width > 0 {
      var x, y := BitsFrom(a / 2, position + 1, width - 1), BitsFrom(b / 2, position + 1, width - 1);
      var whole := BitsFrom(a, position, width);
      assert position in whole <==> a % 2 == 1;
      assert position in whole <==> b % 2 == 1;
      assert x == whole - {position} && y == whole - {position};
      BitsDetermine(a / 2, b / 2, position + 1, width - 1);
    }
  }

  // ---------- the benchmark's own work ----------

  const MULTIPLIER: nat := 6364136223846793005
  const INCREMENT: nat := 1442695040888963407

  function NextState(x: nat): nat {
    (x * MULTIPLIER + INCREMENT) % WORD
  }

  /** The recurrence after `n` rounds from `seed`. */
  ghost function State(seed: nat, n: nat): nat {
    if n == 0 then seed else NextState(State(seed, n - 1))
  }

  /** The exclusive or of the first `n` states, each shifted right by 29 places. */
  ghost function Accumulated(seed: nat, n: nat): Bits {
    if n == 0 then {}
    else ExclusiveOr(Accumulated(seed, n - 1), ToBits(State(seed, n) / 0x2000_0000))
  }

  // ---------- what the work is ----------

  ghost function Power(b: nat, n: nat): nat {
    if n == 0 then 1 else b * Power(b, n - 1)
  }

  /** 1 + b + b^2 + ... (n terms). */
  ghost function Geometric(b: nat, n: nat): nat {
    if n == 0 then 0 else b * Geometric(b, n - 1) + 1
  }

  lemma ReduceEarlier(y: nat, a: nat, c: nat, w: nat)
    requires w > 0
    ensures ((y % w) * a + c) % w == (y * a + c) % w
  {
    var q, r := y / w, y % w;
    assert y * a + c == (q * a) * w + (r * a + c);
    SameRemainder(q * a, r * a + c, w);
  }

  lemma SameRemainder(k: nat, x: nat, w: nat)
    requires w > 0
    ensures (k * w + x) % w == x % w
  {
    assert k * w + x == (k + x / w) * w + x % w;
    QuotientIs(k * w + x, w, k + x / w, x % w);
  }

  /** The recurrence in closed form. */
  lemma {:induction false} StateIs(seed: nat, n: nat)
    requires seed < 18446744073709551616
    ensures State(seed, n)
         == (seed * Power(6364136223846793005, n) + 1442695040888963407 * Geometric(6364136223846793005, n))
            % 18446744073709551616
  {
    if n > 0 {
      var a, c, w := 6364136223846793005, 1442695040888963407, 18446744073709551616;
      var p, g := Power(a, n - 1), Geometric(a, n - 1);
      StateIs(seed, n - 1);
      ReduceEarlier(seed * p + c * g, a, c, w);
      assert (seed * p + c * g) * a + c == seed * (a * p) + c * (a * g + 1);
    }
  }

  /** How many of the first `n` states have bit `i` set. */
  ghost function Ones(seed: nat, n: nat, i: nat): nat {
    if n == 0 then 0 else Ones(seed, n - 1, i) + Count(BitAt(State(seed, n), i))
  }

  lemma ShiftedBit(x: nat, i: nat)
    ensures i in ToBits(x / 0x2000_0000) <==> i < 64 && BitAt(x, i + 29)
  {
    assert Power2(29) == 0x2000_0000 by {
      SmallPowers();
      Power2Adds(8, 8);
      Power2Adds(16, 8);
      Power2Adds(24, 5);
    }
    BitsAre(x / 0x2000_0000, i);
    DivideTwice(x, 29, i);
  }

  ghost predicate Odd(n: nat) {
    exists k: nat :: n == 2 * k + 1
  }

  lemma OddIs(n: nat)
    ensures Odd(n) <==> n % 2 == 1
  {
    if n % 2 == 1 {
      assert n == 2 * (n / 2) + 1;
    }
  }

  /** Bit `i` of a word is the parity of `n`. */
  ghost predicate Marks(b: Bits, i: nat, n: nat) {
    i in b <==> i < 64 && Odd(n)
  }

  /** Exclusive or adds parities. */
  lemma MarksSum(a: Bits, b: Bits, i: nat, m: nat, n: nat)
    requires Marks(a, i, m) && Marks(b, i, n)
    ensures Marks(ExclusiveOr(a, b), i, m + n)
  {
    OddIs(m);
    OddIs(n);
    OddIs(m + n);
    ExclusiveOrIs(a, b, i);
  }

  ghost function Count(b: bool): nat {
    if b then 1 else 0
  }

  lemma AccumulatedStep(seed: nat, n: nat, i: nat)
    requires n > 0
    ensures Accumulated(seed, n)
         == ExclusiveOr(Accumulated(seed, n - 1), ToBits(State(seed, n) / 0x2000_0000))
    ensures Ones(seed, n, i) == Ones(seed, n - 1, i) + Count(BitAt(State(seed, n), i))
  {
  }

  lemma ShiftedMarks(x: nat, i: nat)
    ensures Marks(ToBits(x / 0x2000_0000), i, Count(BitAt(x, i + 29)))
  {
    ShiftedBit(x, i);
    OddIs(Count(BitAt(x, i + 29)));
  }

  lemma NothingMarks(i: nat)
    ensures Marks({}, i, 0)
  {
    OddIs(0);
  }

  /** One more state. */
  lemma NextMarks(acc: Bits, ones: nat, x: nat, i: nat)
    requires Marks(acc, i, ones)
    ensures Marks(ExclusiveOr(acc, ToBits(x / 0x2000_0000)), i, ones + Count(BitAt(x, i + 29)))
  {
    ShiftedMarks(x, i);
    MarksSum(acc, ToBits(x / 0x2000_0000), i, ones, Count(BitAt(x, i + 29)));
  }

  /** Bit `i` of the result is set when an odd number of the states have bit `i + 29` set. */
  lemma {:induction false} AccumulatedIs(seed: nat, n: nat, i: nat)
    ensures Marks(Accumulated(seed, n), i, Ones(seed, n, i + 29))
  {
    if n == 0 {
      NothingMarks(i);
    } else {
      AccumulatedIs(seed, n - 1, i);
      NextMarks(Accumulated(seed, n - 1), Ones(seed, n - 1, i + 29), State(seed, n), i);
      AccumulatedStep(seed, n, i + 29);
    }
  }

  /** One bit of the result is the parity of one bit of the states, 29 places up. */
  ghost predicate WorkBit(acc: Bits, seed: nat, iters: nat, i: nat) {
    i in acc <==> i < 64 && Odd(Ones(seed, iters, i + 29))
  }

  ghost predicate IsWorkOf(acc: Bits, seed: nat, iters: nat) {
    forall i: nat :: WorkBit(acc, seed, iters, i)
  }

  lemma AccumulatedIsWork(seed: nat, iters: nat)
    ensures IsWorkOf(Accumulated(seed, iters), seed, iters)
    ensures Benchmark(iters).work(seed) == Accumulated(seed, iters)
  {
    forall i: nat ensures WorkBit(Accumulated(seed, iters), seed, iters, i) {
      AccumulatedIs(seed, iters, i);
    }
  }

  lemma NextIsState(seed: nat, i: nat)
    ensures NextState(State(seed, i)) == State(seed, i + 1) < WORD
    ensures Accumulated(seed, i + 1)
         == ExclusiveOr(Accumulated(seed, i), ToBits(State(seed, i + 1) / 0x2000_0000))
  {
  }

  /** `work`: one loop, both variables updated in place, all arithmetic modulo 2^64. */
  method Work(seed: nat, iters: nat) returns (acc: Bits)
    requires seed < 18446744073709551616
    ensures IsWorkOf(acc, seed, iters) && acc == Benchmark(iters).work(seed)
  {
    var x := seed;
    acc := {};
    var i := 0;
    while i < iters
      invariant i <= iters
      invariant x == State(seed, i) < WORD
      invariant acc == Accumulated(seed, i)
    {
      NextIsState(seed, i);
      x := NextState(x);
      acc := ExclusiveOr(acc, ToBits(x / 0x2000_0000));
      i := i + 1;
    }
    AccumulatedIsWork(seed, iters);
  }

  /** The algebra of the benchmark, for a given number of iterations per item. */
  ghost function Benchmark(iters: nat): Algebra<Bits> {
    Algebra({}, ExclusiveOr, (item: nat) => Accumulated(item, iters))
  }

  lemma BenchmarkIsCommutative(iters: nat)
    ensures Commutative(Benchmark(iters))
    ensures forall a :: Benchmark(iters).mix(a, a) == {}
  {
    var g := Benchmark(iters);
    forall a, b ensures Commutes(g, a, b) {
      assert ExclusiveOr(a, b) == ExclusiveOr(b, a);
    }
    forall a, b, c ensures Associates(g, a, b, c) {
      assert ExclusiveOr(ExclusiveOr(a, b), c) == ExclusiveOr(a, ExclusiveOr(b, c));
    }
    forall a ensures Neutral(g, a) {
      assert ExclusiveOr(a, {}) == a;
    }
  }

  // ---------- what a pool prints ----------

  /** How many states of all the items have bit `i` set. */
  ghost function OnesOfAll(items: seq<nat>, iters: nat, i: nat): nat
    decreases |items|
  {
    if items == [] then 0
    else OnesOfAll(items[..|items| - 1], iters, i) + Ones(items[|items| - 1], iters, i)
  }

  lemma FoldStep(items: seq<nat>, iters: nat, i: nat)
    requires items != []
    ensures var n := |items| - 1;
            && Fold(Benchmark(iters), items)
               == ExclusiveOr(Fold(Benchmark(iters), items[..n]), Accumulated(items[n], iters))
            && OnesOfAll(items, iters, i) == OnesOfAll(items[..n], iters, i) + Ones(items[n], iters, i)
  {
  }

  /** Bit `i` of the checksum is set when an odd number of all items' states have bit `i + 29` set. */
  lemma {:induction false} FoldIs(items: seq<nat>, iters: nat, i: nat)
    ensures Marks(Fold(Benchmark(iters), items), i, OnesOfAll(items, iters, i + 29))
    decreases |items|
  {
    if items == [] {
      NothingMarks(i);
    } else {
      var n := |items| - 1;
      FoldIs(items[..n], iters, i);
      AccumulatedIs(items[n], iters, i);
      FoldStep(items, iters, i + 29);
      MarksSum(Fold(Benchmark(iters), items[..n]), Accumulated(items[n], iters), i,
               OnesOfAll(items[..n], iters, i + 29), Ones(items[n], iters, i + 29));
    }
  }
}
