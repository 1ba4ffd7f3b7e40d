/** The promise that the benchmark's tables rest on: with the same items and the same work per item,
all worker pools print the same checksum. */
module Agreement {
  import opened Checksum
  import opened Workload
  import opened EvenSplit
  import PhotonPool
  import PhotonRuns
  import PoolProtocols
  import PoolRuns

  /** The exclusive or of the work on the items 1 to `items`, which no schedule can influence. */
  ghost function Expected(items: nat, iters: nat): Bits {
    Fold(Benchmark(iters), Numbered(items))
  }

  /** Bit by bit: the parity of one bit, 29 places up, of every state of the recurrence on every item. */
  lemma ExpectedIs(items: nat, iters: nat, i: nat)
    ensures i in Expected(items, iters) <==> i < 64 && Odd(OnesOfAll(Numbered(items), iters, i + 29))
  {
    FoldIs(Numbered(items), iters, i);
  }

  lemma SplitIsValid(items: nat, producers: nat, iters: nat)
    requires producers > 0
    ensures var bs := Bounds(items, producers);
            |bs| >= 2 && bs[0] == 0 && bs[|bs| - 1] == items && Ascending(bs)
    ensures Commutative(Benchmark(iters))
  {
    SplitIsEven(items, producers);
    BenchmarkIsCommutative(iters);
  }

  lemma PhotonGives(g: PhotonPool.Config<Bits>, steps: seq<PhotonPool.Step>)
    requires PhotonPool.ValidConfig(g) && PhotonPool.IsRun(g, PhotonPool.Init(g), steps)
    requires PhotonRuns.Printing(PhotonPool.After(g, PhotonPool.Init(g), steps))
    ensures PhotonPool.After(g, PhotonPool.Init(g), steps).checksum
         == Fold(g.algebra, Numbered(PhotonPool.NumItems(g)))
  {
    PhotonRuns.PrintsTheChecksum(g, steps);
  }

  /** The semaphore queue: whenever main gets to print, on any schedule. (Every run that can go no further
  has got there: `PhotonRuns.EveryRunFinishes`.) */
  lemma PhotonPrints(items: nat, producers: nat, consumers: nat, iters: nat, steps: seq<PhotonPool.Step>)
    requires producers > 0 && consumers > 0
    requires var g := PhotonPool.Config(Bounds(items, producers), consumers, Benchmark(iters));
             && PhotonPool.IsRun(g, PhotonPool.Init(g), steps)
             && PhotonRuns.Printing(PhotonPool.After(g, PhotonPool.Init(g), steps))
    ensures var g := PhotonPool.Config(Bounds(items, producers), consumers, Benchmark(iters));
            PhotonPool.After(g, PhotonPool.Init(g), steps).checksum == Expected(items, iters)
  {
    SplitIsValid(items, producers, iters);
    PhotonGives(PhotonPool.Config(Bounds(items, producers), consumers, Benchmark(iters)), steps);
  }

  lemma PoolGives(g: PoolProtocols.Config<Bits>, steps: seq<PoolProtocols.Step>)
    requires PoolProtocols.ValidConfig(g) && PoolProtocols.IsRun(g, PoolProtocols.Init(g), steps)
    requires PoolRuns.AllStopped(PoolProtocols.After(g, PoolProtocols.Init(g), steps))
    ensures var s := PoolProtocols.After(g, PoolProtocols.Init(g), steps);
            var expected := Fold(g.algebra, Numbered(PoolProtocols.NumItems(g)));
            s.checksum == expected && PoolRuns.Combined(g.algebra, s.consumers) == expected
  {
    PoolRuns.StoppedHasTheChecksum(g, steps);
  }

  /** The four designs over a library queue: whenever all consumers have stopped, on any schedule, with
  the checksum accumulated atomically or combined from the results array. (Every run that can go no
  further has got there: `PoolRuns.EveryRunAgrees`.) */
  lemma PoolPrints(design: PoolProtocols.Design, bound: nat, items: nat, producers: nat, consumers: nat,
                   iters: nat, steps: seq<PoolProtocols.Step>)
    requires producers > 0 && consumers > 0 && bound > 0
    requires var g := PoolProtocols.Config(design, bound, Bounds(items, producers), consumers, Benchmark(iters));
             && PoolProtocols.IsRun(g, PoolProtocols.Init(g), steps)
             && PoolRuns.AllStopped(PoolProtocols.After(g, PoolProtocols.Init(g), steps))
    ensures var g := PoolProtocols.Config(design, bound, Bounds(items, producers), consumers, Benchmark(iters));
            var s := PoolProtocols.After(g, PoolProtocols.Init(g), steps);
            && s.checksum == Expected(items, iters)
            && PoolRuns.Combined(g.algebra, s.consumers) == Expected(items, iters)
  {
    SplitIsValid(items, producers, iters);
    PoolGives(PoolProtocols.Config(design, bound, Bounds(items, producers), consumers, Benchmark(iters)), steps);
  }

  // ---------- with the boundaries computed on 64-bit words ----------

  /** The program itself, whose arithmetic is on words: while no product overflows, which `EvenSplit`
  shows to be needed, it prints the same. */
  lemma PhotonPrintsOnWords(items: nat, producers: nat, consumers: nat, iters: nat,
                            steps: seq<PhotonPool.Step>)
    requires producers > 0 && consumers > 0 && producers * items < 18446744073709551616
    requires var g := PhotonPool.Config(WordBounds(items, producers), consumers, Benchmark(iters));
             && PhotonPool.IsRun(g, PhotonPool.Init(g), steps)
             && PhotonRuns.Printing(PhotonPool.After(g, PhotonPool.Init(g), steps))
    ensures var g := PhotonPool.Config(WordBounds(items, producers), consumers, Benchmark(iters));
            PhotonPool.After(g, PhotonPool.Init(g), steps).checksum == Expected(items, iters)
  {
    WordBoundsAreBounds(items, producers);
    PhotonPrints(items, producers, consumers, iters, steps);
  }

  lemma PoolPrintsOnWords(design: PoolProtocols.Design, bound: nat, items: nat, producers: nat,
                          consumers: nat, iters: nat, steps: seq<PoolProtocols.Step>)
    requires producers > 0 && consumers > 0 && bound > 0 && producers * items < 18446744073709551616
    requires var g := PoolProtocols.Config(design, bound, WordBounds(items, producers), consumers,
                                           Benchmark(iters));
             && PoolProtocols.IsRun(g, PoolProtocols.Init(g), steps)
             && PoolRuns.AllStopped(PoolProtocols.After(g, PoolProtocols.Init(g), steps))
    ensures var g := PoolProtocols.Config(design, bound, WordBounds(items, producers), consumers,
                                          Benchmark(iters));
            var s := PoolProtocols.After(g, PoolProtocols.Init(g), steps);
            && s.checksum == Expected(items, iters)
            && PoolRuns.Combined(g.algebra, s.consumers) == Expected(items, iters)
  {
    WordBoundsAreBounds(items, producers);
    PoolPrints(design, bound, items, producers, consumers, iters, steps);
  }
}
