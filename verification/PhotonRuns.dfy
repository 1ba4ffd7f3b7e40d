/** Whole runs of the pool: it never gets stuck, it always ends, and it ends with the right checksum. */
module PhotonRuns {
  import opened Folds
  import opened Checksum
  import opened Workload
  import opened PhotonPool
  import opened PhotonInvariant

  // ---------- zeros ----------

  lemma {:induction false} ProducersKeepNoZero(ts: seq<Pusher>)
    requires forall p :: 0 <= p < |ts| ==> !ts[p].isMain
    ensures 0 !in Union(Remaining, ts)
    decreases |ts|
  {
    if ts != [] {
      var n := |ts| - 1;
      ProducersKeepNoZero(ts[..n]);
      RangeHasNoZero(ts[n].next, ts[n].end);
    }
  }

  /** Exactly the zeros that main has pushed are in the queue's history. */
  lemma ZerosPushed<W>(g: Config<W>, s: Pool<W>)
    requires |g.bounds| >= 1 && Roles(g, s) && Ledger(g, s)
    ensures multiset(s.pushed)[0] == Main(g, s).next <= g.consumers
  {
    var n := Producers(g);
    assert s.pushers[..|s.pushers| - 1] == s.pushers[..n];
    ProducersKeepNoZero(s.pushers[..n]);
    RangeHasNoZero(0, NumItems(g));
    assert PusherOk(s.pushers[n]);
    assert Everything(g)[0] == g.consumers;
    assert Union(Remaining, s.pushers)[0] == Remaining(s.pushers[n])[0];
  }

  // ---------- no deadlock ----------

  ghost predicate Stuck<W>(g: Config<W>, s: Pool<W>)
    requires |g.bounds| >= 1
  {
    && (forall p: nat :: !Enabled(g, s, Push(p)))
    && (forall c: nat :: !Enabled(g, s, Pop(c)))
  }

  ghost predicate Final<W>(s: Pool<W>) {
    && (forall p :: 0 <= p < |s.pushers| ==> s.pushers[p].pc.PushDone?)
    && (forall c :: 0 <= c < |s.poppers| ==> s.poppers[c].pc.PopDone?)
  }

  lemma HolderCanStep<W>(g: Config<W>, s: Pool<W>)
    requires |g.bounds| >= 1 && Exclusive(s) && |s.buf| == CAP && s.mutex != Nobody
    ensures !Stuck(g, s)
  {
    match s.mutex
    case PusherHas(p) => assert Enabled(g, s, Push(p));
    case PopperHas(c) => assert Enabled(g, s, Pop(c));
  }

  ghost predicate PusherStuck<W>(g: Config<W>, s: Pool<W>, t: Pusher)
    requires |g.bounds| >= 1
  {
    match t.pc
    case PushGate => t.isMain && s.producersDone < Producers(g)
    case PushSpace => s.space == 0
    case PushReport => t.isMain && s.consumersDone < g.consumers
    case PushDone => true
    case _ => false
  }

  ghost predicate PopperStuck<W>(s: Pool<W>, t: Popper<W>) {
    t.pc.PopDone? || (t.pc.PopItems? && s.items == 0)
  }

  /** What being stuck means thread by thread. */
  lemma StuckThreads<W>(g: Config<W>, s: Pool<W>)
    requires |g.bounds| >= 1 && Roles(g, s) && Exclusive(s) && |s.buf| == CAP && Stuck(g, s)
    ensures s.mutex == Nobody
    ensures forall p :: 0 <= p < |s.pushers| ==> PusherStuck(g, s, s.pushers[p])
    ensures forall c :: 0 <= c < |s.poppers| ==> PopperStuck(s, s.poppers[c])
  {
    if s.mutex != Nobody {
      HolderCanStep(g, s);
    }
    forall p | 0 <= p < |s.pushers| ensures PusherStuck(g, s, s.pushers[p]) {
      assert !Enabled(g, s, Push(p)) && PusherOk(s.pushers[p]);
    }
    forall c | 0 <= c < |s.poppers| ensures PopperStuck(s, s.poppers[c]) {
      assert !Enabled(g, s, Pop(c));
    }
  }

  /** When nobody is between a semaphore and the queue, the semaphores are the queue's length. */
  lemma StuckCounts<W>(g: Config<W>, s: Pool<W>)
    requires |g.bounds| >= 1 && Counting(s)
    requires forall p :: 0 <= p < |s.pushers| ==> PusherStuck(g, s, s.pushers[p])
    requires forall c :: 0 <= c < |s.poppers| ==> PopperStuck(s, s.poppers[c])
    ensures |s.pushed| - |s.popped| == s.items && s.space + s.items == CAP
  {
    TotalConstant(HasSpace, s.pushers, 0);
    TotalConstant(OwesItem, s.pushers, 0);
    TotalConstant(HasItem, s.poppers, 0);
    TotalConstant(OwesSpace, s.poppers, 0);
  }

  /** If the gate holds main back although no producer can be stuck on it, some producer is blocked. */
  lemma GateOpens<W>(g: Config<W>, s: Pool<W>)
    requires |g.bounds| >= 2 && Roles(g, s) && Phases(g, s)
    requires forall p :: 0 <= p < |s.pushers| ==> PusherStuck(g, s, s.pushers[p])
    requires s.space > 0
    ensures Main(g, s).pc.PushReport? || Main(g, s).pc.PushDone?
  {
    var n := Producers(g);
    assert PusherStuck(g, s, s.pushers[n]);
    forall p | 0 <= p < n ensures s.pushers[p].pc.PushDone? {
      assert PusherStuck(g, s, s.pushers[p]) && PusherOk(s.pushers[p]);
    }
    TotalConstant(Reported, s.pushers, 1);
  }

  /** A popped zero for each consumer leaves no consumer without one. */
  lemma AllTookZero<W>(g: Config<W>, s: Pool<W>)
    requires |s.poppers| == g.consumers && Processed(g, s) && multiset(s.popped)[0] >= g.consumers
    ensures forall c :: 0 <= c < |s.poppers| ==> TookZero(s.poppers[c]) == 1
  {
    TotalFull(TookZero, s.poppers);
  }

  /** No deadlock: for any items, any positive numbers of producers and consumers and any scheduling,
  a state in which no thread can move is the end. */
  lemma StuckIsFinal<W(!new)>(g: Config<W>, s: Pool<W>)
    requires ValidConfig(g) && Inv(g, s) && Stuck(g, s)
    ensures Final(s)
  {
    StuckThreads(g, s);
    StuckCounts(g, s);
    ZerosPushed(g, s);
    var n := Producers(g);
    if s.items == 0 {
      GateOpens(g, s);
      assert PusherOk(s.pushers[n]);
      assert s.popped == s.pushed;
      AllTookZero(g, s);
      PoppersDone(s);
      MainDone(g, s);
    } else {
      forall c | 0 <= c < |s.poppers| ensures s.poppers[c].pc.PopDone? {
        assert PopperStuck(s, s.poppers[c]);
      }
      MainDone(g, s);
    }
  }

  lemma PoppersDone<W>(s: Pool<W>)
    requires forall c :: 0 <= c < |s.poppers| ==> PopperStuck(s, s.poppers[c])
    requires forall c :: 0 <= c < |s.poppers| ==> TookZero(s.poppers[c]) == 1
    ensures forall c :: 0 <= c < |s.poppers| ==> s.poppers[c].pc.PopDone?
  {
    forall c | 0 <= c < |s.poppers| ensures s.poppers[c].pc.PopDone? {
      assert PopperStuck(s, s.poppers[c]) && TookZero(s.poppers[c]) == 1;
    }
  }

  /** Once every consumer has gone, everybody has: they left because main had pushed every zero. */
  lemma MainDone<W>(g: Config<W>, s: Pool<W>)
    requires |g.bounds| >= 2 && g.consumers > 0
    requires Roles(g, s) && Ledger(g, s) && Phases(g, s) && Reports(g, s) && Ring(s)
    requires Poppers(g, s) && Processed(g, s)
    requires forall p :: 0 <= p < |s.pushers| ==> PusherStuck(g, s, s.pushers[p])
    requires forall c :: 0 <= c < |s.poppers| ==> s.poppers[c].pc.PopDone?
    ensures Final(s)
  {
    var n := Producers(g);
    ZerosPushed(g, s);
    forall c | 0 <= c < |s.poppers| ensures TookZero(s.poppers[c]) == 1 {
      assert PopperOk(g, s.poppers[c]);
    }
    TotalConstant(TookZero, s.poppers, 1);
    TotalConstant(HasReported, s.poppers, 1);
    PrefixCounts(s);
    assert PusherStuck(g, s, s.pushers[n]) && PusherOk(s.pushers[n]);
  }

  lemma PrefixCounts<W>(s: Pool<W>)
    requires Ring(s)
    ensures multiset(s.popped)[0] <= multiset(s.pushed)[0]
  {
    assert s.pushed == s.popped + s.pushed[|s.popped|..];
  }

  // ---------- every run ends ----------

  ghost function PushRank(t: Pusher): int {
    var left := if t.next <= t.end then t.end - t.next else 0;
    match t.pc
    case PushGate => 5 * left + 2
    case PushSpace => 5 * left + 1
    case PushLock => 5 * left
    case PushWrite => 5 * left - 1
    case PushUnlock => 5 * left + 3
    case PushSignal => 5 * left + 2
    case PushReport => 1
    case PushDone => 0
  }

  ghost function PopRank<W>(t: Popper<W>): int {
    match t.pc
    case PopItems => 5
    case PopLock => 4
    case PopRead => 3
    case PopUnlock => 9
    case PopSignal => 8
    case PopTest => 7
    case PopPublish => 2
    case PopReport => 1
    case PopDone => 0
  }

  /** Steps left: each thread's own, and seven for each value not yet popped. */
  ghost function Measure<W>(g: Config<W>, s: Pool<W>): int
    requires |g.bounds| >= 1
  {
    7 * (NumItems(g) + g.consumers - |s.popped|) + Total(PushRank, s.pushers) + Total(PopRank, s.poppers)
  }

  lemma PushDecreases<W>(g: Config<W>, s: Pool<W>, p: nat)
    requires |g.bounds| >= 1 && Enabled(g, s, Push(p)) && PusherOk(s.pushers[p])
    ensures Measure(g, Next(g, s, Push(p))) < Measure(g, s)
  {
    TotalUpdate(PushRank, s.pushers, p, Next(g, s, Push(p)).pushers[p]);
  }

  lemma PopDecreases<W>(g: Config<W>, s: Pool<W>, c: nat)
    requires |g.bounds| >= 1 && Enabled(g, s, Pop(c))
    ensures Measure(g, Next(g, s, Pop(c))) < Measure(g, s)
  {
    TotalUpdate(PopRank, s.poppers, c, Next(g, s, Pop(c)).poppers[c]);
  }

  lemma StepDecreases<W>(g: Config<W>, s: Pool<W>, step: Step)
    requires |g.bounds| >= 1 && Roles(g, s) && Enabled(g, s, step)
    ensures Measure(g, Next(g, s, step)) < Measure(g, s)
  {
    match step
    case Push(p) => assert PusherOk(s.pushers[p]); PushDecreases(g, s, p);
    case Pop(c) => PopDecreases(g, s, c);
  }

  lemma PopsAreBounded<W>(g: Config<W>, s: Pool<W>)
    requires |g.bounds| >= 1 && Ledger(g, s) && Ring(s)
    ensures |s.popped| <= NumItems(g) + g.consumers
  {
    RangeSize(0, NumItems(g));
    assert |multiset(s.pushed)| + |Union(Remaining, s.pushers)| == |Everything(g)|;
  }

  lemma MeasureNonNegative<W>(g: Config<W>, s: Pool<W>)
    requires |g.bounds| >= 1 && Roles(g, s) && Ledger(g, s) && Ring(s)
    ensures Measure(g, s) >= 0
  {
    PopsAreBounded(g, s);
    forall p | 0 <= p < |s.pushers| ensures PushRank(s.pushers[p]) >= 0 {
      assert PusherOk(s.pushers[p]);
    }
    TotalBounds(PushRank, s.pushers);
    TotalBounds(PopRank, s.poppers);
  }

  /** The steps that a whole run can take. */
  ghost function Budget<W>(g: Config<W>): nat
    requires |g.bounds| >= 1
  {
    12 * NumItems(g) + Producers(g) + 17 * g.consumers + 2
  }

  lemma InitMeasure<W(!new)>(g: Config<W>)
    requires ValidConfig(g)
    ensures Measure(g, Init(g)) <= Budget(g)
  {
    RangesTotal(PushRank, NewProducers(g.bounds), g.bounds, 5, 1);
    TotalAppend(PushRank, NewProducers(g.bounds), Pusher(PushGate, 0, g.consumers, true));
    TotalConstant(PopRank, Init(g).poppers, 5);
  }

  lemma {:induction false} RunMeasure<W(!new)>(g: Config<W>, s: Pool<W>, steps: seq<Step>)
    requires ValidConfig(g) && Inv(g, s) && IsRun(g, s, steps)
    ensures |steps| + Measure(g, After(g, s, steps)) <= Measure(g, s)
    decreases |steps|
  {
    if steps != [] {
      StepDecreases(g, s, steps[0]);
      InvNext(g, s, steps[0]);
      RunMeasure(g, Next(g, s, steps[0]), steps[1..]);
    }
  }

  // ---------- the result ----------

  lemma {:induction false} HandsAreZeros<W>(ts: seq<Popper<W>>)
    requires forall c :: 0 <= c < |ts| ==> ts[c].pc.PopDone?
    ensures Union(HandOf, ts) == Zeros(|ts|)
    decreases |ts|
  {
    if ts != [] {
      HandsAreZeros(ts[..|ts| - 1]);
    }
  }

  lemma FinalQueue<W(!new)>(g: Config<W>, s: Pool<W>)
    requires ValidConfig(g) && Inv(g, s) && Final(s)
    ensures s.popped == s.pushed && multiset(s.popped)[0] == g.consumers
  {
    assert PusherOk(s.pushers[Producers(g)]);
    ZerosPushed(g, s);
    forall c | 0 <= c < |s.poppers| ensures TookZero(s.poppers[c]) == 1 {
      assert PopperOk(g, s.poppers[c]);
    }
    TotalConstant(TookZero, s.poppers, 1);
    EndsWithZero(s.pushed);
    OnlyTheWhole(s.pushed, |s.popped|);
  }

  lemma FinalSemaphores<W>(s: Pool<W>)
    requires Counting(s) && Final(s) && |s.popped| == |s.pushed|
    ensures s.items == 0 && s.space == CAP
  {
    TotalConstant(HasSpace, s.pushers, 0);
    TotalConstant(OwesItem, s.pushers, 0);
    TotalConstant(HasItem, s.poppers, 0);
    TotalConstant(OwesSpace, s.poppers, 0);
  }

  lemma FinalCounts<W(!new)>(g: Config<W>, s: Pool<W>)
    requires ValidConfig(g) && Inv(g, s) && Final(s)
    ensures s.popped == s.pushed && s.items == 0 && s.space == CAP
    ensures multiset(s.popped)[0] == g.consumers
  {
    FinalQueue(g, s);
    FinalSemaphores(s);
  }

  lemma FinalChecksum<W(!new)>(g: Config<W>, s: Pool<W>)
    requires ValidConfig(g) && Inv(g, s) && Final(s)
    ensures multiset(s.published) == Range(0, NumItems(g))
    ensures s.checksum == Fold(g.algebra, Numbered(NumItems(g)))
  {
    FinalCounts(g, s);
    HandsAreZeros(s.poppers);
    forall p | 0 <= p < |s.pushers| ensures Remaining(s.pushers[p]) == multiset{} {
      assert PusherOk(s.pushers[p]);
    }
    UnionEmpty(Remaining, s.pushers);
    assert multiset(s.pushed) == Everything(g) by {
      assert multiset(s.pushed) + multiset{} == multiset(s.pushed);
    }
    Cancel(multiset(s.published), Range(0, NumItems(g)), Zeros(g.consumers));
    NumberedIsRange(NumItems(g));
    FoldPermutation(g.algebra, s.published, Numbered(NumItems(g)));
  }

  /** In every run: pops follow the order of pushes, every item is pushed (and so popped) before any
  zero, the counters wrap without losing a slot, and the run is no longer than the work it was given. */
  lemma EveryRun<W(!new)>(g: Config<W>, steps: seq<Step>)
    requires ValidConfig(g) && IsRun(g, Init(g), steps)
    ensures var s := After(g, Init(g), steps);
            && Inv(g, s)
            && |s.popped| <= |s.pushed| <= |s.popped| + 256
            && s.popped == s.pushed[..|s.popped|]
            && ZerosLast(s.popped)
            && |steps| <= 12 * NumItems(g) + Producers(g) + 17 * g.consumers + 2
  {
    InvInit(g);
    RunKeepsInv(g, Init(g), steps);
    RunMeasure(g, Init(g), steps);
    InitMeasure(g);
    MeasureNonNegative(g, After(g, Init(g), steps));
  }

  /** Every run that can go no further has finished: all threads are done, the queue is empty with its
  semaphores as they were, each consumer has taken one zero, each item has been processed once, and
  the checksum is that of the items 1 to n, whatever the split, the number of threads and the schedule. */
  lemma EveryRunFinishes<W(!new)>(g: Config<W>, steps: seq<Step>)
    requires ValidConfig(g) && IsRun(g, Init(g), steps) && Stuck(g, After(g, Init(g), steps))
    ensures var s := After(g, Init(g), steps);
            && Final(s)
            && Printing(s)
            && s.popped == s.pushed && s.items == 0 && s.space == 256
            && multiset(s.popped)[0] == g.consumers
            && (forall c :: 0 <= c < |s.poppers| ==> TookZero(s.poppers[c]) == 1)
            && multiset(s.published) == Range(0, NumItems(g))
            && s.checksum == Fold(g.algebra, Numbered(NumItems(g)))
  {
    var s := After(g, Init(g), steps);
    EveryRun(g, steps);
    StuckIsFinal(g, s);
    FinalCounts(g, s);
    FinalChecksum(g, s);
    forall c | 0 <= c < |s.poppers| ensures TookZero(s.poppers[c]) == 1 {
      assert PopperOk(g, s.poppers[c]);
    }
  }

  // ---------- what main prints ----------

  /** Main has got past its last wait and prints the checksum. */
  ghost predicate Printing<W>(s: Pool<W>) {
    s.pushers != [] && s.pushers[|s.pushers| - 1].pc.PushDone?
  }

  lemma PrintingIsFinal<W(!new)>(g: Config<W>, s: Pool<W>)
    requires ValidConfig(g) && Inv(g, s) && Printing(s)
    ensures Final(s)
  {
    TotalFull(HasReported, s.poppers);
  }

  /** Whenever main prints, on whatever schedule, every consumer has gone, every item has been processed
  once, and the checksum is that of the items 1 to n. */
  lemma PrintsTheChecksum<W(!new)>(g: Config<W>, steps: seq<Step>)
    requires ValidConfig(g) && IsRun(g, Init(g), steps) && Printing(After(g, Init(g), steps))
    ensures var s := After(g, Init(g), steps);
            && (forall c :: 0 <= c < |s.poppers| ==> s.poppers[c].pc.PopDone?)
            && multiset(s.published) == Range(0, NumItems(g))
            && s.checksum == Fold(g.algebra, Numbered(NumItems(g)))
  {
    EveryRun(g, steps);
    PrintingIsFinal(g, After(g, Init(g), steps));
    FinalChecksum(g, After(g, Init(g), steps));
  }
}
