/** Whole runs of the four designs: none gets stuck, all end, and all give the same checksum. */
module PoolRuns {
  import opened Folds
  import opened Checksum
  import opened Workload
  import C = Channel
  import opened PoolProtocols
  import opened PoolInvariant

  // ---------- the results array ----------

  /** What a consumer has written to its own result. */
  ghost function PublishedBy<W>(t: Consumer<W>): multiset<nat> {
    if t.pc.Stopped? then multiset(t.mine) else multiset{}
  }

  ghost predicate Results<W>(s: Pool<W>) {
    multiset(s.published) == Union(PublishedBy, s.consumers)
  }

  lemma ResultsConsume<W>(g: Config<W>, s: Pool<W>, c: nat)
    requires Results(s) && Enabled(g, s, Consume(c))
    ensures Results(Next(g, s, Consume(c)))
  {
    var t, t' := s.consumers[c], Next(g, s, Consume(c)).consumers[c];
    if t.pc.Publishing? {
      assert PublishedBy(t) + multiset(t.mine) == PublishedBy(t') + multiset{};
      UnionChange(PublishedBy, s.consumers, c, t', multiset{}, multiset(t.mine));
      var u, u' := Union(PublishedBy, s.consumers), Union(PublishedBy, s.consumers[c := t']);
      assert u' == u + multiset(t.mine) by {
        assert u + multiset(t.mine) == u' + multiset{};
      }
      assert multiset(s.published + t.mine) == multiset(s.published) + multiset(t.mine);
    } else {
      UnionSame(PublishedBy, s.consumers, c, t');
    }
  }

  // ---------- the invariant of all runs ----------

  ghost predicate Inv<W>(g: Config<W>, s: Pool<W>)
    requires |g.bounds| >= 1
  {
    && Countdown(g, s) && Closing(g, s) && Flow(g, s)
    && Consumers(g, s) && Processed(g, s) && Results(s)
  }

  lemma ProduceKeeps<W(!new)>(g: Config<W>, s: Pool<W>, p: nat)
    requires ValidConfig(g) && Countdown(g, s) && Closing(g, s) && Flow(g, s)
    requires Enabled(g, s, Produce(p))
    ensures Countdown(g, Next(g, s, Produce(p))) && Closing(g, Next(g, s, Produce(p)))
    ensures Flow(g, Next(g, s, Produce(p)))
  {
    match s.producers[p].pc
    case Sending => CountdownSend(g, s, p); FlowSend(g, s, p);
    case Leaving => CountdownLeave(g, s, p); FlowLeave(g, s, p);
    case Ending => CountdownEnd(g, s, p); FlowEnd(g, s, p);
    case _ =>
  }

  /** Producers and the extra task do not touch the consumers' side. */
  lemma OthersFrame<W>(g: Config<W>, s: Pool<W>, step: Step)
    requires Enabled(g, s, step) && !step.Consume?
    ensures var u := Next(g, s, step);
            && u.consumers == s.consumers && u.takes == s.takes && u.published == s.published
            && u.checksum == s.checksum
  {
  }

  lemma ProcessedSame<W>(g: Config<W>, s: Pool<W>, t: Pool<W>)
    requires Processed(g, s) && Results(s)
    requires t.consumers == s.consumers && t.takes == s.takes && t.published == s.published
    requires t.checksum == s.checksum
    ensures Processed(g, t) && Results(t)
  {
  }

  lemma ProcessedConsume<W(!new)>(g: Config<W>, s: Pool<W>, c: nat)
    requires ValidConfig(g) && Countdown(g, s) && Flow(g, s) && Processed(g, s)
    requires Enabled(g, s, Consume(c)) && ConsumerOk(g, s, s.consumers[c])
    ensures Processed(g, Next(g, s, Consume(c)))
  {
    if s.consumers[c].pc.Publishing? {
      ProcessedPublish(g, s, c);
    } else if s.queue.items == [] {
      ProcessedClosed(g, s, c);
    } else {
      TakenItem(g, s, c);
      ProcessedTake(g, s, Next(g, s, Consume(c)), c, s.queue.items[0]);
    }
  }

  lemma InvConsume<W(!new)>(g: Config<W>, s: Pool<W>, c: nat)
    requires ValidConfig(g) && Inv(g, s) && Enabled(g, s, Consume(c))
    ensures Inv(g, Next(g, s, Consume(c)))
  {
    CountdownConsume(g, s, c);
    FlowConsume(g, s, c);
    ConsumersConsume(g, s, c);
    ProcessedConsume(g, s, c);
    ResultsConsume(g, s, c);
  }

  lemma InvNext<W(!new)>(g: Config<W>, s: Pool<W>, step: Step)
    requires ValidConfig(g) && Inv(g, s) && Enabled(g, s, step)
    ensures Inv(g, Next(g, s, step))
  {
    if step.Consume? {
      InvConsume(g, s, step.c);
    } else {
      ConsumersElse(g, s, step);
      OthersFrame(g, s, step);
      ProcessedSame(g, s, Next(g, s, step));
      if step.Produce? {
        ProduceKeeps(g, s, step.p);
      } else {
        CountdownExtra(g, s);
        FlowExtra(g, s);
      }
    }
  }

  lemma NewProducerOk<W>(g: Config<W>, start: nat, end: nat)
    requires start <= end
    ensures ProducerOk(g, NewProducer(start, end)) && Running(NewProducer(start, end)) == 1
  {
  }

  lemma InitProducers<W>(g: Config<W>)
    requires |g.bounds| >= 2 && Ascending(g.bounds)
    ensures var ts := NewProducers(g.bounds);
            && (forall p :: 0 <= p < |ts| ==> ProducerOk(g, ts[p]) && Running(ts[p]) == 1)
            && Total(Running, ts) == NumProducers(g)
  {
    var ts := NewProducers(g.bounds);
    forall p | 0 <= p < |ts| ensures ProducerOk(g, ts[p]) && Running(ts[p]) == 1 {
      NewProducerOk(g, g.bounds[p], g.bounds[p + 1]);
    }
    TotalConstant(Running, ts, 1);
  }

  lemma InitCountdown<W(!new)>(g: Config<W>)
    requires ValidConfig(g)
    ensures Countdown(g, Init(g)) && Closing(g, Init(g))
  {
    InitProducers(g);
  }

  lemma InitRemaining(bounds: seq<nat>)
    requires |bounds| >= 1 && Ascending(bounds)
    ensures Union(Remaining, NewProducers(bounds)) == Range(bounds[0], bounds[|bounds| - 1])
  {
    RangesCover(Remaining, NewProducers(bounds), bounds);
  }

  lemma InitFlow<W>(g: Config<W>)
    requires |g.bounds| >= 2 && g.bounds[0] == 0
    requires Ascending(g.bounds)
    ensures Flow(g, Init(g))
  {
    var s := Init(g);
    InitRemaining(g.bounds);
    AddNothing(Union(Remaining, s.producers));
    assert multiset(s.puts) == multiset{} && Zeros(0) == multiset{};
    assert Range(0, NumItems(g)) + multiset{} == Range(0, NumItems(g));
  }

  lemma InitConsumers<W>(g: Config<W>)
    requires |g.bounds| >= 2
    ensures Consumers(g, Init(g)) && Processed(g, Init(g)) && Results(Init(g))
  {
    var s := Init(g);
    UnionEmpty(HandOf, s.consumers);
    UnionEmpty(PublishedBy, s.consumers);
    TotalConstant(SawZero, s.consumers, 0);
  }

  lemma InvInit<W(!new)>(g: Config<W>)
    requires ValidConfig(g)
    ensures Inv(g, Init(g))
  {
    InitCountdown(g);
    InitFlow(g);
    InitConsumers(g);
  }

  lemma {:induction false} RunKeepsInv<W(!new)>(g: Config<W>, s: Pool<W>, steps: seq<Step>)
    requires ValidConfig(g) && Inv(g, s) && IsRun(g, s, steps)
    ensures Inv(g, After(g, s, steps))
    decreases |steps|
  {
    if steps != [] {
      InvNext(g, s, steps[0]);
      RunKeepsInv(g, Next(g, s, steps[0]), steps[1..]);
    }
  }

  // ---------- no deadlock ----------

  ghost predicate Stuck<W>(g: Config<W>, s: Pool<W>) {
    && (forall p: nat :: !Enabled(g, s, Produce(p)))
    && !Enabled(g, s, Extra)
    && (forall c: nat :: !Enabled(g, s, Consume(c)))
  }

  /** All results are in: this is when the checksum is taken. */
  ghost predicate AllStopped<W>(s: Pool<W>) {
    forall c :: 0 <= c < |s.consumers| ==> s.consumers[c].pc.Stopped?
  }

  ghost predicate Final<W>(s: Pool<W>) {
    && (forall p :: 0 <= p < |s.producers| ==> s.producers[p].pc.Exited?)
    && AllStopped(s)
    && s.extraDone
  }

  /** With room in the queue, every producer gets through. */
  lemma ProducersExit<W>(g: Config<W>, s: Pool<W>)
    requires |g.bounds| >= 1 && Countdown(g, s) && Closing(g, s) && Stuck(g, s)
    requires s.queue.shut || |s.queue.items| < g.bound
    ensures forall p :: 0 <= p < |s.producers| ==> s.producers[p].pc.Exited?
    ensures s.extraDone && s.remaining == 0
  {
    forall p | 0 <= p < |s.producers| ensures s.producers[p].pc.Exited? {
      assert ProducerOk(g, s.producers[p]) && !Enabled(g, s, Produce(p));
      RunningIsCounted(g, s, p);
    }
    TotalConstant(Running, s.producers, 0);
    assert !Enabled(g, s, Extra);
  }

  /** With something in the queue, or a closed queue, every consumer gets to its end. */
  lemma ConsumersStop<W>(g: Config<W>, s: Pool<W>)
    requires Stuck(g, s) && (s.queue.items != [] || s.queue.shut)
    ensures forall c :: 0 <= c < |s.consumers| ==> s.consumers[c].pc.Stopped?
  {
    forall c | 0 <= c < |s.consumers| ensures s.consumers[c].pc.Stopped? {
      assert !Enabled(g, s, Consume(c));
    }
  }

  /** When every consumer has stopped, the run was over: the queue is closed and empty, or each took a
  zero. */
  lemma StoppedMeansOver<W(!new)>(g: Config<W>, s: Pool<W>)
    requires ValidConfig(g) && Inv(g, s)
    requires forall c :: 0 <= c < |s.consumers| ==> s.consumers[c].pc.Stopped?
    ensures !g.design.LastSentinels? ==> s.queue.shut && s.queue.items == []
    ensures g.design.LastSentinels? ==> s.last.Some? && s.producers[s.last.value].zeros == g.consumers
  {
    assert ConsumerOk(g, s, s.consumers[0]);
    if g.design.LastSentinels? {
      AllSawZero(g, s);
      ZerosPut(g, s);
      assert multiset(s.puts) == multiset(s.takes) + multiset(s.queue.items);
      if s.last.Some? {
        assert ProducerOk(g, s.producers[s.last.value]);
      }
    }
  }

  lemma AllSawZero<W>(g: Config<W>, s: Pool<W>)
    requires g.design.LastSentinels? && Consumers(g, s) && Processed(g, s)
    requires forall c :: 0 <= c < |s.consumers| ==> s.consumers[c].pc.Stopped?
    ensures multiset(s.takes)[0] == |s.consumers|
  {
    forall c | 0 <= c < |s.consumers| ensures SawZero(s.consumers[c]) == 1 {
      assert ConsumerOk(g, s, s.consumers[c]);
    }
    TotalConstant(SawZero, s.consumers, 1);
  }

  /** With every zero sent and the queue empty, no consumer is still waiting for one. */
  lemma ZerosStopConsumers<W>(g: Config<W>, s: Pool<W>)
    requires |g.bounds| >= 1 && Countdown(g, s) && Closing(g, s) && Flow(g, s)
    requires Consumers(g, s) && Processed(g, s) && g.design.LastSentinels?
    requires s.queue.items == [] && s.last.Some? && s.producers[s.last.value].pc.Exited?
    ensures forall c :: 0 <= c < |s.consumers| ==> !s.consumers[c].pc.Receiving?
  {
    ZerosPut(g, s);
    assert s.takes == s.puts;
    TotalFull(SawZero, s.consumers);
    forall c | 0 <= c < |s.consumers| ensures !s.consumers[c].pc.Receiving? {
      assert ConsumerOk(g, s, s.consumers[c]) && SawZero(s.consumers[c]) == 1;
    }
  }

  lemma StuckFullIsFinal<W(!new)>(g: Config<W>, s: Pool<W>)
    requires ValidConfig(g) && Inv(g, s) && Stuck(g, s) && s.queue.items != []
    ensures Final(s)
  {
    ConsumersStop(g, s);
    StoppedMeansOver(g, s);
    forall p | 0 <= p < |s.producers| ensures s.producers[p].pc.Exited? {
      assert ProducerOk(g, s.producers[p]) && !Enabled(g, s, Produce(p));
      RunningIsCounted(g, s, p);
    }
  }

  lemma StuckEmptyIsFinal<W(!new)>(g: Config<W>, s: Pool<W>)
    requires ValidConfig(g) && Inv(g, s) && Stuck(g, s) && s.queue.items == []
    ensures Final(s)
  {
    ProducersExit(g, s);
    if g.design.LastSentinels? {
      ZerosStopConsumers(g, s);
      forall c | 0 <= c < |s.consumers| ensures s.consumers[c].pc.Stopped? {
        assert !Enabled(g, s, Consume(c));
      }
    } else {
      ConsumersStop(g, s);
    }
  }

  /** No design deadlocks, whatever the schedule. */
  lemma StuckIsFinal<W(!new)>(g: Config<W>, s: Pool<W>)
    requires ValidConfig(g) && Inv(g, s) && Stuck(g, s)
    ensures Final(s)
  {
    if s.queue.items == [] {
      StuckEmptyIsFinal(g, s);
    } else {
      StuckFullIsFinal(g, s);
    }
  }

  // ---------- every run ends ----------

  /** The steps a producer can still take when there are `zeros` zeros to send at the end. */
  ghost function ProducerRank(zeros: nat): Producer -> int {
    (t: Producer) =>
      match t.pc
      case Sending => t.end - t.next + zeros + 2
      case Leaving => zeros + 2
      case Ending => zeros - t.zeros + 1
      case _ => 0
  }

  ghost function ConsumerRank<W>(t: Consumer<W>): int {
    match t.pc
    case Receiving => 2
    case Publishing => 1
    case Stopped => 0
  }

  ghost function Measure<W>(g: Config<W>, s: Pool<W>): int
    requires |g.bounds| >= 1
  {
    NumItems(g) + g.consumers - |s.takes| + (if s.extraDone then 0 else 1)
    + Total(ProducerRank(g.consumers), s.producers) + Total(ConsumerRank, s.consumers)
  }

  lemma ProduceDecreases<W>(g: Config<W>, s: Pool<W>, p: nat)
    requires |g.bounds| >= 1 && Countdown(g, s) && Closing(g, s) && Enabled(g, s, Produce(p))
    ensures Measure(g, Next(g, s, Produce(p))) < Measure(g, s)
  {
    var t := s.producers[p];
    assert ProducerOk(g, t);
    if t.pc.Leaving? {
      LeaveFrame(g, s, p);
    } else if t.pc.Sending? {
      RunningMeansOpen(g, s, p);
    }
    TotalUpdate(ProducerRank(g.consumers), s.producers, p, Next(g, s, Produce(p)).producers[p]);
  }

  lemma StepDecreases<W>(g: Config<W>, s: Pool<W>, step: Step)
    requires |g.bounds| >= 1 && Countdown(g, s) && Closing(g, s) && Enabled(g, s, step)
    ensures Measure(g, Next(g, s, step)) < Measure(g, s)
  {
    match step
    case Produce(p) => ProduceDecreases(g, s, p);
    case Extra =>
    case Consume(c) => TotalUpdate(ConsumerRank, s.consumers, c, Next(g, s, step).consumers[c]);
  }

  lemma TakesAreBounded<W>(g: Config<W>, s: Pool<W>)
    requires |g.bounds| >= 1 && Countdown(g, s) && Flow(g, s)
    ensures |s.takes| <= NumItems(g) + g.consumers
  {
    RangeSize(0, NumItems(g));
    var puts, left := multiset(s.puts), Union(Remaining, s.producers);
    assert |puts + left| == |Range(0, NumItems(g)) + Zeros(ZerosSent(s))|;
    assert |s.puts| + |left| == NumItems(g) + ZerosSent(s);
    if s.last.Some? && s.last.value < |s.producers| {
      assert ProducerOk(g, s.producers[s.last.value]);
    }
  }

  lemma MeasureNonNegative<W>(g: Config<W>, s: Pool<W>)
    requires |g.bounds| >= 1 && Countdown(g, s) && Flow(g, s)
    ensures Measure(g, s) >= 0
  {
    TakesAreBounded(g, s);
    forall p | 0 <= p < |s.producers| ensures ProducerRank(g.consumers)(s.producers[p]) >= 0 {
      assert ProducerOk(g, s.producers[p]);
    }
    TotalBounds(ProducerRank(g.consumers), s.producers);
    TotalBounds(ConsumerRank, s.consumers);
  }

  /** The steps that a whole run can take. */
  ghost function Budget<W>(g: Config<W>): nat
    requires |g.bounds| >= 1
  {
    2 * NumItems(g) + NumProducers(g) * (g.consumers + 2) + 3 * g.consumers + 1
  }

  lemma InitMeasure<W(!new)>(g: Config<W>)
    requires ValidConfig(g)
    ensures Measure(g, Init(g)) <= Budget(g)
  {
    RangesTotal(ProducerRank(g.consumers), NewProducers(g.bounds), g.bounds, 1, g.consumers + 2);
    TotalConstant(ConsumerRank, Init(g).consumers, 2);
  }

  lemma {:induction false} RunMeasure<W(!new)>(g: Config<W>, s: Pool<W>, steps: seq<Step>)
    requires ValidConfig(g) && Inv(g, s) && IsRun(g, s, steps)
    ensures |steps| + Measure(g, After(g, s, steps)) <= Measure(g, s)
    decreases |steps|
  {
    if steps != [] {
      StepDecreases(g, s, steps[0]);
      InvNext(g, s, steps[0]);
      RunMeasure(g, Next(g, s, steps[0]), steps[1..]);
    }
  }

  // ---------- the checksum ----------

  /** The loop in `main` that combines the results of the consumers. */
  ghost function Combined<W>(g: Algebra<W>, ts: seq<Consumer<W>>): W
    decreases |ts|
  {
    if ts == [] then g.zero else g.mix(Combined(g, ts[..|ts| - 1]), ts[|ts| - 1].acc)
  }

  ghost function AllMine<W>(ts: seq<Consumer<W>>): seq<nat>
    decreases |ts|
  {
    if ts == [] then [] else AllMine(ts[..|ts| - 1]) + ts[|ts| - 1].mine
  }

  lemma {:induction false} CombinedIsFold<W(!new)>(g: Algebra<W>, ts: seq<Consumer<W>>)
    requires Commutative(g)
    requires forall c :: 0 <= c < |ts| ==> ts[c].pc.Stopped? && ts[c].acc == Fold(g, ts[c].mine)
    ensures Combined(g, ts) == Fold(g, AllMine(ts)) && multiset(AllMine(ts)) == Union(PublishedBy, ts)
    decreases |ts|
  {
    if ts != [] {
      var n := |ts| - 1;
      CombinedIsFold(g, ts[..n]);
      FoldConcat(g, AllMine(ts[..n]), ts[n].mine);
    }
  }

  lemma {:induction false} HandsAreZeros<W>(ts: seq<Consumer<W>>, z: bool)
    requires forall c :: 0 <= c < |ts| ==> ts[c].pc.Stopped? && ts[c].sawZero == z
    ensures Union(HandOf, ts) == if z then Zeros(|ts|) else multiset{}
    decreases |ts|
  {
    if ts != [] {
      HandsAreZeros(ts[..|ts| - 1], z);
    }
  }

  lemma FinalQueue<W(!new)>(g: Config<W>, s: Pool<W>)
    requires ValidConfig(g) && Inv(g, s) && AllStopped(s)
    ensures s.takes == s.puts && s.queue.items == []
  {
    StoppedMeansOver(g, s);
    if g.design.LastSentinels? {
      AllSawZero(g, s);
      ZerosPut(g, s);
      EndsWithZero(s.puts);
      OnlyTheWhole(s.puts, |s.takes|);
    }
  }

  /** The consumers stop only when every producer has been counted out, so nothing is left to send. */
  lemma NothingRemains<W(!new)>(g: Config<W>, s: Pool<W>)
    requires ValidConfig(g) && Inv(g, s) && AllStopped(s)
    ensures Union(Remaining, s.producers) == multiset{}
  {
    StoppedMeansOver(g, s);
    forall p | 0 <= p < |s.producers| ensures Remaining(s.producers[p]) == multiset{} {
      assert ProducerOk(g, s.producers[p]);
      RunningIsCounted(g, s, p);
    }
    UnionEmpty(Remaining, s.producers);
  }

  lemma FinalZeros<W(!new)>(g: Config<W>, s: Pool<W>)
    requires ValidConfig(g) && Inv(g, s) && AllStopped(s)
    ensures Zeros(ZerosSent(s)) == if g.design.LastSentinels? then Zeros(g.consumers) else multiset{}
  {
    StoppedMeansOver(g, s);
    if !g.design.LastSentinels? && s.last.Some? && s.last.value < |s.producers| {
      assert ProducerOk(g, s.producers[s.last.value]);
    }
  }

  lemma FinalHands<W(!new)>(g: Config<W>, s: Pool<W>)
    requires ValidConfig(g) && Inv(g, s) && AllStopped(s)
    ensures Union(HandOf, s.consumers) ==
              if g.design.LastSentinels? then Zeros(g.consumers) else multiset{}
  {
    forall c | 0 <= c < |s.consumers| ensures s.consumers[c].sawZero == g.design.LastSentinels? {
      assert ConsumerOk(g, s, s.consumers[c]);
    }
    HandsAreZeros(s.consumers, g.design.LastSentinels?);
  }

  lemma FinalItems<W(!new)>(g: Config<W>, s: Pool<W>)
    requires ValidConfig(g) && Inv(g, s) && AllStopped(s)
    ensures multiset(s.published) == Range(0, NumItems(g))
  {
    FinalQueue(g, s);
    NothingRemains(g, s);
    FinalZeros(g, s);
    FinalHands(g, s);
    var items, zeros := Range(0, NumItems(g)), Union(HandOf, s.consumers);
    assert multiset(s.puts) + multiset{} == multiset(s.puts);
    Cancel(multiset(s.published), items, zeros);
  }

  lemma FinalChecksum<W(!new)>(g: Config<W>, s: Pool<W>)
    requires ValidConfig(g) && Inv(g, s) && AllStopped(s)
    ensures s.checksum == Combined(g.algebra, s.consumers) == Fold(g.algebra, Numbered(NumItems(g)))
  {
    FinalItems(g, s);
    NumberedIsRange(NumItems(g));
    FoldPermutation(g.algebra, s.published, Numbered(NumItems(g)));
    forall c | 0 <= c < |s.consumers| ensures s.consumers[c].acc == Fold(g.algebra, s.consumers[c].mine) {
      assert ConsumerOk(g, s, s.consumers[c]);
    }
    CombinedIsFold(g.algebra, s.consumers);
    FoldPermutation(g.algebra, AllMine(s.consumers), Numbered(NumItems(g)));
  }

  // ---------- the theorems ----------

  lemma RunIsBounded<W(!new)>(g: Config<W>, steps: seq<Step>)
    requires ValidConfig(g) && IsRun(g, Init(g), steps)
    ensures Inv(g, After(g, Init(g), steps))
    ensures |steps| <= 2 * NumItems(g) + NumProducers(g) * (g.consumers + 2) + 3 * g.consumers + 1
  {
    InvInit(g);
    RunKeepsInv(g, Init(g), steps);
    RunMeasure(g, Init(g), steps);
    InitMeasure(g);
    MeasureNonNegative(g, After(g, Init(g), steps));
  }

  /** In every run of every design no send is refused, at most one task sees the count reach zero and
  only when every item has been accepted, and the run is no longer than the work it was given. */
  lemma EveryRun<W(!new)>(g: Config<W>, steps: seq<Step>)
    requires ValidConfig(g) && IsRun(g, Init(g), steps)
    ensures var s := After(g, Init(g), steps);
            && Inv(g, s)
            && (forall p :: 0 <= p < |s.producers| ==> !s.producers[p].pc.GaveUp?)
            && (forall p :: 0 <= p < |s.producers| && s.producers[p].pc.Ending? ==> s.last == C.Some(p))
            && (s.last.Some? ==>
                  forall p :: 0 <= p < |s.producers| ==> s.producers[p].next == s.producers[p].end)
            && |steps| <= 2 * NumItems(g) + NumProducers(g) * (g.consumers + 2) + 3 * g.consumers + 1
  {
    RunIsBounded(g, steps);
    var s := After(g, Init(g), steps);
    forall p | 0 <= p < |s.producers|
      ensures !s.producers[p].pc.GaveUp? && (s.last.Some? ==> s.producers[p].next == s.producers[p].end)
      ensures s.producers[p].pc.Ending? ==> s.last == C.Some(p)
    {
      assert ProducerOk(g, s.producers[p]);
      RunningIsCounted(g, s, p);
    }
  }

  /** Every run that can go no further has finished, with an empty queue, every item processed once,
  and the same checksum for all designs, splits, thread counts, queue sizes and schedules, whether it
  is accumulated atomically or from the results array. */
  lemma EveryRunAgrees<W(!new)>(g: Config<W>, steps: seq<Step>)
    requires ValidConfig(g) && IsRun(g, Init(g), steps) && Stuck(g, After(g, Init(g), steps))
    ensures var s := After(g, Init(g), steps);
            && Final(s) && s.queue.items == []
            && multiset(s.published) == Range(0, NumItems(g))
            && s.checksum == Fold(g.algebra, Numbered(NumItems(g)))
            && Combined(g.algebra, s.consumers) == Fold(g.algebra, Numbered(NumItems(g)))
  {
    EveryRun(g, steps);
    var s := After(g, Init(g), steps);
    StuckIsFinal(g, s);
    FinalQueue(g, s);
    FinalItems(g, s);
    FinalChecksum(g, s);
  }

  /** Whenever all consumers have stopped, on whatever schedule and wherever the producers are, every
  item has been processed once and the checksum is right, accumulated or combined. */
  lemma StoppedHasTheChecksum<W(!new)>(g: Config<W>, steps: seq<Step>)
    requires ValidConfig(g) && IsRun(g, Init(g), steps) && AllStopped(After(g, Init(g), steps))
    ensures var s := After(g, Init(g), steps);
            && s.queue.items == [] && multiset(s.published) == Range(0, NumItems(g))
            && s.checksum == Fold(g.algebra, Numbered(NumItems(g)))
            && Combined(g.algebra, s.consumers) == Fold(g.algebra, Numbered(NumItems(g)))
  {
    EveryRun(g, steps);
    var s := After(g, Init(g), steps);
    FinalQueue(g, s);
    FinalItems(g, s);
    FinalChecksum(g, s);
  }
}
