/** What every step of every shutdown design keeps. */
module PoolInvariant {
  import opened Folds
  import opened Checksum
  import opened Workload
  import C = Channel
  import opened PoolProtocols

  // ---------- producers and the shared counter ----------

  ghost predicate ProducerOk<W>(g: Config<W>, t: Producer) {
    && t.next <= t.end && t.zeros <= g.consumers && !t.pc.GaveUp?
    && (t.pc.Sending? <==> t.next < t.end)
    && (t.pc.Ending? ==> g.design.LastCloses? || (g.design.LastSentinels? && t.zeros < g.consumers))
    && (t.pc.Sending? || t.pc.Leaving? || !g.design.LastSentinels? ==> t.zeros == 0)
  }

  ghost function Running(t: Producer): int {
    if t.pc.Sending? || t.pc.Leaving? then 1 else 0
  }

  /** The counter counts who is still running; the one who brought it to zero, and nobody else, ends
  the run; and the queue is closed only after that. */
  ghost predicate Countdown<W>(g: Config<W>, s: Pool<W>)
    requires |g.bounds| >= 1
  {
    && |s.producers| == NumProducers(g) && |s.consumers| == g.consumers && s.queue.bound == g.bound
    && (!HasExtra(g) ==> s.extraDone)
    && (forall p :: 0 <= p < |s.producers| ==> ProducerOk(g, s.producers[p]))
    && s.remaining == Total(Running, s.producers) + (if g.design.DropsLast? && !s.extraDone then 1 else 0)
    && (s.last.Some? <==> s.remaining == 0)
    && (s.last.Some? ==> s.last.value <= NumProducers(g))
    && (forall p :: 0 <= p < |s.producers| && (s.producers[p].pc.Ending? || s.producers[p].zeros > 0) ==>
          s.last == C.Some(p))
    && (g.design.LastCloses? || g.design.LastSentinels? || g.design.WaitThenCloses? ==>
          s.last.Some? ==> s.last.value < NumProducers(g))
  }

  ghost predicate Closing<W>(g: Config<W>, s: Pool<W>)
    requires |g.bounds| >= 1 && Countdown(g, s)
  {
    match g.design
    case LastCloses => s.queue.shut <==> s.last.Some? && s.producers[s.last.value].pc.Exited?
    case LastSentinels =>
      && !s.queue.shut
      && (s.last.Some? && s.producers[s.last.value].pc.Exited? ==>
            s.producers[s.last.value].zeros == g.consumers)
    case WaitThenCloses => (s.queue.shut <==> s.extraDone) && (s.extraDone ==> s.remaining == 0)
    case DropsLast => s.queue.shut <==> s.remaining == 0
  }

  /** Nobody who is still running can be counted out. */
  lemma RunningIsCounted<W>(g: Config<W>, s: Pool<W>, p: nat)
    requires |g.bounds| >= 1 && Countdown(g, s) && p < |s.producers|
    ensures Running(s.producers[p]) == 1 ==> s.remaining > 0 && s.last == C.None
  {
    TotalBounds(Running, s.producers);
  }

  /** A running producer never finds the queue closed. */
  lemma RunningMeansOpen<W>(g: Config<W>, s: Pool<W>, p: nat)
    requires |g.bounds| >= 1 && Countdown(g, s) && Closing(g, s) && p < |s.producers|
    requires Running(s.producers[p]) == 1 || (s.producers[p].pc.Ending? && g.design.LastSentinels?)
    ensures !s.queue.shut
  {
    RunningIsCounted(g, s, p);
  }

  lemma CountdownSend<W>(g: Config<W>, s: Pool<W>, p: nat)
    requires |g.bounds| >= 1 && Countdown(g, s) && Closing(g, s) && Enabled(g, s, Produce(p))
    requires s.producers[p].pc.Sending?
    ensures Countdown(g, Next(g, s, Produce(p))) && Closing(g, Next(g, s, Produce(p)))
  {
    assert ProducerOk(g, s.producers[p]);
    RunningIsCounted(g, s, p);
    RunningMeansOpen(g, s, p);
    TotalUpdate(Running, s.producers, p, Next(g, s, Produce(p)).producers[p]);
  }

  /** What leaving changes: the counter, who saw it reach zero, and the leaver's own program counter. */
  ghost predicate LeaveEffect<W>(g: Config<W>, s: Pool<W>, u: Pool<W>, p: nat) {
    && p < |s.producers| == |u.producers| && u.producers == s.producers[p := u.producers[p]]
    && s.remaining > 0 && u.remaining == s.remaining - 1
    && u.last == (if s.remaining == 1 then C.Some(p) else s.last)
    && u.producers[p] == s.producers[p].(
         pc := if s.remaining == 1 && (g.design.LastCloses? || g.design.LastSentinels?) then Ending else Exited)
    && u.puts == s.puts && u.takes == s.takes && u.queue.items == s.queue.items
    && u.queue.bound == s.queue.bound && |u.consumers| == |s.consumers| && u.extraDone == s.extraDone
  }

  lemma LeaveFrame<W>(g: Config<W>, s: Pool<W>, p: nat)
    requires Enabled(g, s, Produce(p)) && s.producers[p].pc.Leaving?
    ensures LeaveEffect(g, s, Next(g, s, Produce(p)), p)
  {
  }

  lemma LeaveCounts<W>(g: Config<W>, s: Pool<W>, u: Pool<W>, p: nat)
    requires |g.bounds| >= 1 && Countdown(g, s) && LeaveEffect(g, s, u, p)
    requires s.producers[p].pc.Leaving? && g.consumers > 0
    ensures Countdown(g, u)
  {
    assert ProducerOk(g, s.producers[p]);
    RunningIsCounted(g, s, p);
    TotalUpdate(Running, s.producers, p, u.producers[p]);
  }

  lemma LeaveCloses<W>(g: Config<W>, s: Pool<W>, p: nat)
    requires |g.bounds| >= 1 && Countdown(g, s) && Closing(g, s) && Enabled(g, s, Produce(p))
    requires s.producers[p].pc.Leaving? && Countdown(g, Next(g, s, Produce(p)))
    ensures Closing(g, Next(g, s, Produce(p)))
  {
    RunningIsCounted(g, s, p);
    RunningMeansOpen(g, s, p);
  }

  lemma CountdownLeave<W>(g: Config<W>, s: Pool<W>, p: nat)
    requires |g.bounds| >= 1 && Countdown(g, s) && Closing(g, s) && Enabled(g, s, Produce(p))
    requires s.producers[p].pc.Leaving? && g.consumers > 0
    ensures Countdown(g, Next(g, s, Produce(p))) && Closing(g, Next(g, s, Produce(p)))
  {
    LeaveFrame(g, s, p);
    LeaveCounts(g, s, Next(g, s, Produce(p)), p);
    LeaveCloses(g, s, p);
  }

  lemma CountdownEnd<W>(g: Config<W>, s: Pool<W>, p: nat)
    requires |g.bounds| >= 1 && Countdown(g, s) && Closing(g, s) && Enabled(g, s, Produce(p))
    requires s.producers[p].pc.Ending?
    ensures Countdown(g, Next(g, s, Produce(p))) && Closing(g, Next(g, s, Produce(p)))
  {
    assert ProducerOk(g, s.producers[p]);
    TotalUpdate(Running, s.producers, p, Next(g, s, Produce(p)).producers[p]);
  }

  lemma CountdownExtra<W>(g: Config<W>, s: Pool<W>)
    requires |g.bounds| >= 1 && Countdown(g, s) && Closing(g, s) && Enabled(g, s, Extra)
    ensures Countdown(g, Next(g, s, Extra)) && Closing(g, Next(g, s, Extra))
  {
  }

  lemma CountdownConsume<W>(g: Config<W>, s: Pool<W>, c: nat)
    requires |g.bounds| >= 1 && Countdown(g, s) && Closing(g, s) && Enabled(g, s, Consume(c))
    ensures Countdown(g, Next(g, s, Consume(c))) && Closing(g, Next(g, s, Consume(c)))
  {
  }

  // ---------- the queue's history ----------

  ghost function Remaining(t: Producer): multiset<nat> {
    Range(t.next, t.end)
  }

  ghost function ZerosSent<W>(s: Pool<W>): nat {
    if s.last.Some? && s.last.value < |s.producers| then s.producers[s.last.value].zeros else 0
  }

  /** Takes follow puts in order; every item has been put by exactly one producer or is still to be
  put by it; besides items only the last producer's zeros were put, after all items. */
  ghost predicate Flow<W>(g: Config<W>, s: Pool<W>)
    requires |g.bounds| >= 1
  {
    && s.takes + s.queue.items == s.puts
    && multiset(s.puts) + Union(Remaining, s.producers) == Range(0, NumItems(g)) + Zeros(ZerosSent(s))
    && ZerosLast(s.puts)
  }

  lemma {:induction false} NoZeroLeft(ts: seq<Producer>)
    ensures 0 !in Union(Remaining, ts)
    decreases |ts|
  {
    if ts != [] {
      var n := |ts| - 1;
      NoZeroLeft(ts[..n]);
      RangeHasNoZero(ts[n].next, ts[n].end);
    }
  }

  lemma ZerosPut<W>(g: Config<W>, s: Pool<W>)
    requires |g.bounds| >= 1 && Flow(g, s)
    ensures multiset(s.puts)[0] == ZerosSent(s)
  {
    NoZeroLeft(s.producers);
    RangeHasNoZero(0, NumItems(g));
    assert (multiset(s.puts) + Union(Remaining, s.producers))[0] == ZerosSent(s);
  }

  /** A producer that has not been counted out has its item accepted. */
  lemma SendFrame<W>(g: Config<W>, s: Pool<W>, p: nat)
    requires |g.bounds| >= 1 && Countdown(g, s) && Closing(g, s)
    requires Enabled(g, s, Produce(p)) && s.producers[p].pc.Sending?
    ensures var t, u := s.producers[p], Next(g, s, Produce(p));
            && u.producers == s.producers[p := u.producers[p]]
            && u.producers[p].end == t.end && u.producers[p].next == t.next + 1 <= t.end
            && u.puts == s.puts + [t.next + 1] && u.takes == s.takes
            && u.queue.items == s.queue.items + [t.next + 1]
            && ZerosSent(s) == ZerosSent(u) == 0
  {
    assert ProducerOk(g, s.producers[p]);
    RunningIsCounted(g, s, p);
    RunningMeansOpen(g, s, p);
  }

  lemma FlowItem<W>(g: Config<W>, s: Pool<W>, u: Pool<W>, p: nat, x: nat)
    requires |g.bounds| >= 1 && Flow(g, s) && p < |s.producers| == |u.producers|
    requires u.producers == s.producers[p := u.producers[p]] && x > 0
    requires Remaining(s.producers[p]) == Remaining(u.producers[p]) + multiset{x}
    requires u.puts == s.puts + [x] && u.takes == s.takes && u.queue.items == s.queue.items + [x]
    requires ZerosSent(s) == ZerosSent(u) == 0
    ensures Flow(g, u)
  {
    ZerosPut(g, s);
    assert 0 !in multiset(s.puts);
    ZerosLastAppend(s.puts, x);
    UnionTake(Remaining, s.producers, p, u.producers[p], x);
    MoveAcross(multiset(s.puts), Union(Remaining, u.producers), x);
    PushBack(s.takes, s.queue.items, x);
  }

  lemma FlowSend<W>(g: Config<W>, s: Pool<W>, p: nat)
    requires |g.bounds| >= 1 && Countdown(g, s) && Closing(g, s) && Flow(g, s)
    requires Enabled(g, s, Produce(p)) && s.producers[p].pc.Sending?
    ensures Flow(g, Next(g, s, Produce(p)))
  {
    var t, u := s.producers[p], Next(g, s, Produce(p));
    SendFrame(g, s, p);
    assert Remaining(t) == Remaining(u.producers[p]) + multiset{t.next + 1};
    FlowItem(g, s, u, p, t.next + 1);
  }

  lemma FlowSame<W>(g: Config<W>, s: Pool<W>, t: Pool<W>)
    requires |g.bounds| >= 1 && Flow(g, s)
    requires t.puts == s.puts && t.takes + t.queue.items == s.takes + s.queue.items
    requires Union(Remaining, t.producers) == Union(Remaining, s.producers)
    requires ZerosSent(t) == ZerosSent(s)
    ensures Flow(g, t)
  {
  }

  lemma FlowLeave<W>(g: Config<W>, s: Pool<W>, p: nat)
    requires |g.bounds| >= 1 && Countdown(g, s) && Flow(g, s)
    requires Enabled(g, s, Produce(p)) && s.producers[p].pc.Leaving?
    ensures Flow(g, Next(g, s, Produce(p)))
  {
    var u := Next(g, s, Produce(p));
    LeaveFrame(g, s, p);
    assert ProducerOk(g, s.producers[p]);
    RunningIsCounted(g, s, p);
    UnionSame(Remaining, s.producers, p, u.producers[p]);
    assert ZerosSent(s) == 0 && ZerosSent(u) == 0;
    FlowSame(g, s, u);
  }

  lemma AddBoth(a: multiset<nat>, b: multiset<nat>, r: multiset<nat>, z: multiset<nat>, x: nat)
    requires a + b == r + z
    ensures a + multiset{x} + b == r + (z + multiset{x})
  {
    assert a + multiset{x} + b == a + b + multiset{x};
  }

  lemma OneMoreZero(n: nat)
    ensures Zeros(n + 1) == Zeros(n) + multiset{0}
  {
  }

  lemma PushBack(takes: seq<nat>, items: seq<nat>, x: nat)
    ensures takes + (items + [x]) == takes + items + [x]
  {
  }

  lemma FlowZero<W>(g: Config<W>, s: Pool<W>, t: Pool<W>)
    requires |g.bounds| >= 1 && Flow(g, s)
    requires t.puts == s.puts + [0] && t.takes == s.takes && t.queue.items == s.queue.items + [0]
    requires Union(Remaining, t.producers) == Union(Remaining, s.producers)
    requires ZerosSent(t) == ZerosSent(s) + 1
    ensures Flow(g, t)
  {
    var n := ZerosSent(s);
    OneMoreZero(n);
    ZerosLastAppend(s.puts, 0);
    AddBoth(multiset(s.puts), Union(Remaining, s.producers), Range(0, NumItems(g)), Zeros(n), 0);
    PushBack(s.takes, s.queue.items, 0);
  }

  lemma FlowEnd<W>(g: Config<W>, s: Pool<W>, p: nat)
    requires |g.bounds| >= 1 && Countdown(g, s) && Closing(g, s) && Flow(g, s)
    requires Enabled(g, s, Produce(p)) && s.producers[p].pc.Ending?
    ensures Flow(g, Next(g, s, Produce(p)))
  {
    var u := Next(g, s, Produce(p));
    assert ProducerOk(g, s.producers[p]) && s.last == C.Some(p);
    UnionSame(Remaining, s.producers, p, u.producers[p]);
    if g.design.LastSentinels? {
      FlowZero(g, s, u);
    } else {
      FlowSame(g, s, u);
    }
  }

  lemma FlowExtra<W>(g: Config<W>, s: Pool<W>)
    requires |g.bounds| >= 1 && Countdown(g, s) && Flow(g, s) && Enabled(g, s, Extra)
    ensures Flow(g, Next(g, s, Extra))
  {
    FlowSame(g, s, Next(g, s, Extra));
  }

  lemma ConsumeFrame<W>(g: Config<W>, s: Pool<W>, c: nat)
    requires Enabled(g, s, Consume(c))
    ensures var u := Next(g, s, Consume(c));
            && u.puts == s.puts && u.producers == s.producers && u.last == s.last
            && u.takes + u.queue.items == s.takes + s.queue.items
            && u.queue.shut == s.queue.shut && (s.queue.items == [] ==> u.queue.items == [])
            && |u.consumers| == |s.consumers| && u.consumers == s.consumers[c := u.consumers[c]]
  {
    if s.consumers[c].pc.Receiving? && s.queue.items != [] {
      var x, rest := s.queue.items[0], s.queue.items[1..];
      assert s.takes + ([x] + rest) == (s.takes + [x]) + rest;
    }
  }

  lemma FlowConsume<W>(g: Config<W>, s: Pool<W>, c: nat)
    requires |g.bounds| >= 1 && Flow(g, s) && Enabled(g, s, Consume(c))
    ensures Flow(g, Next(g, s, Consume(c)))
  {
    ConsumeFrame(g, s, c);
    FlowSame(g, s, Next(g, s, Consume(c)));
  }

  // ---------- consumers ----------

  ghost predicate ConsumerOk<W>(g: Config<W>, s: Pool<W>, t: Consumer<W>) {
    && t.acc == Fold(g.algebra, t.mine) && 0 !in t.mine
    && (t.pc.Receiving? ==> !t.sawZero)
    && (if g.design.LastSentinels? then !t.pc.Receiving? ==> t.sawZero
        else !t.sawZero && (!t.pc.Receiving? ==> s.queue.shut && s.queue.items == []))
  }

  ghost predicate Consumers<W>(g: Config<W>, s: Pool<W>) {
    forall c :: 0 <= c < |s.consumers| ==> ConsumerOk(g, s, s.consumers[c])
  }

  ghost function HandOf<W>(t: Consumer<W>): multiset<nat> {
    (if t.pc.Stopped? then multiset{} else multiset(t.mine)) + (if t.sawZero then multiset{0} else multiset{})
  }

  ghost function SawZero<W>(t: Consumer<W>): int {
    if t.sawZero then 1 else 0
  }

  ghost predicate Processed<W>(g: Config<W>, s: Pool<W>) {
    && multiset(s.takes) == multiset(s.published) + Union(HandOf, s.consumers)
    && s.checksum == Fold(g.algebra, s.published) && 0 !in s.published
    && multiset(s.takes)[0] == Total(SawZero, s.consumers)
  }

  /** Zeros reach only the consumers of the design that sends them. */
  lemma NoStrayZero<W>(g: Config<W>, s: Pool<W>)
    requires |g.bounds| >= 1 && Countdown(g, s) && Flow(g, s)
    ensures !g.design.LastSentinels? && s.queue.items != [] ==> s.queue.items[0] != 0
  {
    ZerosPut(g, s);
    if !g.design.LastSentinels? && s.queue.items != [] {
      assert ZerosSent(s) == 0 by {
        if s.last.Some? && s.last.value < |s.producers| {
          assert ProducerOk(g, s.producers[s.last.value]);
        }
      }
      assert s.puts[|s.takes|] == s.queue.items[0];
      assert s.puts[|s.takes|] in multiset(s.puts);
    }
  }

  lemma ConsumerTakes<W>(g: Config<W>, s: Pool<W>, c: nat)
    requires Enabled(g, s, Consume(c)) && s.consumers[c].pc.Receiving? && s.queue.items != []
    requires ConsumerOk(g, s, s.consumers[c]) && (g.design.LastSentinels? || s.queue.items[0] != 0)
    ensures ConsumerOk(g, Next(g, s, Consume(c)), Next(g, s, Consume(c)).consumers[c])
  {
    FoldAppend(g.algebra, s.consumers[c].mine, s.queue.items[0]);
  }

  lemma ConsumerStops<W>(g: Config<W>, s: Pool<W>, c: nat)
    requires |g.bounds| >= 1 && Countdown(g, s) && Closing(g, s)
    requires Enabled(g, s, Consume(c)) && (s.consumers[c].pc.Publishing? || s.queue.items == [])
    requires ConsumerOk(g, s, s.consumers[c])
    ensures ConsumerOk(g, Next(g, s, Consume(c)), Next(g, s, Consume(c)).consumers[c])
  {
  }

  lemma ConsumerStep<W>(g: Config<W>, s: Pool<W>, c: nat)
    requires |g.bounds| >= 1 && Countdown(g, s) && Closing(g, s) && Flow(g, s)
    requires Enabled(g, s, Consume(c)) && ConsumerOk(g, s, s.consumers[c])
    ensures ConsumerOk(g, Next(g, s, Consume(c)), Next(g, s, Consume(c)).consumers[c])
  {
    if s.consumers[c].pc.Publishing? || s.queue.items == [] {
      ConsumerStops(g, s, c);
    } else {
      NoStrayZero(g, s);
      ConsumerTakes(g, s, c);
    }
  }

  lemma ConsumersConsume<W>(g: Config<W>, s: Pool<W>, c: nat)
    requires |g.bounds| >= 1 && Countdown(g, s) && Closing(g, s) && Flow(g, s) && Consumers(g, s)
    requires Enabled(g, s, Consume(c))
    ensures Consumers(g, Next(g, s, Consume(c)))
  {
    var u := Next(g, s, Consume(c));
    ConsumerStep(g, s, c);
    ConsumeFrame(g, s, c);
    OthersStayOk(g, s, u, c);
  }

  lemma OthersStayOk<W>(g: Config<W>, s: Pool<W>, u: Pool<W>, c: nat)
    requires Consumers(g, s) && c < |s.consumers| == |u.consumers|
    requires u.consumers == s.consumers[c := u.consumers[c]] && ConsumerOk(g, u, u.consumers[c])
    requires u.queue.shut == s.queue.shut && (s.queue.items == [] ==> u.queue.items == [])
    ensures Consumers(g, u)
  {
    forall i | 0 <= i < |u.consumers| ensures ConsumerOk(g, u, u.consumers[i]) {
      assert ConsumerOk(g, s, s.consumers[i]);
    }
  }

  /** Once a consumer has seen the queue closed and empty, it stays so. */
  lemma ConsumersElse<W>(g: Config<W>, s: Pool<W>, step: Step)
    requires |g.bounds| >= 1 && Countdown(g, s) && Closing(g, s) && Consumers(g, s)
    requires Enabled(g, s, step) && !step.Consume?
    ensures Consumers(g, Next(g, s, step))
  {
    var u := Next(g, s, step);
    if step.Produce? {
      assert ProducerOk(g, s.producers[step.p]);
      if Running(s.producers[step.p]) == 1 {
        RunningMeansOpen(g, s, step.p);
      }
    }
    forall i | 0 <= i < |u.consumers| ensures ConsumerOk(g, u, u.consumers[i]) {
      assert ConsumerOk(g, s, s.consumers[i]);
    }
  }

  lemma HandTake<W>(t: Consumer<W>, t': Consumer<W>, x: nat)
    requires t.pc.Receiving? && !t.sawZero
    requires (t'.pc.Receiving? && !t'.sawZero && t'.mine == t.mine + [x])
          || (t'.pc.Publishing? && t'.sawZero && t'.mine == t.mine && x == 0)
    ensures HandOf(t') == HandOf(t) + multiset{x}
  {
    assert multiset(t.mine + [x]) == multiset(t.mine) + multiset{x};
  }

  lemma TakenItem<W>(g: Config<W>, s: Pool<W>, c: nat)
    requires |g.bounds| >= 1 && Countdown(g, s) && Flow(g, s)
    requires Enabled(g, s, Consume(c)) && s.consumers[c].pc.Receiving? && s.queue.items != []
    requires ConsumerOk(g, s, s.consumers[c])
    ensures var t, t' := s.consumers[c], Next(g, s, Consume(c)).consumers[c];
            && HandOf(t') == HandOf(t) + multiset{s.queue.items[0]}
            && SawZero(t') == SawZero(t) + if s.queue.items[0] == 0 then 1 else 0
  {
    NoStrayZero(g, s);
    HandTake(s.consumers[c], Next(g, s, Consume(c)).consumers[c], s.queue.items[0]);
  }

  lemma ProcessedTake<W>(g: Config<W>, s: Pool<W>, t: Pool<W>, c: nat, x: nat)
    requires Processed(g, s) && c < |s.consumers| == |t.consumers|
    requires t.consumers == s.consumers[c := t.consumers[c]] && t.takes == s.takes + [x]
    requires t.published == s.published && t.checksum == s.checksum
    requires HandOf(t.consumers[c]) == HandOf(s.consumers[c]) + multiset{x}
    requires SawZero(t.consumers[c]) == SawZero(s.consumers[c]) + if x == 0 then 1 else 0
    ensures Processed(g, t)
  {
    UnionGive(HandOf, s.consumers, c, t.consumers[c], x);
    TotalUpdate(SawZero, s.consumers, c, t.consumers[c]);
    Received(s.takes, s.published, Union(HandOf, s.consumers), Union(HandOf, t.consumers), x);
    assert multiset(t.takes) == multiset(s.takes) + multiset{x};
  }

  lemma ProcessedPublish<W(!new)>(g: Config<W>, s: Pool<W>, c: nat)
    requires Processed(g, s) && Enabled(g, s, Consume(c)) && s.consumers[c].pc.Publishing?
    requires ConsumerOk(g, s, s.consumers[c]) && Commutative(g.algebra)
    ensures Processed(g, Next(g, s, Consume(c)))
  {
    var t, t' := s.consumers[c], Next(g, s, Consume(c)).consumers[c];
    UnionLess(HandOf, s.consumers, c, t', multiset(t.mine));
    TotalUpdate(SawZero, s.consumers, c, t');
    FoldConcat(g.algebra, s.published, t.mine);
    Publish(multiset(s.takes), s.published, Union(HandOf, s.consumers), Union(HandOf, s.consumers[c := t']),
            t.mine);
  }

  lemma ProcessedClosed<W>(g: Config<W>, s: Pool<W>, c: nat)
    requires Processed(g, s) && Enabled(g, s, Consume(c))
    requires s.consumers[c].pc.Receiving? && s.queue.items == []
    ensures Processed(g, Next(g, s, Consume(c)))
  {
    var t' := Next(g, s, Consume(c)).consumers[c];
    UnionSame(HandOf, s.consumers, c, t');
    TotalUpdate(SawZero, s.consumers, c, t');
  }
}
