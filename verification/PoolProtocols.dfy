/** The worker pool over a library queue, with the four ways in which the runtimes end it.

- `LastCloses`: the producer that finishes last closes the queue.
- `LastSentinels`: the producer that finishes last sends one zero per consumer.
- `WaitThenCloses`: a separate task waits for all producers and closes.
- `DropsLast`: the queue closes when the last sender handle, main's own included, is dropped.

The library queue is used by contract only: the closable bounded queue `Channel.Fifo`. Every run of the
futex channel is proved to be one of it (`FutexRefinement`). */
module PoolProtocols {
  import opened Folds
  import opened Checksum
  import opened Workload
  import C = Channel

  datatype Design = LastCloses | LastSentinels | WaitThenCloses | DropsLast

  datatype ProducerPc =
    | Sending    // about to send the next item
    | Leaving    // about to decrement the number of running producers
    | Ending     // saw the count reach zero: about to close, or to send the next zero
    | Exited
    | GaveUp     // a send was refused

  /** A producer of the items after `next` up to `end`; `zeros` counts the zeros it has sent. */
  datatype Producer = Producer(pc: ProducerPc, next: nat, end: nat, zeros: nat)

  datatype ConsumerPc = Receiving | Publishing | Stopped

  /** A consumer; `mine` lists the items in its result, `sawZero` tells whether a zero stopped it. */
  datatype Consumer<W> = Consumer(pc: ConsumerPc, acc: W, mine: seq<nat>, sawZero: bool)

  /** `remaining` is the shared counter, `last` who saw it reach zero (number `|producers|` being the
  extra task), `puts` and `takes` the queue's history, `published` the items in the checksum. */
  datatype Pool<W> = Pool(
    queue: C.Fifo<nat>,
    remaining: nat,
    last: C.Option<nat>,
    producers: seq<Producer>,
    extraDone: bool,
    consumers: seq<Consumer<W>>,
    checksum: W,
    puts: seq<nat>,
    takes: seq<nat>,
    published: seq<nat>)

  datatype Config<!W> = Config(design: Design, bound: nat, bounds: seq<nat>, consumers: nat,
                               algebra: Algebra<W>)

  ghost predicate ValidConfig<W(!new)>(g: Config<W>) {
    && g.bound > 0 && |g.bounds| >= 2 && g.bounds[0] == 0 && g.consumers > 0
    && Ascending(g.bounds)
    && Commutative(g.algebra)
  }

  ghost function NumProducers<W>(g: Config<W>): nat
    requires |g.bounds| >= 1
  {
    |g.bounds| - 1
  }

  ghost function NumItems<W>(g: Config<W>): nat
    requires |g.bounds| >= 1
  {
    g.bounds[|g.bounds| - 1]
  }

  /** Only two of the designs have a task besides producers and consumers. */
  ghost predicate HasExtra<W>(g: Config<W>) {
    g.design.WaitThenCloses? || g.design.DropsLast?
  }

  ghost function NewProducer(start: nat, end: nat): Producer {
    Producer(if start < end then Sending else Leaving, start, end, 0)
  }

  ghost function NewProducers(bounds: seq<nat>): seq<Producer>
    requires |bounds| >= 1
  {
    seq(|bounds| - 1, p requires 0 <= p < |bounds| - 1 => NewProducer(bounds[p], bounds[p + 1]))
  }

  ghost function Init<W>(g: Config<W>): Pool<W>
    requires |g.bounds| >= 1
  {
    Pool(C.Fifo(g.bound, [], false),
         NumProducers(g) + (if g.design.DropsLast? then 1 else 0),
         C.None,
         NewProducers(g.bounds),
         !HasExtra(g),
         seq(g.consumers, _ => Consumer(Receiving, g.algebra.zero, [], false)),
         g.algebra.zero, [], [], [])
  }

  // ---------- steps ----------

  datatype Step = Produce(p: nat) | Extra | Consume(c: nat)

  /** A send completes at once if it is refused, and otherwise when there is room. */
  ghost predicate CanSend(q: C.Fifo<nat>, x: nat) {
    q.shut || C.CanHappen(q, C.Put(x))
  }

  ghost predicate Enabled<W>(g: Config<W>, s: Pool<W>, step: Step) {
    match step
    case Produce(p) =>
      && p < |s.producers|
      && (match s.producers[p].pc
          case Sending => CanSend(s.queue, s.producers[p].next + 1)
          case Leaving => s.remaining > 0
          case Ending => g.design.LastSentinels? ==> CanSend(s.queue, 0)
          case _ => false)
    case Extra => !s.extraDone && (if g.design.WaitThenCloses? then s.remaining == 0 else s.remaining > 0)
    case Consume(c) =>
      && c < |s.consumers|
      && (match s.consumers[c].pc
          case Receiving => s.queue.items != [] || s.queue.shut
          case Publishing => true
          case Stopped => false)
  }

  ghost function SetProducer<W>(s: Pool<W>, p: nat, t: Producer): Pool<W>
    requires p < |s.producers|
  {
    s.(producers := s.producers[p := t])
  }

  ghost function SetConsumer<W>(s: Pool<W>, c: nat, t: Consumer<W>): Pool<W>
    requires c < |s.consumers|
  {
    s.(consumers := s.consumers[c := t])
  }

  ghost function Shutdown<W>(s: Pool<W>): Pool<W> {
    s.(queue := C.Apply(s.queue, C.Shut))
  }

  ghost function Put<W>(s: Pool<W>, x: nat): Pool<W>
    requires C.CanHappen(s.queue, C.Put(x))
  {
    s.(queue := C.Apply(s.queue, C.Put(x)), puts := s.puts + [x])
  }

  /** Decrements the counter; whoever takes it from one to zero is remembered. */
  ghost function Decrement<W>(s: Pool<W>, who: nat): Pool<W>
    requires s.remaining > 0
  {
    s.(remaining := s.remaining - 1, last := if s.remaining == 1 then C.Some(who) else s.last)
  }

  ghost function LeaveStep<W>(g: Config<W>, s: Pool<W>, p: nat): Pool<W>
    requires p < |s.producers| && s.remaining > 0
  {
    var t := s.producers[p];
    var final := s.remaining == 1;
    var d := Decrement(s, p);
    match g.design
    case LastCloses => SetProducer(d, p, t.(pc := if final then Ending else Exited))
    case LastSentinels => SetProducer(d, p, t.(pc := if final then Ending else Exited))
    case WaitThenCloses => SetProducer(d, p, t.(pc := Exited))
    case DropsLast => SetProducer(if final then Shutdown(d) else d, p, t.(pc := Exited))
  }

  ghost function EndStep<W>(g: Config<W>, s: Pool<W>, p: nat): Pool<W>
    requires Enabled(g, s, Produce(p)) && s.producers[p].pc.Ending?
  {
    var t := s.producers[p];
    if !g.design.LastSentinels? then SetProducer(Shutdown(s), p, t.(pc := Exited))
    else if s.queue.shut then SetProducer(s, p, t.(pc := GaveUp))
    else
      SetProducer(Put(s, 0), p,
                  t.(zeros := t.zeros + 1, pc := if t.zeros + 1 < g.consumers then Ending else Exited))
  }

  ghost function SendStep<W>(g: Config<W>, s: Pool<W>, p: nat): Pool<W>
    requires Enabled(g, s, Produce(p)) && s.producers[p].pc.Sending?
  {
    var t := s.producers[p];
    if s.queue.shut then SetProducer(s, p, t.(pc := GaveUp))
    else
      SetProducer(Put(s, t.next + 1), p,
                  t.(next := t.next + 1, pc := if t.next + 1 < t.end then Sending else Leaving))
  }

  ghost function ConsumeStep<W>(g: Config<W>, s: Pool<W>, c: nat): Pool<W>
    requires Enabled(g, s, Consume(c))
  {
    var t := s.consumers[c];
    if t.pc.Publishing? then
      SetConsumer(s.(checksum := g.algebra.mix(s.checksum, t.acc), published := s.published + t.mine),
                  c, t.(pc := Stopped))
    else if s.queue.items == [] then SetConsumer(s, c, t.(pc := Publishing))
    else
      var x := s.queue.items[0];
      var d := s.(queue := C.Apply(s.queue, C.Take(x)), takes := s.takes + [x]);
      if g.design.LastSentinels? && x == 0 then SetConsumer(d, c, t.(pc := Publishing, sawZero := true))
      else SetConsumer(d, c, t.(acc := g.algebra.mix(t.acc, g.algebra.work(x)), mine := t.mine + [x]))
  }

  ghost function Next<W>(g: Config<W>, s: Pool<W>, step: Step): Pool<W>
    requires Enabled(g, s, step)
  {
    match step
    case Produce(p) =>
      (match s.producers[p].pc
       case Sending => SendStep(g, s, p)
       case Leaving => LeaveStep(g, s, p)
       case Ending => EndStep(g, s, p)
       case _ => s)
    case Extra =>
      if g.design.WaitThenCloses? then Shutdown(s).(extraDone := true)
      else
        var d := Decrement(s, |s.producers|).(extraDone := true);
        if s.remaining == 1 then Shutdown(d) else d
    case Consume(c) => ConsumeStep(g, s, c)
  }

  ghost predicate IsRun<W>(g: Config<W>, s: Pool<W>, steps: seq<Step>)
    decreases |steps|
  {
    steps == [] || (Enabled(g, s, steps[0]) && IsRun(g, Next(g, s, steps[0]), steps[1..]))
  }

  ghost function After<W>(g: Config<W>, s: Pool<W>, steps: seq<Step>): Pool<W>
    requires IsRun(g, s, steps)
    decreases |steps|
  {
    if steps == [] then s else After(g, Next(g, s, steps[0]), steps[1..])
  }
}
