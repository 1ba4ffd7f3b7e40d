/** The worker pool on coroutines: a ring of 256 slots guarded by one mutex and two counting
semaphores, producers that push numbered items, a main thread that pushes one zero per consumer once
every producer is done, and consumers that stop at a zero.

Each step of the machine is one operation on shared memory or on a semaphore, and threads interleave
in any way. Adding a consumer's result to the checksum is one step, because the benchmark runs all
threads on one virtual CPU and does not yield there. */
module PhotonPool {
  import opened Folds
  import opened Checksum
  import opened Workload

  const CAP: nat := 256

  // ---------- state ----------

  datatype PushPc =
    | PushGate     // main only: waiting for the producers
    | PushSpace    // about to take a unit of `space`
    | PushLock     // about to take the mutex
    | PushWrite    // has the mutex, about to write a slot
    | PushUnlock   // has the mutex, about to release it
    | PushSignal   // about to add a unit to `items`
    | PushReport   // producer: about to signal; main: waiting for the consumers
    | PushDone

  /** A thread that pushes the values number `next` to `end - 1` of its range. */
  datatype Pusher = Pusher(pc: PushPc, next: nat, end: nat, isMain: bool)

  datatype PopPc =
    | PopItems     // about to take a unit of `items`
    | PopLock
    | PopRead      // has the mutex, about to read a slot
    | PopUnlock
    | PopSignal    // about to add a unit to `space`
    | PopTest      // about to compare the value with zero
    | PopPublish   // about to add its result to the checksum
    | PopReport    // about to signal main
    | PopDone

  /** A consumer; `mine` lists the items in its result so far. */
  datatype Popper<W> = Popper(pc: PopPc, item: nat, acc: W, mine: seq<nat>)

  datatype Owner = Nobody | PusherHas(p: nat) | PopperHas(c: nat)

  /** `pushed` and `popped` record the values in the order of `tail` and of `head`, `published` the
  items whose results are in the checksum. */
  datatype Pool<W> = Pool(
    buf: seq<nat>,
    head: nat,
    tail: nat,
    mutex: Owner,
    space: nat,
    items: nat,
    producersDone: nat,
    consumersDone: nat,
    checksum: W,
    pushers: seq<Pusher>,
    poppers: seq<Popper<W>>,
    pushed: seq<nat>,
    popped: seq<nat>,
    published: seq<nat>)

  /** Any number of items, split among producers at `bounds`, and any number of consumers. */
  datatype Config<!W> = Config(bounds: seq<nat>, consumers: nat, algebra: Algebra<W>)

  ghost predicate ValidConfig<W(!new)>(g: Config<W>) {
    && |g.bounds| >= 2 && g.bounds[0] == 0 && g.consumers > 0
    && Ascending(g.bounds)
    && Commutative(g.algebra)
  }

  ghost function Producers<W>(g: Config<W>): nat
    requires |g.bounds| >= 1
  {
    |g.bounds| - 1
  }

  ghost function NumItems<W>(g: Config<W>): nat
    requires |g.bounds| >= 1
  {
    g.bounds[|g.bounds| - 1]
  }

  ghost function Producer(start: nat, end: nat): Pusher {
    Pusher(if start < end then PushSpace else PushReport, start, end, false)
  }

  ghost function NewProducers(bounds: seq<nat>): seq<Pusher>
    requires |bounds| >= 1
  {
    seq(|bounds| - 1, p requires 0 <= p < |bounds| - 1 => Producer(bounds[p], bounds[p + 1]))
  }

  ghost function Init<W>(g: Config<W>): Pool<W>
    requires |g.bounds| >= 1
  {
    Pool(seq(CAP, _ => 0), 0, 0, Nobody, CAP, 0, 0, 0, g.algebra.zero,
         NewProducers(g.bounds) + [Pusher(PushGate, 0, g.consumers, true)],
         seq(g.consumers, _ => Popper(PopItems, 0, g.algebra.zero, [])),
         [], [], [])
  }

  // ---------- steps ----------

  datatype Step = Push(p: nat) | Pop(c: nat)

  ghost predicate Enabled<W>(g: Config<W>, s: Pool<W>, step: Step)
    requires |g.bounds| >= 1
  {
    |s.buf| == CAP &&
    match step
    case Push(p) =>
      && p < |s.pushers|
      && (match s.pushers[p].pc
          case PushGate => s.producersDone >= Producers(g)
          case PushSpace => s.space > 0
          case PushLock => s.mutex == Nobody
          case PushReport => s.pushers[p].isMain ==> s.consumersDone >= g.consumers
          case PushDone => false
          case _ => true)
    case Pop(c) =>
      && c < |s.poppers|
      && (match s.poppers[c].pc
          case PopItems => s.items > 0
          case PopLock => s.mutex == Nobody
          case PopDone => false
          case _ => true)
  }

  /** The value a pusher pushes next: items are numbered from one, and zero tells a consumer to stop. */
  ghost function Value(t: Pusher): nat {
    if t.isMain then 0 else t.next + 1
  }

  ghost function PushStep<W>(g: Config<W>, s: Pool<W>, p: nat): Pool<W>
    requires |g.bounds| >= 1 && Enabled(g, s, Push(p))
  {
    var t := s.pushers[p];
    match t.pc
    case PushGate =>
      Set(s.(producersDone := s.producersDone - Producers(g)), p,
          t.(pc := if t.next < t.end then PushSpace else PushReport))
    case PushSpace => Set(s.(space := s.space - 1), p, t.(pc := PushLock))
    case PushLock => Set(s.(mutex := PusherHas(p)), p, t.(pc := PushWrite))
    case PushWrite =>
      Set(s.(buf := s.buf[s.tail % CAP := Value(t)], tail := (s.tail + 1) % WORD,
             pushed := s.pushed + [Value(t)]),
          p, t.(pc := PushUnlock, next := t.next + 1))
    case PushUnlock => Set(s.(mutex := Nobody), p, t.(pc := PushSignal))
    case PushSignal =>
      Set(s.(items := s.items + 1), p, t.(pc := if t.next < t.end then PushSpace else PushReport))
    case PushReport =>
      if t.isMain then Set(s.(consumersDone := s.consumersDone - g.consumers), p, t.(pc := PushDone))
      else Set(s.(producersDone := s.producersDone + 1), p, t.(pc := PushDone))
    case PushDone => s
  }

  ghost function Set<W>(s: Pool<W>, p: nat, t: Pusher): Pool<W>
    requires p < |s.pushers|
  {
    s.(pushers := s.pushers[p := t])
  }

  ghost function PopStep<W>(g: Config<W>, s: Pool<W>, c: nat): Pool<W>
    requires |g.bounds| >= 1 && Enabled(g, s, Pop(c))
  {
    var t := s.poppers[c];
    match t.pc
    case PopItems => SetPopper(s.(items := s.items - 1), c, t.(pc := PopLock))
    case PopLock => SetPopper(s.(mutex := PopperHas(c)), c, t.(pc := PopRead))
    case PopRead =>
      var v := s.buf[s.head % CAP];
      SetPopper(s.(head := (s.head + 1) % WORD, popped := s.popped + [v]), c,
                t.(pc := PopUnlock, item := v))
    case PopUnlock => SetPopper(s.(mutex := Nobody), c, t.(pc := PopSignal))
    case PopSignal => SetPopper(s.(space := s.space + 1), c, t.(pc := PopTest))
    case PopTest =>
      if t.item == 0 then SetPopper(s, c, t.(pc := PopPublish))
      else
        SetPopper(s, c, t.(pc := PopItems, acc := g.algebra.mix(t.acc, g.algebra.work(t.item)),
                           mine := t.mine + [t.item]))
    case PopPublish =>
      SetPopper(s.(checksum := g.algebra.mix(s.checksum, t.acc), published := s.published + t.mine), c,
                t.(pc := PopReport))
    case PopReport => SetPopper(s.(consumersDone := s.consumersDone + 1), c, t.(pc := PopDone))
    case PopDone => s
  }

  ghost function SetPopper<W>(s: Pool<W>, c: nat, t: Popper<W>): Pool<W>
    requires c < |s.poppers|
  {
    s.(poppers := s.poppers[c := t])
  }

  ghost function Next<W>(g: Config<W>, s: Pool<W>, step: Step): Pool<W>
    requires |g.bounds| >= 1 && Enabled(g, s, step)
  {
    match step
    case Push(p) => PushStep(g, s, p)
    case Pop(c) => PopStep(g, s, c)
  }

  ghost predicate IsRun<W>(g: Config<W>, s: Pool<W>, steps: seq<Step>)
    requires |g.bounds| >= 1
    decreases |steps|
  {
    steps == [] || (Enabled(g, s, steps[0]) && IsRun(g, Next(g, s, steps[0]), steps[1..]))
  }

  ghost function After<W>(g: Config<W>, s: Pool<W>, steps: seq<Step>): Pool<W>
    requires |g.bounds| >= 1 && IsRun(g, s, steps)
    decreases |steps|
  {
    if steps == [] then s else After(g, Next(g, s, steps[0]), steps[1..])
  }
}
