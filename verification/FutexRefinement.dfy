/** The channel, under every interleaving of its operations, is the plain closable bounded queue that
the worker pools and the ping-pong game are stated over. */
module FutexRefinement {
  import opened Channel
  import opened FutexMachine
  import opened FutexInvariant
  import opened FutexHistory
  import opened FutexSafety

  // ---------- steps as events of the queue ----------

  /** What a step of the machine is to the queue: only an operation that holds the mutex and looks at
  the channel does anything. Cancellations, wake-ups and the loops of close are not visible. */
  ghost function StepEvents<V>(s: State<V>, step: Step<V>): seq<Event<Msg<V>>>
    requires Enabled(s, step)
  {
    if !step.Act? || !s.ops[step.id].pc.Inside? then []
    else
      match s.ops[step.id].kind
      case Sender(value) => SendEvents(s.chan, Msg(step.id, value))
      case Receiver => ReceiveEvents(s.chan)
      case Closer => if s.chan.closed then [] else [Shut]
  }

  ghost predicate Refines<V>(s: State<V>, es: seq<Event<Msg<V>>>, t: State<V>) {
    && Accepts(Queue(s.chan), es, Queue(t.chan))
    && Delivered(t.deliveries) == Delivered(s.deliveries) + ItemsTaken(es)
  }

  lemma TakenByTwo<T>(a: Event<T>, b: Event<T>)
    ensures ItemsTaken([a, b]) == TakeOf(a) + TakeOf(b)
  {
    assert [a, b][1..] == [b];
    assert ItemsTaken([b]) == TakeOf(b);
  }

  lemma SendTakes<W, T>(c: Chan<W, T>, item: T)
    ensures ItemsTaken(SendEvents(c, item)) == if Send(c, item).1.Handed? then [item] else []
  {
    TakenByTwo(Put(item), Take(item));
  }

  lemma ReceiveTakes<W, T>(c: Chan<W, T>)
    ensures ItemsTaken(ReceiveEvents(c)) == if Receive(c).1.Got? then [Receive(c).1.item] else []
  {
    var es := ReceiveEvents(c);
    if |es| == 2 {
      TakenByTwo(es[0], es[1]);
      assert es == [es[0], es[1]];
    }
  }

  lemma SendRefines<V>(s: State<V>, id: Id)
    requires Core(s) && Enabled(s, Act(id)) && s.ops[id].pc.Inside? && s.ops[id].kind.Sender?
    ensures Refines(s, StepEvents(s, Act(id)), Next(s, Act(id)))
  {
    var msg := Msg(id, s.ops[id].kind.value);
    SendRefinesQueue(s.chan, msg);
    SendTakes(s.chan, msg);
    var r := Send(s.chan, msg).1;
    if r.Handed? {
      DeliveredAppend(s.deliveries, Delivery(msg, r.to));
    }
  }

  lemma ReceiveRefines<V>(s: State<V>, id: Id)
    requires Core(s) && Enabled(s, Act(id)) && s.ops[id].pc.Inside? && s.ops[id].kind.Receiver?
    ensures Refines(s, StepEvents(s, Act(id)), Next(s, Act(id)))
  {
    ReceiveRefinesQueue(s.chan);
    ReceiveTakes(s.chan);
    var r := Receive(s.chan).1;
    if r.Got? {
      DeliveredAppend(s.deliveries, Delivery(r.item, id));
    }
  }

  lemma CloseRefines<V>(s: State<V>, id: Id)
    requires Core(s) && Enabled(s, Act(id)) && s.ops[id].pc.Inside? && s.ops[id].kind.Closer?
    ensures Refines(s, StepEvents(s, Act(id)), Next(s, Act(id)))
  {
    var es := StepEvents(s, Act(id));
    assert es != [] ==> es[1..] == [];
  }

  lemma InvisibleRefines<V>(s: State<V>, step: Step<V>)
    requires Core(s) && Enabled(s, step) && (step.Act? ==> !s.ops[step.id].pc.Inside?)
    ensures Refines(s, StepEvents(s, step), Next(s, step))
  {
    assert Queue(Next(s, step).chan) == Queue(s.chan) && Next(s, step).deliveries == s.deliveries;
  }

  lemma StepRefines<V>(s: State<V>, step: Step<V>)
    requires Core(s) && Enabled(s, step)
    ensures Refines(s, StepEvents(s, step), Next(s, step))
  {
    if step.Act? && s.ops[step.id].pc.Inside? {
      match s.ops[step.id].kind
      case Sender(_) => SendRefines(s, step.id);
      case Receiver => ReceiveRefines(s, step.id);
      case Closer => CloseRefines(s, step.id);
    } else {
      InvisibleRefines(s, step);
    }
  }

  /** An operation is refused, or has to wait, exactly when the queue would refuse it or make it wait.
  (Without a buffer a caller waits for its counterpart: `Rendezvous`.) */
  lemma RefusesLikeTheQueue<V>(s: State<V>, id: Id)
    requires Core(s) && Enabled(s, Act(id)) && s.ops[id].pc.Inside?
    ensures var q, pc := Queue(s.chan), Next(s, Act(id)).ops[id].pc;
            && (s.ops[id].kind.Sender? ==>
                  && (pc == Leaving(Closed) <==> q.shut)
                  && (s.chan.capacity > 0 ==>
                        (pc == Parking <==> !q.shut && !CanHappen(q, Put(Msg(id, s.ops[id].kind.value))))))
            && (s.ops[id].kind.Receiver? ==>
                  && (pc == Leaving(Closed) <==> q.shut && q.items == [])
                  && (s.chan.capacity > 0 ==> (pc == Parking <==> !q.shut && q.items == [])))
  {
    if s.ops[id].kind.Sender? {
      WaitsOnlyWhenItMust(s.chan, Msg(id, s.ops[id].kind.value));
    }
  }

  // ---------- runs as runs of the queue ----------

  lemma RefinesOn<V>(s: State<V>, es: seq<Event<Msg<V>>>, t: State<V>, fs: seq<Event<Msg<V>>>, u: State<V>)
    requires Refines(s, es, t) && Refines(t, fs, u)
    ensures Refines(s, es + fs, u)
  {
    AcceptsConcat(Queue(s.chan), es, Queue(t.chan), fs, Queue(u.chan));
    TakesConcat(es, fs);
    Regroup(Delivered(s.deliveries), ItemsTaken(es), ItemsTaken(fs));
  }

  lemma {:induction false} RunRefines<V>(s: State<V>, steps: seq<Step<V>>) returns (es: seq<Event<Msg<V>>>)
    requires Inv(s) && IsRun(s, steps)
    ensures Refines(s, es, After(s, steps))
    decreases |steps|
  {
    if steps == [] {
      es := [];
    } else {
      var t := Next(s, steps[0]);
      StepRefines(s, steps[0]);
      InvNext(s, steps[0]);
      var fs := RunRefines(t, steps[1..]);
      es := StepEvents(s, steps[0]) + fs;
      RefinesOn(s, StepEvents(s, steps[0]), t, fs, After(s, steps));
    }
  }

  /** What has been accepted grows by what is put into the queue. */
  lemma AcceptedGrows<V>(s: State<V>, es: seq<Event<Msg<V>>>, t: State<V>)
    requires Refines(s, es, t)
    ensures Accepted(t) == Accepted(s) + ItemsPut(es)
  {
    FifoConserves(Queue(s.chan), es, Queue(t.chan));
    Regroup(Delivered(s.deliveries), ItemsTaken(es), t.chan.ring);
    Regroup(Delivered(s.deliveries), s.chan.ring, ItemsPut(es));
  }

  lemma NoneBefore<T>(a: seq<T>, b: seq<T>, c: seq<T>)
    requires a == [] && c == a + b
    ensures c == b
  {
  }

  lemma FromTheStart<V>(capacity: nat, es: seq<Event<Msg<V>>>, t: State<V>)
    requires Refines(Init(capacity), es, t)
    ensures ItemsTaken(es) == Delivered(t.deliveries) && ItemsPut(es) == Accepted(t)
  {
    AcceptedGrows(Init(capacity), es, t);
    NoneBefore(Delivered<V>([]), ItemsTaken(es), Delivered(t.deliveries));
    NoneBefore(Accepted<V>(Init(capacity)), ItemsPut(es), Accepted(t));
  }

  /** Every run of the channel, with any number of operations, cancellations and closes, is a run of the
  plain queue: receivers are given what is taken from it, in its order, and the items that are ever
  accepted are those that are put into it. */
  lemma EveryRunRefinesQueue<V>(capacity: nat, steps: seq<Step<V>>) returns (es: seq<Event<Msg<V>>>)
    requires IsRun(Init(capacity), steps)
    ensures var s := After(Init(capacity), steps);
            && Accepts(Fifo(if capacity == 0 then 1 else capacity, [], false), es, Queue(s.chan))
            && ItemsTaken(es) == Delivered(s.deliveries)
            && ItemsPut(es) == Accepted(s)
  {
    InvInit<V>(capacity);
    es := RunRefines(Init(capacity), steps);
    FromTheStart(capacity, es, After(Init(capacity), steps));
  }

  /** What has once been accepted stays accepted, in its place, so the order of items never changes. */
  lemma AcceptedForGood<V>(capacity: nat, before: seq<Step<V>>, after: seq<Step<V>>)
    requires IsRun(Init(capacity), before) && IsRun(After(Init(capacity), before), after)
    ensures var s := After(Init(capacity), before);
            Accepted(s) <= Accepted(After(s, after)) && s.deliveries <= After(s, after).deliveries
  {
    var s := After(Init(capacity), before);
    EveryRun(capacity, before);
    var es := RunRefines(s, after);
    AcceptedGrows(s, es, After(s, after));
    DeliveriesGrow(s, after);
  }

  lemma DeliveriesGrowStep<V>(s: State<V>, step: Step<V>)
    requires Enabled(s, step)
    ensures s.deliveries <= Next(s, step).deliveries
  {
  }

  lemma {:induction false} DeliveriesGrow<V>(s: State<V>, steps: seq<Step<V>>)
    requires IsRun(s, steps)
    ensures s.deliveries <= After(s, steps).deliveries
    decreases |steps|
  {
    if steps != [] {
      DeliveriesGrowStep(s, steps[0]);
      DeliveriesGrow(Next(s, steps[0]), steps[1..]);
    }
  }
}
