/** Nothing gets stuck that should not: every run finishes, and when it has, whoever is still blocked
is blocked for a reason. */
module FutexProgress {
  import opened Channel
  import opened Folds
  import opened FutexMachine
  import opened FutexInvariant
  import opened FutexHistory
  import opened FutexSafety
  import opened FutexOrder

  // ---------- where runs can end ----------

  /** Nobody can take a step without being canceled or waking for no reason. */
  ghost predicate Quiescent<V>(s: State<V>) {
    forall id: Id :: !Enabled(s, Act(id))
  }

  lemma HolderCanAct<V>(s: State<V>)
    requires Core(s)
    ensures s.mutex.Some? ==> !Quiescent(s)
  {
    if s.mutex.Some? {
      var h := s.mutex.value;
      assert Holds(s.ops[h].pc);
      assert Enabled(s, Act(h));
    }
  }

  /** In a quiescent state the mutex is free and everybody has returned, except receivers blocked on
  an empty open channel or senders blocked on a full open one: never both, and nobody if it is
  closed. In particular no waiter that a peer has claimed is left behind. */
  lemma QuiescentMeansDone<V>(s: State<V>)
    requires Inv(s) && Quiescent(s)
    ensures s.mutex == None
    ensures forall i {:trigger s.ops[i]} :: 0 <= i < |s.ops| ==>
              s.ops[i].pc.Returned? || (s.ops[i].pc == Asleep && s.ops[i].queued && Linked(s, i))
    ensures Settled(s.chan)
  {
    HolderCanAct(s);
    forall i | 0 <= i < |s.ops|
      ensures s.ops[i].pc.Returned? || (s.ops[i].pc == Asleep && s.ops[i].queued && Linked(s, i))
    {
      assert WaiterOk(s, i);
      assert !Enabled(s, Act(i));
    }
  }

  // ---------- every run ends ----------

  /** The most steps an operation can still take by itself, plus three for whoever has to claim, set
  and wake it while it is linked. */
  ghost function Rank<V>(op: Op<V>): int {
    (if op.queued then 3 else 0) +
    match op.pc
    case Entering => 13
    case Inside => 12
    case Closing => 2
    case Storing(_) => 4
    case Waking(_) => 3
    case Leaving(_) => 1
    case Parking => 8
    case Loading => if op.word then 4 else 7
    case Waiting => if op.word then 5 else 6
    case Asleep => 5
    case Canceling => 4
    case Deciding => 3
    case Rejoining => 3
    case Rejoined => 2
    case Reading => 1
    case Returned(_) => 0
  }

  ghost function Measure<V>(s: State<V>): int {
    Total(Rank, s.ops)
  }

  lemma OneChange<V>(ops: seq<Op<V>>, i: Id, op: Op<V>)
    requires i < |ops|
    ensures Total(Rank, ops[i := op]) == Total(Rank, ops) - Rank(ops[i]) + Rank(op)
  {
    TotalUpdate(Rank, ops, i, op);
  }

  lemma TwoChanges<V>(ops: seq<Op<V>>, i: Id, a: Op<V>, j: Id, b: Op<V>)
    requires i < |ops| && j < |ops| && i != j
    ensures Total(Rank, ops[i := a][j := b])
         == Total(Rank, ops) - Rank(ops[i]) + Rank(a) - Rank(ops[j]) + Rank(b)
  {
    OneChange(ops, i, a);
    OneChange(ops[i := a], j, b);
  }

  lemma ClaimDecreases<V>(s: State<V>, t: State<V>, id: Id, w: Id)
    requires ClaimStep(s, t, id, w)
    ensures Measure(t) < Measure(s)
  {
    assert t.ops == s.ops[w := t.ops[w]][id := t.ops[id]];
    TwoChanges(s.ops, w, t.ops[w], id, t.ops[id]);
  }

  lemma MoveDecreases<V>(s: State<V>, t: State<V>, id: Id)
    requires id < |s.ops| == |t.ops| && t.ops == s.ops[id := t.ops[id]]
    requires Rank(t.ops[id]) < Rank(s.ops[id])
    ensures Measure(t) < Measure(s)
  {
    OneChange(s.ops, id, t.ops[id]);
  }

  lemma InsideDecreases<V>(s: State<V>, id: Id)
    requires Core(s) && Enabled(s, Act(id)) && s.ops[id].pc.Inside?
    ensures Measure(Next(s, Act(id))) < Measure(s)
  {
    var t := Next(s, Act(id));
    assert WaiterOk(s, id);
    if s.ops[id].kind.Sender? && !s.chan.closed && s.chan.receivers != [] {
      SendIsHandOff(s, id);
      ClaimDecreases(s, t, id, s.chan.receivers[0]);
    } else if s.ops[id].kind.Receiver? && s.chan.senders != [] {
      ReceiveClaims(s, id);
      ClaimDecreases(s, t, id, s.chan.senders[0].who);
    } else {
      MoveDecreases(s, t, id);
    }
  }

  lemma ClosingDecreases<V>(s: State<V>, id: Id)
    requires Core(s) && Enabled(s, Act(id)) && s.ops[id].pc.Closing?
    ensures Measure(Next(s, Act(id))) < Measure(s)
  {
    var t := Next(s, Act(id));
    assert WaiterOk(s, id) && ClaimOk(s, id);
    if s.chan.receivers != [] {
      assert ReceiverLinked(s, s.chan.receivers[0]);
      ClaimDecreases(s, t, id, s.chan.receivers[0]);
    } else if s.chan.senders != [] {
      assert SenderLinked(s, s.chan.senders[0]);
      ClaimDecreases(s, t, id, s.chan.senders[0].who);
    } else {
      MoveDecreases(s, t, id);
    }
  }

  lemma StoringDecreases<V>(s: State<V>, id: Id)
    requires Core(s) && Enabled(s, Act(id)) && (s.ops[id].pc.Storing? || s.ops[id].pc.Waking?)
    ensures Measure(Next(s, Act(id))) < Measure(s)
  {
    var t := Next(s, Act(id));
    assert ClaimOk(s, id);
    var w := s.ops[id].pc.target;
    assert t.ops == s.ops[w := t.ops[w]][id := t.ops[id]];
    assert Rank(t.ops[w]) <= Rank(s.ops[w]) && Rank(t.ops[id]) < Rank(s.ops[id]);
    TwoChanges(s.ops, w, t.ops[w], id, t.ops[id]);
  }

  lemma DecidingDecreases<V>(s: State<V>, id: Id)
    requires Core(s) && Enabled(s, Act(id)) && s.ops[id].pc.Deciding?
    ensures Measure(Next(s, Act(id))) < Measure(s)
  {
    MoveDecreases(s, Next(s, Act(id)), id);
  }

  lemma PlainDecreases<V>(s: State<V>, t: State<V>, id: Id, pc: Pc)
    requires Moved(s, t, id, pc)
    requires Takes(s.ops[id].pc, pc) || Frees(s.ops[id].pc, pc)
          || (Outside(s.ops[id], pc) && !(s.ops[id].pc == Asleep && pc == Loading))
    ensures Measure(t) < Measure(s)
  {
    MoveDecreases(s, t, id);
  }

  /** Every step of every operation, and every cancellation, brings the end nearer. */
  lemma ActDecreases<V>(s: State<V>, id: Id)
    requires Inv(s) && Enabled(s, Act(id))
    ensures Measure(Next(s, Act(id))) < Measure(s)
  {
    match s.ops[id].pc
    case Inside => InsideDecreases(s, id);
    case Closing => ClosingDecreases(s, id);
    case Storing(_) => StoringDecreases(s, id);
    case Waking(_) => StoringDecreases(s, id);
    case Deciding => DecidingDecreases(s, id);
    case Asleep =>
    case Returned(_) =>
    case _ => PlainDecreases(s, Next(s, Act(id)), id, Next(s, Act(id)).ops[id].pc);
  }

  lemma StartMeasure<V>(s: State<V>, kind: Kind<V>)
    requires Enabled(s, Start(kind))
    ensures Measure(Next(s, Start(kind))) == Measure(s) + 13
  {
    TotalAppend(Rank, s.ops, Op(kind, Entering, false, false, false, []));
  }

  lemma SpuriousMeasure<V>(s: State<V>, id: Id)
    requires Enabled(s, Spurious(id))
    ensures Measure(Next(s, Spurious(id))) <= Measure(s) + 2
  {
    OneChange(s.ops, id, Next(s, Spurious(id)).ops[id]);
  }

  lemma CancelMeasure<V>(s: State<V>, id: Id)
    requires Enabled(s, FutexMachine.Cancel(id))
    ensures Measure(Next(s, FutexMachine.Cancel(id))) < Measure(s)
  {
    var t := Next(s, FutexMachine.Cancel(id));
    PlainDecreases(s, t, id, t.ops[id].pc);
  }

  /** What a step may add to the work left, itself included: a whole operation, or two accesses after
  a spurious wake-up. */
  ghost function Allowance<V>(step: Step<V>): nat {
    match step
    case Start(_) => 14
    case Spurious(_) => 3
    case _ => 0
  }

  lemma StepMeasure<V>(s: State<V>, step: Step<V>)
    requires Inv(s) && Enabled(s, step)
    ensures Measure(Next(s, step)) + 1 <= Measure(s) + Allowance(step)
  {
    match step
    case Start(kind) => StartMeasure(s, kind);
    case Act(id) => ActDecreases(s, id);
    case Spurious(id) => SpuriousMeasure(s, id);
    case Cancel(id) => CancelMeasure(s, id);
  }

  lemma MeasureNonNegative<V>(s: State<V>)
    ensures Measure(s) >= 0
  {
    TotalBounds(Rank, s.ops);
  }

  ghost function Allowances<V>(steps: seq<Step<V>>): nat
    decreases |steps|
  {
    if steps == [] then 0 else Allowance(steps[0]) + Allowances(steps[1..])
  }

  lemma {:induction false} RunMeasure<V>(s: State<V>, steps: seq<Step<V>>)
    requires Inv(s) && IsRun(s, steps)
    ensures |steps| + Measure(After(s, steps)) <= Measure(s) + Allowances(steps)
    decreases |steps|
  {
    if steps != [] {
      StepMeasure(s, steps[0]);
      InvNext(s, steps[0]);
      RunMeasure(Next(s, steps[0]), steps[1..]);
    }
  }

  ghost function Starts<V>(steps: seq<Step<V>>): nat
    decreases |steps|
  {
    if steps == [] then 0 else (if steps[0].Start? then 1 else 0) + Starts(steps[1..])
  }

  ghost function SpuriousWakes<V>(steps: seq<Step<V>>): nat
    decreases |steps|
  {
    if steps == [] then 0 else (if steps[0].Spurious? then 1 else 0) + SpuriousWakes(steps[1..])
  }

  lemma {:induction false} AllowancesAre<V>(steps: seq<Step<V>>)
    ensures Allowances(steps) == 14 * Starts(steps) + 3 * SpuriousWakes(steps)
    decreases |steps|
  {
    if steps != [] {
      AllowancesAre(steps[1..]);
    }
  }

  /** No run goes on for ever: with `n` operations and `k` spurious wake-ups it has at most 14n + 3k
  steps, whatever the interleaving, the cancellations and the capacity. */
  lemma RunsAreFinite<V>(capacity: nat, steps: seq<Step<V>>)
    requires IsRun(Init(capacity), steps)
    ensures |steps| <= 14 * Starts(steps) + 3 * SpuriousWakes(steps)
  {
    AllowancesAre(steps);
    InvInit<V>(capacity);
    RunMeasure(Init(capacity), steps);
    MeasureNonNegative(After(Init(capacity), steps));
  }

  // ---------- claimed waiters return ----------

  ghost predicate OnlyActs<V>(steps: seq<Step<V>>) {
    forall k :: 0 <= k < |steps| ==> steps[k].Act?
  }

  lemma SomebodyCanAct<V>(s: State<V>) returns (id: Id)
    requires Inv(s) && !Quiescent(s)
    ensures Enabled(s, Act(id)) && Inv(Next(s, Act(id)))
    ensures 0 <= Measure(Next(s, Act(id))) < Measure(s)
  {
    id :| Enabled(s, Act(id));
    InvNext(s, Act(id));
    ActDecreases(s, id);
    MeasureNonNegative(Next(s, Act(id)));
  }

  ghost predicate Finishes<V>(s: State<V>, steps: seq<Step<V>>) {
    OnlyActs(steps) && IsRun(s, steps) && Quiescent(After(s, steps))
  }

  lemma ActThenFinish<V>(s: State<V>, id: Id, rest: seq<Step<V>>)
    requires Enabled(s, Act(id)) && Finishes(Next(s, Act(id)), rest)
    ensures Finishes(s, [Act(id)] + rest)
  {
    assert ([Act(id)] + rest)[1..] == rest;
  }

  /** From every state the operations can run on, by themselves, to a quiescent state. */
  lemma {:induction false} CanFinish<V>(s: State<V>) returns (steps: seq<Step<V>>)
    requires Inv(s)
    ensures Finishes(s, steps)
    decreases Measure(s)
  {
    if Quiescent(s) {
      steps := [];
    } else {
      var id := SomebodyCanAct(s);
      var rest := CanFinish(Next(s, Act(id)));
      ActThenFinish(s, id, rest);
      steps := [Act(id)] + rest;
    }
  }

  lemma {:induction false} UnlinkedRun<V>(s: State<V>, steps: seq<Step<V>>, i: Id)
    requires Inv(s) && IsRun(s, steps) && i < |s.ops| && Unlinked(s.ops[i])
    ensures i < |After(s, steps).ops| && Unlinked(After(s, steps).ops[i])
    decreases |steps|
  {
    if steps != [] {
      UnlinkedStays(s, steps[0], i);
      InvNext(s, steps[0]);
      UnlinkedRun(Next(s, steps[0]), steps[1..], i);
    }
  }

  /** A waiter that has been claimed returns on every run that is not cut short: whenever such a run
  can go no further, the waiter has returned. */
  lemma ClaimedReturns<V>(capacity: nat, before: seq<Step<V>>, after: seq<Step<V>>, w: Id)
    requires IsRun(Init(capacity), before) && IsRun(After(Init(capacity), before), after)
    requires w < |After(Init(capacity), before).ops| && Unlinked(After(Init(capacity), before).ops[w])
    requires Quiescent(After(After(Init(capacity), before), after))
    ensures w < |After(After(Init(capacity), before), after).ops|
    ensures After(After(Init(capacity), before), after).ops[w].pc.Returned?
  {
    var s := After(Init(capacity), before);
    EveryRun(capacity, before);
    UnlinkedRun(s, after, w);
    RunKeepsInv(s, after);
    QuiescentMeansDone(After(s, after));
  }

  /** Whoever is blocked when the channel is closed returns Closed on every run that is not cut short. */
  lemma BlockedReturnClosed<V>(capacity: nat, before: seq<Step<V>>, after: seq<Step<V>>, w: Id)
    requires IsRun(Init(capacity), before) && IsRun(After(Init(capacity), before), after)
    requires var s := After(Init(capacity), before); s.chan.closed && w < |s.ops| && s.ops[w].queued
    requires Quiescent(After(After(Init(capacity), before), after))
    ensures w < |After(After(Init(capacity), before), after).ops|
    ensures After(After(Init(capacity), before), after).ops[w].pc == Returned(Closed)
  {
    EveryRun(capacity, before);
    BlockedGetClosed(capacity, before, after, w);
    RunKeepsInv(After(Init(capacity), before), after);
    QuiescentMeansDone(After(After(Init(capacity), before), after));
  }
}
