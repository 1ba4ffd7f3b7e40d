/** What an operation returns: its fate is settled once, at the moment the code settles it, and nothing
that happens later changes it. In particular an error is the right one: Closed only from a closed channel,
Canceled only after a cancellation. */
module FutexOutcomes {
  import opened Channel
  import opened FutexMachine
  import opened FutexInvariant
  import opened FutexHistory
  import opened FutexSafety
  import opened FutexOrder
  import opened FutexRefinement

  // ---------- fates ----------

  /** The outcome that is settled for an operation, if one is: it has returned or is leaving with it, or
  it has been claimed, with its `done` telling by whom, or it is claiming a peer for its own send or
  receive. */
  ghost function Fate<V>(op: Op<V>): Option<Outcome> {
    match op.pc
    case Returned(outcome) => Some(outcome)
    case Leaving(outcome) => Some(outcome)
    case Storing(_) => Some(Success)
    case Waking(_) => Some(Success)
    case Closing => Some(Success)
    case _ =>
      if !Suspended(op.pc) || op.queued then None
      else if op.done then Some(Success)
      else Some(Closed)
  }

  lemma OthersKeepFate<V>(a: Op<V>, b: Op<V>)
    requires Affected(a, b) && Fate(a).Some?
    ensures Fate(b) == Fate(a)
  {
  }

  lemma ClosingFateStays<V>(s: State<V>, id: Id)
    requires Core(s) && Enabled(s, Act(id)) && (s.ops[id].pc.Closing? || s.ops[id].pc.Storing?)
    ensures Fate(Next(s, Act(id)).ops[id]) == Some(Success)
  {
    assert ClaimOk(s, id);
    HeadsAreLinked(s);
  }

  lemma WakingFateStays<V>(s: State<V>, id: Id)
    requires Core(s) && Enabled(s, Act(id)) && s.ops[id].pc.Waking?
    ensures Fate(Next(s, Act(id)).ops[id]) == Some(Success)
  {
  }

  lemma WaiterFateStays<V>(s: State<V>, id: Id)
    requires Core(s) && Enabled(s, Act(id)) && Suspended(s.ops[id].pc) && !s.ops[id].queued
    ensures Fate(Next(s, Act(id)).ops[id]) == Fate(s.ops[id])
  {
    assert WaiterOk(s, id);
  }

  lemma OwnFateStays<V>(s: State<V>, id: Id)
    requires Core(s) && Enabled(s, Act(id)) && Fate(s.ops[id]).Some?
    ensures Fate(Next(s, Act(id)).ops[id]) == Fate(s.ops[id])
  {
    if s.ops[id].pc.Closing? || s.ops[id].pc.Storing? {
      ClosingFateStays(s, id);
    } else if s.ops[id].pc.Waking? {
      WakingFateStays(s, id);
    } else if Suspended(s.ops[id].pc) {
      WaiterFateStays(s, id);
    }
  }

  lemma FateStays<V>(s: State<V>, step: Step<V>, i: Id)
    requires Core(s) && Enabled(s, step) && i < |s.ops| && Fate(s.ops[i]).Some?
    ensures i < |Next(s, step).ops| && Fate(Next(s, step).ops[i]) == Fate(s.ops[i])
  {
    assert WaiterOk(s, i);
    if step.Act? && step.id == i {
      OwnFateStays(s, i);
    } else if step.Act? {
      Others(s, step.id, i);
      OthersKeepFate(s.ops[i], Next(s, step).ops[i]);
    }
  }

  lemma {:induction false} FateRun<V>(s: State<V>, steps: seq<Step<V>>, i: Id)
    requires Inv(s) && IsRun(s, steps) && i < |s.ops| && Fate(s.ops[i]).Some?
    ensures i < |After(s, steps).ops| && Fate(After(s, steps).ops[i]) == Fate(s.ops[i])
    decreases |steps|
  {
    if steps != [] {
      FateStays(s, steps[0], i);
      InvNext(s, steps[0]);
      FateRun(Next(s, steps[0]), steps[1..], i);
    }
  }

  lemma ReturnsItsFate<V>(op: Op<V>)
    ensures op.pc.Returned? ==> Fate(op) == Some(op.pc.outcome)
  {
  }

  /** Once settled, an outcome is what the operation returns, if it returns. */
  lemma FateIsFinal<V>(capacity: nat, before: seq<Step<V>>, after: seq<Step<V>>, i: Id)
    requires IsRun(Init(capacity), before) && IsRun(After(Init(capacity), before), after)
    requires i < |After(Init(capacity), before).ops| && Fate(After(Init(capacity), before).ops[i]).Some?
    ensures var s, t := After(Init(capacity), before), After(After(Init(capacity), before), after);
            && i < |t.ops| && Fate(t.ops[i]) == Fate(s.ops[i])
            && (t.ops[i].pc.Returned? ==> Some(t.ops[i].pc.outcome) == Fate(s.ops[i]))
  {
    var s := After(Init(capacity), before);
    EveryRun(capacity, before);
    FateRun(s, after, i);
    ReturnsItsFate(After(s, after).ops[i]);
  }

  // ---------- when it is settled ----------

  /** What looking at the channel settles, said of the queue: nothing for an operation that it makes
  wait, an error for one that it refuses, and success for any other. */
  ghost predicate Decided<V>(s: State<V>, op: Op<V>, now: Op<V>) {
    var q := Queue(s.chan);
    && (Fate(now) == Some(Closed) <==>
          (op.kind.Sender? && q.shut) || (op.kind.Receiver? && q.shut && q.items == []))
    && Fate(now) != Some(Canceled)
    && (Fate(now) == None ==> now.queued && !op.kind.Closer?)
    && (s.chan.capacity > 0 ==>
          (Fate(now) == None <==>
            || (op.kind.Sender? && !q.shut && |q.items| == q.bound)
            || (op.kind.Receiver? && !q.shut && q.items == [])))
  }

  lemma SendDecides<V>(s: State<V>, id: Id)
    requires Core(s) && Enabled(s, Act(id)) && s.ops[id].pc.Inside? && s.ops[id].kind.Sender?
    ensures Decided(s, s.ops[id], Next(s, Act(id)).ops[id])
  {
    WaitsOnlyWhenItMust(s.chan, Msg(id, s.ops[id].kind.value));
    HeadsAreLinked(s);
  }

  lemma ReceiveDecides<V>(s: State<V>, id: Id)
    requires Core(s) && Enabled(s, Act(id)) && s.ops[id].pc.Inside? && s.ops[id].kind.Receiver?
    ensures Decided(s, s.ops[id], Next(s, Act(id)).ops[id])
  {
    HeadsAreLinked(s);
  }

  /** A send or receive is refused exactly when the queue refuses it and, with a buffer, has to wait
  exactly when the queue makes it wait. */
  lemma LookingDecides<V>(s: State<V>, id: Id)
    requires Core(s) && Enabled(s, Act(id)) && s.ops[id].pc.Inside?
    ensures Decided(s, s.ops[id], Next(s, Act(id)).ops[id])
  {
    match s.ops[id].kind
    case Sender(_) => SendDecides(s, id);
    case Receiver => ReceiveDecides(s, id);
    case Closer =>
  }

  /** A cancellation settles the outcome when it strikes before the mutex is taken, or when it finds,
  under the mutex, that nobody has claimed the waiter; otherwise it changes nothing. */
  lemma CancelDecides<V>(s: State<V>, id: Id)
    requires Core(s) && id < |s.ops|
    ensures Enabled(s, FutexMachine.Cancel(id)) ==>
              Fate(Next(s, FutexMachine.Cancel(id)).ops[id]) ==
                if s.ops[id].pc.Entering? then Some(Canceled) else Fate(s.ops[id])
    ensures Enabled(s, Act(id)) && s.ops[id].pc.Deciding? ==>
              Fate(Next(s, Act(id)).ops[id]) ==
                if s.ops[id].queued then Some(Canceled) else Fate(s.ops[id])
  {
    assert WaiterOk(s, id);
  }

  // ---------- errors ----------

  /** What is true of an operation's error in the making; `canceled` tells whether it has been canceled. */
  ghost predicate Honest<V>(s: State<V>, op: Op<V>, canceled: bool) {
    && (Fate(op) == Some(Closed) ==> s.chan.closed)
    && (op.pc.Canceling? || op.pc.Deciding? || Fate(op) == Some(Canceled) ==> canceled)
    && (op.kind.Closer? ==> op.pc.Entering? || op.pc.Inside? || Fate(op) == Some(Success))
  }

  ghost predicate AllHonest<V>(s: State<V>, steps: seq<Step<V>>) {
    forall i: Id {:trigger s.ops[i]} :: i < |s.ops| ==> Honest(s, s.ops[i], FutexMachine.Cancel(i) in steps)
  }

  lemma ClosedStays<V>(s: State<V>, step: Step<V>)
    requires Enabled(s, step) && s.chan.closed
    ensures Next(s, step).chan.closed
  {
  }

  lemma AffectedStaysHonest<V>(s: State<V>, t: State<V>, a: Op<V>, b: Op<V>, canceled: bool)
    requires Honest(s, a, canceled) && Affected(a, b) && (s.chan.closed ==> t.chan.closed)
    requires a.queued ==> Suspended(b.pc) && (b.queued || b.done || s.chan.closed)
    requires a.queued ==> Suspended(a.pc) && !a.kind.Closer?
    ensures Honest(t, b, canceled)
  {
  }

  /** An operation whose outcome another one settles gets Closed only from close. */
  lemma OthersStayHonest<V>(s: State<V>, id: Id, i: Id, canceled: bool)
    requires Core(s) && Enabled(s, Act(id)) && i < |s.ops| && i != id && Honest(s, s.ops[i], canceled)
    ensures Honest(Next(s, Act(id)), Next(s, Act(id)).ops[i], canceled)
  {
    var t := Next(s, Act(id));
    Others(s, id, i);
    assert WaiterOk(s, i);
    if s.chan.closed {
      ClosedStays(s, Act(id));
    }
    if s.ops[i].queued {
      ClaimedByPeer(s, id, i);
    }
    AffectedStaysHonest(s, t, s.ops[i], t.ops[i], canceled);
  }

  lemma ClaimedBySend<V>(s: State<V>, id: Id, i: Id)
    requires Core(s) && Enabled(s, Act(id)) && s.ops[id].pc.Inside? && s.ops[id].kind.Sender?
    requires i < |s.ops| && i != id && s.ops[i].queued && Suspended(s.ops[i].pc)
    ensures var op := Next(s, Act(id)).ops[i]; Suspended(op.pc) && (op.queued || op.done)
  {
  }

  lemma ClaimedInside<V>(s: State<V>, id: Id, i: Id)
    requires Core(s) && Enabled(s, Act(id)) && s.ops[id].pc.Inside?
    requires i < |s.ops| && i != id && s.ops[i].queued && Suspended(s.ops[i].pc)
    ensures var op := Next(s, Act(id)).ops[i]; Suspended(op.pc) && (op.queued || op.done)
  {
    if s.ops[id].kind.Sender? {
      ClaimedBySend(s, id, i);
    }
  }

  lemma ClaimedByPeer<V>(s: State<V>, id: Id, i: Id)
    requires Core(s) && Enabled(s, Act(id)) && i < |s.ops| && i != id && s.ops[i].queued
    ensures var op := Next(s, Act(id)).ops[i];
            Suspended(op.pc) && (op.queued || op.done || s.chan.closed)
  {
    assert WaiterOk(s, i);
    if s.ops[id].pc.Inside? {
      ClaimedInside(s, id, i);
    } else {
      assert ClaimOk(s, id);
      Others(s, id, i);
      StaysQueued(s, id, i);
    }
  }

  lemma StaysQueued<V>(s: State<V>, id: Id, i: Id)
    requires Core(s) && Enabled(s, Act(id)) && !s.ops[id].pc.Inside?
    requires i < |s.ops| && i != id && s.ops[i].queued
    ensures Next(s, Act(id)).ops[i].queued || s.ops[id].pc.Closing?
  {
  }

  lemma SettledStaysHonest<V>(s: State<V>, id: Id, canceled: bool)
    requires Core(s) && Enabled(s, Act(id)) && Honest(s, s.ops[id], canceled) && Fate(s.ops[id]).Some?
    ensures Honest(Next(s, Act(id)), Next(s, Act(id)).ops[id], canceled)
  {
    OwnFateStays(s, id);
    KindStays(s, Act(id), id);
    if s.chan.closed {
      ClosedStays(s, Act(id));
    }
    if !s.ops[id].pc.Canceling? {
      NotCanceling(s, id);
    }
  }

  lemma InsideIsNotCanceling<V>(s: State<V>, id: Id)
    requires Core(s) && Enabled(s, Act(id)) && s.ops[id].pc.Inside?
    ensures !Next(s, Act(id)).ops[id].pc.Canceling? && !Next(s, Act(id)).ops[id].pc.Deciding?
  {
  }

  lemma NotCanceling<V>(s: State<V>, id: Id)
    requires Core(s) && Enabled(s, Act(id)) && !s.ops[id].pc.Canceling? && !s.ops[id].pc.Inside?
    ensures !Next(s, Act(id)).ops[id].pc.Canceling? && !Next(s, Act(id)).ops[id].pc.Deciding?
  {
    if s.ops[id].pc.Closing? || s.ops[id].pc.Storing? || s.ops[id].pc.Waking? {
      ClaimerIsNotCanceling(s, id);
    }
  }

  lemma ClaimerIsNotCanceling<V>(s: State<V>, id: Id)
    requires Core(s) && Enabled(s, Act(id))
    requires s.ops[id].pc.Closing? || s.ops[id].pc.Storing? || s.ops[id].pc.Waking?
    ensures !Next(s, Act(id)).ops[id].pc.Canceling? && !Next(s, Act(id)).ops[id].pc.Deciding?
  {
  }

  lemma InsideStaysHonest<V>(s: State<V>, id: Id, canceled: bool)
    requires Core(s) && Enabled(s, Act(id)) && s.ops[id].pc.Inside?
    ensures Honest(Next(s, Act(id)), Next(s, Act(id)).ops[id], canceled)
  {
    LookingDecides(s, id);
    KindStays(s, Act(id), id);
    InsideIsNotCanceling(s, id);
    if s.chan.closed {
      ClosedStays(s, Act(id));
    }
  }

  /** An operation that is still open moves on, or gives up after a cancellation. */
  lemma OpenStaysHonest<V>(s: State<V>, id: Id, canceled: bool)
    requires Core(s) && Enabled(s, Act(id)) && Honest(s, s.ops[id], canceled)
    requires Fate(s.ops[id]) == None && !s.ops[id].pc.Inside?
    ensures Honest(Next(s, Act(id)), Next(s, Act(id)).ops[id], canceled)
  {
    assert WaiterOk(s, id);
    KindStays(s, Act(id), id);
  }

  lemma ActStaysHonest<V>(s: State<V>, id: Id, i: Id, canceled: bool)
    requires Core(s) && Enabled(s, Act(id)) && i < |s.ops| && Honest(s, s.ops[i], canceled)
    ensures Honest(Next(s, Act(id)), Next(s, Act(id)).ops[i], canceled)
  {
    if i != id {
      OthersStayHonest(s, id, i, canceled);
    } else if Fate(s.ops[id]).Some? {
      SettledStaysHonest(s, id, canceled);
    } else if s.ops[id].pc.Inside? {
      InsideStaysHonest(s, id, canceled);
    } else {
      OpenStaysHonest(s, id, canceled);
    }
  }

  lemma UnaskedStaysHonest<V>(s: State<V>, step: Step<V>, i: Id, canceled: bool)
    requires Core(s) && Enabled(s, step) && (step.Spurious? || step.Cancel?)
    requires i < |s.ops| && Honest(s, s.ops[i], canceled)
    ensures Honest(Next(s, step), Next(s, step).ops[i], canceled || step == FutexMachine.Cancel(i))
  {
    assert WaiterOk(s, i);
  }

  lemma StepStaysHonest<V>(s: State<V>, done: seq<Step<V>>, step: Step<V>)
    requires Core(s) && Enabled(s, step) && AllHonest(s, done)
    ensures AllHonest(Next(s, step), done + [step])
  {
    var t := Next(s, step);
    forall i: Id | i < |t.ops| ensures Honest(t, t.ops[i], FutexMachine.Cancel(i) in done + [step]) {
      var canceled := FutexMachine.Cancel(i) in done;
      assert FutexMachine.Cancel(i) in done + [step] <==> canceled || step == FutexMachine.Cancel(i);
      if i < |s.ops| {
        match step
        case Act(id) => ActStaysHonest(s, id, i, canceled);
        case Start(_) =>
        case _ => UnaskedStaysHonest(s, step, i, canceled);
      }
    }
  }

  lemma {:induction false} RunStaysHonest<V>(s: State<V>, done: seq<Step<V>>, steps: seq<Step<V>>)
    requires Inv(s) && IsRun(s, steps) && AllHonest(s, done)
    ensures AllHonest(After(s, steps), done + steps)
    decreases |steps|
  {
    if steps == [] {
      assert done + steps == done;
    } else {
      StepStaysHonest(s, done, steps[0]);
      InvNext(s, steps[0]);
      RunStaysHonest(Next(s, steps[0]), done + [steps[0]], steps[1..]);
      MoveOver(done, steps);
    }
  }

  lemma MoveOver<T>(done: seq<T>, steps: seq<T>)
    requires steps != []
    ensures done + [steps[0]] + steps[1..] == done + steps
  {
  }

  lemma EveryRunIsHonest<V>(capacity: nat, steps: seq<Step<V>>)
    requires IsRun(Init(capacity), steps)
    ensures AllHonest(After(Init(capacity), steps), steps)
  {
    InvInit<V>(capacity);
    RunStaysHonest(Init(capacity), [], steps);
    assert [] + steps == steps;
  }

  lemma HonestReturn<V>(s: State<V>, op: Op<V>, canceled: bool)
    requires Honest(s, op, canceled) && op.pc.Returned?
    ensures op.pc.outcome == Closed ==> s.chan.closed
    ensures op.pc.outcome == Canceled ==> canceled
    ensures op.kind.Closer? ==> op.pc.outcome == Success
  {
    assert Fate(op) == Some(op.pc.outcome);
  }

  /** An operation returns Closed only if the channel has been closed, Canceled only if it has been
  canceled itself, and close returns neither. */
  lemma ErrorsAreHonest<V>(capacity: nat, steps: seq<Step<V>>, i: Id)
    requires IsRun(Init(capacity), steps)
    requires i < |After(Init(capacity), steps).ops| && After(Init(capacity), steps).ops[i].pc.Returned?
    ensures var s := After(Init(capacity), steps);
            var outcome := s.ops[i].pc.outcome;
            && (outcome == Closed ==> s.chan.closed)
            && (outcome == Canceled ==> FutexMachine.Cancel(i) in steps)
            && (s.ops[i].kind.Closer? ==> outcome == Success)
  {
    EveryRunIsHonest(capacity, steps);
    var s := After(Init(capacity), steps);
    HonestReturn(s, s.ops[i], FutexMachine.Cancel(i) in steps);
  }

  // ---------- calls on a closed channel ----------

  /** Nothing can be sent any more; `drained` says that nothing is left to receive either. */
  ghost predicate Over<V>(s: State<V>, drained: bool) {
    s.chan.closed && (drained ==> s.chan.ring == [])
  }

  ghost predicate Concerned<V>(op: Op<V>, drained: bool) {
    op.kind.Sender? || (op.kind.Receiver? && drained)
  }

  /** Not started, about to look at the channel, or turned away. */
  ghost predicate TurnedAway<V>(s: State<V>, i: Id, drained: bool) {
    Over(s, drained) &&
    (i < |s.ops| && Concerned(s.ops[i], drained) ==> Fresh(s.ops[i]) || Fate(s.ops[i]) == Some(Closed))
  }

  lemma OverStays<V>(s: State<V>, step: Step<V>, drained: bool)
    requires Core(s) && Enabled(s, step) && Over(s, drained)
    ensures Over(Next(s, step), drained)
  {
    ClosedStays(s, step);
  }

  lemma TurnedAwayOwn<V>(s: State<V>, i: Id, drained: bool)
    requires Core(s) && Enabled(s, Act(i)) && TurnedAway(s, i, drained)
    requires Concerned(s.ops[i], drained) && Fate(s.ops[i]) == None
    ensures Fresh(Next(s, Act(i)).ops[i]) || Fate(Next(s, Act(i)).ops[i]) == Some(Closed)
  {
    if s.ops[i].pc.Inside? {
      LookingDecides(s, i);
    }
  }

  lemma TurnedAwayStep<V>(s: State<V>, step: Step<V>, i: Id, drained: bool)
    requires Core(s) && Enabled(s, step) && TurnedAway(s, i, drained) && step != FutexMachine.Cancel(i)
    ensures TurnedAway(Next(s, step), i, drained)
  {
    OverStays(s, step, drained);
    if i >= |s.ops| {
      NewIsFresh(s, step, i);
    } else if Concerned(s.ops[i], drained) {
      KindStays(s, step, i);
      if Fate(s.ops[i]).Some? {
        FateStays(s, step, i);
      } else if step == Act(i) {
        TurnedAwayOwn(s, i, drained);
      } else if step.Act? {
        Others(s, step.id, i);
      }
    } else {
      KindStays(s, step, i);
    }
  }

  lemma {:induction false} TurnedAwayRun<V>(s: State<V>, steps: seq<Step<V>>, i: Id, drained: bool)
    requires Inv(s) && IsRun(s, steps) && TurnedAway(s, i, drained) && FutexMachine.Cancel(i) !in steps
    ensures TurnedAway(After(s, steps), i, drained)
    decreases |steps|
  {
    if steps != [] {
      TurnedAwayStep(s, steps[0], i, drained);
      InvNext(s, steps[0]);
      TurnedAwayRun(Next(s, steps[0]), steps[1..], i, drained);
    }
  }

  /** Whoever has yet to look at a closed channel, or to start, returns Closed unless it is canceled: any
  send, and any receive once the channel is drained. */
  lemma LateCallsGetClosed<V>(capacity: nat, before: seq<Step<V>>, after: seq<Step<V>>, i: Id)
    requires IsRun(Init(capacity), before) && IsRun(After(Init(capacity), before), after)
    requires var s := After(Init(capacity), before); s.chan.closed && (i < |s.ops| ==> Fresh(s.ops[i]))
    requires FutexMachine.Cancel(i) !in after
    ensures var s := After(Init(capacity), before);
            var t := After(s, after);
            i < |t.ops| && t.ops[i].pc.Returned? && Concerned(t.ops[i], s.chan.ring == []) ==>
              t.ops[i].pc.outcome == Closed
  {
    var s := After(Init(capacity), before);
    EveryRun(capacity, before);
    StartsTurnedAway(s, i);
    TurnedAwayRun(s, after, i, s.chan.ring == []);
    TurnedAwayReturns(After(s, after), i, s.chan.ring == []);
  }

  lemma StartsTurnedAway<V>(s: State<V>, i: Id)
    requires s.chan.closed && (i < |s.ops| ==> Fresh(s.ops[i]))
    ensures TurnedAway(s, i, s.chan.ring == [])
  {
  }

  lemma TurnedAwayReturns<V>(s: State<V>, i: Id, drained: bool)
    requires TurnedAway(s, i, drained)
    ensures i < |s.ops| && s.ops[i].pc.Returned? && Concerned(s.ops[i], drained) ==>
              s.ops[i].pc.outcome == Closed
  {
    if i < |s.ops| {
      ReturnsItsFate(s.ops[i]);
    }
  }

  // ---------- what may happen to a sleeper ----------

  /** A sleeper that nobody has claimed can be canceled, and is: whenever the mutex is free, the
  cancellation and three accesses take it off its list and out of the channel. */
  lemma CancelCanWin<V>(s: State<V>, i: Id)
    requires Core(s) && s.mutex == None && i < |s.ops| && s.ops[i].pc == Asleep && s.ops[i].queued
    ensures var steps := [FutexMachine.Cancel(i), Act(i), Act(i), Act(i)];
            && IsRun(s, steps) && i < |After(s, steps).ops|
            && After(s, steps).ops[i].pc == Returned(Canceled)
            && After(s, steps).chan == Channel.Cancel(s.chan, i)
            && After(s, steps).mutex == None
  {
    var a := Next(s, FutexMachine.Cancel(i));
    CoreNext(s, FutexMachine.Cancel(i));
    var b := Next(a, Act(i));
    CoreNext(a, Act(i));
    var c := Next(b, Act(i));
    CoreNext(b, Act(i));
    FourSteps(s, FutexMachine.Cancel(i), Act(i), Act(i), Act(i));
  }

  lemma StepThen<V>(s: State<V>, step: Step<V>, rest: seq<Step<V>>)
    requires Enabled(s, step) && IsRun(Next(s, step), rest)
    ensures IsRun(s, [step] + rest) && After(s, [step] + rest) == After(Next(s, step), rest)
  {
    assert ([step] + rest)[1..] == rest;
  }

  lemma FourSteps<V>(s: State<V>, p: Step<V>, q: Step<V>, u: Step<V>, v: Step<V>)
    requires Enabled(s, p) && Enabled(Next(s, p), q) && Enabled(Next(Next(s, p), q), u)
    requires Enabled(Next(Next(Next(s, p), q), u), v)
    ensures IsRun(s, [p, q, u, v])
    ensures After(s, [p, q, u, v]) == Next(Next(Next(Next(s, p), q), u), v)
  {
    var a := Next(s, p);
    var b := Next(a, q);
    var c := Next(b, u);
    StepThen(c, v, []);
    StepThen(b, u, [v] + []);
    StepThen(a, q, [u] + ([v] + []));
    StepThen(s, p, [q] + ([u] + ([v] + [])));
    assert [p] + ([q] + ([u] + ([v] + []))) == [p, q, u, v];
  }

  /** A sleeper can wake for no reason at any time; if its word is still clear, two accesses later
  everything is as it was. */
  lemma SpuriousChangesNothing<V>(s: State<V>, i: Id)
    requires Core(s) && i < |s.ops| && s.ops[i].pc == Asleep && !s.ops[i].word
    ensures Enabled(s, Spurious(i))
    ensures var a := Next(s, Spurious(i));
            Enabled(a, Act(i)) && Enabled(Next(a, Act(i)), Act(i)) && Next(Next(a, Act(i)), Act(i)) == s
  {
    var a := Next(s, Spurious(i));
    CoreNext(s, Spurious(i));
    CoreNext(a, Act(i));
    var t := Next(Next(a, Act(i)), Act(i));
    assert t.ops == s.ops;
  }
}
