/** Order among blocked receivers, and what closing does for good. */
module FutexOrder {
  import opened Channel
  import opened FutexMachine
  import opened FutexInvariant
  import opened FutexHistory
  import opened FutexSafety

  // ---------- what one operation can do to another, and to itself ----------

  /** All that happens to an operation while another one takes a step. */
  ghost predicate Affected<V>(a: Op<V>, b: Op<V>) {
    || b == a
    || (a.queued && b.kind == a.kind && b.pc == a.pc && b.word == a.word && !b.queued)
    || b == a.(word := true)
    || (a.pc == Asleep && b == a.(pc := Loading))
  }

  lemma OthersInside<V>(s: State<V>, id: Id, i: Id)
    requires Core(s) && Enabled(s, Act(id)) && i < |s.ops| && i != id && s.ops[id].pc.Inside?
    ensures Affected(s.ops[i], Next(s, Act(id)).ops[i])
  {
    if s.chan.receivers != [] {
      assert ReceiverLinked(s, s.chan.receivers[0]);
    }
    if s.chan.senders != [] {
      assert SenderLinked(s, s.chan.senders[0]);
    }
  }

  lemma OthersClosing<V>(s: State<V>, id: Id, i: Id)
    requires Core(s) && Enabled(s, Act(id)) && i < |s.ops| && i != id && s.ops[id].pc.Closing?
    ensures Affected(s.ops[i], Next(s, Act(id)).ops[i])
  {
    if s.chan.receivers != [] {
      assert ReceiverLinked(s, s.chan.receivers[0]);
    }
    if s.chan.senders != [] {
      assert SenderLinked(s, s.chan.senders[0]);
    }
  }

  lemma Others<V>(s: State<V>, id: Id, i: Id)
    requires Core(s) && Enabled(s, Act(id)) && i < |s.ops| && i != id
    ensures Affected(s.ops[i], Next(s, Act(id)).ops[i])
  {
    if s.ops[id].pc.Inside? {
      OthersInside(s, id, i);
    } else if s.ops[id].pc.Closing? {
      OthersClosing(s, id, i);
    }
  }

  // ---------- what can no longer change ----------

  lemma OwnClosing<V>(s: State<V>, id: Id)
    requires Core(s) && Enabled(s, Act(id)) && s.ops[id].pc.Closing?
    ensures Unlinked(Next(s, Act(id)).ops[id])
  {
    assert WaiterOk(s, id);
    HeadsAreLinked(s);
  }

  lemma OwnStep<V>(s: State<V>, id: Id)
    requires Core(s) && Enabled(s, Act(id)) && Unlinked(s.ops[id]) && !s.ops[id].pc.Closing?
    ensures Unlinked(Next(s, Act(id)).ops[id])
  {
    assert ClaimOk(s, id);
  }

  lemma LostOwnStep<V>(s: State<V>, id: Id)
    requires Core(s) && Enabled(s, Act(id)) && Lost(s.ops[id])
    ensures Lost(Next(s, Act(id)).ops[id])
  {
    assert WaiterOk(s, id) && ClaimOk(s, id);
  }

  lemma UnlinkedStays<V>(s: State<V>, step: Step<V>, i: Id)
    requires Core(s) && Enabled(s, step) && i < |s.ops| && Unlinked(s.ops[i])
    ensures i < |Next(s, step).ops| && Unlinked(Next(s, step).ops[i])
    ensures Lost(s.ops[i]) ==> Lost(Next(s, step).ops[i])
  {
    if step.Act? {
      if step.id == i {
        if Lost(s.ops[i]) {
          LostOwnStep(s, i);
        }
        if s.ops[i].pc.Closing? {
          OwnClosing(s, i);
        } else {
          OwnStep(s, i);
        }
      } else {
        Others(s, step.id, i);
        AffectedStaysUnlinked(s.ops[i], Next(s, step).ops[i]);
      }
    }
  }

  lemma AffectedStaysUnlinked<V>(a: Op<V>, b: Op<V>)
    requires Affected(a, b) && Unlinked(a)
    ensures Unlinked(b) && (Lost(a) ==> Lost(b))
  {
  }

  // ---------- no overtaking ----------

  /** `a` blocked before `b`, and both are still blocked. */
  ghost predicate Ahead(receivers: seq<Id>, a: Id, b: Id) {
    exists i, j :: 0 <= i < j < |receivers| && receivers[i] == a && receivers[j] == b
  }

  lemma AheadAfterPop(receivers: seq<Id>, a: Id, b: Id)
    requires receivers != [] && Ahead(receivers, a, b) && receivers[0] != a
    ensures Ahead(receivers[1..], a, b)
  {
    var i, j :| 0 <= i < j < |receivers| && receivers[i] == a && receivers[j] == b;
    assert receivers[1..][i - 1] == a && receivers[1..][j - 1] == b;
  }

  lemma AheadAfterAppend(receivers: seq<Id>, c: Id, a: Id, b: Id)
    requires Ahead(receivers, a, b)
    ensures Ahead(receivers + [c], a, b)
  {
    var i, j :| 0 <= i < j < |receivers| && receivers[i] == a && receivers[j] == b;
    assert (receivers + [c])[i] == a && (receivers + [c])[j] == b;
  }

  lemma AheadAfterRemoval(receivers: seq<Id>, k: nat, a: Id, b: Id)
    requires k < |receivers| && Ahead(receivers, a, b) && receivers[k] != a && receivers[k] != b
    ensures Ahead(receivers[..k] + receivers[k + 1..], a, b)
  {
    var i, j :| 0 <= i < j < |receivers| && receivers[i] == a && receivers[j] == b;
    var left := receivers[..k] + receivers[k + 1..];
    assert left[if i < k then i else i - 1] == a && left[if j < k then j else j - 1] == b;
  }

  /** `a` is off its list, or still ahead of `b`, or `b` has gone away empty-handed. */
  ghost predicate InOrder<V>(s: State<V>, a: Id, b: Id) {
    && a < |s.ops| && b < |s.ops|
    && (Unlinked(s.ops[a]) || Lost(s.ops[b]) || Ahead(s.chan.receivers, a, b))
  }

  /** An operation that has not looked at the channel yet. */
  ghost predicate Fresh<V>(op: Op<V>) {
    (op.pc.Entering? || op.pc.Inside?) && !op.queued && !op.done
  }

  /** While `a` is blocked, `b` has nothing: it is behind `a`, has not looked at the channel yet, is no
  receiver, or has gone away empty-handed. */
  ghost predicate NotBefore<V>(s: State<V>, a: Id, b: Id) {
    && a < |s.ops| && a != b
    && (Unlinked(s.ops[a])
        || (Blocked(s.ops[a])
            && (b >= |s.ops| || !s.ops[b].kind.Receiver? || Fresh(s.ops[b]) || InOrder(s, a, b))))
  }

  ghost predicate Blocked<V>(op: Op<V>) {
    op.queued && op.kind.Receiver? && Suspended(op.pc)
  }

  lemma FirstIsClaimed<V>(s: State<V>, id: Id)
    requires Core(s) && Enabled(s, Act(id)) && s.chan.receivers != []
    requires Next(s, Act(id)).chan.receivers == s.chan.receivers[1..]
    requires (s.ops[id].pc.Inside? && s.ops[id].kind.Sender?) || s.ops[id].pc.Closing?
    ensures s.chan.receivers[0] < |s.ops| && Unlinked(Next(s, Act(id)).ops[s.chan.receivers[0]])
  {
    assert ReceiverLinked(s, s.chan.receivers[0]) && WaiterOk(s, s.chan.receivers[0]);
    assert WaiterOk(s, id) && ClaimOk(s, id);
  }

  lemma GivingUpIsLosing<V>(s: State<V>, id: Id)
    requires Core(s) && Enabled(s, Act(id)) && s.ops[id].pc.Deciding? && s.ops[id].queued
    ensures Lost(Next(s, Act(id)).ops[id])
  {
    assert WaiterOk(s, id);
  }

  lemma OrderInside<V>(s: State<V>, id: Id, a: Id, b: Id)
    requires Core(s) && Enabled(s, Act(id)) && a < |s.ops| && b < |s.ops|
    requires Ahead(s.chan.receivers, a, b) && s.ops[id].pc.Inside?
    ensures InOrder(Next(s, Act(id)), a, b)
  {
    var was, now := s.chan.receivers, Next(s, Act(id)).chan.receivers;
    if s.ops[id].kind.Sender? && !s.chan.closed {
      FirstIsClaimed(s, id);
      if was[0] != a {
        AheadAfterPop(was, a, b);
      }
    } else if s.ops[id].kind.Receiver? && now != was {
      AheadAfterAppend(was, id, a, b);
    }
  }

  lemma OrderClosing<V>(s: State<V>, id: Id, a: Id, b: Id)
    requires Core(s) && Enabled(s, Act(id)) && a < |s.ops| && b < |s.ops|
    requires Ahead(s.chan.receivers, a, b) && s.ops[id].pc.Closing?
    ensures InOrder(Next(s, Act(id)), a, b)
  {
    FirstIsClaimed(s, id);
    if s.chan.receivers[0] != a {
      AheadAfterPop(s.chan.receivers, a, b);
    }
  }

  lemma OrderDeciding<V>(s: State<V>, id: Id, a: Id, b: Id)
    requires Core(s) && Enabled(s, Act(id)) && a < |s.ops| && b < |s.ops|
    requires Ahead(s.chan.receivers, a, b) && s.ops[id].pc.Deciding?
    ensures InOrder(Next(s, Act(id)), a, b)
  {
    if s.ops[id].queued && s.ops[id].kind.Receiver? {
      var k := CancelReceiver(s, id);
      GivingUpIsLosing(s, id);
      if id != a && id != b {
        AheadAfterRemoval(s.chan.receivers, k, a, b);
      }
    } else if s.ops[id].queued {
      var k := CancelSender(s, id);
    }
  }

  lemma OrderAct<V>(s: State<V>, id: Id, a: Id, b: Id)
    requires Core(s) && Enabled(s, Act(id)) && a < |s.ops| && b < |s.ops|
    requires Ahead(s.chan.receivers, a, b)
    ensures InOrder(Next(s, Act(id)), a, b)
  {
    match s.ops[id].pc
    case Inside => OrderInside(s, id, a, b);
    case Closing => OrderClosing(s, id, a, b);
    case Deciding => OrderDeciding(s, id, a, b);
    case _ =>
  }

  lemma OrderStep<V>(s: State<V>, step: Step<V>, a: Id, b: Id)
    requires Core(s) && Enabled(s, step) && InOrder(s, a, b)
    ensures InOrder(Next(s, step), a, b)
  {
    if Unlinked(s.ops[a]) {
      UnlinkedStays(s, step, a);
    } else if Lost(s.ops[b]) {
      UnlinkedStays(s, step, b);
    } else if step.Act? {
      OrderAct(s, step.id, a, b);
    }
  }

  /** Who is blocked stays so or is off its list for good. */
  lemma BlockedStep<V>(s: State<V>, step: Step<V>, a: Id)
    requires Core(s) && Enabled(s, step) && a < |s.ops| && Blocked(s.ops[a])
    ensures var t := Next(s, step); a < |t.ops| && (Blocked(t.ops[a]) || Unlinked(t.ops[a]))
  {
    assert WaiterOk(s, a);
    if step.Act? && step.id != a {
      Others(s, step.id, a);
    } else if step.Act? {
      BlockedOwnStep(s, a);
    }
  }

  lemma BlockedOwnStep<V>(s: State<V>, id: Id)
    requires Core(s) && Enabled(s, Act(id)) && Blocked(s.ops[id])
    ensures Blocked(Next(s, Act(id)).ops[id]) || Unlinked(Next(s, Act(id)).ops[id])
  {
    assert WaiterOk(s, id);
  }

  /** A receiver that gets to look at the channel while another is blocked has to park behind it. */
  lemma ParksBehind<V>(s: State<V>, a: Id, b: Id)
    requires Core(s) && Enabled(s, Act(b)) && s.ops[b].pc.Inside? && s.ops[b].kind.Receiver?
    requires a < |s.ops| && a != b && Blocked(s.ops[a])
    ensures Ahead(Next(s, Act(b)).chan.receivers, a, b)
  {
    var was := s.chan.receivers;
    assert a in was;
    var i :| 0 <= i < |was| && was[i] == a;
    assert Settled(s.chan);
    assert Next(s, Act(b)).chan.receivers == was + [b];
    assert (was + [b])[i] == a && (was + [b])[|was|] == b;
  }

  lemma FreshStep<V>(s: State<V>, step: Step<V>, a: Id, b: Id)
    requires Core(s) && Enabled(s, step) && a < |s.ops| && a != b && Blocked(s.ops[a])
    requires b < |s.ops| && s.ops[b].kind.Receiver? && Fresh(s.ops[b])
    ensures Fresh(Next(s, step).ops[b]) || InOrder(Next(s, step), a, b)
  {
    if step == Act(b) && s.ops[b].pc.Inside? {
      ParksBehind(s, a, b);
    } else if step.Act? && step.id != b {
      Others(s, step.id, b);
    }
  }

  lemma KindStays<V>(s: State<V>, step: Step<V>, b: Id)
    requires Core(s) && Enabled(s, step) && b < |s.ops|
    ensures b < |Next(s, step).ops| && Next(s, step).ops[b].kind == s.ops[b].kind
  {
    if step.Act? && step.id != b {
      Others(s, step.id, b);
    }
  }

  lemma NewIsFresh<V>(s: State<V>, step: Step<V>, b: Id)
    requires Core(s) && Enabled(s, step) && b >= |s.ops|
    ensures b < |Next(s, step).ops| ==> Fresh(Next(s, step).ops[b])
  {
    if step.Act? {
      KindStays(s, step, step.id);
    }
  }

  lemma NotBeforeStep<V>(s: State<V>, step: Step<V>, a: Id, b: Id)
    requires Core(s) && Enabled(s, step) && NotBefore(s, a, b)
    ensures NotBefore(Next(s, step), a, b)
  {
    if Unlinked(s.ops[a]) {
      UnlinkedStays(s, step, a);
    } else {
      BlockedStep(s, step, a);
      if b >= |s.ops| {
        NewIsFresh(s, step, b);
      } else if !s.ops[b].kind.Receiver? {
        KindStays(s, step, b);
      } else if Fresh(s.ops[b]) {
        FreshStep(s, step, a, b);
      } else {
        OrderStep(s, step, a, b);
      }
    }
  }

  lemma {:induction false} NotBeforeRun<V>(s: State<V>, steps: seq<Step<V>>, a: Id, b: Id)
    requires Inv(s) && IsRun(s, steps) && NotBefore(s, a, b)
    ensures NotBefore(After(s, steps), a, b)
    decreases |steps|
  {
    if steps != [] {
      NotBeforeStep(s, steps[0], a, b);
      InvNext(s, steps[0]);
      NotBeforeRun(Next(s, steps[0]), steps[1..], a, b);
    }
  }

  /** No receiver gets an item while one that blocked before it is still waiting. `b` is any other
  operation that is not parked in front of `a` and has nothing yet, whether it has started or not. (For
  senders see `NoSendOvertakes`.) */
  lemma NoOvertaking<V>(capacity: nat, before: seq<Step<V>>, after: seq<Step<V>>, a: Id, b: Id)
    requires IsRun(Init(capacity), before) && IsRun(After(Init(capacity), before), after)
    requires var s := After(Init(capacity), before);
             && a < |s.ops| && s.ops[a].kind.Receiver? && s.ops[a].queued && a != b
             && !Ahead(s.chan.receivers, b, a) && (b < |s.ops| ==> s.ops[b].inbox == [])
    ensures var t := After(After(Init(capacity), before), after);
            a < |t.ops| && (b < |t.ops| && t.ops[b].inbox != [] ==> !t.ops[a].queued)
  {
    var s := After(Init(capacity), before);
    EveryRun(capacity, before);
    StartsNotBefore(s, a, b);
    NotBeforeRun(s, after, a, b);
    RunKeepsInv(s, after);
    NotBeforeMeansNothing(After(s, after), a, b);
  }

  lemma StartsNotBefore<V>(s: State<V>, a: Id, b: Id)
    requires Inv(s) && a < |s.ops| && s.ops[a].kind.Receiver? && s.ops[a].queued && a != b
    requires !Ahead(s.chan.receivers, b, a) && (b < |s.ops| ==> s.ops[b].inbox == [])
    ensures NotBefore(s, a, b)
  {
    assert WaiterOk(s, a);
    if b < |s.ops| && s.ops[b].kind.Receiver? {
      assert WaiterOk(s, b) && InboxOk(s, b);
      if s.ops[b].queued {
        OneIsAhead(s.chan.receivers, a, b);
      }
    }
  }

  lemma OneIsAhead(receivers: seq<Id>, a: Id, b: Id)
    requires a in receivers && b in receivers && a != b
    ensures Ahead(receivers, a, b) || Ahead(receivers, b, a)
  {
    var i :| 0 <= i < |receivers| && receivers[i] == a;
    var j :| 0 <= j < |receivers| && receivers[j] == b;
  }

  lemma NotBeforeMeansNothing<V>(s: State<V>, a: Id, b: Id)
    requires Inv(s) && NotBefore(s, a, b)
    ensures b < |s.ops| && s.ops[b].inbox != [] ==> !s.ops[a].queued
  {
    if b < |s.ops| {
      assert InboxOk(s, b) && WaiterOk(s, b);
      if Ahead(s.chan.receivers, a, b) {
        StillBlocked(s, a, b);
      }
    }
  }

  lemma StillBlocked<V>(s: State<V>, a: Id, b: Id)
    requires Inv(s) && Ahead(s.chan.receivers, a, b)
    ensures b < |s.ops| && s.ops[b].inbox == []
  {
    var i, j :| 0 <= i < j < |s.chan.receivers| && s.chan.receivers[i] == a && s.chan.receivers[j] == b;
    assert ReceiverLinked(s, s.chan.receivers[j]);
    assert WaiterOk(s, b) && InboxOk(s, b);
  }

  // ---------- closing ----------

  /** Closed, and nobody left on a list. */
  ghost predicate Shut<V>(s: State<V>) {
    s.chan.closed && s.chan.senders == [] && s.chan.receivers == []
  }

  lemma ShutStep<V>(s: State<V>, step: Step<V>)
    requires Core(s) && Enabled(s, step) && Shut(s)
    ensures Shut(Next(s, step))
    ensures Next(s, step).attempts == s.attempts && Next(s, step).withdrawn == s.withdrawn
  {
    if step.Act? {
      NotLinked(s, step.id);
      assert WaiterOk(s, step.id);
    }
  }

  lemma {:induction false} ShutRun<V>(s: State<V>, steps: seq<Step<V>>)
    requires Inv(s) && IsRun(s, steps) && Shut(s)
    ensures Shut(After(s, steps))
    ensures After(s, steps).attempts == s.attempts && After(s, steps).withdrawn == s.withdrawn
    decreases |steps|
  {
    if steps != [] {
      ShutStep(s, steps[0]);
      InvNext(s, steps[0]);
      ShutRun(Next(s, steps[0]), steps[1..]);
    }
  }

  /** Once closed, always closed with empty lists; nothing is ever accepted again, so what receivers
  still get is what was buffered, in its order; and a send that had not got through never will. */
  lemma ClosedForGood<V>(capacity: nat, before: seq<Step<V>>, after: seq<Step<V>>)
    requires IsRun(Init(capacity), before) && IsRun(After(Init(capacity), before), after)
    requires Shut(After(Init(capacity), before))
    ensures var s := After(Init(capacity), before);
            var t := After(s, after);
            && Shut(t)
            && Accepted(t) == Accepted(s)
            && forall i :: 0 <= i < |t.ops| && t.ops[i].kind.Sender? && Through(t.ops[i]) ==>
                 Carries(Accepted(s), i)
  {
    var s := After(Init(capacity), before);
    var t := After(s, after);
    EveryRun(capacity, before);
    RunKeepsInv(s, after);
    ShutRun(s, after);
    ShutAccepted(s);
    ShutAccepted(t);
    AllThroughAreCarried(t);
  }

  lemma ShutAccepted<V>(s: State<V>)
    requires Inv(s) && Shut(s)
    ensures Accepted(s) == Kept(s.attempts, s.withdrawn)
  {
    AcceptedIsKept(s);
  }

  lemma AllThroughAreCarried<V>(s: State<V>)
    requires Inv(s)
    ensures forall i :: 0 <= i < |s.ops| && s.ops[i].kind.Sender? && Through(s.ops[i]) ==>
              Carries(Accepted(s), i)
  {
    forall i | 0 <= i < |s.ops| && s.ops[i].kind.Sender? && Through(s.ops[i])
      ensures Carries(Accepted(s), i)
    {
      assert FateOk(s, i) && WaiterOk(s, i);
      ThroughIsCarried(s, i);
    }
  }

  /** A free mutex and a closed channel are enough for that: close leaves nobody behind. */
  lemma CloseLeavesNobody<V>(capacity: nat, steps: seq<Step<V>>)
    requires IsRun(Init(capacity), steps)
    requires After(Init(capacity), steps).mutex == None && After(Init(capacity), steps).chan.closed
    ensures Shut(After(Init(capacity), steps))
  {
    EveryRun(capacity, steps);
  }

  /** Taken off its list by close, and on its way back to its caller or there already. */
  ghost predicate ClosedOut<V>(op: Op<V>) {
    (Suspended(op.pc) && !op.queued && !op.done) || op.pc == Returned(Closed)
  }

  lemma ClosedOutStep<V>(s: State<V>, step: Step<V>, i: Id)
    requires Core(s) && Enabled(s, step) && i < |s.ops| && ClosedOut(s.ops[i])
    ensures i < |Next(s, step).ops| && ClosedOut(Next(s, step).ops[i])
  {
    assert WaiterOk(s, i);
    if step.Act? && step.id != i {
      Others(s, step.id, i);
    } else if step.Act? {
      ClosedOutOwnStep(s, i);
    }
  }

  lemma ClosedOutOwnStep<V>(s: State<V>, id: Id)
    requires Core(s) && Enabled(s, Act(id)) && ClosedOut(s.ops[id])
    ensures ClosedOut(Next(s, Act(id)).ops[id])
  {
    assert WaiterOk(s, id);
  }

  lemma {:induction false} ClosedOutRun<V>(s: State<V>, steps: seq<Step<V>>, i: Id)
    requires Inv(s) && IsRun(s, steps) && i < |s.ops| && ClosedOut(s.ops[i])
    ensures i < |After(s, steps).ops| && ClosedOut(After(s, steps).ops[i])
    decreases |steps|
  {
    if steps != [] {
      ClosedOutStep(s, steps[0], i);
      InvNext(s, steps[0]);
      ClosedOutRun(Next(s, steps[0]), steps[1..], i);
    }
  }

  /** Blocked on a channel that close is working on, or taken off its list by close already. */
  ghost predicate Doomed<V>(s: State<V>, w: Id) {
    w < |s.ops| && ((s.ops[w].queued && s.chan.closed) || ClosedOut(s.ops[w]))
  }

  /** A waiter on a closed channel means that close is still running, so nobody else can claim it and
  it cannot give up. */
  lemma CloserHasMutex<V>(s: State<V>, w: Id)
    requires Core(s) && w < |s.ops| && s.ops[w].queued && s.chan.closed
    ensures InClose(s) && s.mutex != Some(w)
  {
    assert WaiterOk(s, w);
    NotLinked(s, w);
  }

  lemma DoomedCloseStep<V>(s: State<V>, id: Id, w: Id)
    requires Core(s) && Enabled(s, Act(id)) && w < |s.ops| && s.ops[w].queued && s.chan.closed
    requires s.ops[id].pc.Closing?
    ensures Doomed(Next(s, Act(id)), w)
  {
    assert WaiterOk(s, id) && WaiterOk(s, w) && ClaimOk(s, id);
    var head := if s.chan.receivers != [] then s.chan.receivers[0] else s.chan.senders[0].who;
    NotLinked(s, w);
    if head == w {
      CloseClaims(s, id, w);
    }
  }

  lemma DoomedAct<V>(s: State<V>, id: Id, w: Id)
    requires Core(s) && Enabled(s, Act(id)) && w < |s.ops| && s.ops[w].queued && s.chan.closed
    ensures Doomed(Next(s, Act(id)), w)
  {
    CloserHasMutex(s, w);
    if s.ops[id].pc.Closing? {
      DoomedCloseStep(s, id, w);
    } else if s.ops[id].pc.Storing? || s.ops[id].pc.Waking? {
      assert ClaimOk(s, id);
    }
  }

  lemma DoomedStep<V>(s: State<V>, step: Step<V>, w: Id)
    requires Core(s) && Enabled(s, step) && Doomed(s, w)
    ensures Doomed(Next(s, step), w)
  {
    if ClosedOut(s.ops[w]) {
      ClosedOutStep(s, step, w);
    } else if step.Act? {
      DoomedAct(s, step.id, w);
    }
  }

  lemma {:induction false} DoomedRun<V>(s: State<V>, steps: seq<Step<V>>, w: Id)
    requires Inv(s) && IsRun(s, steps) && Doomed(s, w)
    ensures Doomed(After(s, steps), w)
    decreases |steps|
  {
    if steps != [] {
      DoomedStep(s, steps[0], w);
      InvNext(s, steps[0]);
      DoomedRun(Next(s, steps[0]), steps[1..], w);
    }
  }

  /** Everybody who is blocked when the channel is closed is taken off by close before it lets go of the
  mutex, and not by a peer or by giving up: it returns Closed or has not returned yet, it has got nothing,
  and a sender's item is never accepted. */
  lemma BlockedGetClosed<V>(capacity: nat, before: seq<Step<V>>, after: seq<Step<V>>, w: Id)
    requires IsRun(Init(capacity), before) && IsRun(After(Init(capacity), before), after)
    requires var s := After(Init(capacity), before); s.chan.closed && w < |s.ops| && s.ops[w].queued
    ensures var t := After(After(Init(capacity), before), after);
            && w < |t.ops| && (t.mutex == None ==> ClosedOut(t.ops[w]))
            && (t.ops[w].pc.Returned? ==> t.ops[w].pc.outcome == Closed)
            && (t.ops[w].kind.Sender? ==> !Carries(Accepted(t), w))
            && t.ops[w].inbox == []
  {
    var s := After(Init(capacity), before);
    EveryRun(capacity, before);
    DoomedRun(s, after, w);
    RunKeepsInv(s, after);
    DoomedHasNothing(After(s, after), w);
  }

  lemma DoomedIsNotThrough<V>(s: State<V>, w: Id)
    requires Core(s) && Doomed(s, w)
    ensures !Through(s.ops[w])
    ensures s.ops[w].pc.Returned? ==> s.ops[w].pc.outcome == Closed
  {
    assert WaiterOk(s, w);
  }

  lemma DoomedHasNothing<V>(s: State<V>, w: Id)
    requires Inv(s) && Doomed(s, w)
    ensures s.mutex == None ==> ClosedOut(s.ops[w])
    ensures s.ops[w].pc.Returned? ==> s.ops[w].pc.outcome == Closed
    ensures s.ops[w].kind.Sender? ==> !Carries(Accepted(s), w)
    ensures s.ops[w].inbox == []
  {
    if s.ops[w].queued && s.chan.closed {
      CloserHasMutex(s, w);
    }
    DoomedIsNotThrough(s, w);
    NotThroughHasNothing(s, w);
  }

  lemma NotThroughHasNothing<V>(s: State<V>, w: Id)
    requires Inv(s) && w < |s.ops| && !Through(s.ops[w])
    ensures s.ops[w].kind.Sender? ==> !Carries(Accepted(s), w)
    ensures s.ops[w].inbox == []
  {
    assert FateOk(s, w) && InboxOk(s, w);
    if s.ops[w].kind.Sender? && Carries(Accepted(s), w) {
      CarriedIsThrough(s, w);
    }
  }

  lemma CloseClaims<V>(s: State<V>, id: Id, w: Id)
    requires Core(s) && Enabled(s, Act(id)) && s.ops[id].pc == Closing
    requires if s.chan.receivers != [] then w == s.chan.receivers[0]
             else s.chan.senders != [] && w == s.chan.senders[0].who
    ensures w < |Next(s, Act(id)).ops| && ClosedOut(Next(s, Act(id)).ops[w])
  {
    assert ClaimOk(s, id) && WaiterOk(s, id);
    assert s.chan.receivers != [] ==> ReceiverLinked(s, s.chan.receivers[0]);
    assert s.chan.receivers == [] ==> SenderLinked(s, s.chan.senders[0]);
    assert WaiterOk(s, w);
  }
}
