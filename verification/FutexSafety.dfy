/** What every run of the channel guarantees: order, exactly-once outcomes, lifetimes, wake-ups,
closing. `IsRun(Init(capacity), steps)` ranges over every interleaving of any number of operations,
with cancellations and spurious wake-ups wherever they may strike. */
module FutexSafety {
  import opened Channel
  import opened FutexMachine
  import opened FutexInvariant
  import opened FutexHistory

  lemma {:induction false} RunKeepsInv<V>(s: State<V>, steps: seq<Step<V>>)
    requires Inv(s) && IsRun(s, steps)
    ensures Inv(After(s, steps))
    decreases |steps|
  {
    if steps != [] {
      InvNext(s, steps[0]);
      RunKeepsInv(Next(s, steps[0]), steps[1..]);
    }
  }

  lemma EveryRun<V>(capacity: nat, steps: seq<Step<V>>)
    requires IsRun(Init(capacity), steps)
    ensures Inv(After(Init(capacity), steps))
  {
    InvInit<V>(capacity);
    RunKeepsInv(Init(capacity), steps);
  }

  // ---------- one queue ----------

  /** A send that was not refused and can only return Closed or Canceled any more. */
  ghost predicate GaveUp<V>(s: State<V>, i: Id) {
    i < |s.ops| && s.ops[i].kind.Sender? && Attempted(s, i) && Lost(s.ops[i])
  }

  lemma WithdrawnIsGivenUp<V>(s: State<V>, i: Id)
    requires Inv(s)
    ensures i in s.withdrawn <==> GaveUp(s, i)
  {
    if i < |s.ops| {
      assert FateOk(s, i) && WaiterOk(s, i);
    }
  }

  /** On every interleaving the channel is one FIFO queue: the items received so far, then the
  buffered ones, then those of blocked senders, are the attempted sends in the order in which they
  held the mutex, less exactly those that were canceled or closed out. */
  lemma EveryRunIsFifo<V>(capacity: nat, steps: seq<Step<V>>)
    requires IsRun(Init(capacity), steps)
    ensures var s := After(Init(capacity), steps);
            && Delivered(s.deliveries) + (s.chan.ring + Items(s.chan.senders))
               == Kept(s.attempts, s.withdrawn)
            && DistinctFroms(s.attempts)
            && (forall i: Id :: i in s.withdrawn <==> GaveUp(s, i))
            && |s.chan.ring| <= s.chan.capacity
  {
    EveryRun(capacity, steps);
    var s := After(Init(capacity), steps);
    forall i: Id ensures i in s.withdrawn <==> GaveUp(s, i) {
      WithdrawnIsGivenUp(s, i);
    }
  }

  // ---------- exactly once ----------

  /** The items that have entered the ring or a receiver's destination. */
  ghost function Accepted<V>(s: State<V>): seq<Msg<V>> {
    Delivered(s.deliveries) + s.chan.ring
  }

  ghost predicate Carries<V>(ms: seq<Msg<V>>, i: Id) {
    exists k :: 0 <= k < |ms| && ms[k].from == i
  }

  lemma AcceptedIsKept<V>(s: State<V>)
    requires Log(s) && Attempts(s)
    ensures Kept(s.attempts, s.withdrawn) == Accepted(s) + Items(s.chan.senders)
    ensures DistinctFroms(Accepted(s) + Items(s.chan.senders))
    ensures DistinctFroms(Accepted(s))
  {
    KeptDistinct(s.attempts, s.withdrawn);
    var all := Accepted(s) + Items(s.chan.senders);
    assert Kept(s.attempts, s.withdrawn) == all;
    forall i, j | 0 <= i < j < |Accepted(s)| ensures Accepted(s)[i].from != Accepted(s)[j].from {
      assert all[i] == Accepted(s)[i] && all[j] == Accepted(s)[j];
    }
  }

  /** Whatever travels under the number of an operation is that operation's own item. */
  lemma OnlyOwnItem<V>(s: State<V>, i: Id, x: Msg<V>)
    requires Attempts(s) && i < |s.ops| && s.ops[i].kind.Sender?
    requires x in Kept(s.attempts, s.withdrawn) && x.from == i
    ensures x == Msg(i, s.ops[i].kind.value) && Attempted(s, i) && i !in s.withdrawn
  {
    KeptMember(s.attempts, s.withdrawn, x);
    var j :| 0 <= j < |s.attempts| && s.attempts[j] == x;
    assert AttemptOk(s, s.attempts[j]);
  }

  lemma FrontIsNotBack<V>(front: seq<Msg<V>>, back: seq<Msg<V>>, k: nat, j: nat)
    requires DistinctFroms(front + back) && k < |front| && j < |back|
    ensures front[k].from != back[j].from
  {
    assert (front + back)[k] == front[k] && (front + back)[|front| + j] == back[j];
  }

  lemma CarriedIsThrough<V>(s: State<V>, i: Id)
    requires Log(s) && Attempts(s) && Lists(s)
    requires i < |s.ops| && s.ops[i].kind.Sender? && FateOk(s, i) && Carries(Accepted(s), i)
    ensures Through(s.ops[i]) && Msg(i, s.ops[i].kind.value) in Accepted(s)
  {
    var acc, blocked := Accepted(s), Items(s.chan.senders);
    AcceptedIsKept(s);
    var k :| 0 <= k < |acc| && acc[k].from == i;
    assert (acc + blocked)[k] == acc[k] && acc[k] in acc + blocked;
    OnlyOwnItem(s, i, acc[k]);
    forall j | 0 <= j < |s.chan.senders| ensures Whos(s.chan.senders)[j] != i {
      FrontIsNotBack(acc, blocked, k, j);
      assert SenderLinked(s, s.chan.senders[j]);
    }
    NotLinked(s, i);
  }

  lemma ThroughIsCarried<V>(s: State<V>, i: Id)
    requires Log(s) && Attempts(s) && Lists(s)
    requires i < |s.ops| && s.ops[i].kind.Sender? && FateOk(s, i) && WaiterOk(s, i) && Through(s.ops[i])
    ensures Carries(Accepted(s), i)
  {
    var acc, blocked := Accepted(s), Items(s.chan.senders);
    var m := Msg(i, s.ops[i].kind.value);
    AcceptedIsKept(s);
    KeptMember(s.attempts, s.withdrawn, m);
    forall j | 0 <= j < |blocked| ensures blocked[j] != m {
      assert SenderLinked(s, s.chan.senders[j]);
    }
    assert m in acc + blocked && m !in blocked;
    OwnItemIsCarried(acc, m);
  }

  lemma OwnItemIsCarried<V>(ms: seq<Msg<V>>, m: Msg<V>)
    ensures m in ms ==> Carries(ms, m.from)
  {
  }

  /** Dropping withdrawn attempts keeps the order of the others. */
  lemma {:induction false} KeptOrder<V>(attempts: seq<Msg<V>>, withdrawn: set<Id>, i: nat, j: nat)
    returns (p: nat, q: nat)
    requires i < j < |attempts| && attempts[i].from !in withdrawn && attempts[j].from !in withdrawn
    ensures p < q < |Kept(attempts, withdrawn)|
    ensures Kept(attempts, withdrawn)[p] == attempts[i] && Kept(attempts, withdrawn)[q] == attempts[j]
    decreases |attempts|
  {
    var n := |attempts| - 1;
    var init := attempts[..n];
    if j < n {
      p, q := KeptOrder(init, withdrawn, i, j);
    } else {
      KeptMember(init, withdrawn, attempts[i]);
      assert init[i] == attempts[i];
      p :| 0 <= p < |Kept(init, withdrawn)| && Kept(init, withdrawn)[p] == attempts[i];
      q := |Kept(init, withdrawn)|;
    }
  }

  /** No send overtakes an earlier one: when an item has been accepted, so has every item that was
  attempted before it, unless that one was withdrawn. */
  lemma NoSendOvertakes<V>(capacity: nat, steps: seq<Step<V>>, i: nat, j: nat)
    requires IsRun(Init(capacity), steps) && i < j < |After(Init(capacity), steps).attempts|
    ensures var s := After(Init(capacity), steps);
            Carries(Accepted(s), s.attempts[j].from) ==>
              s.attempts[i].from in s.withdrawn || s.attempts[i] in Accepted(s)
  {
    var s := After(Init(capacity), steps);
    EveryRun(capacity, steps);
    if Carries(Accepted(s), s.attempts[j].from) && s.attempts[i].from !in s.withdrawn {
      EarlierIsAccepted(s, i, j);
    }
  }

  lemma EarlierIsAccepted<V>(s: State<V>, i: nat, j: nat)
    requires Log(s) && Attempts(s) && i < j < |s.attempts|
    requires Carries(Accepted(s), s.attempts[j].from) && s.attempts[i].from !in s.withdrawn
    ensures s.attempts[i] in Accepted(s)
  {
    var acc, kept := Accepted(s), Kept(s.attempts, s.withdrawn);
    AcceptedIsKept(s);
    var k :| 0 <= k < |acc| && acc[k].from == s.attempts[j].from;
    assert kept[k] == acc[k];
    KeptMember(s.attempts, s.withdrawn, kept[k]);
    var p, q := KeptOrder(s.attempts, s.withdrawn, i, j);
    SameFromSamePlace(kept, k, q);
    assert kept[p] == acc[p];
  }

  lemma SameFromSamePlace<V>(ms: seq<Msg<V>>, a: nat, b: nat)
    requires DistinctFroms(ms) && a < |ms| && b < |ms| && ms[a].from == ms[b].from
    ensures a == b
  {
  }

  /** A send returns success exactly when its item has been accepted, once; a send that returns
  Closed or Canceled has left no trace in the channel and no receiver ever got its item. A receive
  returns success exactly when one item has been written to its destination, and otherwise nothing
  has. This holds however a cancellation races with a hand-off. */
  lemma OutcomesAreExact<V>(capacity: nat, steps: seq<Step<V>>, i: Id)
    requires IsRun(Init(capacity), steps)
    requires i < |After(Init(capacity), steps).ops|
    requires After(Init(capacity), steps).ops[i].pc.Returned?
    ensures var s := After(Init(capacity), steps);
            var op := s.ops[i];
            var accepted := Accepted(s);
            && (op.kind.Sender? ==>
                  && DistinctFroms(accepted)
                  && (op.pc.outcome == Success <==> Msg(i, op.kind.value) in accepted)
                  && (op.pc.outcome != Success ==>
                        !Carries(accepted, i) && i !in Whos(s.chan.senders)))
            && (op.kind.Receiver? ==>
                  && op.inbox == ValuesFor(s.deliveries, i)
                  && |op.inbox| == (if op.pc.outcome == Success then 1 else 0)
                  && i !in s.chan.receivers)
  {
    EveryRun(capacity, steps);
    var s := After(Init(capacity), steps);
    assert WaiterOk(s, i) && InboxOk(s, i) && FateOk(s, i);
    if s.ops[i].kind.Sender? {
      AcceptedIsKept(s);
      NotLinked(s, i);
      if Through(s.ops[i]) {
        ThroughIsCarried(s, i);
      }
      if Carries(Accepted(s), i) {
        CarriedIsThrough(s, i);
      }
      OwnItemIsCarried(Accepted(s), Msg(i, s.ops[i].kind.value));
    } else if s.ops[i].kind.Receiver? {
      NotLinked(s, i);
    }
  }

  /** Linked is the same as queued. */
  lemma NotLinked<V>(s: State<V>, i: Id)
    requires Lists(s) && i < |s.ops|
    ensures s.ops[i].kind.Sender? ==> (s.ops[i].queued <==> i in Whos(s.chan.senders))
    ensures s.ops[i].kind.Receiver? ==> (s.ops[i].queued <==> i in s.chan.receivers)
  {
    if i in Whos(s.chan.senders) {
      var k :| 0 <= k < |s.chan.senders| && Whos(s.chan.senders)[k] == i;
      assert SenderLinked(s, s.chan.senders[k]);
    }
    if i in s.chan.receivers {
      var k :| 0 <= k < |s.chan.receivers| && s.chan.receivers[k] == i;
      assert ReceiverLinked(s, s.chan.receivers[k]);
    }
  }

  // ---------- lifetimes ----------

  ghost predicate Linked<V>(s: State<V>, w: Id) {
    w in s.chan.receivers || w in Whos(s.chan.senders)
  }

  /** The frames a step may read or write: the operation's own; the waiter it stores to or wakes; and,
  while it works on the lists, those of every linked waiter, whose nodes, flags and data it may use. */
  ghost predicate MayTouch<V>(s: State<V>, step: Step<V>, w: Id) {
    match step
    case Start(_) => false
    case Act(id) =>
      && id < |s.ops|
      && (w == id
          || s.ops[id].pc == Storing(w)
          || s.ops[id].pc == Waking(w)
          || ((s.ops[id].pc.Inside? || s.ops[id].pc.Closing? || s.ops[id].pc.Deciding?) && Linked(s, w)))
    case Spurious(id) => w == id
    case Cancel(id) => w == id
  }

  lemma HeadsAreLinked<V>(s: State<V>)
    ensures s.chan.receivers != [] ==> Linked(s, s.chan.receivers[0])
    ensures s.chan.senders != [] ==> Linked(s, s.chan.senders[0].who)
  {
    if s.chan.senders != [] {
      assert Whos(s.chan.senders)[0] == s.chan.senders[0].who;
    }
  }

  ghost function WithFrame<V>(s: State<V>, w: Id, frame: Op<V>): State<V>
    requires w < |s.ops|
  {
    s.(ops := s.ops[w := frame])
  }

  lemma FrameKeepsRange<V>(s: State<V>, w: Id, frame: Op<V>)
    requires InRange(s) && w < |s.ops| && TargetInRange(s, frame.pc)
    ensures InRange(WithFrame(s, w, frame))
  {
  }

  lemma OneUpdate<V>(s: State<V>, id: Id, op: Op<V>, w: Id, frame: Op<V>)
    requires id < |s.ops| && w < |s.ops| && w != id
    ensures WithFrame(WithFrame(s, w, frame), id, op) == WithFrame(WithFrame(s, id, op), w, frame)
  {
    assert s.ops[w := frame][id := op] == s.ops[id := op][w := frame];
  }

  lemma ClaimReads<V>(s: State<V>, id: Id, to: Id, done: bool, w: Id, frame: Op<V>)
    requires id < |s.ops| && to < |s.ops| && w < |s.ops| && w != id && w != to
    ensures Claim(WithFrame(s, w, frame), id, to, done) == WithFrame(Claim(s, id, to, done), w, frame)
  {
    var op := s.ops[to].(done := done, queued := false);
    OneUpdate(s, to, op, w, frame);
    var t := WithFrame(s, to, op);
    OneUpdate(t, id, t.ops[id].(pc := Storing(to)), w, frame);
  }

  lemma SendReads<V>(s: State<V>, id: Id, w: Id, frame: Op<V>)
    requires w < |s.ops| && InRange(s) && InRange(WithFrame(s, w, frame)) && id < |s.ops| && s.ops[id].kind.Sender?
    requires w != id && (s.chan.receivers != [] ==> w != s.chan.receivers[0])
    ensures |DoSend(s, id).ops| == |s.ops|
    ensures DoSend(WithFrame(s, w, frame), id) == WithFrame(DoSend(s, id), w, frame)
  {
    var msg := Msg(id, s.ops[id].kind.value);
    var (chan, result) := Send(s.chan, msg);
    match result
    case Handed(to) =>
      var t := s.(chan := chan, attempts := s.attempts + [msg],
                  deliveries := s.deliveries + [Delivery(msg, to)]);
      var op := t.ops[to].(inbox := t.ops[to].inbox + [msg.value]);
      OneUpdate(t, to, op, w, frame);
      ClaimReads(WithFrame(t, to, op), id, to, true, w, frame);
    case _ =>
      var op := DoSend(s, id).ops[id];
      OneUpdate(DoSend(s, id).(ops := s.ops), id, op, w, frame);
  }

  lemma ReceiveReads<V>(s: State<V>, id: Id, w: Id, frame: Op<V>)
    requires w < |s.ops| && InRange(s) && InRange(WithFrame(s, w, frame)) && id < |s.ops|
    requires w != id && (s.chan.senders != [] ==> w != s.chan.senders[0].who)
    ensures |DoReceive(s, id).ops| == |s.ops|
    ensures DoReceive(WithFrame(s, w, frame), id) == WithFrame(DoReceive(s, id), w, frame)
  {
    var (chan, result) := Receive(s.chan);
    if result.Got? && result.released.Some? {
      var msg := result.item;
      var t := s.(chan := chan, deliveries := s.deliveries + [Delivery(msg, id)]);
      var op := s.ops[id].(inbox := s.ops[id].inbox + [msg.value]);
      OneUpdate(t, id, op, w, frame);
      ClaimReads(WithFrame(t, id, op), id, result.released.value, true, w, frame);
    } else {
      var op := DoReceive(s, id).ops[id];
      OneUpdate(DoReceive(s, id).(ops := s.ops), id, op, w, frame);
    }
  }

  lemma CloseReads<V>(s: State<V>, id: Id, w: Id, frame: Op<V>)
    requires w < |s.ops| && InRange(s) && InRange(WithFrame(s, w, frame)) && id < |s.ops| && w != id
    requires s.chan.receivers != [] ==> w != s.chan.receivers[0]
    requires s.chan.senders != [] ==> w != s.chan.senders[0].who
    ensures |DoClose(s, id).ops| == |s.ops|
    ensures DoClose(WithFrame(s, w, frame), id) == WithFrame(DoClose(s, id), w, frame)
  {
    if s.chan.receivers != [] {
      ClaimReads(s.(chan := s.chan.(receivers := s.chan.receivers[1..])), id, s.chan.receivers[0], false,
                 w, frame);
    } else if s.chan.senders != [] {
      var who := s.chan.senders[0].who;
      ClaimReads(s.(chan := s.chan.(senders := s.chan.senders[1..]), withdrawn := s.withdrawn + {who}),
                 id, who, false, w, frame);
    } else {
      OneUpdate(s, id, s.ops[id].(pc := Leaving(Success)), w, frame);
    }
  }

  lemma WakeReads<V>(s: State<V>, id: Id, w: Id, frame: Op<V>)
    requires Enabled(s, Act(id)) && (s.ops[id].pc.Storing? || s.ops[id].pc.Waking?)
    requires w < |s.ops| && w != id && w != s.ops[id].pc.target
    requires Enabled(WithFrame(s, w, frame), Act(id))
    ensures Next(WithFrame(s, w, frame), Act(id)) == WithFrame(Next(s, Act(id)), w, frame)
  {
    var to, t := s.ops[id].pc.target, Next(s, Act(id));
    if to == id {
      OneUpdate(s, id, t.ops[id], w, frame);
      assert t.ops == s.ops[id := t.ops[id]];
      assert Next(WithFrame(s, w, frame), Act(id)).ops == s.ops[w := frame][id := t.ops[id]];
    } else {
      OneUpdate(s, to, t.ops[to], w, frame);
      OneUpdate(WithFrame(s, to, t.ops[to]), id, t.ops[id], w, frame);
      assert t.ops == s.ops[to := t.ops[to]][id := t.ops[id]];
      assert Next(WithFrame(s, w, frame), Act(id)).ops
          == s.ops[w := frame][to := t.ops[to]][id := t.ops[id]];
    }
  }

  lemma OwnFrameReads<V>(s: State<V>, id: Id, w: Id, frame: Op<V>)
    requires Enabled(s, Act(id)) && w < |s.ops| && w != id && Enabled(WithFrame(s, w, frame), Act(id))
    requires !s.ops[id].pc.Storing? && !s.ops[id].pc.Waking? && !s.ops[id].pc.Closing?
    requires s.ops[id].pc.Inside? ==> s.ops[id].kind.Closer?
    ensures Next(WithFrame(s, w, frame), Act(id)) == WithFrame(Next(s, Act(id)), w, frame)
  {
    var t := Next(s, Act(id));
    OneUpdate(t.(ops := s.ops), id, t.ops[id], w, frame);
    assert t.ops == s.ops[id := t.ops[id]];
  }

  lemma ActReads<V>(s: State<V>, id: Id, w: Id, frame: Op<V>)
    requires Enabled(s, Act(id)) && w < |s.ops| && !MayTouch(s, Act(id), w)
    requires Enabled(WithFrame(s, w, frame), Act(id))
    ensures Next(WithFrame(s, w, frame), Act(id)) == WithFrame(Next(s, Act(id)), w, frame)
  {
    HeadsAreLinked(s);
    match s.ops[id].pc
    case Storing(_) => WakeReads(s, id, w, frame);
    case Waking(_) => WakeReads(s, id, w, frame);
    case Closing => CloseReads(s, id, w, frame);
    case Inside =>
      match s.ops[id].kind {
        case Sender(_) => SendReads(s, id, w, frame);
        case Receiver => ReceiveReads(s, id, w, frame);
        case Closer => OwnFrameReads(s, id, w, frame);
      }
    case _ => OwnFrameReads(s, id, w, frame);
  }

  lemma EnabledReads<V>(s: State<V>, step: Step<V>, w: Id, frame: Op<V>)
    requires Enabled(s, step) && w < |s.ops| && !MayTouch(s, step, w) && TargetInRange(s, frame.pc)
    ensures Enabled(WithFrame(s, w, frame), step)
  {
    FrameKeepsRange(s, w, frame);
  }

  lemma UnaskedReads<V>(s: State<V>, step: Step<V>, w: Id, frame: Op<V>)
    requires w < |s.ops| && !MayTouch(s, step, w)
    requires Enabled(s, step) && Enabled(WithFrame(s, w, frame), step) && !step.Act?
    ensures Next(WithFrame(s, w, frame), step) == WithFrame(Next(s, step), w, frame)
  {
    if step.Start? {
      var op := Op(step.kind, Entering, false, false, false, []);
      assert s.ops[w := frame] + [op] == (s.ops + [op])[w := frame];
    } else {
      OneUpdate(s, step.id, Next(s, step).ops[step.id], w, frame);
    }
  }

  /** `MayTouch` misses nothing that a step reads: with any other frame in the place of one outside it,
  the step is as possible as before and does the same to everything else. */
  lemma ReadsOnlyWhatItMayTouch<V>(s: State<V>, step: Step<V>, w: Id, frame: Op<V>)
    requires Enabled(s, step) && w < |s.ops| && !MayTouch(s, step, w) && TargetInRange(s, frame.pc)
    ensures w < |Next(s, step).ops| && Enabled(WithFrame(s, w, frame), step)
    ensures Next(WithFrame(s, w, frame), step) == WithFrame(Next(s, step), w, frame)
  {
    EnabledReads(s, step, w, frame);
    if step.Act? {
      ActReads(s, step.id, w, frame);
    } else {
      UnaskedReads(s, step, w, frame);
    }
  }

  /** `MayTouch` misses nothing that a step changes either. */
  lemma ChangesOnlyWhatItMayTouch<V>(s: State<V>, step: Step<V>, w: Id)
    requires Enabled(s, step) && w < |s.ops| && !MayTouch(s, step, w)
    ensures w < |Next(s, step).ops| && Next(s, step).ops[w] == s.ops[w]
  {
    ReadsOnlyWhatItMayTouch(s, step, w, s.ops[w]);
    assert WithFrame(s, w, s.ops[w]) == s by {
      assert s.ops[w := s.ops[w]] == s.ops;
    }
  }

  /** No step of any run touches the frame of an operation that has returned, and what it touches of
  another operation is a waiter that exists: the claim of the note at the top of the source file. */
  lemma FramesOutliveTheirUse<V>(capacity: nat, steps: seq<Step<V>>, step: Step<V>, w: Id)
    requires IsRun(Init(capacity), steps)
    requires Enabled(After(Init(capacity), steps), step) && MayTouch(After(Init(capacity), steps), step, w)
    ensures var s := After(Init(capacity), steps);
            && w < |s.ops| && !s.ops[w].pc.Returned?
            && (w == step.id || (Suspended(s.ops[w].pc) && !s.ops[w].pc.Reading?))
  {
    EveryRun(capacity, steps);
    var s := After(Init(capacity), steps);
    if w != step.id {
      assert ClaimOk(s, step.id);
      if Linked(s, w) {
        LinkedIsQueued(s, w);
        assert WaiterOk(s, w);
      }
    }
  }

  lemma LinkedIsQueued<V>(s: State<V>, w: Id)
    requires Lists(s) && Linked(s, w)
    ensures w < |s.ops| && s.ops[w].queued
  {
    if w in s.chan.receivers {
      var k :| 0 <= k < |s.chan.receivers| && s.chan.receivers[k] == w;
      assert ReceiverLinked(s, s.chan.receivers[k]);
    } else {
      var k :| 0 <= k < |s.chan.senders| && Whos(s.chan.senders)[k] == w;
      assert SenderLinked(s, s.chan.senders[k]);
    }
  }

  // ---------- wake-ups ----------

  /** A thread asleep although its word is set is about to be woken by the thread that holds the mutex,
  and a thread asleep off its list, with its word clear, is about to have its word set. */
  lemma NoLostWakeup<V>(capacity: nat, steps: seq<Step<V>>, w: Id)
    requires IsRun(Init(capacity), steps)
    requires w < |After(Init(capacity), steps).ops| && After(Init(capacity), steps).ops[w].pc == Asleep
    ensures var s := After(Init(capacity), steps);
            && (s.ops[w].word ==> AboutToWake(s, w))
            && (!s.ops[w].word && !s.ops[w].queued ==> AboutToStore(s, w))
            && (s.mutex == None ==> s.ops[w].queued && !s.ops[w].word)
  {
    EveryRun(capacity, steps);
    assert WaiterOk(After(Init(capacity), steps), w);
  }

  // ---------- the lists whenever the mutex is free ----------

  lemma UnlockedStates<V>(capacity: nat, steps: seq<Step<V>>)
    requires IsRun(Init(capacity), steps) && After(Init(capacity), steps).mutex == None
    ensures var s := After(Init(capacity), steps);
            && (s.chan.receivers != [] ==> s.chan.ring == [] && s.chan.senders == [] && !s.chan.closed)
            && (s.chan.senders != [] ==>
                  |s.chan.ring| == s.chan.capacity && s.chan.receivers == [] && !s.chan.closed)
            && (forall i {:trigger s.ops[i]} :: 0 <= i < |s.ops| ==>
                  (Linked(s, i) <==> s.ops[i].queued)
                  && (s.ops[i].queued ==> !s.ops[i].word && !s.ops[i].done && s.ops[i].inbox == []))
  {
    EveryRun(capacity, steps);
    var s := After(Init(capacity), steps);
    forall i | 0 <= i < |s.ops|
      ensures (Linked(s, i) <==> s.ops[i].queued)
              && (s.ops[i].queued ==> !s.ops[i].word && !s.ops[i].done && s.ops[i].inbox == [])
    {
      assert WaiterOk(s, i) && InboxOk(s, i);
      if Linked(s, i) {
        LinkedIsQueued(s, i);
      }
    }
  }
}
