/** Any number of send, receive and close operations running against one channel, one memory access
at a time.

An operation is its own thread of control with its own stack frame. Operations are numbered in the
order they start and a number is never used twice, so a step that touches the frame of an operation
that has returned is a use after the frame died. The mutex is modelled by who holds it and a futex
word by its value; setting the word and the wake call on it are separate steps, as are releasing the
mutex and reading the word. Memory is sequentially consistent. */
module FutexMachine {
  import opened Channel

  type Id = nat

  /** An item in flight carries the number of the send it comes from. */
  datatype Msg<V> = Msg(from: Id, value: V)
  datatype Delivery<V> = Delivery(msg: Msg<V>, to: Id)

  datatype Kind<V> = Sender(value: V) | Receiver | Closer
  datatype Outcome = Success | Closed | Canceled

  datatype Pc =
    | Entering              // about to take the mutex
    | Inside                // has the mutex, has not looked at the channel
    | Closing               // has the mutex, in one of the loops of close
    | Storing(target: Id)   // has the mutex, about to set the word of a waiter it has claimed
    | Waking(target: Id)    // has the mutex, about to call futexWake on that word
    | Leaving(with: Outcome) // has the mutex, about to release it and return
    | Parking               // has the mutex, linked into a list, about to release it
    | Loading               // about to read its own word
    | Waiting               // about to enter futexWait
    | Asleep                // suspended in futexWait
    | Canceling             // futexWait was canceled; about to take the mutex
    | Deciding              // has the mutex, about to find out who won
    | Rejoining             // saw its word set; about to take the mutex
    | Rejoined              // has the mutex, about to release it
    | Reading               // about to read its own `done`
    | Returned(outcome: Outcome)

  /** One operation and the waiter in its frame. `inbox` is what has been written to its destination. */
  datatype Op<V> = Op(kind: Kind<V>, pc: Pc, word: bool, done: bool, queued: bool, inbox: seq<V>)

  /** `attempts` lists the sends that were not refused, in the order they held the mutex; `withdrawn`
  those of them that were canceled or closed out; `deliveries` what receivers were given. */
  datatype State<V> = State(
    chan: Chan<Id, Msg<V>>,
    mutex: Option<Id>,
    ops: seq<Op<V>>,
    attempts: seq<Msg<V>>,
    withdrawn: set<Id>,
    deliveries: seq<Delivery<V>>)

  datatype Step<V> =
    | Start(kind: Kind<V>)  // somebody calls send, receive or close
    | Act(id: Id)           // the operation does its next access
    | Spurious(id: Id)      // futexWait returns without a wake
    | Cancel(id: Id)        // mutex.lock or futexWait returns Canceled

  ghost function Init<V>(capacity: nat): State<V> {
    State(Empty(capacity), None, [], [], {}, [])
  }

  // ---------- the steps ----------

  /** Every number in a list or a program counter denotes an operation. Always true (`EveryRun`). */
  ghost predicate InRange<V>(s: State<V>) {
    && (forall k :: 0 <= k < |s.chan.receivers| ==> s.chan.receivers[k] < |s.ops|)
    && (forall k :: 0 <= k < |s.chan.senders| ==> s.chan.senders[k].who < |s.ops|)
    && (forall i :: 0 <= i < |s.ops| ==> TargetInRange(s, s.ops[i].pc))
  }

  ghost predicate TargetInRange<V>(s: State<V>, pc: Pc) {
    match pc
    case Storing(w) => w < |s.ops|
    case Waking(w) => w < |s.ops|
    case _ => true
  }

  ghost predicate Enabled<V>(s: State<V>, step: Step<V>) {
    InRange(s) &&
    match step
    case Start(_) => true
    case Act(id) =>
      && id < |s.ops|
      && (match s.ops[id].pc
          case Entering => s.mutex.None?
          case Canceling => s.mutex.None?
          case Rejoining => s.mutex.None?
          case Asleep => false
          case Returned(_) => false
          case _ => true)
    case Spurious(id) => id < |s.ops| && s.ops[id].pc == Asleep
    case Cancel(id) =>
      && id < |s.ops|
      && (match s.ops[id].pc
          case Entering => !s.ops[id].kind.Closer?
          case Waiting => true
          case Asleep => true
          case _ => false)
  }

  ghost function SetPc<V>(s: State<V>, id: Id, pc: Pc): (t: State<V>)
    requires id < |s.ops|
    ensures |t.ops| == |s.ops|
  {
    s.(ops := s.ops[id := s.ops[id].(pc := pc)])
  }

  /** The frame of an operation that has just linked itself into a list. */
  ghost function Park<V>(s: State<V>, id: Id): (t: State<V>)
    requires id < |s.ops|
    ensures |t.ops| == |s.ops|
  {
    s.(ops := s.ops[id := s.ops[id].(pc := Parking, word := false, done := false, queued := true)])
  }

  /** `id` takes waiter `w` off its list; it will set its word next. */
  ghost function Claim<V>(s: State<V>, id: Id, w: Id, done: bool): (t: State<V>)
    requires id < |s.ops| && w < |s.ops|
    ensures |t.ops| == |s.ops|
  {
    SetPc(s.(ops := s.ops[w := s.ops[w].(done := done, queued := false)]), id, Storing(w))
  }

  ghost function DoSend<V>(s: State<V>, id: Id): (t: State<V>)
    requires InRange(s) && id < |s.ops| && s.ops[id].kind.Sender?
    ensures |t.ops| == |s.ops|
  {
    var msg := Msg(id, s.ops[id].kind.value);
    var (chan, result) := Send(s.chan, msg);
    match result
    case SendRefused => SetPc(s, id, Leaving(Closed))
    case Handed(to) =>
      var t := s.(chan := chan, attempts := s.attempts + [msg],
                  deliveries := s.deliveries + [Delivery(msg, to)]);
      Claim(t.(ops := t.ops[to := t.ops[to].(inbox := t.ops[to].inbox + [msg.value])]), id, to, true)
    case Stored => SetPc(s.(chan := chan, attempts := s.attempts + [msg]), id, Leaving(Success))
    case SendMustPark => Park(s.(chan := ParkSender(chan, id, msg), attempts := s.attempts + [msg]), id)
  }

  ghost function DoReceive<V>(s: State<V>, id: Id): (t: State<V>)
    requires InRange(s) && id < |s.ops|
    ensures |t.ops| == |s.ops|
  {
    var (chan, result) := Receive(s.chan);
    match result
    case ReceiveRefused => SetPc(s, id, Leaving(Closed))
    case Got(msg, released) =>
      var t := s.(chan := chan, deliveries := s.deliveries + [Delivery(msg, id)],
                  ops := s.ops[id := s.ops[id].(inbox := s.ops[id].inbox + [msg.value])]);
      if released.Some? then Claim(t, id, released.value, true)
      else SetPc(t, id, Leaving(Success))
    case ReceiveMustPark => Park(s.(chan := ParkReceiver(chan, id)), id)
  }

  /** One turn of the loops of close. */
  ghost function DoClose<V>(s: State<V>, id: Id): (t: State<V>)
    requires InRange(s) && id < |s.ops|
    ensures |t.ops| == |s.ops|
  {
    if s.chan.receivers != [] then
      Claim(s.(chan := s.chan.(receivers := s.chan.receivers[1..])), id, s.chan.receivers[0], false)
    else if s.chan.senders != [] then
      var w := s.chan.senders[0].who;
      Claim(s.(chan := s.chan.(senders := s.chan.senders[1..]), withdrawn := s.withdrawn + {w}),
            id, w, false)
    else SetPc(s, id, Leaving(Success))
  }

  /** Under the mutex, a canceled wait gives up unless somebody has claimed it. */
  ghost function DoDecide<V>(s: State<V>, id: Id): (t: State<V>)
    requires id < |s.ops|
    ensures |t.ops| == |s.ops|
  {
    if s.ops[id].queued then
      SetPc(s.(chan := Channel.Cancel(s.chan, id),
               withdrawn := if s.ops[id].kind.Sender? then s.withdrawn + {id} else s.withdrawn,
               ops := s.ops[id := s.ops[id].(queued := false)]),
            id, Leaving(Canceled))
    else SetPc(s, id, Rejoined)
  }

  ghost function DoAct<V>(s: State<V>, id: Id): (t: State<V>)
    requires Enabled(s, Act(id))
    ensures |t.ops| == |s.ops|
  {
    var op := s.ops[id];
    match op.pc
    case Entering => SetPc(s.(mutex := Some(id)), id, Inside)
    case Inside =>
      if op.kind.Sender? then DoSend(s, id)
      else if op.kind.Receiver? then DoReceive(s, id)
      else if s.chan.closed then SetPc(s, id, Leaving(Success))
      else SetPc(s.(chan := s.chan.(closed := true)), id, Closing)
    case Closing => DoClose(s, id)
    case Storing(w) => SetPc(s.(ops := s.ops[w := s.ops[w].(word := true)]), id, Waking(w))
    case Waking(w) =>
      var t := if s.ops[w].pc == Asleep then SetPc(s, w, Loading) else s;
      SetPc(t, id, if op.kind.Closer? then Closing else Leaving(Success))
    case Leaving(outcome) => SetPc(s.(mutex := None), id, Returned(outcome))
    case Parking => SetPc(s.(mutex := None), id, Loading)
    case Loading => SetPc(s, id, if op.word then Rejoining else Waiting)
    case Waiting => SetPc(s, id, if op.word then Loading else Asleep)
    case Canceling => SetPc(s.(mutex := Some(id)), id, Deciding)
    case Deciding => DoDecide(s, id)
    case Rejoining => SetPc(s.(mutex := Some(id)), id, Rejoined)
    case Rejoined => SetPc(s.(mutex := None), id, Reading)
    case Reading => SetPc(s, id, Returned(if op.done then Success else Closed))
    case _ => s
  }

  ghost function Next<V>(s: State<V>, step: Step<V>): (t: State<V>)
    requires Enabled(s, step)
    ensures |t.ops| == |s.ops| + if step.Start? then 1 else 0
  {
    match step
    case Start(kind) => s.(ops := s.ops + [Op(kind, Entering, false, false, false, [])])
    case Act(id) => DoAct(s, id)
    case Spurious(id) => SetPc(s, id, Loading)
    case Cancel(id) =>
      SetPc(s, id, if s.ops[id].pc == Entering then Returned(Canceled) else Canceling)
  }

  // ---------- runs ----------

  ghost predicate IsRun<V>(s: State<V>, steps: seq<Step<V>>)
    decreases |steps|
  {
    steps == [] || (Enabled(s, steps[0]) && IsRun(Next(s, steps[0]), steps[1..]))
  }

  ghost function After<V>(s: State<V>, steps: seq<Step<V>>): State<V>
    requires IsRun(s, steps)
    decreases |steps|
  {
    if steps == [] then s else After(Next(s, steps[0]), steps[1..])
  }
}
