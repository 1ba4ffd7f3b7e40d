/** Two coroutines that bounce a counter over two slots, each a value with two semaphores. Nothing is
ever closed: a task that reaches the limit sends one more value, so that its peer is not left waiting.

Each step is one operation on a semaphore or on a slot's value, and the tasks interleave in any way.
Main waits for one unit of `done` from either task. */
module PhotonSlot {
  import opened Turns

  datatype Slot = Slot(value: nat, full: nat, empty: nat)

  datatype Pc =
    | WaitEmpty(v: nat, last: bool)   // about to take the slot
    | WriteValue(v: nat, last: bool)
    | SignalFull(last: bool)
    | WaitFull
    | ReadValue
    | SignalEmpty(v: nat)
    | Report                          // about to signal main
    | Finished

  /** `sent` and `read` list the values written to and read from the slots, in order. */
  datatype Pair = Pair(ab: Slot, ba: Slot, a: Pc, b: Pc, done: nat, mainDone: bool,
                       sent: seq<nat>, read: seq<nat>)

  ghost function Init(): Pair {
    Pair(Slot(0, 0, 1), Slot(0, 0, 1), WaitEmpty(0, false), WaitFull, 0, false, [], [])
  }

  ghost function Task(s: Pair, w: Who): Pc {
    if w.A? then s.a else s.b
  }

  ghost function Out(s: Pair, w: Who): Slot {
    if w.A? then s.ab else s.ba
  }

  ghost function Update(s: Pair, w: Who, pc: Pc): Pair {
    if w.A? then s.(a := pc) else s.(b := pc)
  }

  ghost function UpdateOut(s: Pair, w: Who, q: Slot): Pair {
    if w.A? then s.(ab := q) else s.(ba := q)
  }

  // ---------- steps ----------

  datatype Step = Move(w: Who) | MainWait

  ghost predicate Enabled(s: Pair, step: Step) {
    match step
    case Move(w) =>
      (match Task(s, w)
       case WaitEmpty(_, _) => Out(s, w).empty > 0
       case WaitFull => Out(s, Other(w)).full > 0
       case Finished => false
       case _ => true)
    case MainWait => !s.mainDone && s.done >= 2
  }

  ghost function MoveStep(s: Pair, limit: nat, w: Who): Pair
    requires Enabled(s, Move(w))
  {
    var outbox, inbox := Out(s, w), Out(s, Other(w));
    match Task(s, w)
    case WaitEmpty(v, last) =>
      Update(UpdateOut(s, w, outbox.(empty := outbox.empty - 1)), w, WriteValue(v, last))
    case WriteValue(v, last) =>
      Update(UpdateOut(s, w, outbox.(value := v)), w, SignalFull(last)).(sent := s.sent + [v])
    case SignalFull(last) =>
      Update(UpdateOut(s, w, outbox.(full := outbox.full + 1)), w, if last then Report else WaitFull)
    case WaitFull =>
      Update(UpdateOut(s, Other(w), inbox.(full := inbox.full - 1)), w, ReadValue)
    case ReadValue => Update(s, w, SignalEmpty(inbox.value)).(read := s.read + [inbox.value])
    case SignalEmpty(v) =>
      Update(UpdateOut(s, Other(w), inbox.(empty := inbox.empty + 1)), w,
             WaitEmpty(v + 1, v + 1 >= limit))
    case Report => Update(s, w, Finished).(done := s.done + 1)
    case Finished => s
  }

  ghost function Next(s: Pair, limit: nat, step: Step): Pair
    requires Enabled(s, step)
  {
    match step
    case Move(w) => MoveStep(s, limit, w)
    case MainWait => s.(done := s.done - 2, mainDone := true)
  }

  ghost predicate IsRun(s: Pair, limit: nat, steps: seq<Step>)
    decreases |steps|
  {
    steps == [] || (Enabled(s, steps[0]) && IsRun(Next(s, limit, steps[0]), limit, steps[1..]))
  }

  ghost function After(s: Pair, limit: nat, steps: seq<Step>): Pair
    requires IsRun(s, limit, steps)
    decreases |steps|
  {
    if steps == [] then s else After(Next(s, limit, steps[0]), limit, steps[1..])
  }

  // ---------- the invariant ----------

  /** A task that has sent its last value is on its way out; any other waits for the next one. */
  ghost predicate Resting(pc: Pc, left: bool) {
    if left then pc.Report? || pc.Finished? else pc.WaitFull?
  }

  ghost predicate Holds(q: Slot, full: nat, empty: nat) {
    q.full == full && q.empty == empty
  }

  /** Value `n` is next: its sender is about to take the slot, or has taken it. */
  ghost predicate BeforeWrite(s: Pair, limit: nat) {
    var n := |s.sent|;
    var w := Turn(n);
    && n <= limit + 1 && s.read == s.sent
    && Resting(Task(s, Other(w)), n == limit + 1) && Holds(Out(s, Other(w)), 0, 1)
    && ((Task(s, w) == WaitEmpty(n, n >= limit) && Holds(Out(s, w), 0, 1))
        || (Task(s, w) == WriteValue(n, n >= limit) && Holds(Out(s, w), 0, 0)))
  }

  /** The last value sent is in its slot and has not been read. */
  ghost predicate BeforeRead(s: Pair, limit: nat) {
    var n := |s.sent|;
    var w := Turn(n);
    var sender, slot := Other(w), Out(s, Other(w));
    && 0 < n <= limit + 2 && s.read == UpTo(n - 1) && slot.value == n - 1 && Holds(Out(s, w), 0, 1)
    && ((Task(s, sender) == SignalFull(n - 1 >= limit) && Holds(slot, 0, 0)
         && Resting(Task(s, w), n == limit + 2))
        || (Resting(Task(s, sender), n - 1 >= limit) && Holds(slot, 1, 0)
            && Resting(Task(s, w), n == limit + 2))
        || (Resting(Task(s, sender), n - 1 >= limit) && Holds(slot, 0, 0) && n < limit + 2
            && Task(s, w) == ReadValue))
  }

  /** The last value sent has been read, and its reader is about to give the slot back. */
  ghost predicate AfterRead(s: Pair, limit: nat) {
    var n := |s.sent|;
    var w := Turn(n);
    && 0 < n < limit + 2 && s.read == s.sent && Task(s, w) == SignalEmpty(n - 1)
    && Resting(Task(s, Other(w)), n - 1 >= limit)
    && Holds(Out(s, Other(w)), 0, 0) && Holds(Out(s, w), 0, 1)
  }

  ghost function Reports(s: Pair): nat {
    (if s.a.Finished? then 1 else 0) + (if s.b.Finished? then 1 else 0)
  }

  ghost predicate Inv(s: Pair, limit: nat) {
    && s.sent == UpTo(|s.sent|)
    && (BeforeWrite(s, limit) || BeforeRead(s, limit) || AfterRead(s, limit))
    && s.done + (if s.mainDone then 2 else 0) == Reports(s)
  }

  ghost predicate Final(s: Pair) {
    s.a.Finished? && s.b.Finished? && s.mainDone
  }

  /** The steps left before the last value is in its slot. */
  ghost function Passing(s: Pair, limit: nat): int {
    var n := |s.sent|;
    var w := Turn(n);
    var messages := 6 * (limit + 2 - n);
    if AfterRead(s, limit) then messages - 2
    else if BeforeRead(s, limit) then
      if Task(s, Other(w)).SignalFull? then messages + 1
      else if Task(s, w).ReadValue? then messages - 1
      else messages
    else if Task(s, w).WaitEmpty? then messages - 3
    else messages - 4
  }

  ghost function Left(s: Pair, limit: nat): int {
    Passing(s, limit) + 2 - Reports(s) + (if s.mainDone then 0 else 1)
  }

  lemma WriteKeeps(s: Pair, limit: nat, w: Who)
    requires limit >= 1 && Inv(s, limit) && BeforeWrite(s, limit) && Enabled(s, Move(w))
    requires w == Turn(|s.sent|)
    ensures Inv(Next(s, limit, Move(w)), limit)
    ensures Left(Next(s, limit, Move(w)), limit) == Left(s, limit) - 1
  {
    var n := |s.sent|;
    assert Turn(n + 1) == Other(Turn(n));
    assert UpTo(n) + [n] == UpTo(n + 1);
  }

  lemma ReadKeeps(s: Pair, limit: nat, w: Who)
    requires limit >= 1 && Inv(s, limit) && Enabled(s, Move(w))
    requires BeforeRead(s, limit) || AfterRead(s, limit)
    requires !Task(s, w).Report?
    ensures Inv(Next(s, limit, Move(w)), limit)
    ensures Left(Next(s, limit, Move(w)), limit) == Left(s, limit) - 1
  {
    var n := |s.sent|;
    if Task(s, w).ReadValue? {
      assert UpTo(n - 1) + [n - 1] == UpTo(n);
    }
  }

  lemma ReportKeeps(s: Pair, limit: nat, w: Who)
    requires limit >= 1 && Inv(s, limit) && Task(s, w).Report?
    ensures Inv(Next(s, limit, Move(w)), limit)
    ensures Left(Next(s, limit, Move(w)), limit) == Left(s, limit) - 1
  {
  }

  lemma StepKeeps(s: Pair, limit: nat, step: Step)
    requires limit >= 1 && Inv(s, limit) && Enabled(s, step)
    ensures Inv(Next(s, limit, step), limit)
    ensures Left(Next(s, limit, step), limit) == Left(s, limit) - 1
  {
    if step.Move? {
      if Task(s, step.w).Report? {
        ReportKeeps(s, limit, step.w);
      } else if BeforeWrite(s, limit) {
        WriteKeeps(s, limit, step.w);
      } else {
        ReadKeeps(s, limit, step.w);
      }
    }
  }

  lemma {:induction false} RunKeeps(s: Pair, limit: nat, steps: seq<Step>)
    requires limit >= 1 && Inv(s, limit) && IsRun(s, limit, steps)
    ensures Inv(After(s, limit, steps), limit)
    ensures |steps| + Left(After(s, limit, steps), limit) == Left(s, limit)
    decreases |steps|
  {
    if steps != [] {
      StepKeeps(s, limit, steps[0]);
      RunKeeps(Next(s, limit, steps[0]), limit, steps[1..]);
    }
  }

  ghost predicate Stuck(s: Pair) {
    forall step :: !Enabled(s, step)
  }

  /** The last value stays in its slot, unread. */
  ghost predicate Leftover(s: Pair, limit: nat) {
    && (if limit % 2 == 1 then s.ab == Slot(limit + 1, 1, 0) && Holds(s.ba, 0, 1)
        else s.ba == Slot(limit + 1, 1, 0) && Holds(s.ab, 0, 1))
    && s.sent == UpTo(limit + 2) && s.read == UpTo(limit + 1)
  }

  lemma StuckIsFinal(s: Pair, limit: nat)
    requires limit >= 1 && Inv(s, limit)
    ensures Stuck(s) <==> Final(s)
    ensures Left(s, limit) >= 0 && (Left(s, limit) == 0 <==> Final(s))
    ensures Final(s) ==> Leftover(s, limit)
  {
    if Stuck(s) {
      assert !Enabled(s, Move(A)) && !Enabled(s, Move(B)) && !Enabled(s, MainWait);
    }
    assert Turn(limit + 2) == Other(Turn(limit + 1));
  }

  // ---------- the theorems ----------

  /** In every state of every run: the values are 0, 1, 2, ... in order, every value is read before the
  next one is written, no send, the two that release the peer included, ever has to wait, and main waits
  for both tasks. */
  lemma EveryState(limit: nat, steps: seq<Step>)
    requires limit >= 1 && IsRun(Init(), limit, steps)
    ensures var s := After(Init(), limit, steps);
            && s.sent == UpTo(|s.sent|) && |s.sent| <= limit + 2
            && (s.read == s.sent || (s.sent != [] && s.read == s.sent[..|s.sent| - 1]))
            && (forall w :: Task(s, w).WaitEmpty? ==> Enabled(s, Move(w)) && s.read == s.sent)
            && (forall w :: Task(s, w).WriteValue? ==> s.read == s.sent && Task(s, w).v == |s.sent|)
            && (s.mainDone ==> s.a.Finished? && s.b.Finished?)
  {
    RunKeeps(Init(), limit, steps);
    var s := After(Init(), limit, steps);
    if BeforeRead(s, limit) {
      assert UpTo(|s.sent|)[..|s.sent| - 1] == UpTo(|s.sent| - 1);
    }
  }

  /** For every positive limit a run goes on exactly until both tasks and main are done, always with
  the same number of steps and limit + 2 values sent; the last one, limit + 1, is left in one slot. */
  lemma EveryRunEnds(limit: nat, steps: seq<Step>)
    requires limit >= 1 && IsRun(Init(), limit, steps)
    ensures var s := After(Init(), limit, steps);
            && |steps| <= 6 * limit + 12
            && (Stuck(s) <==> Final(s)) && (Final(s) <==> |steps| == 6 * limit + 12)
            && (Final(s) ==> Leftover(s, limit))
  {
    RunKeeps(Init(), limit, steps);
    StuckIsFinal(After(Init(), limit, steps), limit);
  }
}
