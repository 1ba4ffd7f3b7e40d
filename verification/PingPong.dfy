/** Two tasks that bounce a counter over two queues with room for one value, until it reaches a limit.

The queues are used by contract only: the closable bounded queue `Channel.Fifo`. The tasks interleave
in any way; cancellation is not part of this model. */
module PingPong {
  import opened Turns
  import C = Channel

  /** A task is about to send a value, to receive one, or to close its queue. */
  datatype Pc = Sending(value: nat) | Receiving | Closing | Returned

  /** `ab` and `ba` are the queues, `sent` the values accepted by them so far, in order. */
  datatype Game = Game(ab: C.Fifo<nat>, ba: C.Fifo<nat>, a: Pc, b: Pc, sent: seq<nat>)

  ghost function Init(): Game {
    Game(C.Fifo(1, [], false), C.Fifo(1, [], false), Sending(0), Receiving, [])
  }

  ghost function Task(s: Game, w: Who): Pc {
    if w.A? then s.a else s.b
  }

  /** The queue a task sends to; it receives from the other task's. */
  ghost function Out(s: Game, w: Who): C.Fifo<nat> {
    if w.A? then s.ab else s.ba
  }

  ghost function Update(s: Game, w: Who, pc: Pc): Game {
    if w.A? then s.(a := pc) else s.(b := pc)
  }

  ghost function UpdateOut(s: Game, w: Who, q: C.Fifo<nat>): Game {
    if w.A? then s.(ab := q) else s.(ba := q)
  }

  // ---------- steps ----------

  ghost predicate Enabled(s: Game, w: Who) {
    match Task(s, w)
    case Sending(v) => Out(s, w).shut || C.CanHappen(Out(s, w), C.Put(v))
    case Receiving => Out(s, Other(w)).items != [] || Out(s, Other(w)).shut
    case Closing => true
    case Returned => false
  }

  ghost function ReceiveStep(s: Game, limit: nat, w: Who): Game
    requires Task(s, w).Receiving? && Enabled(s, w)
  {
    var inbox := Out(s, Other(w));
    if inbox.items == [] then Update(s, w, Returned)
    else
      var next := inbox.items[0] + 1;
      Update(UpdateOut(s, Other(w), C.Apply(inbox, C.Take(inbox.items[0]))), w,
             if next >= limit then Closing else Sending(next))
  }

  ghost function Next(s: Game, limit: nat, w: Who): Game
    requires Enabled(s, w)
  {
    match Task(s, w)
    case Sending(v) =>
      if Out(s, w).shut then Update(s, w, Returned)
      else Update(UpdateOut(s, w, C.Apply(Out(s, w), C.Put(v))), w, Receiving).(sent := s.sent + [v])
    case Receiving => ReceiveStep(s, limit, w)
    case Closing => Update(UpdateOut(s, w, C.Apply(Out(s, w), C.Shut)), w, Returned)
    case Returned => s
  }

  ghost predicate IsRun(s: Game, limit: nat, steps: seq<Who>)
    decreases |steps|
  {
    steps == [] || (Enabled(s, steps[0]) && IsRun(Next(s, limit, steps[0]), limit, steps[1..]))
  }

  ghost function After(s: Game, limit: nat, steps: seq<Who>): Game
    requires IsRun(s, limit, steps)
    decreases |steps|
  {
    if steps == [] then s else After(Next(s, limit, steps[0]), limit, steps[1..])
  }

  // ---------- the invariant ----------

  /** The number of values sent in the end: even a limit of zero costs one. */
  ghost function Total(limit: nat): nat {
    if limit == 0 then 1 else limit
  }

  ghost predicate Holds(q: C.Fifo<nat>, items: seq<nat>, shut: bool) {
    q == C.Fifo(1, items, shut)
  }

  /** The next value is about to be sent, and the other task waits for it. */
  ghost predicate AboutToSend(s: Game, limit: nat) {
    var n := |s.sent|;
    var w := Turn(n);
    && n < Total(limit) && Task(s, w) == Sending(n) && Task(s, Other(w)) == Receiving
    && Holds(Out(s, w), [], false) && Holds(Out(s, Other(w)), [], false)
  }

  /** The last value sent is in its queue, and both tasks are receiving. */
  ghost predicate InFlight(s: Game, limit: nat) {
    var n := |s.sent|;
    var w := Turn(n);
    && 0 < n <= Total(limit) && Task(s, w) == Receiving && Task(s, Other(w)) == Receiving
    && Holds(Out(s, w), [], false) && Holds(Out(s, Other(w)), [n - 1], false)
  }

  ghost predicate AboutToClose(s: Game, limit: nat) {
    var n := |s.sent|;
    var w := Turn(n);
    && n == Total(limit) && Task(s, w) == Closing && Task(s, Other(w)) == Receiving
    && Holds(Out(s, w), [], false) && Holds(Out(s, Other(w)), [], false)
  }

  ghost predicate Closed(s: Game, limit: nat) {
    var n := |s.sent|;
    var w := Turn(n);
    && n == Total(limit) && Task(s, w) == Returned
    && (Task(s, Other(w)) == Receiving || Task(s, Other(w)) == Returned)
    && Holds(Out(s, w), [], true) && Holds(Out(s, Other(w)), [], false)
  }

  ghost predicate Inv(s: Game, limit: nat) {
    && s.sent == UpTo(|s.sent|)
    && (AboutToSend(s, limit) || InFlight(s, limit) || AboutToClose(s, limit) || Closed(s, limit))
  }

  /** The one task that can move, if any. */
  ghost function Mover(s: Game, limit: nat): Who {
    if Closed(s, limit) then Other(Turn(|s.sent|)) else Turn(|s.sent|)
  }

  ghost predicate Final(s: Game) {
    s.a.Returned? && s.b.Returned?
  }

  /** The steps that are left. */
  ghost function Left(s: Game, limit: nat): int {
    if AboutToSend(s, limit) then 2 * (Total(limit) - |s.sent|) + 2
    else if InFlight(s, limit) then 2 * (Total(limit) - |s.sent|) + 3
    else if AboutToClose(s, limit) then 2
    else if Final(s) then 0
    else 1
  }

  /** There is never a choice: one task can move until both have returned. */
  lemma OneMover(s: Game, limit: nat, w: Who)
    requires Inv(s, limit)
    ensures Enabled(s, w) <==> w == Mover(s, limit) && !Final(s)
    ensures Left(s, limit) >= 0 && (Left(s, limit) == 0 <==> Final(s))
  {
  }

  lemma SendKeeps(s: Game, limit: nat, w: Who)
    requires Inv(s, limit) && AboutToSend(s, limit) && w == Turn(|s.sent|)
    ensures Enabled(s, w) && Inv(Next(s, limit, w), limit)
    ensures InFlight(Next(s, limit, w), limit)
    ensures |Next(s, limit, w).sent| == |s.sent| + 1
  {
    var n := |s.sent|;
    assert Turn(n + 1) == Other(Turn(n));
    assert UpTo(n) + [n] == UpTo(n + 1);
    assert [] + [n] == [n];
  }

  lemma ReceiveKeeps(s: Game, limit: nat, w: Who)
    requires Inv(s, limit) && InFlight(s, limit) && w == Turn(|s.sent|)
    ensures Enabled(s, w) && Inv(Next(s, limit, w), limit)
    ensures Next(s, limit, w).sent == s.sent
    ensures AboutToSend(Next(s, limit, w), limit) || AboutToClose(Next(s, limit, w), limit)
  {
    assert [|s.sent| - 1][1..] == [];
  }

  lemma StepKeeps(s: Game, limit: nat, w: Who)
    requires Inv(s, limit) && Enabled(s, w)
    ensures Inv(Next(s, limit, w), limit)
    ensures Left(Next(s, limit, w), limit) == Left(s, limit) - 1
  {
    OneMover(s, limit, w);
    if AboutToSend(s, limit) {
      SendKeeps(s, limit, w);
    } else if InFlight(s, limit) {
      ReceiveKeeps(s, limit, w);
    }
  }

  lemma {:induction false} RunKeeps(s: Game, limit: nat, steps: seq<Who>)
    requires Inv(s, limit) && IsRun(s, limit, steps)
    ensures Inv(After(s, limit, steps), limit)
    ensures |steps| + Left(After(s, limit, steps), limit) == Left(s, limit)
    decreases |steps|
  {
    if steps != [] {
      StepKeeps(s, limit, steps[0]);
      RunKeeps(Next(s, limit, steps[0]), limit, steps[1..]);
    }
  }

  // ---------- the theorems ----------

  /** In every state of every run at most one value is in flight, the values sent are 0, 1, 2, ... in
  order, A the even ones and B the odd ones, and a task that is about to send finds its queue open and
  with room. */
  lemma EveryState(limit: nat, steps: seq<Who>)
    requires IsRun(Init(), limit, steps)
    ensures var s := After(Init(), limit, steps);
            && |s.ab.items| + |s.ba.items| <= 1
            && |s.sent| <= (if limit > 1 then limit else 1) && s.sent == UpTo(|s.sent|)
            && (forall w :: Task(s, w).Sending? ==>
                  && Task(s, w).value == |s.sent| && w == Turn(|s.sent|)
                  && C.CanHappen(Out(s, w), C.Put(|s.sent|)) && !Out(s, w).shut)
  {
    RunKeeps(Init(), limit, steps);
  }

  /** A run can go on exactly until both tasks have returned, which takes the same number of steps
  in every run; by then exactly the values below the limit have been sent, and its parity has decided
  which task closed its queue. */
  lemma EveryRunEnds(limit: nat, steps: seq<Who>)
    requires IsRun(Init(), limit, steps)
    ensures var s := After(Init(), limit, steps);
            var total := if limit > 1 then limit else 1;
            && |steps| <= 2 * total + 2
            && ((forall w :: !Enabled(s, w)) <==> Final(s))
            && (Final(s) <==> |steps| == 2 * total + 2)
            && (Final(s) ==>
                  && |s.sent| == total && (forall k :: 0 <= k < total ==> s.sent[k] == k)
                  && s.ab.items == [] && s.ba.items == []
                  && (s.ab.shut <==> total % 2 == 0) && (s.ba.shut <==> total % 2 == 1))
  {
    RunKeeps(Init(), limit, steps);
    var s := After(Init(), limit, steps);
    OneMover(s, limit, Mover(s, limit));
    OneMover(s, limit, Other(Mover(s, limit)));
  }
}
