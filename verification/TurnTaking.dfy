/** Two players alternate turns through one mutex and one condition, signaling after they unlock.

The mutex and the condition are used by contract: `wait` releases the mutex and falls asleep in one
step and takes the mutex again after it wakes; `signal` wakes a sleeper if there is one and is lost
otherwise; a sleeper may also wake for no reason. Cancellation is not part of this model. */
module TurnTaking {
  import opened Turns
  import C = Channel

  datatype Pc =
    | Locking
    | Testing      // has the mutex, about to look at the turn
    | Waiting      // asleep on the condition
    | Relocking    // woken, about to take the mutex again
    | Setting      // has the mutex, about to pass the turn on
    | Unlocking
    | Signaling
    | Done

  /** `taken` counts the turns a player has passed on; `turns` lists who passed each one on. */
  datatype Player = Player(pc: Pc, taken: nat)
  datatype Game = Game(mutex: C.Option<Who>, turn: Who, a: Player, b: Player, turns: seq<Who>)

  ghost function Init(rounds: nat): Game {
    var p := Player(if rounds == 0 then Done else Locking, 0);
    Game(C.None, A, p, p, [])
  }

  ghost function P(s: Game, w: Who): Player {
    if w.A? then s.a else s.b
  }

  ghost function Update(s: Game, w: Who, p: Player): Game {
    if w.A? then s.(a := p) else s.(b := p)
  }

  ghost function Goto(s: Game, w: Who, pc: Pc): Game {
    Update(s, w, P(s, w).(pc := pc))
  }

  // ---------- steps ----------

  datatype Step = Move(w: Who) | Spurious(w: Who)

  ghost predicate Enabled(s: Game, step: Step) {
    match step
    case Move(w) =>
      (match P(s, w).pc
       case Locking => s.mutex.None?
       case Relocking => s.mutex.None?
       case Waiting => false
       case Done => false
       case _ => true)
    case Spurious(w) => P(s, w).pc.Waiting?
  }

  ghost function SignalStep(s: Game, rounds: nat, w: Who): Game {
    var t := Goto(s, w, if P(s, w).taken < rounds then Locking else Done);
    if P(s, Other(w)).pc.Waiting? then Goto(t, Other(w), Relocking) else t
  }

  ghost function MoveStep(s: Game, rounds: nat, w: Who): Game
    requires Enabled(s, Move(w))
  {
    match P(s, w).pc
    case Testing =>
      if s.turn == w then Goto(s, w, Setting) else Goto(s, w, Waiting).(mutex := C.None)
    case Setting =>
      Update(s, w, Player(Unlocking, P(s, w).taken + 1)).(turn := Other(w), turns := s.turns + [w])
    case Unlocking => Goto(s, w, Signaling).(mutex := C.None)
    case Signaling => SignalStep(s, rounds, w)
    case _ => Goto(s, w, Testing).(mutex := C.Some(w))
  }

  ghost function Next(s: Game, rounds: nat, step: Step): Game
    requires Enabled(s, step)
  {
    match step
    case Move(w) => MoveStep(s, rounds, w)
    case Spurious(w) => Goto(s, w, Relocking)
  }

  ghost predicate IsRun(s: Game, rounds: nat, steps: seq<Step>)
    decreases |steps|
  {
    steps == [] || (Enabled(s, steps[0]) && IsRun(Next(s, rounds, steps[0]), rounds, steps[1..]))
  }

  ghost function After(s: Game, rounds: nat, steps: seq<Step>): Game
    requires IsRun(s, rounds, steps)
    decreases |steps|
  {
    if steps == [] then s else After(Next(s, rounds, steps[0]), rounds, steps[1..])
  }

  // ---------- the invariant ----------

  ghost predicate HoldsMutex(pc: Pc) {
    pc.Testing? || pc.Setting? || pc.Unlocking?
  }

  ghost predicate AboutToSignal(pc: Pc) {
    pc.Unlocking? || pc.Signaling?
  }

  ghost predicate PlayerOk(s: Game, rounds: nat, w: Who) {
    var p := P(s, w);
    && (HoldsMutex(p.pc) <==> s.mutex == C.Some(w))
    && p.taken <= rounds
    && (p.pc.Done? ==> p.taken == rounds)
    && (!p.pc.Done? && !AboutToSignal(p.pc) ==> p.taken < rounds)
    && (AboutToSignal(p.pc) ==> p.taken > 0)
    && (p.pc.Setting? ==> s.turn == w)
    && (p.pc.Waiting? && s.turn == w ==> AboutToSignal(P(s, Other(w)).pc))
  }

  ghost function Alternating(n: nat): seq<Who> {
    seq(n, i requires 0 <= i => Turn(i))
  }

  ghost predicate Inv(s: Game, rounds: nat) {
    && PlayerOk(s, rounds, A) && PlayerOk(s, rounds, B)
    && s.turns == Alternating(|s.turns|) && s.turn == Turn(|s.turns|)
    && s.a.taken == (|s.turns| + 1) / 2 && s.b.taken == |s.turns| / 2
  }

  lemma InvInit(rounds: nat)
    ensures Inv(Init(rounds), rounds)
  {
  }

  lemma SetKeeps(s: Game, rounds: nat, w: Who)
    requires Inv(s, rounds) && P(s, w).pc.Setting?
    ensures Inv(Next(s, rounds, Move(w)), rounds)
  {
    var n := |s.turns|;
    assert Alternating(n + 1) == Alternating(n) + [Turn(n)];
  }

  /** Only passing the turn on changes what the turns are. */
  lemma OthersFrame(s: Game, rounds: nat, w: Who)
    requires Enabled(s, Move(w)) && !P(s, w).pc.Setting?
    ensures var t := Next(s, rounds, Move(w));
            t.turns == s.turns && t.turn == s.turn && t.a.taken == s.a.taken && t.b.taken == s.b.taken
  {
  }

  lemma MoverOk(s: Game, rounds: nat, w: Who)
    requires PlayerOk(s, rounds, A) && PlayerOk(s, rounds, B)
    requires Enabled(s, Move(w)) && !P(s, w).pc.Setting?
    ensures PlayerOk(Next(s, rounds, Move(w)), rounds, w)
  {
    OthersFrame(s, rounds, w);
  }

  lemma OtherOk(s: Game, rounds: nat, w: Who)
    requires PlayerOk(s, rounds, A) && PlayerOk(s, rounds, B)
    requires Enabled(s, Move(w)) && !P(s, w).pc.Setting?
    ensures PlayerOk(Next(s, rounds, Move(w)), rounds, Other(w))
  {
    OthersFrame(s, rounds, w);
  }

  lemma OthersKeep(s: Game, rounds: nat, w: Who)
    requires Inv(s, rounds) && Enabled(s, Move(w)) && !P(s, w).pc.Setting?
    ensures Inv(Next(s, rounds, Move(w)), rounds)
  {
    OthersFrame(s, rounds, w);
    MoverOk(s, rounds, w);
    OtherOk(s, rounds, w);
  }

  lemma InvNext(s: Game, rounds: nat, step: Step)
    requires Inv(s, rounds) && Enabled(s, step)
    ensures Inv(Next(s, rounds, step), rounds)
  {
    if step.Move? {
      if P(s, step.w).pc.Setting? {
        SetKeeps(s, rounds, step.w);
      } else {
        OthersKeep(s, rounds, step.w);
      }
    }
  }

  // ---------- how long a run can be ----------

  ghost function Rank(pc: Pc): nat {
    match pc
    case Locking => 3
    case Testing => 2
    case Waiting => 0
    case Relocking => 3
    case Setting => 1
    case Unlocking => 8
    case Signaling => 7
    case Done => 0
  }

  ghost function Measure(s: Game, rounds: nat): int {
    8 * (rounds - s.a.taken) + Rank(s.a.pc) + 8 * (rounds - s.b.taken) + Rank(s.b.pc)
  }

  lemma StepMeasure(s: Game, rounds: nat, step: Step)
    requires Inv(s, rounds) && Enabled(s, step)
    ensures Measure(Next(s, rounds, step), rounds) <= Measure(s, rounds) + if step.Spurious? then 3 else -1
  {
  }

  ghost function SpuriousWakes(steps: seq<Step>): nat {
    if steps == [] then 0 else (if steps[0].Spurious? then 1 else 0) + SpuriousWakes(steps[1..])
  }

  lemma {:induction false} RunKeeps(s: Game, rounds: nat, steps: seq<Step>)
    requires Inv(s, rounds) && IsRun(s, rounds, steps)
    ensures Inv(After(s, rounds, steps), rounds)
    ensures |steps| + Measure(After(s, rounds, steps), rounds)
         <= Measure(s, rounds) + 4 * SpuriousWakes(steps)
    decreases |steps|
  {
    if steps != [] {
      StepMeasure(s, rounds, steps[0]);
      InvNext(s, rounds, steps[0]);
      RunKeeps(Next(s, rounds, steps[0]), rounds, steps[1..]);
    }
  }

  // ---------- the theorems ----------

  /** No player has a step of its own. Spurious wakes are not counted on. */
  ghost predicate Stuck(s: Game) {
    !Enabled(s, Move(A)) && !Enabled(s, Move(B))
  }

  ghost predicate Final(s: Game) {
    s.a.pc.Done? && s.b.pc.Done?
  }

  lemma MutexHasHolder(s: Game, rounds: nat)
    requires Inv(s, rounds)
    ensures s.mutex.Some? ==> HoldsMutex(P(s, s.mutex.value).pc)
  {
    if s.mutex.Some? {
      assert s.mutex == C.Some(s.mutex.value);
      assert PlayerOk(s, rounds, s.mutex.value);
    }
  }

  lemma StuckIsFinal(s: Game, rounds: nat)
    requires Inv(s, rounds)
    ensures Stuck(s) <==> Final(s)
    ensures Final(s) ==> s.mutex.None?
  {
    MutexHasHolder(s, rounds);
  }

  /** In every state of every run, at most one player holds the mutex; a player that sleeps through its
  own turn is about to be signaled, so the two never both sleep; and the turns alternate from A on. */
  lemma EveryState(rounds: nat, steps: seq<Step>)
    requires IsRun(Init(rounds), rounds, steps)
    ensures var s := After(Init(rounds), rounds, steps);
            && !(HoldsMutex(s.a.pc) && HoldsMutex(s.b.pc))
            && (forall w :: P(s, w).pc.Waiting? && s.turn == w ==> AboutToSignal(P(s, Other(w)).pc))
            && !(s.a.pc.Waiting? && s.b.pc.Waiting?)
            && s.turns == Alternating(|s.turns|)
  {
    InvInit(rounds);
    RunKeeps(Init(rounds), rounds, steps);
  }

  /** A run can go on without spurious wakes exactly until both players have had all their turns; it is
  no longer than 16 steps a round and four for each spurious wake. */
  lemma EveryRunEnds(rounds: nat, steps: seq<Step>)
    requires IsRun(Init(rounds), rounds, steps)
    ensures var s := After(Init(rounds), rounds, steps);
            && |steps| <= 16 * rounds + 6 + 4 * SpuriousWakes(steps)
            && (Stuck(s) <==> Final(s))
            && (Final(s) ==> s.turns == Alternating(2 * rounds) && s.turn == A && s.mutex.None?)
  {
    InvInit(rounds);
    RunKeeps(Init(rounds), rounds, steps);
    var s := After(Init(rounds), rounds, steps);
    StuckIsFinal(s, rounds);
    assert Measure(Init(rounds), rounds) <= 16 * rounds + 6;
    if Final(s) {
      assert |s.turns| == 2 * rounds;
    }
  }

  // ---------- one round, and wakes for no reason ----------

  /** A player whose turn it is, left alone, takes five steps: it locks, looks, passes the turn on while
  it has the mutex, unlocks, and only then signals, which wakes the other player if it sleeps. */
  lemma WholeRound(s: Game, rounds: nat, w: Who)
    requires P(s, w).pc.Locking? && s.turn == w && s.mutex.None?
    ensures var t1 := Next(s, rounds, Move(w));
            && Enabled(s, Move(w)) && t1.mutex == C.Some(w) && Enabled(t1, Move(w))
            && var t2 := Next(t1, rounds, Move(w));
            && t2.mutex == C.Some(w) && t2.turn == w && Enabled(t2, Move(w))
            && var t3 := Next(t2, rounds, Move(w));
            && t3.mutex == C.Some(w) && t3.turn == Other(w) && t3.turns == s.turns + [w]
            && P(t3, Other(w)) == P(s, Other(w)) && Enabled(t3, Move(w))
            && var t4 := Next(t3, rounds, Move(w));
            && t4.mutex.None? && P(t4, Other(w)) == P(s, Other(w)) && Enabled(t4, Move(w))
            && var t5 := Next(t4, rounds, Move(w));
            && t5.mutex.None? && t5.turn == Other(w) && !P(t5, Other(w)).pc.Waiting?
            && P(t5, w) == Player(if P(s, w).taken + 1 < rounds then Locking else Done, P(s, w).taken + 1)
  {
  }

  /** A sleeper may wake at any time; if it is not its turn and the mutex is free, it is asleep again
  three steps later and nothing has changed. */
  lemma SpuriousChangesNothing(s: Game, rounds: nat, w: Who)
    requires P(s, w).pc.Waiting? && s.turn != w && s.mutex.None?
    ensures Enabled(s, Spurious(w))
    ensures IsRun(s, rounds, [Spurious(w), Move(w), Move(w)])
    ensures After(s, rounds, [Spurious(w), Move(w), Move(w)]) == s
  {
    var a := Next(s, rounds, Spurious(w));
    var b := Next(a, rounds, Move(w));
    assert [Spurious(w), Move(w), Move(w)][1..] == [Move(w), Move(w)];
    assert [Move(w), Move(w)][1..] == [Move(w)];
    var c := Next(b, rounds, Move(w));
    assert [Move(w)][1..] == [] && IsRun(c, rounds, []) && After(c, rounds, []) == c;
    assert IsRun(b, rounds, [Move(w)]) && After(b, rounds, [Move(w)]) == c;
    assert IsRun(a, rounds, [Move(w), Move(w)]);
  }
}
