/** The benchmark driver keeping a window of messages in flight to an echo server.

Two byte pipes of fixed room join them. A write puts in as many bytes as it likes of those that fit and
goes on until it has written all; a read takes out any positive number of the bytes there are. Each
step is one such transfer, and driver and server interleave in any way. Failing connections are not
part of this model. */
module EchoDriver {
  import opened Arithmetic
  import opened Octets

  /** `msgs` copies of `message`, at most `pipeline` of them in flight; the room of the two pipes and of
  the server's buffer. */
  datatype Config = Config(msgs: nat, pipeline: nat, message: seq<byte>, up: nat, down: nat, chunk: nat)

  ghost predicate ValidConfig(g: Config) {
    g.up > 0 && g.down > 0 && g.chunk > 0
  }

  /** A driver that has written (read) `off` bytes of its message: while it fills the window, when it
  reads an answer, and when it replaces an answered message. */
  datatype Pc = Filling(off: nat) | Reading(off: nat) | Refilling(off: nat) | Done

  /** `held` is what the server has read and not yet written back; `written` and `read` list all bytes
  that the driver has written and read. */
  datatype Echo = Echo(pc: Pc, sent: nat, got: nat, buf: seq<byte>, up: seq<byte>, held: seq<byte>,
                       down: seq<byte>, written: seq<byte>, read: seq<byte>)

  ghost function Window(g: Config): nat {
    if g.pipeline > g.msgs then g.msgs else g.pipeline
  }

  ghost function LoopHead(g: Config, got: nat): Pc {
    if got < g.msgs then Reading(0) else Done
  }

  ghost function Init(g: Config): Echo {
    Echo(if Window(g) > 0 then Filling(0) else LoopHead(g, 0), 0, 0, g.message, [], [], [], [], [])
  }

  // ---------- steps ----------

  /** The driver moves `n` bytes or goes on to its next operation; the server moves `n` bytes. */
  datatype Step = Move(n: nat) | Advance | ServerRead(n: nat) | ServerWrite(n: nat)

  ghost predicate Enabled(g: Config, s: Echo, step: Step) {
    match step
    case Move(n) =>
      && n > 0 && !s.pc.Done? && s.pc.off + n <= |s.buf|
      && (if s.pc.Reading? then n <= |s.down| else |s.up| + n <= g.up)
    case Advance => !s.pc.Done? && s.pc.off == |s.buf|
    case ServerRead(n) => s.held == [] && 0 < n <= |s.up| && n <= g.chunk
    case ServerWrite(n) => 0 < n <= |s.held| && |s.down| + n <= g.down
  }

  ghost function MoveStep(g: Config, s: Echo, n: nat): Echo
    requires Enabled(g, s, Move(n))
  {
    var off := s.pc.off;
    match s.pc
    case Reading(_) =>
      s.(pc := Reading(off + n), buf := s.buf[..off] + s.down[..n] + s.buf[off + n..],
         down := s.down[n..], read := s.read + s.down[..n])
    case _ =>
      var bytes := s.buf[off..off + n];
      s.(pc := if s.pc.Filling? then Filling(off + n) else Refilling(off + n),
         up := s.up + bytes, written := s.written + bytes)
  }

  ghost function AdvanceStep(g: Config, s: Echo): Echo {
    match s.pc
    case Filling(_) =>
      s.(sent := s.sent + 1, pc := if s.sent + 1 < Window(g) then Filling(0) else LoopHead(g, s.got))
    case Reading(_) =>
      s.(got := s.got + 1, pc := if s.sent < g.msgs then Refilling(0) else LoopHead(g, s.got + 1))
    case Refilling(_) => s.(sent := s.sent + 1, pc := LoopHead(g, s.got))
    case Done => s
  }

  ghost function Next(g: Config, s: Echo, step: Step): Echo
    requires Enabled(g, s, step)
  {
    match step
    case Move(n) => MoveStep(g, s, n)
    case Advance => AdvanceStep(g, s)
    case ServerRead(n) => s.(held := s.up[..n], up := s.up[n..])
    case ServerWrite(n) => s.(down := s.down + s.held[..n], held := s.held[n..])
  }

  ghost predicate IsRun(g: Config, s: Echo, steps: seq<Step>)
    decreases |steps|
  {
    steps == [] || (Enabled(g, s, steps[0]) && IsRun(g, Next(g, s, steps[0]), steps[1..]))
  }

  ghost function After(g: Config, s: Echo, steps: seq<Step>): Echo
    requires IsRun(g, s, steps)
    decreases |steps|
  {
    if steps == [] then s else After(g, Next(g, s, steps[0]), steps[1..])
  }

  // ---------- the counters ----------

  /** How far the driver is: the window is full except while it is being filled or replaced. */
  ghost predicate Progress(g: Config, s: Echo) {
    && |s.buf| == |g.message|
    && (!s.pc.Done? ==> s.pc.off <= |g.message|)
    && match s.pc
       case Filling(_) => s.got == 0 && s.sent < Window(g)
       case Reading(_) => s.got < g.msgs && s.sent == Least(g.msgs, s.got + Window(g))
       case Refilling(_) => 0 < s.got <= g.msgs && s.sent == s.got - 1 + Window(g) < g.msgs
       case Done => s.got == s.sent == g.msgs
  }

  ghost function Least(a: nat, b: nat): nat {
    if a <= b then a else b
  }

  lemma ProgressNext(g: Config, s: Echo, step: Step)
    requires Progress(g, s) && Enabled(g, s, step)
    ensures Progress(g, Next(g, s, step))
  {
  }

  // ---------- the bytes ----------

  ghost function Copies(m: seq<byte>, n: nat): seq<byte> {
    if n == 0 then [] else Copies(m, n - 1) + m
  }

  ghost function WrittenPart(s: Echo): nat {
    if s.pc.Filling? || s.pc.Refilling? then s.pc.off else 0
  }

  ghost function ReadPart(s: Echo): nat {
    if s.pc.Reading? then s.pc.off else 0
  }

  /** Bytes are never lost, made up or reordered: what has been written has been read or is on its way;
  and it is the message over and over, which the driver's buffer, though reused for the answers, always
  holds. */
  ghost predicate Conserved(g: Config, s: Echo) {
    && s.buf == g.message && WrittenPart(s) <= |s.buf| && ReadPart(s) <= |s.buf|
    && s.written == s.read + (s.down + (s.held + s.up))
    && s.written == Copies(g.message, s.sent) + g.message[..WrittenPart(s)]
    && s.read == Copies(g.message, s.got) + g.message[..ReadPart(s)]
    && |s.up| <= g.up && |s.down| <= g.down
  }

  lemma {:induction false} CopiesLength(m: seq<byte>, n: nat)
    ensures |Copies(m, n)| == n * |m|
  {
    if n > 0 {
      CopiesLength(m, n - 1);
      assert n * |m| == (n - 1) * |m| + |m|;
    }
  }

  /** Copy number `a` is where it should be. */
  lemma {:induction false} CopyAt(m: seq<byte>, n: nat, a: nat)
    requires a < n
    ensures 0 <= a * |m| <= a * |m| + |m| <= |Copies(m, n)|
    ensures Copies(m, n)[a * |m|..a * |m| + |m|] == m
    decreases n
  {
    CopiesLength(m, n - 1);
    if a < n - 1 {
      CopyAt(m, n - 1, a);
    }
  }

  lemma Extend(prefix: seq<byte>, m: seq<byte>, off: nat, n: nat)
    requires off + n <= |m|
    ensures (prefix + m[..off]) + m[off..off + n] == prefix + m[..off + n]
  {
    assert m[..off] + m[off..off + n] == m[..off + n];
  }

  lemma EnterBehind(a: seq<byte>, b: seq<byte>, c: seq<byte>, d: seq<byte>, x: seq<byte>)
    ensures (a + (b + (c + d))) + x == a + (b + (c + (d + x)))
  {
  }

  lemma LeaveInFront(a: seq<byte>, b: seq<byte>, n: nat, rest: seq<byte>)
    requires n <= |b|
    ensures a + (b + rest) == (a + b[..n]) + (b[n..] + rest)
  {
    assert b == b[..n] + b[n..];
  }

  lemma Replace(m: seq<byte>, off: nat, n: nat)
    requires off + n <= |m|
    ensures m[..off] + m[off..off + n] + m[off + n..] == m
  {
  }

  lemma WriteConserves(g: Config, s: Echo, n: nat)
    requires Conserved(g, s) && Enabled(g, s, Move(n)) && !s.pc.Reading?
    ensures Conserved(g, Next(g, s, Move(n)))
  {
    var m, off := g.message, s.pc.off;
    Extend(Copies(m, s.sent), m, off, n);
    EnterBehind(s.read, s.down, s.held, s.up, m[off..off + n]);
  }

  /** Where `mid` is in `whole`, if `whole` holds the message from `start` on. */
  lemma PartOfMessage(whole: seq<byte>, front: seq<byte>, mid: seq<byte>, rest: seq<byte>,
                      m: seq<byte>, start: nat, off: nat)
    requires whole == front + (mid + rest) && |front| == start + off && off + |mid| <= |m|
    requires start + |m| <= |whole| && whole[start..start + |m|] == m
    ensures mid == m[off..off + |mid|]
  {
    forall k | 0 <= k < |mid| ensures mid[k] == m[off + k] {
      assert whole[start + off + k] == mid[k];
      assert whole[start..start + |m|][off + k] == m[off + k];
    }
  }

  /** The message that the driver is reading has been written. */
  lemma AnswerIsWritten(g: Config, s: Echo)
    requires Conserved(g, s) && s.pc.Reading? && |s.down| > 0 && s.got <= s.sent
    ensures |s.read| == s.got * |g.message| + s.pc.off && s.got < s.sent
    ensures s.written == Copies(g.message, s.sent)
  {
    CopiesLength(g.message, s.got);
    CopiesLength(g.message, s.sent);
    assert s.written == Copies(g.message, s.sent) + [];
  }

  /** What the driver reads next is the rest of the message. */
  lemma NextAnswer(g: Config, s: Echo, n: nat)
    requires Conserved(g, s) && s.pc.Reading? && 0 < n <= |s.down| && s.pc.off + n <= |s.buf|
    requires s.got <= s.sent
    ensures s.down[..n] == g.message[s.pc.off..s.pc.off + n]
  {
    AnswerIsWritten(g, s);
    CopyAt(g.message, s.sent, s.got);
    LeaveInFront([], s.down, n, s.held + s.up);
    PartOfMessage(s.written, s.read, s.down[..n], s.down[n..] + (s.held + s.up),
                  g.message, s.got * |g.message|, s.pc.off);
  }

  lemma ReadConserves(g: Config, s: Echo, n: nat)
    requires Conserved(g, s) && Enabled(g, s, Move(n)) && s.pc.Reading? && s.got <= s.sent
    ensures Conserved(g, Next(g, s, Move(n)))
  {
    var m, off := g.message, s.pc.off;
    NextAnswer(g, s, n);
    Extend(Copies(m, s.got), m, off, n);
    Replace(m, off, n);
    LeaveInFront(s.read, s.down, n, s.held + s.up);
  }

  lemma AdvanceConserves(g: Config, s: Echo)
    requires Conserved(g, s) && Enabled(g, s, Advance)
    ensures Conserved(g, Next(g, s, Advance))
  {
    var m := g.message;
    assert m[..|m|] == m && m[..0] == [];
    assert Copies(m, s.sent + 1) == Copies(m, s.sent) + m;
    assert Copies(m, s.got + 1) == Copies(m, s.got) + m;
    assert Copies(m, s.sent + 1) + [] == Copies(m, s.sent + 1);
    assert Copies(m, s.got + 1) + [] == Copies(m, s.got + 1);
  }

  lemma ServerConserves(g: Config, s: Echo, step: Step)
    requires Conserved(g, s) && Enabled(g, s, step) && (step.ServerRead? || step.ServerWrite?)
    ensures Conserved(g, Next(g, s, step))
  {
    if step.ServerRead? {
      LeaveInFront([], s.up, step.n, []);
      assert s.held + s.up == s.up[..step.n] + s.up[step.n..];
    } else {
      LeaveInFront(s.down, s.held, step.n, s.up);
    }
  }

  ghost predicate Inv(g: Config, s: Echo) {
    Progress(g, s) && Conserved(g, s)
  }

  lemma InvNext(g: Config, s: Echo, step: Step)
    requires Inv(g, s) && Enabled(g, s, step)
    ensures Inv(g, Next(g, s, step))
  {
    ProgressNext(g, s, step);
    match step
    case Move(n) => if s.pc.Reading? { ReadConserves(g, s, n); } else { WriteConserves(g, s, n); }
    case Advance => AdvanceConserves(g, s);
    case _ => ServerConserves(g, s, step);
  }

  lemma InvInit(g: Config)
    ensures Inv(g, Init(g))
  {
    assert g.message[..0] == [];
  }

  // ---------- how long a run can be ----------

  /** Each byte moves four times and each message is finished twice. */
  ghost function Measure(g: Config, s: Echo): int {
    4 * (g.msgs * |g.message|) + |s.up| - |s.down| - 2 * |s.written| - 2 * |s.read|
    + 2 * g.msgs - s.sent - s.got
  }

  lemma StepDecreases(g: Config, s: Echo, step: Step)
    requires Enabled(g, s, step)
    ensures Measure(g, Next(g, s, step)) < Measure(g, s)
  {
  }

  lemma WrittenIsBounded(g: Config, s: Echo)
    requires Inv(g, s)
    ensures |s.read| <= |s.written| <= g.msgs * |g.message|
    ensures s.sent <= g.msgs && s.got <= g.msgs
  {
    CopiesLength(g.message, s.sent);
    if WrittenPart(s) == 0 {
      Scale(s.sent, g.msgs, |g.message|);
    } else {
      Scale(s.sent + 1, g.msgs, |g.message|);
      assert (s.sent + 1) * |g.message| == s.sent * |g.message| + |g.message|;
    }
  }

  lemma MeasureNonNegative(g: Config, s: Echo)
    requires Inv(g, s)
    ensures Measure(g, s) >= 0
  {
    WrittenIsBounded(g, s);
  }

  lemma {:induction false} RunKeeps(g: Config, s: Echo, steps: seq<Step>)
    requires Inv(g, s) && IsRun(g, s, steps)
    ensures Inv(g, After(g, s, steps))
    ensures |steps| + Measure(g, After(g, s, steps)) <= Measure(g, s)
    decreases |steps|
  {
    if steps != [] {
      StepDecreases(g, s, steps[0]);
      InvNext(g, s, steps[0]);
      RunKeeps(g, Next(g, s, steps[0]), steps[1..]);
    }
  }

  // ---------- when the window fits ----------

  ghost predicate Stuck(g: Config, s: Echo) {
    forall step :: !Enabled(g, s, step)
  }

  /** A whole window fits into the pipes, with one byte in the server's hands. */
  ghost predicate WindowFits(g: Config) {
    g.msgs == 0 || |g.message| == 0
    || (g.pipeline > 0 && Window(g) * |g.message| <= g.up + g.down + 1)
  }

  lemma BlockedWriteIsFull(g: Config, s: Echo)
    requires ValidConfig(g) && Inv(g, s) && Stuck(g, s) && (s.pc.Filling? || s.pc.Refilling?)
    ensures |s.up| == g.up && |s.down| == g.down && s.held != [] && s.pc.off < |g.message|
  {
    assert !Enabled(g, s, Advance) && !Enabled(g, s, Move(1));
    assert !Enabled(g, s, ServerRead(1)) && !Enabled(g, s, ServerWrite(1));
  }

  /** What is on its way is part of a window. */
  lemma OnItsWay(g: Config, s: Echo)
    requires Inv(g, s)
    ensures |s.down| + |s.held| + |s.up| == (s.sent - s.got) * |g.message| + WrittenPart(s) - ReadPart(s)
  {
    CopiesLength(g.message, s.sent);
    CopiesLength(g.message, s.got);
    Difference(s.sent, s.got, |g.message|);
    assert |s.written| == |s.read| + |s.down| + |s.held| + |s.up|;
  }

  lemma Difference(a: int, b: int, d: int)
    ensures a * d - b * d == (a - b) * d
  {
  }

  /** A driver blocked in a write has both pipes full against it, so more than fits in them is out. */
  lemma BlockedWrite(g: Config, s: Echo)
    requires ValidConfig(g) && Inv(g, s) && Stuck(g, s) && (s.pc.Filling? || s.pc.Refilling?)
    ensures Window(g) * |g.message| >= g.up + g.down + 2 && |g.message| > 0 && g.msgs > 0 && g.pipeline > 0
  {
    BlockedWriteIsFull(g, s);
    OnItsWay(g, s);
    Scale(s.sent - s.got, Window(g), |g.message|);
  }

  lemma BlockedReadIsEmpty(g: Config, s: Echo)
    requires ValidConfig(g) && Inv(g, s) && Stuck(g, s) && s.pc.Reading?
    ensures s.down == [] && s.held == [] && s.up == [] && s.pc.off < |g.message|
  {
    assert !Enabled(g, s, Advance) && !Enabled(g, s, Move(1));
    assert !Enabled(g, s, ServerRead(1)) && !Enabled(g, s, ServerWrite(1));
  }

  /** A driver blocked in a read has nothing on its way, so it never had a window. */
  lemma BlockedRead(g: Config, s: Echo)
    requires ValidConfig(g) && Inv(g, s) && Stuck(g, s) && s.pc.Reading?
    ensures Window(g) == 0 && |g.message| > 0 && g.msgs > 0
  {
    BlockedReadIsEmpty(g, s);
    OnItsWay(g, s);
    Scale(0, s.sent - s.got, |g.message|);
  }

  lemma FinalState(g: Config, s: Echo)
    requires Inv(g, s) && s.pc.Done?
    ensures s.sent == s.got == g.msgs && s.read == s.written == Copies(g.message, g.msgs)
    ensures s.up == [] && s.held == [] && s.down == []
    ensures Stuck(g, s)
  {
    assert |s.written| == |s.read| + |s.down| + |s.held| + |s.up|;
  }

  // ---------- when it does not ----------

  ghost predicate Reaches(g: Config, s: Echo, t: Echo) {
    exists steps :: IsRun(g, s, steps) && After(g, s, steps) == t
  }

  lemma {:induction false} RunConcat(g: Config, s: Echo, a: seq<Step>, b: seq<Step>)
    requires IsRun(g, s, a) && IsRun(g, After(g, s, a), b)
    ensures IsRun(g, s, a + b) && After(g, s, a + b) == After(g, After(g, s, a), b)
    decreases |a|
  {
    if a == [] {
      assert a + b == b;
    } else {
      assert (a + b)[1..] == a[1..] + b;
      RunConcat(g, Next(g, s, a[0]), a[1..], b);
    }
  }

  lemma ReachesOn(g: Config, s: Echo, t: Echo, u: Echo)
    requires Reaches(g, s, t) && Reaches(g, t, u)
    ensures Reaches(g, s, u)
  {
    var a :| IsRun(g, s, a) && After(g, s, a) == t;
    var b :| IsRun(g, t, b) && After(g, t, b) == u;
    RunConcat(g, s, a, b);
  }

  lemma ReachesNext(g: Config, s: Echo, step: Step)
    requires Enabled(g, s, step)
    ensures Reaches(g, s, Next(g, s, step))
  {
    assert IsRun(g, Next(g, s, step), []);
    assert [step][1..] == [];
    assert IsRun(g, s, [step]) && After(g, s, [step]) == Next(g, s, step);
  }

  /** The driver is filling its window and is in the middle of a message. */
  ghost predicate Midway(g: Config, s: Echo) {
    Inv(g, s) && s.pc.Filling? && s.pc.off < |g.message|
  }

  /** A message that is complete is followed by another as long as the window is not full. */
  lemma NextMessage(g: Config, s: Echo)
    requires Inv(g, s) && s.pc.Filling? && s.pc.off == |g.message| > 0
    requires |s.written| < Window(g) * |g.message|
    ensures Enabled(g, s, Advance) && Midway(g, Next(g, s, Advance))
  {
    InvNext(g, s, Advance);
    CopiesLength(g.message, s.sent);
    assert (s.sent + 1) * |g.message| == s.sent * |g.message| + |g.message|;
  }

  /** The driver writes one byte and gets ready for the next. */
  lemma WriteOne(g: Config, s: Echo) returns (t: Echo)
    requires Midway(g, s) && |s.up| < g.up && |s.written| + 1 < Window(g) * |g.message|
    ensures Reaches(g, s, t) && Midway(g, t)
    ensures |t.written| == |s.written| + 1 && |t.up| == |s.up| + 1 && t.held == s.held && t.down == s.down
  {
    t := Next(g, s, Move(1));
    InvNext(g, s, Move(1));
    ReachesNext(g, s, Move(1));
    if t.pc.off == |g.message| {
      NextMessage(g, t);
      ReachesNext(g, t, Advance);
      ReachesOn(g, s, t, Next(g, t, Advance));
      t := Next(g, t, Advance);
    }
  }

  /** The driver writes one byte and the server reads it. */
  lemma PassToServer(g: Config, s: Echo) returns (t: Echo)
    requires ValidConfig(g) && Midway(g, s) && s.up == [] && s.held == []
    requires |s.written| + 1 < Window(g) * |g.message|
    ensures Reaches(g, s, t) && Midway(g, t)
    ensures |t.written| == |s.written| + 1 && t.up == [] && |t.held| == 1 && t.down == s.down
  {
    var u := WriteOne(g, s);
    t := Next(g, u, ServerRead(1));
    InvNext(g, u, ServerRead(1));
    ReachesNext(g, u, ServerRead(1));
    ReachesOn(g, s, u, t);
  }

  /** Byte by byte, the lower pipe fills up. */
  lemma {:induction false} FillDown(g: Config, s: Echo, n: nat) returns (t: Echo)
    requires ValidConfig(g) && Midway(g, s) && s.up == [] && s.held == []
    requires |s.down| + n <= g.down && |s.written| + n < Window(g) * |g.message|
    ensures Reaches(g, s, t) && Midway(g, t) && t.up == [] && t.held == []
    ensures |t.down| == |s.down| + n && |t.written| == |s.written| + n
    decreases n
  {
    if n == 0 {
      t := s;
      assert IsRun(g, s, []);
    } else {
      var u := PassToServer(g, s);
      var v := Next(g, u, ServerWrite(1));
      InvNext(g, u, ServerWrite(1));
      ReachesNext(g, u, ServerWrite(1));
      ReachesOn(g, s, u, v);
      t := FillDown(g, v, n - 1);
      ReachesOn(g, s, v, t);
    }
  }

  lemma {:induction false} FillUp(g: Config, s: Echo, n: nat) returns (t: Echo)
    requires Midway(g, s) && |s.up| + n <= g.up && |s.written| + n < Window(g) * |g.message|
    ensures Reaches(g, s, t) && Midway(g, t)
    ensures |t.up| == |s.up| + n && |t.written| == |s.written| + n && t.held == s.held && t.down == s.down
    decreases n
  {
    if n == 0 {
      t := s;
      assert IsRun(g, s, []);
    } else {
      var u := WriteOne(g, s);
      t := FillUp(g, u, n - 1);
      ReachesOn(g, s, u, t);
    }
  }

  /** Full pipes and a server with a byte in its hands: nobody can move. */
  lemma FullMeansStuck(g: Config, s: Echo)
    requires Midway(g, s) && |s.up| == g.up && |s.down| == g.down && s.held != []
    ensures Stuck(g, s)
  {
  }

  /** A window that does not fit can bring driver and server to a standstill. */
  lemma CanDeadlock(g: Config) returns (t: Echo)
    requires ValidConfig(g) && !WindowFits(g)
    ensures Reaches(g, Init(g), t) && Stuck(g, t) && !t.pc.Done?
  {
    var s := Init(g);
    InvInit(g);
    if g.pipeline == 0 {
      t := s;
      assert IsRun(g, s, []);
    } else {
      var u := FillDown(g, s, g.down);
      var v := PassToServer(g, u);
      ReachesOn(g, s, u, v);
      t := FillUp(g, v, g.up);
      ReachesOn(g, s, v, t);
      FullMeansStuck(g, t);
    }
  }

  // ---------- the theorems ----------

  lemma PrefixIsRead(g: Config, s: Echo)
    requires Conserved(g, s)
    ensures s.read <= s.written
  {
  }

  ghost predicate WithinWindow(g: Config, s: Echo) {
    s.got <= s.sent <= g.msgs && s.sent <= s.got + g.pipeline
  }

  /** How many messages have been sent, where the driver is: a whole window more than have been answered,
  or all, when it reads; and one less when it replaces an answered message. */
  ghost predicate FullWindow(g: Config, s: Echo) {
    match s.pc
    case Filling(_) => s.got == 0 && s.sent < g.msgs && s.sent < g.pipeline
    case Reading(_) =>
      s.got < g.msgs && s.sent == if s.got + g.pipeline < g.msgs then s.got + g.pipeline else g.msgs
    case Refilling(_) => s.sent < g.msgs && s.sent == s.got - 1 + g.pipeline
    case Done => s.sent == g.msgs && s.got == g.msgs
  }

  lemma WindowIsFull(g: Config, s: Echo)
    requires Progress(g, s)
    ensures FullWindow(g, s)
  {
  }

  /** With a window at all, it is never exceeded. Without one, only a message that replaces an answered
  one is behind its answer (which an empty message, alone, can be). */
  lemma InTheWindow(g: Config, s: Echo)
    requires Progress(g, s)
    ensures WithinWindow(g, s) <==> g.pipeline > 0 || !s.pc.Refilling?
  {
  }

  ghost function Budget(g: Config): nat {
    4 * (g.msgs * |g.message|) + 2 * g.msgs
  }

  lemma InitMeasure(g: Config)
    ensures Measure(g, Init(g)) <= Budget(g)
  {
  }

  lemma RunIsBounded(g: Config, steps: seq<Step>)
    requires IsRun(g, Init(g), steps)
    ensures |steps| <= Budget(g) && Inv(g, After(g, Init(g), steps))
  {
    InvInit(g);
    RunKeeps(g, Init(g), steps);
    InitMeasure(g);
    MeasureNonNegative(g, After(g, Init(g), steps));
  }

  /** In every state of every run: what has been read back is a prefix of what has been written, and the
  rest is on its way in order; both are the message over and over; the driver reads only with its whole
  window, or all that is left, in flight, and as long as there is a window at all never exceeds it; and
  the run is no longer than four steps a byte and two a message. */
  lemma EveryState(g: Config, steps: seq<Step>)
    requires IsRun(g, Init(g), steps)
    ensures var s := After(g, Init(g), steps);
            && s.read <= s.written && Conserved(g, s)
            && FullWindow(g, s)
            && (WithinWindow(g, s) <==> g.pipeline > 0 || !s.pc.Refilling?)
            && |steps| <= 4 * (g.msgs * |g.message|) + 2 * g.msgs
  {
    RunIsBounded(g, steps);
    var s := After(g, Init(g), steps);
    PrefixIsRead(g, s);
    WindowIsFull(g, s);
    InTheWindow(g, s);
  }

  ghost predicate NeverStuck(g: Config) {
    forall s :: Reaches(g, Init(g), s) && Stuck(g, s) ==> s.pc.Done?
  }

  /** Every run gets to the end if and only if the window fits into the pipes. */
  lemma NeverStuckIffWindowFits(g: Config)
    requires ValidConfig(g)
    ensures NeverStuck(g) <==>
              || g.msgs == 0 || |g.message| == 0
              || (g.pipeline > 0
                  && (if g.pipeline < g.msgs then g.pipeline else g.msgs) * |g.message| <= g.up + g.down + 1)
  {
    if WindowFits(g) {
      forall s | Reaches(g, Init(g), s) && Stuck(g, s) ensures s.pc.Done? {
        var steps :| IsRun(g, Init(g), steps) && After(g, Init(g), steps) == s;
        InvInit(g);
        RunKeeps(g, Init(g), steps);
        StuckWithRoom(g, s);
      }
    } else {
      var t := CanDeadlock(g);
    }
  }

  lemma StuckWithRoom(g: Config, s: Echo)
    requires ValidConfig(g) && Inv(g, s) && Stuck(g, s)
    ensures WindowFits(g) ==> s.pc.Done?
  {
    match s.pc
    case Reading(_) => BlockedRead(g, s);
    case Done =>
    case _ => BlockedWrite(g, s);
  }

  /** A driver that is done has sent and got back every message, and nothing is left anywhere. */
  lemma DoneMeansComplete(g: Config, steps: seq<Step>)
    requires IsRun(g, Init(g), steps) && After(g, Init(g), steps).pc.Done?
    ensures var s := After(g, Init(g), steps);
            && s.sent == s.got == g.msgs && s.read == s.written == Copies(g.message, g.msgs)
            && s.up == [] && s.held == [] && s.down == [] && Stuck(g, s)
  {
    InvInit(g);
    RunKeeps(g, Init(g), steps);
    FinalState(g, After(g, Init(g), steps));
  }

  // ---------- how bytes may be cut up ----------

  /** Every size of transfer is possible: the server may take any part of what has arrived and write back
  any part of what it holds, and the driver may move any part of what its message still needs. Where
  several bytes can be moved at once, moving them in two transfers gives the same state. */
  lemma AnyCut(g: Config, s: Echo, n: nat, k: nat)
    requires Inv(g, s) && 0 < k < n
    ensures s.held == [] && n <= |s.up| && n <= g.chunk ==> Enabled(g, s, ServerRead(n))
    ensures n <= |s.held| && |s.down| + n <= g.down ==>
              && Enabled(g, s, ServerWrite(n)) && Enabled(g, s, ServerWrite(k))
              && Enabled(g, Next(g, s, ServerWrite(k)), ServerWrite(n - k))
              && Next(g, Next(g, s, ServerWrite(k)), ServerWrite(n - k)) == Next(g, s, ServerWrite(n))
    ensures !s.pc.Done? && s.pc.off + n <= |g.message|
            && (if s.pc.Reading? then n <= |s.down| else |s.up| + n <= g.up) ==>
              && Enabled(g, s, Move(n)) && Enabled(g, s, Move(k))
  {
    if n <= |s.held| && |s.down| + n <= g.down {
      var h := s.held;
      assert h[..k] + h[k..][..n - k] == h[..n] && h[k..][n - k..] == h[n..];
      assert (s.down + h[..k]) + h[k..][..n - k] == s.down + h[..n];
    }
  }
}
