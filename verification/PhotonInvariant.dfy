/** The counting, ordering and conservation invariants of the pool, kept by every step. */
module PhotonInvariant {
  import opened Folds
  import opened Checksum
  import opened Workload
  import opened PhotonPool

  // ---------- the semaphores ----------

  ghost function HasSpace(t: Pusher): int {
    if t.pc.PushLock? || t.pc.PushWrite? then 1 else 0
  }

  ghost function OwesItem(t: Pusher): int {
    if t.pc.PushUnlock? || t.pc.PushSignal? then 1 else 0
  }

  ghost function HasItem<W>(t: Popper<W>): int {
    if t.pc.PopLock? || t.pc.PopRead? then 1 else 0
  }

  ghost function OwesSpace<W>(t: Popper<W>): int {
    if t.pc.PopUnlock? || t.pc.PopSignal? then 1 else 0
  }

  /** Every slot is accounted for: free, promised to a pusher, full, or emptied and not yet given back;
  and every full slot is counted in `items`, promised to a popper, or written and not yet signaled. */
  ghost predicate Counting<W>(s: Pool<W>) {
    && s.space + Total(HasSpace, s.pushers) + (|s.pushed| - |s.popped|) + Total(OwesSpace, s.poppers) == CAP
    && |s.pushed| - |s.popped| == s.items + Total(HasItem, s.poppers) + Total(OwesItem, s.pushers)
  }

  lemma CountingPush<W>(g: Config<W>, s: Pool<W>, p: nat)
    requires |g.bounds| >= 1 && Counting(s) && Enabled(g, s, Push(p))
    ensures Counting(Next(g, s, Push(p)))
  {
    var t := Next(g, s, Push(p)).pushers[p];
    TotalUpdate(HasSpace, s.pushers, p, t);
    TotalUpdate(OwesItem, s.pushers, p, t);
  }

  lemma CountingPop<W>(g: Config<W>, s: Pool<W>, c: nat)
    requires |g.bounds| >= 1 && Counting(s) && Enabled(g, s, Pop(c))
    ensures Counting(Next(g, s, Pop(c)))
  {
    var u := Next(g, s, Pop(c));
    var t := u.poppers[c];
    assert u.poppers == s.poppers[c := t] && u.pushers == s.pushers;
    TotalUpdate(HasItem, s.poppers, c, t);
    TotalUpdate(OwesSpace, s.poppers, c, t);
  }

  /** A writer always has a free slot before it and a reader always has a full one. */
  lemma SlotsAreThere<W>(s: Pool<W>)
    requires Counting(s)
    ensures |s.popped| <= |s.pushed| <= |s.popped| + CAP
    ensures forall p :: 0 <= p < |s.pushers| && s.pushers[p].pc.PushWrite? ==> |s.pushed| < |s.popped| + CAP
    ensures forall c :: 0 <= c < |s.poppers| && s.poppers[c].pc.PopRead? ==> |s.popped| < |s.pushed|
  {
    TotalBounds(HasSpace, s.pushers);
    TotalBounds(OwesItem, s.pushers);
    TotalBounds(HasItem, s.poppers);
    TotalBounds(OwesSpace, s.poppers);
  }

  // ---------- the ring ----------

  /** The free-running indices count pushes and pops modulo 2^64, pops are a prefix of pushes, and the
  slots in between hold what was pushed. */
  ghost predicate Ring<W>(s: Pool<W>) {
    && |s.buf| == CAP
    && s.head == |s.popped| % WORD && s.tail == |s.pushed| % WORD
    && |s.popped| <= |s.pushed| <= |s.popped| + CAP
    && s.popped == s.pushed[..|s.popped|]
    && forall k :: |s.popped| <= k < |s.pushed| ==> s.buf[k % CAP] == s.pushed[k]
  }

  /** The slot index survives the wrap-around of the counters because 256 divides 2^64. */
  lemma SlotIndex(n: nat)
    ensures (n % WORD) % CAP == n % CAP
    ensures (n % WORD + 1) % WORD == (n + 1) % WORD
  {
    var q, r := n / WORD, n % WORD;
    assert n == q * WORD + r;
    assert WORD == CAP * 0x100_0000_0000_0000;
    assert n == (q * 0x100_0000_0000_0000) * CAP + r;
  }

  lemma SlotsDiffer(a: nat, b: nat)
    requires a < b < a + CAP
    ensures a % CAP != b % CAP
  {
  }

  lemma RingPush<W>(g: Config<W>, s: Pool<W>, p: nat)
    requires |g.bounds| >= 1 && Ring(s) && Counting(s) && Enabled(g, s, Push(p))
    ensures Ring(Next(g, s, Push(p)))
  {
    if s.pushers[p].pc.PushWrite? {
      SlotsAreThere(s);
      var n := |s.pushed|;
      SlotIndex(n);
      forall k | |s.popped| <= k < n ensures k % CAP != n % CAP {
        SlotsDiffer(k, n);
      }
    }
  }

  lemma RingPop<W>(g: Config<W>, s: Pool<W>, c: nat)
    requires |g.bounds| >= 1 && Ring(s) && Counting(s) && Enabled(g, s, Pop(c))
    ensures Ring(Next(g, s, Pop(c)))
    ensures s.poppers[c].pc.PopRead? ==>
              |s.popped| < |s.pushed| && Next(g, s, Pop(c)).poppers[c].item == s.pushed[|s.popped|]
  {
    if s.poppers[c].pc.PopRead? {
      SlotsAreThere(s);
      SlotIndex(|s.popped|);
    }
  }

  // ---------- who is where ----------

  ghost predicate Exclusive<W>(s: Pool<W>) {
    && (forall p :: 0 <= p < |s.pushers| ==>
          (s.pushers[p].pc.PushWrite? || s.pushers[p].pc.PushUnlock? <==> s.mutex == PusherHas(p)))
    && (forall c :: 0 <= c < |s.poppers| ==>
          (s.poppers[c].pc.PopRead? || s.poppers[c].pc.PopUnlock? <==> s.mutex == PopperHas(c)))
    && (s.mutex.PusherHas? ==> s.mutex.p < |s.pushers|)
    && (s.mutex.PopperHas? ==> s.mutex.c < |s.poppers|)
  }

  ghost predicate PusherOk(t: Pusher) {
    && t.next <= t.end
    && (t.pc.PushSpace? || t.pc.PushLock? || t.pc.PushWrite? ==> t.next < t.end)
    && (t.pc.PushReport? || t.pc.PushDone? ==> t.next == t.end)
    && (t.pc.PushGate? ==> t.isMain && t.next == 0)
  }

  ghost predicate Roles<W>(g: Config<W>, s: Pool<W>)
    requires |g.bounds| >= 1
  {
    && |s.pushers| == Producers(g) + 1 && |s.poppers| == g.consumers
    && (forall p :: 0 <= p < |s.pushers| ==> PusherOk(s.pushers[p]))
    && (forall p :: 0 <= p < |s.pushers| ==> (s.pushers[p].isMain <==> p == Producers(g)))
    && Main(g, s).end == g.consumers
  }

  ghost function Main<W>(g: Config<W>, s: Pool<W>): Pusher
    requires |g.bounds| >= 1 && |s.pushers| == Producers(g) + 1
  {
    s.pushers[Producers(g)]
  }

  // ---------- what has been pushed ----------

  ghost function Remaining(t: Pusher): multiset<nat> {
    if t.next > t.end then multiset{}
    else if t.isMain then Zeros(t.end - t.next)
    else Range(t.next, t.end)
  }

  ghost function Everything<W>(g: Config<W>): multiset<nat>
    requires |g.bounds| >= 1
  {
    Range(0, NumItems(g)) + Zeros(g.consumers)
  }

  /** Every item and every zero is pushed already or still to be pushed by exactly one thread. */
  ghost predicate Ledger<W>(g: Config<W>, s: Pool<W>)
    requires |g.bounds| >= 1
  {
    multiset(s.pushed) + Union(Remaining, s.pushers) == Everything(g)
  }

  lemma LedgerPush<W>(g: Config<W>, s: Pool<W>, p: nat)
    requires |g.bounds| >= 1 && Roles(g, s) && Ledger(g, s) && Enabled(g, s, Push(p))
    ensures Ledger(g, Next(g, s, Push(p)))
  {
    var t := s.pushers[p];
    var t' := Next(g, s, Push(p)).pushers[p];
    assert PusherOk(t);
    if t.pc.PushWrite? {
      RemainingShrinks(t, t');
      UnionTake(Remaining, s.pushers, p, t', Value(t));
      MoveAcross(multiset(s.pushed), Union(Remaining, s.pushers[p := t']), Value(t));
    } else {
      UnionSame(Remaining, s.pushers, p, t');
    }
  }

  lemma RemainingShrinks(t: Pusher, t': Pusher)
    requires t.next < t.end && t'.next == t.next + 1 && t'.end == t.end && t'.isMain == t.isMain
    ensures Remaining(t) == Remaining(t') + multiset{Value(t)}
  {
    if !t.isMain {
      assert multiset{t.next + 1} + Range(t.next + 1, t.end) == Range(t.next + 1, t.end) + multiset{t.next + 1};
    }
  }

  // ---------- the order of phases ----------

  /** The value, counted once for main and once for each producer that has signaled. */
  ghost function Reported(t: Pusher): int {
    if t.isMain || t.pc.PushDone? then 1 else 0
  }

  /** Main pushes nothing before every producer has finished, so zeros come after all items. */
  ghost predicate Phases<W>(g: Config<W>, s: Pool<W>)
    requires |g.bounds| >= 1 && |s.pushers| == Producers(g) + 1
  {
    && (Main(g, s).pc.PushGate? ==>
          s.producersDone + 1 == Total(Reported, s.pushers) && 0 !in s.pushed)
    && (!Main(g, s).pc.PushGate? ==>
          forall p :: 0 <= p < Producers(g) ==> s.pushers[p].pc.PushDone?)
    && ZerosLast(s.pushed)
  }

  lemma PhasesPush<W>(g: Config<W>, s: Pool<W>, p: nat)
    requires |g.bounds| >= 1 && Roles(g, s) && Phases(g, s) && Enabled(g, s, Push(p))
    ensures Phases(g, Next(g, s, Push(p)))
  {
    var t, t' := s.pushers[p], Next(g, s, Push(p)).pushers[p];
    TotalUpdate(Reported, s.pushers, p, t');
    TotalFull(Reported, s.pushers);
    assert PusherOk(t);
    if t.pc.PushWrite? {
      ZerosLastAppend(s.pushed, Value(t));
    }
  }

  // ---------- what the consumers have done ----------

  ghost predicate PopperOk<W>(g: Config<W>, t: Popper<W>) {
    && t.acc == Fold(g.algebra, t.mine) && 0 !in t.mine
    && (t.pc.PopPublish? || t.pc.PopReport? || t.pc.PopDone? ==> t.item == 0)
  }

  /** What a consumer has popped and not published. */
  ghost function HandOf<W>(t: Popper<W>): multiset<nat> {
    match t.pc
    case PopItems => multiset(t.mine)
    case PopLock => multiset(t.mine)
    case PopRead => multiset(t.mine)
    case PopReport => multiset{0}
    case PopDone => multiset{0}
    case _ => multiset(t.mine) + multiset{t.item}
  }

  /** The consumer has popped a zero. */
  ghost function TookZero<W>(t: Popper<W>): int {
    if t.pc.PopItems? || t.pc.PopLock? || t.pc.PopRead? || t.item != 0 then 0 else 1
  }

  ghost function HasReported<W>(t: Popper<W>): int {
    if t.pc.PopDone? then 1 else 0
  }

  ghost predicate Poppers<W>(g: Config<W>, s: Pool<W>) {
    forall c :: 0 <= c < |s.poppers| ==> PopperOk(g, s.poppers[c])
  }

  /** Every popped value is in the checksum or in the hands of exactly one consumer. */
  ghost predicate Processed<W>(g: Config<W>, s: Pool<W>) {
    && multiset(s.popped) == multiset(s.published) + Union(HandOf, s.poppers)
    && s.checksum == Fold(g.algebra, s.published) && 0 !in s.published
    && multiset(s.popped)[0] == Total(TookZero, s.poppers)
  }

  ghost predicate Reports<W>(g: Config<W>, s: Pool<W>)
    requires |g.bounds| >= 1 && |s.pushers| == Producers(g) + 1
  {
    if Main(g, s).pc.PushDone? then Total(HasReported, s.poppers) == |s.poppers|
    else s.consumersDone == Total(HasReported, s.poppers)
  }

  lemma PopperStep<W>(g: Config<W>, s: Pool<W>, c: nat)
    requires |g.bounds| >= 1 && Enabled(g, s, Pop(c)) && PopperOk(g, s.poppers[c])
    ensures PopperOk(g, Next(g, s, Pop(c)).poppers[c])
    ensures Next(g, s, Pop(c)).poppers == s.poppers[c := Next(g, s, Pop(c)).poppers[c]]
  {
    var t := s.poppers[c];
    FoldAppend(g.algebra, t.mine, t.item);
  }

  lemma PoppersPop<W>(g: Config<W>, s: Pool<W>, c: nat)
    requires |g.bounds| >= 1 && Poppers(g, s) && Enabled(g, s, Pop(c))
    ensures Poppers(g, Next(g, s, Pop(c)))
  {
    PopperStep(g, s, c);
  }

  lemma HandRead<W>(t: Popper<W>, t': Popper<W>)
    requires t.pc.PopRead? && t'.pc.PopUnlock? && t'.mine == t.mine
    ensures HandOf(t') == HandOf(t) + multiset{t'.item}
  {
  }

  lemma HandPublish<W>(t: Popper<W>, t': Popper<W>)
    requires t.pc.PopPublish? && t.item == 0 && t'.pc.PopReport?
    ensures HandOf(t) == HandOf(t') + multiset(t.mine)
  {
  }

  lemma HandTest<W>(t: Popper<W>, t': Popper<W>)
    requires t.pc.PopTest?
    requires (t.item == 0 && t' == t.(pc := PopPublish))
          || (t.item != 0 && t'.pc.PopItems? && t'.mine == t.mine + [t.item])
    ensures HandOf(t') == HandOf(t)
  {
    assert multiset(t.mine + [t.item]) == multiset(t.mine) + multiset{t.item};
  }

  lemma HandElse<W>(g: Config<W>, s: Pool<W>, c: nat)
    requires |g.bounds| >= 1 && Enabled(g, s, Pop(c)) && PopperOk(g, s.poppers[c])
    requires !s.poppers[c].pc.PopRead? && !s.poppers[c].pc.PopPublish?
    ensures HandOf(Next(g, s, Pop(c)).poppers[c]) == HandOf(s.poppers[c])
  {
    if s.poppers[c].pc.PopTest? {
      HandTest(s.poppers[c], Next(g, s, Pop(c)).poppers[c]);
    }
  }

  lemma ProcessedRead<W>(g: Config<W>, s: Pool<W>, c: nat)
    requires |g.bounds| >= 1 && Poppers(g, s) && Processed(g, s) && Enabled(g, s, Pop(c))
    requires s.poppers[c].pc.PopRead?
    ensures Processed(g, Next(g, s, Pop(c)))
  {
    var t, t' := s.poppers[c], Next(g, s, Pop(c)).poppers[c];
    var v := t'.item;
    HandRead(t, t');
    UnionGive(HandOf, s.poppers, c, t', v);
    TotalUpdate(TookZero, s.poppers, c, t');
    Received(s.popped, s.published, Union(HandOf, s.poppers), Union(HandOf, s.poppers[c := t']), v);
    assert multiset(s.popped + [v]) == multiset(s.popped) + multiset{v};
  }

  lemma ProcessedPublish<W(!new)>(g: Config<W>, s: Pool<W>, c: nat)
    requires |g.bounds| >= 1 && Poppers(g, s) && Processed(g, s) && Enabled(g, s, Pop(c))
    requires s.poppers[c].pc.PopPublish? && Commutative(g.algebra)
    ensures Processed(g, Next(g, s, Pop(c)))
  {
    var t, t' := s.poppers[c], Next(g, s, Pop(c)).poppers[c];
    assert PopperOk(g, t);
    HandPublish(t, t');
    UnionLess(HandOf, s.poppers, c, t', multiset(t.mine));
    TotalUpdate(TookZero, s.poppers, c, t');
    FoldConcat(g.algebra, s.published, t.mine);
    Publish(multiset(s.popped), s.published, Union(HandOf, s.poppers), Union(HandOf, s.poppers[c := t']),
            t.mine);
  }

  lemma ProcessedElse<W>(g: Config<W>, s: Pool<W>, c: nat)
    requires |g.bounds| >= 1 && Poppers(g, s) && Processed(g, s) && Enabled(g, s, Pop(c))
    requires !s.poppers[c].pc.PopRead? && !s.poppers[c].pc.PopPublish?
    ensures Processed(g, Next(g, s, Pop(c)))
  {
    var t' := Next(g, s, Pop(c)).poppers[c];
    assert PopperOk(g, s.poppers[c]);
    HandElse(g, s, c);
    UnionSame(HandOf, s.poppers, c, t');
    TotalUpdate(TookZero, s.poppers, c, t');
  }

  /** Main gets past its last wait only when every consumer has signaled. */
  lemma ReportsPush<W>(g: Config<W>, s: Pool<W>, p: nat)
    requires |g.bounds| >= 1 && Roles(g, s) && Reports(g, s) && Enabled(g, s, Push(p))
    ensures |Next(g, s, Push(p)).pushers| == Producers(g) + 1 && Reports(g, Next(g, s, Push(p)))
  {
    TotalFull(HasReported, s.poppers);
  }

  lemma ReportsPop<W>(g: Config<W>, s: Pool<W>, c: nat)
    requires |g.bounds| >= 1 && Roles(g, s) && Reports(g, s) && Enabled(g, s, Pop(c))
    ensures |Next(g, s, Pop(c)).pushers| == Producers(g) + 1 && Reports(g, Next(g, s, Pop(c)))
  {
    TotalFull(HasReported, s.poppers);
    TotalUpdate(HasReported, s.poppers, c, Next(g, s, Pop(c)).poppers[c]);
  }

  // ---------- all of it ----------

  ghost predicate Inv<W(!new)>(g: Config<W>, s: Pool<W>)
    requires |g.bounds| >= 1
  {
    && Roles(g, s) && Exclusive(s) && Counting(s) && Ring(s) && Ledger(g, s) && Phases(g, s)
    && Poppers(g, s) && Processed(g, s) && Reports(g, s)
  }

  lemma RolesPush<W>(g: Config<W>, s: Pool<W>, p: nat)
    requires |g.bounds| >= 1 && Roles(g, s) && Enabled(g, s, Push(p))
    ensures Roles(g, Next(g, s, Push(p)))
  {
    var t := Next(g, s, Push(p)).pushers[p];
    assert PusherOk(s.pushers[p]);
    assert PusherOk(t) && t.isMain == s.pushers[p].isMain && t.end == s.pushers[p].end;
    assert Next(g, s, Push(p)).pushers == s.pushers[p := t];
  }

  lemma RolesNext<W>(g: Config<W>, s: Pool<W>, step: Step)
    requires |g.bounds| >= 1 && Roles(g, s) && Enabled(g, s, step)
    ensures Roles(g, Next(g, s, step))
  {
    if step.Push? {
      RolesPush(g, s, step.p);
    }
  }

  lemma ExclusivePush<W>(g: Config<W>, s: Pool<W>, p: nat)
    requires |g.bounds| >= 1 && Exclusive(s) && Enabled(g, s, Push(p))
    ensures Exclusive(Next(g, s, Push(p)))
  {
  }

  lemma ExclusivePop<W>(g: Config<W>, s: Pool<W>, c: nat)
    requires |g.bounds| >= 1 && Exclusive(s) && Enabled(g, s, Pop(c))
    ensures Exclusive(Next(g, s, Pop(c)))
  {
  }

  lemma ExclusiveNext<W>(g: Config<W>, s: Pool<W>, step: Step)
    requires |g.bounds| >= 1 && Exclusive(s) && Enabled(g, s, step)
    ensures Exclusive(Next(g, s, step))
  {
    match step
    case Push(p) => ExclusivePush(g, s, p);
    case Pop(c) => ExclusivePop(g, s, c);
  }

  lemma ProcessedPop<W(!new)>(g: Config<W>, s: Pool<W>, c: nat)
    requires ValidConfig(g) && Poppers(g, s) && Processed(g, s) && Enabled(g, s, Pop(c))
    ensures Processed(g, Next(g, s, Pop(c)))
  {
    if s.poppers[c].pc.PopRead? {
      ProcessedRead(g, s, c);
    } else if s.poppers[c].pc.PopPublish? {
      ProcessedPublish(g, s, c);
    } else {
      ProcessedElse(g, s, c);
    }
  }

  /** A push changes nothing that the poppers' invariants speak of, and a pop nothing of the pushers'. */
  lemma PushLeavesPoppers<W>(g: Config<W>, s: Pool<W>, p: nat)
    requires |g.bounds| >= 1 && Enabled(g, s, Push(p)) && Poppers(g, s) && Processed(g, s)
    ensures Poppers(g, Next(g, s, Push(p))) && Processed(g, Next(g, s, Push(p)))
  {
  }

  lemma PopFrame<W>(g: Config<W>, s: Pool<W>, c: nat)
    requires |g.bounds| >= 1 && Enabled(g, s, Pop(c))
    ensures var t := Next(g, s, Pop(c));
            && t.pushers == s.pushers && t.pushed == s.pushed && t.producersDone == s.producersDone
            && |t.poppers| == |s.poppers|
  {
  }

  lemma SamePushers<W>(g: Config<W>, s: Pool<W>, t: Pool<W>)
    requires |g.bounds| >= 1 && Roles(g, s) && Ledger(g, s) && Phases(g, s)
    requires t.pushers == s.pushers && t.pushed == s.pushed && t.producersDone == s.producersDone
    requires |t.poppers| == |s.poppers|
    ensures Roles(g, t) && Ledger(g, t) && Phases(g, t)
  {
  }

  lemma InvPush<W(!new)>(g: Config<W>, s: Pool<W>, p: nat)
    requires ValidConfig(g) && Inv(g, s) && Enabled(g, s, Push(p))
    ensures Inv(g, Next(g, s, Push(p)))
  {
    RolesNext(g, s, Push(p));
    ExclusiveNext(g, s, Push(p));
    ReportsPush(g, s, p);
    CountingPush(g, s, p);
    RingPush(g, s, p);
    LedgerPush(g, s, p);
    PhasesPush(g, s, p);
    PushLeavesPoppers(g, s, p);
  }

  lemma InvPop<W(!new)>(g: Config<W>, s: Pool<W>, c: nat)
    requires ValidConfig(g) && Inv(g, s) && Enabled(g, s, Pop(c))
    ensures Inv(g, Next(g, s, Pop(c)))
  {
    PopFrame(g, s, c);
    SamePushers(g, s, Next(g, s, Pop(c)));
    ExclusiveNext(g, s, Pop(c));
    ReportsPop(g, s, c);
    CountingPop(g, s, c);
    RingPop(g, s, c);
    PoppersPop(g, s, c);
    ProcessedPop(g, s, c);
  }

  lemma InvNext<W(!new)>(g: Config<W>, s: Pool<W>, step: Step)
    requires ValidConfig(g) && Inv(g, s) && Enabled(g, s, step)
    ensures Inv(g, Next(g, s, step))
  {
    match step
    case Push(p) => InvPush(g, s, p);
    case Pop(c) => InvPop(g, s, c);
  }

  // ---------- the start ----------

  lemma InitLedger<W>(g: Config<W>)
    requires |g.bounds| >= 2 && g.bounds[0] == 0
    requires Ascending(g.bounds)
    ensures Ledger(g, Init(g))
  {
    var ts := Init(g).pushers;
    var producers := NewProducers(g.bounds);
    assert ts[..|ts| - 1] == producers;
    RangesCover(Remaining, producers, g.bounds);
    assert Union(Remaining, ts) == Union(Remaining, producers) + Zeros(g.consumers);
    assert multiset(Init(g).pushed) == multiset{};
  }

  lemma InitSemaphores<W>(g: Config<W>)
    requires |g.bounds| >= 2
    ensures Counting(Init(g))
  {
    var s := Init(g);
    TotalConstant(HasSpace, s.pushers, 0);
    TotalConstant(OwesItem, s.pushers, 0);
    TotalConstant(HasItem, s.poppers, 0);
    TotalConstant(OwesSpace, s.poppers, 0);
  }

  lemma InitCounts<W>(g: Config<W>)
    requires |g.bounds| >= 2
    ensures Total(Reported, Init(g).pushers) == 1 && Total(HasReported, Init(g).poppers) == 0
    ensures Total(TookZero, Init(g).poppers) == 0 && Union(HandOf, Init(g).poppers) == multiset{}
  {
    var s := Init(g);
    TotalConstant(HasReported, s.poppers, 0);
    TotalConstant(TookZero, s.poppers, 0);
    UnionEmpty(HandOf, s.poppers);
    TotalConstant(Reported, NewProducers(g.bounds), 0);
    TotalAppend(Reported, NewProducers(g.bounds), s.pushers[Producers(g)]);
  }

  lemma InitProducers(bounds: seq<nat>)
    requires |bounds| >= 1 && Ascending(bounds)
    ensures forall p :: 0 <= p < |bounds| - 1 ==>
              PusherOk(NewProducers(bounds)[p]) && !NewProducers(bounds)[p].isMain
  {
  }

  lemma InitShapes<W>(g: Config<W>)
    requires |g.bounds| >= 2 && g.consumers > 0
    requires Ascending(g.bounds)
    ensures Roles(g, Init(g))
  {
    InitProducers(g.bounds);
    var ts := Init(g).pushers;
    forall p | 0 <= p < |ts| ensures PusherOk(ts[p]) && (ts[p].isMain <==> p == Producers(g)) {
      assert p < Producers(g) ==> ts[p] == NewProducers(g.bounds)[p];
    }
  }

  lemma InitPoppers<W>(g: Config<W>)
    requires |g.bounds| >= 2
    ensures Poppers(g, Init(g)) && Ring(Init(g)) && Exclusive(Init(g))
  {
  }

  lemma InvInit<W(!new)>(g: Config<W>)
    requires ValidConfig(g)
    ensures Inv(g, Init(g))
  {
    InitShapes(g);
    InitPoppers(g);
    InitLedger(g);
    InitSemaphores(g);
    InitCounts(g);
  }

  lemma {:induction false} RunKeepsInv<W(!new)>(g: Config<W>, s: Pool<W>, steps: seq<Step>)
    requires ValidConfig(g) && Inv(g, s) && IsRun(g, s, steps)
    ensures Inv(g, After(g, s, steps))
    decreases |steps|
  {
    if steps != [] {
      InvNext(g, s, steps[0]);
      RunKeepsInv(g, Next(g, s, steps[0]), steps[1..]);
    }
  }
}
