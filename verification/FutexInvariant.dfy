/** What is true after every run of the machine, and that every step keeps it. */
module FutexInvariant {
  import opened Channel
  import opened FutexMachine

  ghost predicate Holds(pc: Pc) {
    pc.Inside? || pc.Closing? || pc.Storing? || pc.Waking? || pc.Leaving? || pc.Parking?
    || pc.Deciding? || pc.Rejoined?
  }

  /** The operation has linked its waiter and has not returned: the waiter's memory is alive. */
  ghost predicate Suspended(pc: Pc) {
    pc.Parking? || pc.Loading? || pc.Waiting? || pc.Asleep? || pc.Canceling? || pc.Deciding?
    || pc.Rejoining? || pc.Rejoined? || pc.Reading?
  }

  /** Mutual exclusion: the holder, and nobody else, is inside. */
  ghost predicate Exclusive<V>(s: State<V>) {
    && (s.mutex.Some? ==> s.mutex.value < |s.ops|)
    && forall i {:trigger s.ops[i]} :: 0 <= i < |s.ops| ==> (Holds(s.ops[i].pc) <==> s.mutex == Some(i))
  }

  // ---------- waiters and their claimers ----------

  /** The holder is about to set the word of `w`, or has set it and is about to call futexWake. */
  ghost predicate AboutToStore<V>(s: State<V>, w: Id) {
    s.mutex.Some? && s.mutex.value < |s.ops| && s.ops[s.mutex.value].pc == Storing(w)
  }

  ghost predicate AboutToWake<V>(s: State<V>, w: Id) {
    s.mutex.Some? && s.mutex.value < |s.ops| && s.ops[s.mutex.value].pc == Waking(w)
  }

  /** Where a waiter can be, given its flags. */
  ghost predicate WaiterOk<V>(s: State<V>, i: Id)
    requires i < |s.ops|
  {
    var op := s.ops[i];
    && (Suspended(op.pc) ==> !op.kind.Closer?)
    && (op.queued ==>
          && Suspended(op.pc) && !op.pc.Rejoining? && !op.pc.Rejoined? && !op.pc.Reading?
          && !op.word && !op.done)
    && (op.pc.Parking? ==> op.queued)
    && (Suspended(op.pc) && !op.queued ==> op.word || AboutToStore(s, i))
    && (op.pc == Asleep && op.word ==> AboutToWake(s, i))
    && (op.pc.Rejoining? || op.pc.Rejoined? || op.pc.Reading? ==> op.word)
    && (!Suspended(op.pc) && op.done ==> op.pc == Returned(Success))
  }

  ghost predicate Waiters<V>(s: State<V>) {
    forall i {:trigger s.ops[i]} :: 0 <= i < |s.ops| ==> WaiterOk(s, i)
  }

  /** A claimed waiter is somebody else's, it is off its list, and its frame is alive: it is not even
  about to return, because it has to take the mutex first. */
  ghost predicate Claimed<V>(s: State<V>, claimer: Id, w: Id, word: bool)
    requires claimer < |s.ops|
  {
    && w < |s.ops| && w != claimer && Suspended(s.ops[w].pc) && !s.ops[w].pc.Reading?
    && !s.ops[w].queued && s.ops[w].word == word
    && (s.ops[claimer].kind.Closer? ==> s.chan.closed)
  }

  ghost predicate ClaimOk<V>(s: State<V>, i: Id)
    requires i < |s.ops|
  {
    match s.ops[i].pc
    case Storing(w) => Claimed(s, i, w, false)
    case Waking(w) => Claimed(s, i, w, true)
    case Closing => s.ops[i].kind.Closer? && s.chan.closed
    case _ => true
  }

  ghost predicate Claims<V>(s: State<V>) {
    forall i {:trigger s.ops[i]} :: 0 <= i < |s.ops| ==> ClaimOk(s, i)
  }

  // ---------- the lists ----------

  /** Linked exactly when flagged as queued, on the list of its own kind, with its own item. */
  ghost predicate Lists<V>(s: State<V>) {
    && InRange(s)
    && Distinct(s.chan.receivers)
    && Distinct(Whos(s.chan.senders))
    && (forall k :: 0 <= k < |s.chan.receivers| ==> ReceiverLinked(s, s.chan.receivers[k]))
    && (forall k :: 0 <= k < |s.chan.senders| ==> SenderLinked(s, s.chan.senders[k]))
    && (forall i {:trigger s.ops[i]} :: 0 <= i < |s.ops| && s.ops[i].queued ==>
          if s.ops[i].kind.Sender? then i in Whos(s.chan.senders) else i in s.chan.receivers)
  }

  ghost predicate ReceiverLinked<V>(s: State<V>, r: Id) {
    r < |s.ops| && s.ops[r].queued && s.ops[r].kind.Receiver?
  }

  ghost predicate SenderLinked<V>(s: State<V>, p: Parked<Id, Msg<V>>) {
    && p.who < |s.ops| && s.ops[p.who].queued && s.ops[p.who].kind.Sender?
    && p.item == Msg(p.who, s.ops[p.who].kind.value)
  }

  ghost predicate InClose<V>(s: State<V>) {
    && s.mutex.Some? && s.mutex.value < |s.ops| && s.ops[s.mutex.value].kind.Closer?
    && var pc := s.ops[s.mutex.value].pc; pc.Closing? || pc.Storing? || pc.Waking?
  }

  /** The lists match the ring at every moment; only `close`, while it runs, has waiters on a closed
  channel. */
  ghost predicate Quiet<V>(s: State<V>) {
    Matched(s.chan) && (Settled(s.chan) || InClose(s))
  }

  ghost predicate OpsOk<V>(s: State<V>) {
    Exclusive(s) && Waiters(s) && Claims(s)
  }

  ghost predicate Core<V>(s: State<V>) {
    OpsOk(s) && Lists(s) && Quiet(s)
  }

  lemma CoreInit<V>(capacity: nat)
    ensures Core<V>(Init(capacity))
  {
  }

  lemma CoreStart<V>(s: State<V>, kind: Kind<V>)
    requires Core(s)
    ensures Core(Next(s, Start(kind)))
  {
    var t := Next(s, Start(kind));
    forall i | 0 <= i < |t.ops| ensures WaiterOk(t, i) {}
    forall i | 0 <= i < |t.ops| ensures ClaimOk(t, i) {}
  }

  // ---------- steps that change one program counter and perhaps the mutex ----------

  /** `t` is `s` with `id` at `pc`; who holds the mutex may differ. */
  ghost predicate Moved<V>(s: State<V>, t: State<V>, id: Id, pc: Pc) {
    id < |s.ops| && t.ops == s.ops[id := s.ops[id].(pc := pc)] && t.chan == s.chan
  }

  lemma MovedKeepsLists<V>(s: State<V>, t: State<V>, id: Id, pc: Pc)
    requires Lists(s) && Moved(s, t, id, pc) && TargetInRange(s, pc)
    ensures Lists(t)
  {
  }

  ghost predicate Takes(from: Pc, to: Pc) {
    || (from.Entering? && to.Inside?)
    || (from.Canceling? && to.Deciding?)
    || (from.Rejoining? && to.Rejoined?)
  }

  lemma TakeKeepsOps<V>(s: State<V>, t: State<V>, id: Id, pc: Pc)
    requires OpsOk(s) && Moved(s, t, id, pc) && Takes(s.ops[id].pc, pc)
    requires s.mutex == None && t.mutex == Some(id)
    ensures OpsOk(t)
  {
    forall i | 0 <= i < |t.ops| ensures WaiterOk(t, i) {}
    forall i | 0 <= i < |t.ops| ensures ClaimOk(t, i) {}
  }

  ghost predicate Frees(from: Pc, to: Pc) {
    || (from.Leaving? && to == Returned(from.with))
    || (from.Parking? && to.Loading?)
    || (from.Rejoined? && to.Reading?)
  }

  lemma FreeKeepsOps<V>(s: State<V>, t: State<V>, id: Id, pc: Pc)
    requires OpsOk(s) && Moved(s, t, id, pc) && Frees(s.ops[id].pc, pc)
    requires s.mutex == Some(id) && t.mutex == None
    ensures OpsOk(t)
  {
    forall i | 0 <= i < |t.ops| ensures WaiterOk(t, i) {}
    forall i | 0 <= i < |t.ops| ensures ClaimOk(t, i) {}
  }

  /** A suspended or entering operation moves without the mutex. */
  ghost predicate Outside<V>(op: Op<V>, to: Pc) {
    match op.pc
    case Entering => to == Returned(Canceled)
    case Loading => to == if op.word then Rejoining else Waiting
    case Waiting => to == Canceling || to == if op.word then Loading else Asleep
    case Asleep => to == Canceling || to == Loading
    case Reading => to == Returned(if op.done then Success else Closed)
    case _ => false
  }

  lemma OutsideKeepsWaiters<V>(s: State<V>, t: State<V>, id: Id, pc: Pc)
    requires OpsOk(s) && Moved(s, t, id, pc) && Outside(s.ops[id], pc) && t.mutex == s.mutex
    ensures Exclusive(t) && Waiters(t)
  {
    forall i | 0 <= i < |t.ops| ensures WaiterOk(t, i) {}
  }

  lemma OutsideKeepsClaims<V>(s: State<V>, t: State<V>, id: Id, pc: Pc)
    requires OpsOk(s) && Moved(s, t, id, pc) && Outside(s.ops[id], pc) && t.mutex == s.mutex
    ensures Claims(t)
  {
    forall i | 0 <= i < |t.ops| ensures ClaimOk(t, i) {}
  }

  lemma OutsideKeepsOps<V>(s: State<V>, t: State<V>, id: Id, pc: Pc)
    requires OpsOk(s) && Moved(s, t, id, pc) && Outside(s.ops[id], pc) && t.mutex == s.mutex
    ensures OpsOk(t)
  {
    OutsideKeepsWaiters(s, t, id, pc);
    OutsideKeepsClaims(s, t, id, pc);
  }

  /** `t` is `s` after `id` has claimed the queued waiter `w`. */
  ghost predicate ClaimStep<V>(s: State<V>, t: State<V>, id: Id, w: Id) {
    && s.mutex == t.mutex == Some(id) && id < |s.ops| == |t.ops| && w < |s.ops| && w != id
    && (s.ops[id].pc.Inside? || s.ops[id].pc.Closing?) && !s.ops[id].done && !s.ops[id].queued
    && s.ops[w].queued
    && t.ops[id].(inbox := []) == s.ops[id].(pc := Storing(w), inbox := [])
    && t.ops[w].(inbox := [], done := false) == s.ops[w].(queued := false, inbox := [], done := false)
    && (forall i :: 0 <= i < |s.ops| && i != id && i != w ==> t.ops[i] == s.ops[i])
    && (s.chan.closed ==> t.chan.closed)
    && (s.ops[id].kind.Closer? ==> t.chan.closed)
  }

  lemma ClaimKeepsOps<V>(s: State<V>, t: State<V>, id: Id, w: Id)
    requires Exclusive(s) && Waiters(s) && Claims(s) && ClaimStep(s, t, id, w)
    ensures Exclusive(t) && Waiters(t) && Claims(t)
  {
    forall i | 0 <= i < |t.ops| ensures WaiterOk(t, i) {}
    forall i | 0 <= i < |t.ops| ensures ClaimOk(t, i) {}
  }

  lemma ClaimReceiverKeepsLists<V>(s: State<V>, t: State<V>, id: Id)
    requires Lists(s) && s.chan.receivers != [] && ClaimStep(s, t, id, s.chan.receivers[0])
    requires t.chan.receivers == s.chan.receivers[1..] && t.chan.senders == s.chan.senders
    ensures Lists(t)
  {
  }

  lemma ClaimSenderKeepsLists<V>(s: State<V>, t: State<V>, id: Id)
    requires Lists(s) && s.chan.senders != [] && ClaimStep(s, t, id, s.chan.senders[0].who)
    requires t.chan.senders == s.chan.senders[1..] && t.chan.receivers == s.chan.receivers
    ensures Lists(t)
  {
  }

  // ---------- setting the word and waking ----------

  ghost predicate StoreStep<V>(s: State<V>, t: State<V>, id: Id, w: Id) {
    && s.mutex == t.mutex == Some(id) && id < |s.ops| && s.ops[id].pc == Storing(w)
    && w < |s.ops| && w != id && t.chan == s.chan
    && t.ops == s.ops[w := s.ops[w].(word := true)][id := s.ops[id].(pc := Waking(w))]
  }

  lemma StoreKeepsOps<V>(s: State<V>, t: State<V>, id: Id, w: Id)
    requires OpsOk(s) && StoreStep(s, t, id, w)
    ensures OpsOk(t)
  {
    forall i | 0 <= i < |t.ops| ensures WaiterOk(t, i) {}
    forall i | 0 <= i < |t.ops| ensures ClaimOk(t, i) {}
  }

  lemma StoreKeepsLists<V>(s: State<V>, t: State<V>, id: Id, w: Id)
    requires Lists(s) && StoreStep(s, t, id, w)
    ensures Lists(t)
  {
  }

  /** The wake call has been made: the claimer lets go of the waiter. */
  lemma LetGoKeepsOps<V>(s: State<V>, t: State<V>, id: Id, pc: Pc)
    requires OpsOk(s) && Moved(s, t, id, pc) && s.ops[id].pc.Waking?
    requires s.mutex == t.mutex == Some(id)
    requires s.ops[id].pc.target < |s.ops| && s.ops[s.ops[id].pc.target].pc != Asleep
    requires pc == if s.ops[id].kind.Closer? then Closing else Leaving(Success)
    ensures OpsOk(t)
  {
    forall i | 0 <= i < |t.ops| ensures WaiterOk(t, i) {}
    forall i | 0 <= i < |t.ops| ensures ClaimOk(t, i) {}
  }

  // ---------- under the mutex ----------

  /** The holder moves on without touching any waiter, perhaps with another ring or closed flag. */
  lemma InsideKeepsCore<V>(s: State<V>, t: State<V>, id: Id, pc: Pc)
    requires Core(s) && s.mutex == t.mutex == Some(id) && id < |s.ops|
    requires s.ops[id].pc.Inside? || s.ops[id].pc.Closing?
    requires |t.ops| == |s.ops| && t.ops[id].(inbox := []) == s.ops[id].(pc := pc, inbox := [])
    requires forall i :: 0 <= i < |s.ops| && i != id ==> t.ops[i] == s.ops[i]
    requires pc.Leaving? || (pc.Closing? && s.ops[id].kind.Closer? && t.chan.closed)
    requires t.chan.receivers == s.chan.receivers && t.chan.senders == s.chan.senders
    requires Matched(t.chan) && (Settled(t.chan) || pc.Closing?)
    requires s.chan.closed ==> t.chan.closed
    ensures Core(t)
  {
    forall i | 0 <= i < |t.ops| ensures WaiterOk(t, i) {}
    forall i | 0 <= i < |t.ops| ensures ClaimOk(t, i) {}
  }

  ghost predicate ParkStep<V>(s: State<V>, t: State<V>, id: Id) {
    && s.mutex == t.mutex == Some(id) && id < |s.ops| && s.ops[id].pc.Inside?
    && t.ops == s.ops[id := s.ops[id].(pc := Parking, word := false, done := false, queued := true)]
    && t.chan.closed == s.chan.closed
  }

  lemma ParkKeepsOps<V>(s: State<V>, t: State<V>, id: Id)
    requires OpsOk(s) && ParkStep(s, t, id) && !s.ops[id].kind.Closer?
    ensures OpsOk(t)
  {
    forall i | 0 <= i < |t.ops| ensures WaiterOk(t, i) {}
    forall i | 0 <= i < |t.ops| ensures ClaimOk(t, i) {}
  }

  lemma ParkSenderKeepsLists<V>(s: State<V>, t: State<V>, id: Id)
    requires Lists(s) && ParkStep(s, t, id) && !s.ops[id].queued && s.ops[id].kind.Sender?
    requires t.chan == ParkSender(s.chan, id, Msg(id, s.ops[id].kind.value))
    ensures Lists(t)
  {
    WhosAppend(s.chan.senders, Parked(id, Msg(id, s.ops[id].kind.value)));
    assert Whos(t.chan.senders)[|s.chan.senders|] == id;
  }

  lemma ParkReceiverKeepsLists<V>(s: State<V>, t: State<V>, id: Id)
    requires Lists(s) && ParkStep(s, t, id) && !s.ops[id].queued && s.ops[id].kind.Receiver?
    requires t.chan == ParkReceiver(s.chan, id)
    ensures Lists(t)
  {
  }

  lemma WhosAppend<W, T>(ps: seq<Parked<W, T>>, p: Parked<W, T>)
    ensures Whos(ps + [p]) == Whos(ps) + [p.who]
  {
  }

  /** `id` gives up: it is unlinked and leaves with Canceled. */
  ghost predicate GiveUpStep<V>(s: State<V>, t: State<V>, id: Id) {
    && s.mutex == t.mutex == Some(id) && id < |s.ops| && s.ops[id].pc.Deciding? && s.ops[id].queued
    && t.ops == s.ops[id := s.ops[id].(pc := Leaving(Canceled), queued := false)]
    && t.chan == Channel.Cancel(s.chan, id)
  }

  lemma GiveUpKeepsOps<V>(s: State<V>, t: State<V>, id: Id)
    requires OpsOk(s) && GiveUpStep(s, t, id)
    ensures OpsOk(t)
  {
    forall i | 0 <= i < |t.ops| ensures WaiterOk(t, i) {}
    forall i | 0 <= i < |t.ops| ensures ClaimOk(t, i) {}
  }

  /** Unlinking takes exactly the one waiter out of exactly the one list. */
  lemma CancelSender<V>(s: State<V>, id: Id) returns (k: nat)
    requires Lists(s) && id < |s.ops| && s.ops[id].queued && s.ops[id].kind.Sender?
    ensures k < |s.chan.senders| && s.chan.senders[k].who == id
    ensures Channel.Cancel(s.chan, id)
         == s.chan.(senders := s.chan.senders[..k] + s.chan.senders[k + 1..])
  {
    var whos := Whos(s.chan.senders);
    k :| 0 <= k < |whos| && whos[k] == id;
    forall j | 0 <= j < k ensures s.chan.senders[j].who != id {
      assert whos[j] != whos[k];
    }
    WithoutSenderSplits(s.chan.senders, k);
    WithoutAbsent(s.chan.senders, s.chan.receivers, id);
  }

  lemma CancelReceiver<V>(s: State<V>, id: Id) returns (k: nat)
    requires Lists(s) && id < |s.ops| && s.ops[id].queued && s.ops[id].kind.Receiver?
    ensures k < |s.chan.receivers| && s.chan.receivers[k] == id
    ensures Channel.Cancel(s.chan, id)
         == s.chan.(receivers := s.chan.receivers[..k] + s.chan.receivers[k + 1..])
  {
    k :| 0 <= k < |s.chan.receivers| && s.chan.receivers[k] == id;
    UnlinkSplits(s.chan.receivers, k);
    WithoutAbsent(s.chan.senders, s.chan.receivers, id);
  }

  lemma RemoveOne<T>(xs: seq<T>, k: nat)
    requires k < |xs| && Distinct(xs)
    ensures Distinct(xs[..k] + xs[k + 1..])
    ensures forall x :: x in xs && x != xs[k] ==> x in xs[..k] + xs[k + 1..]
  {
    var ys := xs[..k] + xs[k + 1..];
    forall x | x in xs && x != xs[k] ensures x in ys {
      var j :| 0 <= j < |xs| && xs[j] == x;
      assert ys[if j < k then j else j - 1] == x;
    }
  }

  lemma SendersLeft<V>(s: State<V>, t: State<V>, id: Id, k: nat)
    requires Lists(s) && GiveUpStep(s, t, id) && k < |s.chan.senders| && s.chan.senders[k].who == id
    requires t.chan.senders == s.chan.senders[..k] + s.chan.senders[k + 1..]
    ensures forall j :: 0 <= j < |t.chan.senders| ==> SenderLinked(t, t.chan.senders[j])
  {
    var whos := Whos(s.chan.senders);
    forall j | 0 <= j < |t.chan.senders| ensures SenderLinked(t, t.chan.senders[j]) {
      var i := if j < k then j else j + 1;
      assert t.chan.senders[j] == s.chan.senders[i] && SenderLinked(s, s.chan.senders[i]);
      assert whos[i] != whos[k];
    }
  }

  lemma GiveUpSenderKeepsLists<V>(s: State<V>, t: State<V>, id: Id, k: nat)
    requires Lists(s) && GiveUpStep(s, t, id) && s.ops[id].kind.Sender?
    requires k < |s.chan.senders| && s.chan.senders[k].who == id
    requires t.chan == s.chan.(senders := s.chan.senders[..k] + s.chan.senders[k + 1..])
    ensures Lists(t)
  {
    var whos, left := Whos(s.chan.senders), Whos(t.chan.senders);
    assert left == whos[..k] + whos[k + 1..];
    RemoveOne(whos, k);
    SendersLeft(s, t, id, k);
  }

  lemma ReceiversLeft<V>(s: State<V>, t: State<V>, id: Id, k: nat)
    requires Lists(s) && GiveUpStep(s, t, id) && k < |s.chan.receivers| && s.chan.receivers[k] == id
    requires t.chan.receivers == s.chan.receivers[..k] + s.chan.receivers[k + 1..]
    ensures forall j :: 0 <= j < |t.chan.receivers| ==> ReceiverLinked(t, t.chan.receivers[j])
  {
    forall j | 0 <= j < |t.chan.receivers| ensures ReceiverLinked(t, t.chan.receivers[j]) {
      var i := if j < k then j else j + 1;
      assert t.chan.receivers[j] == s.chan.receivers[i] && ReceiverLinked(s, s.chan.receivers[i]);
      assert s.chan.receivers[i] != s.chan.receivers[k];
    }
  }

  lemma GiveUpReceiverKeepsLists<V>(s: State<V>, t: State<V>, id: Id, k: nat)
    requires Lists(s) && GiveUpStep(s, t, id) && s.ops[id].kind.Receiver?
    requires k < |s.chan.receivers| && s.chan.receivers[k] == id
    requires t.chan == s.chan.(receivers := s.chan.receivers[..k] + s.chan.receivers[k + 1..])
    ensures Lists(t)
  {
    RemoveOne(s.chan.receivers, k);
    ReceiversLeft(s, t, id, k);
  }

  // ---------- every step keeps the invariant ----------

  lemma CoreRefused<V>(s: State<V>, id: Id)
    requires Core(s) && Enabled(s, Act(id)) && s.ops[id].pc.Inside?
    requires if s.ops[id].kind.Sender? then s.chan.closed
             else s.ops[id].kind.Receiver? && Receive(s.chan).1.ReceiveRefused?
    ensures Core(Next(s, Act(id)))
  {
    InsideKeepsCore(s, Next(s, Act(id)), id, Leaving(Closed));
  }

  lemma CoreHandOff<V>(s: State<V>, id: Id)
    requires Core(s) && Enabled(s, Act(id)) && s.ops[id].pc.Inside? && s.ops[id].kind.Sender?
    requires !s.chan.closed && s.chan.receivers != []
    ensures Core(Next(s, Act(id)))
  {
    var t := Next(s, Act(id));
    assert ReceiverLinked(s, s.chan.receivers[0]) && WaiterOk(s, id);
    assert ClaimStep(s, t, id, s.chan.receivers[0]);
    ClaimKeepsOps(s, t, id, s.chan.receivers[0]);
    ClaimReceiverKeepsLists(s, t, id);
  }

  lemma CoreStore<V>(s: State<V>, id: Id)
    requires Core(s) && Enabled(s, Act(id)) && s.ops[id].pc.Inside? && s.ops[id].kind.Sender?
    requires !s.chan.closed && s.chan.receivers == [] && |s.chan.ring| < s.chan.capacity
    ensures Core(Next(s, Act(id)))
  {
    InsideKeepsCore(s, Next(s, Act(id)), id, Leaving(Success));
  }

  lemma CoreParkSender<V>(s: State<V>, id: Id)
    requires Core(s) && Enabled(s, Act(id)) && s.ops[id].pc.Inside? && s.ops[id].kind.Sender?
    requires !s.chan.closed && s.chan.receivers == [] && |s.chan.ring| >= s.chan.capacity
    ensures Core(Next(s, Act(id)))
  {
    var t := Next(s, Act(id));
    assert WaiterOk(s, id);
    assert ParkStep(s, t, id);
    ParkKeepsOps(s, t, id);
    ParkSenderKeepsLists(s, t, id);
  }

  lemma CoreSend<V>(s: State<V>, id: Id)
    requires Core(s) && Enabled(s, Act(id)) && s.ops[id].pc.Inside? && s.ops[id].kind.Sender?
    ensures Core(Next(s, Act(id)))
  {
    if s.chan.closed {
      CoreRefused(s, id);
    } else if s.chan.receivers != [] {
      CoreHandOff(s, id);
    } else if |s.chan.ring| < s.chan.capacity {
      CoreStore(s, id);
    } else {
      CoreParkSender(s, id);
    }
  }

  lemma CoreRefill<V>(s: State<V>, id: Id)
    requires Core(s) && Enabled(s, Act(id)) && s.ops[id].pc.Inside? && s.ops[id].kind.Receiver?
    requires s.chan.senders != []
    ensures Core(Next(s, Act(id)))
  {
    var t := Next(s, Act(id));
    assert SenderLinked(s, s.chan.senders[0]) && WaiterOk(s, id);
    assert ClaimStep(s, t, id, s.chan.senders[0].who);
    ClaimKeepsOps(s, t, id, s.chan.senders[0].who);
    ClaimSenderKeepsLists(s, t, id);
  }

  lemma CoreTake<V>(s: State<V>, id: Id)
    requires Core(s) && Enabled(s, Act(id)) && s.ops[id].pc.Inside? && s.ops[id].kind.Receiver?
    requires s.chan.senders == [] && s.chan.ring != []
    ensures Core(Next(s, Act(id)))
  {
    InsideKeepsCore(s, Next(s, Act(id)), id, Leaving(Success));
  }

  lemma CoreParkReceiver<V>(s: State<V>, id: Id)
    requires Core(s) && Enabled(s, Act(id)) && s.ops[id].pc.Inside? && s.ops[id].kind.Receiver?
    requires s.chan.senders == [] && s.chan.ring == [] && !s.chan.closed
    ensures Core(Next(s, Act(id)))
  {
    var t := Next(s, Act(id));
    assert WaiterOk(s, id);
    assert ParkStep(s, t, id);
    ParkKeepsOps(s, t, id);
    ParkReceiverKeepsLists(s, t, id);
  }

  lemma CoreReceive<V>(s: State<V>, id: Id)
    requires Core(s) && Enabled(s, Act(id)) && s.ops[id].pc.Inside? && s.ops[id].kind.Receiver?
    ensures Core(Next(s, Act(id)))
  {
    if s.chan.senders != [] {
      CoreRefill(s, id);
    } else if s.chan.ring != [] {
      CoreTake(s, id);
    } else if s.chan.closed {
      CoreRefused(s, id);
    } else {
      CoreParkReceiver(s, id);
    }
  }

  lemma CoreClosing<V>(s: State<V>, id: Id)
    requires Core(s) && Enabled(s, Act(id)) && s.ops[id].pc.Inside? && s.ops[id].kind.Closer?
    ensures Core(Next(s, Act(id)))
  {
    InsideKeepsCore(s, Next(s, Act(id)), id, Next(s, Act(id)).ops[id].pc);
  }

  lemma CoreInside<V>(s: State<V>, id: Id)
    requires Core(s) && Enabled(s, Act(id)) && s.ops[id].pc.Inside?
    ensures Core(Next(s, Act(id)))
  {
    match s.ops[id].kind
    case Sender(_) => CoreSend(s, id);
    case Receiver => CoreReceive(s, id);
    case Closer => CoreClosing(s, id);
  }

  lemma CoreStoring<V>(s: State<V>, id: Id)
    requires Core(s) && Enabled(s, Act(id)) && s.ops[id].pc.Storing?
    ensures Core(Next(s, Act(id)))
  {
    assert ClaimOk(s, id);
    StoreKeepsOps(s, Next(s, Act(id)), id, s.ops[id].pc.target);
    StoreKeepsLists(s, Next(s, Act(id)), id, s.ops[id].pc.target);
  }

  lemma CoreClose<V>(s: State<V>, id: Id)
    requires Core(s) && Enabled(s, Act(id)) && s.ops[id].pc.Closing?
    ensures Core(Next(s, Act(id)))
  {
    var t := Next(s, Act(id));
    assert ClaimOk(s, id) && WaiterOk(s, id);
    if s.chan.receivers != [] {
      assert ReceiverLinked(s, s.chan.receivers[0]);
      assert ClaimStep(s, t, id, s.chan.receivers[0]);
      ClaimKeepsOps(s, t, id, s.chan.receivers[0]);
      ClaimReceiverKeepsLists(s, t, id);
    } else if s.chan.senders != [] {
      assert SenderLinked(s, s.chan.senders[0]);
      assert ClaimStep(s, t, id, s.chan.senders[0].who);
      ClaimKeepsOps(s, t, id, s.chan.senders[0].who);
      ClaimSenderKeepsLists(s, t, id);
    } else {
      InsideKeepsCore(s, t, id, Leaving(Success));
    }
  }

  lemma CoreDecide<V>(s: State<V>, id: Id)
    requires Core(s) && Enabled(s, Act(id)) && s.ops[id].pc.Deciding?
    ensures Core(Next(s, Act(id)))
  {
    var t := Next(s, Act(id));
    assert WaiterOk(s, id);
    if s.ops[id].queued {
      assert GiveUpStep(s, t, id);
      GiveUpKeepsOps(s, t, id);
      if s.ops[id].kind.Sender? {
        var k := CancelSender(s, id);
        GiveUpSenderKeepsLists(s, t, id, k);
      } else {
        var k := CancelReceiver(s, id);
        GiveUpReceiverKeepsLists(s, t, id, k);
      }
    } else {
      LoseRaceKeepsOps(s, t, id);
      MovedKeepsLists(s, t, id, Rejoined);
    }
  }

  /** The cancel came after a peer had claimed the waiter, which by now has finished with it. */
  lemma LoseRaceKeepsOps<V>(s: State<V>, t: State<V>, id: Id)
    requires OpsOk(s) && Moved(s, t, id, Rejoined) && s.ops[id].pc.Deciding? && !s.ops[id].queued
    requires s.mutex == t.mutex == Some(id)
    ensures OpsOk(t) && s.ops[id].word
  {
    assert WaiterOk(s, id);
    forall i | 0 <= i < |t.ops| ensures WaiterOk(t, i) {}
    forall i | 0 <= i < |t.ops| ensures ClaimOk(t, i) {}
  }

  lemma CoreWaking<V>(s: State<V>, id: Id)
    requires Core(s) && Enabled(s, Act(id)) && s.ops[id].pc.Waking?
    ensures Core(Next(s, Act(id)))
  {
    var t := Next(s, Act(id));
    var w := s.ops[id].pc.target;
    assert ClaimOk(s, id);
    var u := if s.ops[w].pc == Asleep then SetPc(s, w, Loading) else s;
    if s.ops[w].pc == Asleep {
      OutsideKeepsOps(s, u, w, Loading);
      MovedKeepsLists(s, u, w, Loading);
    }
    var pc := if s.ops[id].kind.Closer? then Closing else Leaving(Success);
    LetGoKeepsOps(u, t, id, pc);
    MovedKeepsLists(u, t, id, pc);
  }

  lemma CorePlain<V>(s: State<V>, t: State<V>, id: Id, pc: Pc)
    requires Core(s) && Moved(s, t, id, pc) && TargetInRange(s, pc)
    requires (s.mutex == None && t.mutex == Some(id) && Takes(s.ops[id].pc, pc))
          || (s.mutex == Some(id) && t.mutex == None && Frees(s.ops[id].pc, pc))
          || (s.mutex == t.mutex && Outside(s.ops[id], pc))
    ensures Core(t)
  {
    MovedKeepsLists(s, t, id, pc);
    if s.mutex == t.mutex {
      OutsideKeepsOps(s, t, id, pc);
    } else if s.mutex == None {
      TakeKeepsOps(s, t, id, pc);
    } else {
      FreeKeepsOps(s, t, id, pc);
    }
  }

  lemma CoreMove<V>(s: State<V>, id: Id)
    requires Core(s) && Enabled(s, Act(id))
    requires var pc := s.ops[id].pc;
             pc.Entering? || pc.Leaving? || pc.Parking? || pc.Loading? || pc.Waiting? || pc.Canceling?
             || pc.Rejoining? || pc.Rejoined? || pc.Reading?
    ensures Core(Next(s, Act(id)))
  {
    CorePlain(s, Next(s, Act(id)), id, Next(s, Act(id)).ops[id].pc);
  }

  lemma CoreAct<V>(s: State<V>, id: Id)
    requires Core(s) && Enabled(s, Act(id))
    ensures Core(Next(s, Act(id)))
  {
    match s.ops[id].pc
    case Inside => CoreInside(s, id);
    case Closing => CoreClose(s, id);
    case Storing(_) => CoreStoring(s, id);
    case Waking(_) => CoreWaking(s, id);
    case Deciding => CoreDecide(s, id);
    case Asleep =>
    case Returned(_) =>
    case _ => CoreMove(s, id);
  }

  lemma CoreNext<V>(s: State<V>, step: Step<V>)
    requires Core(s) && Enabled(s, step)
    ensures Core(Next(s, step))
  {
    match step
    case Start(kind) => CoreStart(s, kind);
    case Act(id) => CoreAct(s, id);
    case Spurious(id) => CorePlain(s, Next(s, step), id, Loading);
    case Cancel(id) => CorePlain(s, Next(s, step), id, Next(s, step).ops[id].pc);
  }
}
