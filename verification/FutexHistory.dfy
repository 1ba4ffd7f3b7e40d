/** What the operations have done to each other so far: every run is a run of one FIFO queue, and
every operation's outcome agrees with where its item is. */
module FutexHistory {
  import opened Channel
  import opened FutexMachine
  import opened FutexInvariant

  // ---------- the history as sequences ----------

  /** The attempts that were not withdrawn, in their order. */
  ghost function Kept<V>(attempts: seq<Msg<V>>, withdrawn: set<Id>): seq<Msg<V>>
    decreases |attempts|
  {
    if attempts == [] then []
    else
      var last := attempts[|attempts| - 1];
      Kept(attempts[..|attempts| - 1], withdrawn) + if last.from in withdrawn then [] else [last]
  }

  ghost function Delivered<V>(ds: seq<Delivery<V>>): (r: seq<Msg<V>>)
    ensures |r| == |ds| && forall i :: 0 <= i < |ds| ==> r[i] == ds[i].msg
  {
    seq(|ds|, i requires 0 <= i < |ds| => ds[i].msg)
  }

  /** What was written to the destination of `to`, in order. */
  ghost function ValuesFor<V>(ds: seq<Delivery<V>>, to: Id): seq<V>
    decreases |ds|
  {
    if ds == [] then []
    else
      var last := ds[|ds| - 1];
      ValuesFor(ds[..|ds| - 1], to) + if last.to == to then [last.msg.value] else []
  }

  ghost predicate DistinctFroms<V>(ms: seq<Msg<V>>) {
    forall i, j :: 0 <= i < j < |ms| ==> ms[i].from != ms[j].from
  }

  lemma KeptAppend<V>(attempts: seq<Msg<V>>, m: Msg<V>, withdrawn: set<Id>)
    ensures Kept(attempts + [m], withdrawn)
         == Kept(attempts, withdrawn) + if m.from in withdrawn then [] else [m]
  {
    assert (attempts + [m])[..|attempts|] == attempts;
  }

  lemma ValuesAppend<V>(ds: seq<Delivery<V>>, d: Delivery<V>, to: Id)
    ensures ValuesFor(ds + [d], to) == ValuesFor(ds, to) + if d.to == to then [d.msg.value] else []
  {
    assert (ds + [d])[..|ds|] == ds;
  }

  lemma {:induction false} KeptMember<V>(attempts: seq<Msg<V>>, withdrawn: set<Id>, m: Msg<V>)
    ensures m in Kept(attempts, withdrawn) <==> m in attempts && m.from !in withdrawn
  {
    if attempts != [] {
      var init, last := attempts[..|attempts| - 1], attempts[|attempts| - 1];
      KeptMember(init, withdrawn, m);
      assert attempts == init + [last];
    }
  }

  lemma {:induction false} KeptDistinct<V>(attempts: seq<Msg<V>>, withdrawn: set<Id>)
    requires DistinctFroms(attempts)
    ensures DistinctFroms(Kept(attempts, withdrawn))
  {
    if attempts != [] {
      var init, last := attempts[..|attempts| - 1], attempts[|attempts| - 1];
      var kept := Kept(init, withdrawn);
      KeptDistinct(init, withdrawn);
      forall i | 0 <= i < |kept| ensures kept[i].from != last.from {
        var m := kept[i];
        KeptMember(init, withdrawn, m);
        var j :| 0 <= j < |init| && init[j] == m;
        assert attempts[j].from != attempts[|init|].from;
      }
    }
  }

  lemma {:induction false} KeptIrrelevant<V>(attempts: seq<Msg<V>>, withdrawn: set<Id>, id: Id)
    requires forall m :: m in attempts ==> m.from != id
    ensures Kept(attempts, withdrawn + {id}) == Kept(attempts, withdrawn)
  {
    if attempts != [] {
      var init, last := attempts[..|attempts| - 1], attempts[|attempts| - 1];
      assert last in attempts;
      KeptIrrelevant(init, withdrawn, id);
    }
  }

  /** Withdrawing one attempt takes exactly that one out. */
  lemma {:induction false} KeptWithdraw<V>(attempts: seq<Msg<V>>, withdrawn: set<Id>,
                                           a: seq<Msg<V>>, m: Msg<V>, b: seq<Msg<V>>)
    requires DistinctFroms(attempts) && Kept(attempts, withdrawn) == a + [m] + b
    ensures Kept(attempts, withdrawn + {m.from}) == a + b
    decreases |attempts|
  {
    var n := |attempts| - 1;
    var init, last := attempts[..n], attempts[n];
    var kept := Kept(init, withdrawn);
    assert Kept(attempts, withdrawn) == kept + if last.from in withdrawn then [] else [last];
    KeptMember(attempts, withdrawn, m);
    KeptDistinct(attempts, withdrawn);
    assert m in a + [m] + b;
    if last.from in withdrawn {
      KeptWithdraw(init, withdrawn, a, m, b);
    } else if b == [] {
      assert (a + [m] + b)[|a|] == m && |kept| == |a| && last == m;
      assert kept == (kept + [last])[..|kept|] == (a + [m])[..|a|] == a;
      KeptIrrelevant(init, withdrawn, m.from);
      assert a + b == a;
    } else {
      var c := b[..|b| - 1];
      assert last == (kept + [last])[|kept|] == b[|b| - 1];
      assert kept == (kept + [last])[..|kept|] == a + [m] + c;
      KeptWithdraw(init, withdrawn, a, m, c);
      assert (a + [m] + b)[|a|] == m && (a + [m] + b)[|a| + |b|] == last;
      assert m.from != last.from;
      assert a + c + [last] == a + b;
    }
  }

  // ---------- the invariant ----------

  /** The operation's item has been accepted, or it has been given one: nothing can undo that now. */
  ghost predicate Through<V>(op: Op<V>) {
    (Suspended(op.pc) && op.done) || op.pc.Storing? || op.pc.Waking?
    || op.pc == Leaving(Success) || op.pc == Returned(Success)
  }

  /** Off every list for good: an operation links itself at most once. */
  ghost predicate Unlinked<V>(op: Op<V>) {
    !op.queued && !op.pc.Entering? && !op.pc.Inside?
  }

  /** Will return Closed or Canceled whatever happens. */
  ghost predicate Lost<V>(op: Op<V>) {
    Unlinked(op) && !op.kind.Closer? && !Through(op)
  }

  /** The queue: what was taken, what is buffered and what is blocked is what was attempted, in lock
  order, less what was withdrawn. */
  ghost predicate Log<V>(s: State<V>) {
    Delivered(s.deliveries) + Pending(s.chan) == Kept(s.attempts, s.withdrawn)
  }

  ghost predicate AttemptOk<V>(s: State<V>, m: Msg<V>) {
    m.from < |s.ops| && s.ops[m.from].kind == Sender(m.value)
  }

  ghost predicate Attempts<V>(s: State<V>) {
    && DistinctFroms(s.attempts)
    && forall k :: 0 <= k < |s.attempts| ==> AttemptOk(s, s.attempts[k])
  }

  ghost predicate Attempted<V>(s: State<V>, i: Id)
    requires i < |s.ops| && s.ops[i].kind.Sender?
  {
    Msg(i, s.ops[i].kind.value) in s.attempts
  }

  ghost predicate FateOk<V>(s: State<V>, i: Id)
    requires i < |s.ops|
  {
    var op := s.ops[i];
    if op.kind.Sender? then
      && (Attempted(s, i) && i !in s.withdrawn <==> Through(op) || op.queued)
      && (i in s.withdrawn ==> Attempted(s, i))
      && (op.pc.Entering? || op.pc.Inside? ==> !Attempted(s, i))
      && (Suspended(op.pc) ==> Attempted(s, i))
    else i !in s.withdrawn
  }

  ghost predicate Fates<V>(s: State<V>) {
    && (forall w :: w in s.withdrawn ==> w < |s.ops|)
    && forall i {:trigger s.ops[i]} :: 0 <= i < |s.ops| ==> FateOk(s, i)
  }

  ghost predicate InboxOk<V>(s: State<V>, i: Id)
    requires i < |s.ops|
  {
    && s.ops[i].inbox == ValuesFor(s.deliveries, i)
    && |s.ops[i].inbox| == if s.ops[i].kind.Receiver? && Through(s.ops[i]) then 1 else 0
  }

  ghost predicate Inboxes<V>(s: State<V>) {
    && (forall k :: 0 <= k < |s.deliveries| ==> s.deliveries[k].to < |s.ops|)
    && forall i {:trigger s.ops[i]} :: 0 <= i < |s.ops| ==> InboxOk(s, i)
  }

  ghost predicate History<V>(s: State<V>) {
    Log(s) && Attempts(s) && Fates(s) && Inboxes(s)
  }

  ghost predicate Inv<V>(s: State<V>) {
    Core(s) && History(s)
  }

  lemma InvInit<V>(capacity: nat)
    ensures Inv<V>(Init(capacity))
  {
    CoreInit<V>(capacity);
  }

  // ---------- steps that add nothing to the history ----------

  /** The same to `Fates`, whatever has been written to its inbox. */
  ghost predicate SameToFates<V>(a: Op<V>, b: Op<V>) {
    && a.kind == b.kind
    && (a.kind.Sender? ==>
          && (Through(a) || a.queued <==> Through(b) || b.queued)
          && (Suspended(b.pc) ==> Suspended(a.pc))
          && (b.pc.Entering? || b.pc.Inside? ==> a.pc.Entering? || a.pc.Inside?))
  }

  ghost predicate SameInbox<V>(a: Op<V>, b: Op<V>) {
    && a.kind == b.kind && a.inbox == b.inbox
    && (a.kind.Receiver? ==> (Through(a) <==> Through(b)))
  }

  ghost predicate SameHistory<V>(s: State<V>, t: State<V>) {
    && |t.ops| == |s.ops| && t.attempts == s.attempts && t.withdrawn == s.withdrawn
    && t.deliveries == s.deliveries
    && t.chan.ring == s.chan.ring && t.chan.senders == s.chan.senders
    && forall i :: 0 <= i < |s.ops| ==>
         SameToFates(s.ops[i], t.ops[i]) && SameInbox(s.ops[i], t.ops[i])
  }

  lemma SameKeepsHistory<V>(s: State<V>, t: State<V>)
    requires History(s) && SameHistory(s, t)
    ensures History(t)
  {
    forall i | 0 <= i < |t.ops| ensures FateOk(t, i) {
      assert FateOk(s, i);
    }
    forall i | 0 <= i < |t.ops| ensures InboxOk(t, i) {
      assert InboxOk(s, i);
    }
    forall k | 0 <= k < |t.attempts| ensures AttemptOk(t, t.attempts[k]) {
      assert AttemptOk(s, s.attempts[k]);
    }
  }

  lemma {:induction false} NothingFor<V>(ds: seq<Delivery<V>>, to: Id)
    requires forall k :: 0 <= k < |ds| ==> ds[k].to != to
    ensures ValuesFor(ds, to) == []
  {
    if ds != [] {
      NothingFor(ds[..|ds| - 1], to);
    }
  }

  /** `t` is `s` with one more operation, which has done nothing yet. */
  ghost predicate StartStep<V>(s: State<V>, t: State<V>, kind: Kind<V>) {
    t == s.(ops := s.ops + [Op(kind, Entering, false, false, false, [])])
  }

  lemma StartKeepsAttempts<V>(s: State<V>, t: State<V>, kind: Kind<V>)
    requires Attempts(s) && StartStep(s, t, kind)
    ensures Attempts(t) && forall k :: 0 <= k < |t.attempts| ==> t.attempts[k].from < |s.ops|
  {
    forall k | 0 <= k < |t.attempts| ensures AttemptOk(t, t.attempts[k]) && t.attempts[k].from < |s.ops| {
      assert AttemptOk(s, s.attempts[k]);
    }
  }

  lemma StartKeepsFates<V>(s: State<V>, t: State<V>, kind: Kind<V>)
    requires Attempts(s) && Fates(s) && StartStep(s, t, kind)
    ensures Fates(t)
  {
    StartKeepsAttempts(s, t, kind);
    forall i | 0 <= i < |t.ops| ensures FateOk(t, i) {
      if i < |s.ops| {
        assert FateOk(s, i);
      }
    }
  }

  lemma StartKeepsInboxes<V>(s: State<V>, t: State<V>, kind: Kind<V>)
    requires Inboxes(s) && StartStep(s, t, kind)
    ensures Inboxes(t)
  {
    NothingFor(s.deliveries, |s.ops|);
    forall i | 0 <= i < |t.ops| ensures InboxOk(t, i) {
      if i < |s.ops| {
        assert InboxOk(s, i);
      }
    }
  }

  lemma StartKeepsHistory<V>(s: State<V>, kind: Kind<V>)
    requires Inv(s)
    ensures History(Next(s, Start(kind)))
  {
    var t := Next(s, Start(kind));
    StartKeepsAttempts(s, t, kind);
    StartKeepsFates(s, t, kind);
    StartKeepsInboxes(s, t, kind);
  }

  // ---------- steps that add to the history ----------

  lemma NotYetAttempted<V>(s: State<V>, id: Id)
    requires History(s) && id < |s.ops| && s.ops[id].kind.Sender? && s.ops[id].pc.Inside?
    ensures id !in s.withdrawn && forall k :: 0 <= k < |s.attempts| ==> s.attempts[k].from != id
  {
    assert FateOk(s, id);
    forall k | 0 <= k < |s.attempts| ensures s.attempts[k].from != id {
      var m := s.attempts[k];
      assert AttemptOk(s, m) && m in s.attempts;
      assert m == Msg(m.from, s.ops[m.from].kind.value);
    }
  }

  /** A new attempt by `id`, which is accepted or queued in the same step. */
  ghost predicate AttemptStep<V>(s: State<V>, t: State<V>, id: Id) {
    && id < |s.ops| == |t.ops| && s.ops[id].kind.Sender? && s.ops[id].pc.Inside?
    && t.attempts == s.attempts + [Msg(id, s.ops[id].kind.value)] && t.withdrawn == s.withdrawn
    && (forall i :: 0 <= i < |s.ops| && i != id ==> SameToFates(s.ops[i], t.ops[i]))
    && t.ops[id].kind == s.ops[id].kind && (Through(t.ops[id]) || t.ops[id].queued)
    && !t.ops[id].pc.Entering? && !t.ops[id].pc.Inside?
  }

  lemma AttemptJoins<V>(s: State<V>, t: State<V>, id: Id)
    requires History(s) && AttemptStep(s, t, id)
    ensures Attempts(t)
  {
    NotYetAttempted(s, id);
    forall k | 0 <= k < |t.attempts| ensures AttemptOk(t, t.attempts[k]) {
      assert k < |s.attempts| ==> AttemptOk(s, s.attempts[k]);
    }
  }

  lemma AttemptKeepsFate<V>(s: State<V>, t: State<V>, id: Id, i: Id)
    requires History(s) && AttemptStep(s, t, id) && i < |t.ops|
    ensures FateOk(t, i)
  {
    NotYetAttempted(s, id);
    assert FateOk(s, i);
    assert t.attempts[|s.attempts|] == Msg(id, s.ops[id].kind.value);
  }

  lemma AttemptIsRecorded<V>(s: State<V>, t: State<V>, id: Id)
    requires History(s) && AttemptStep(s, t, id)
    ensures Attempts(t) && Fates(t)
    ensures Kept(t.attempts, t.withdrawn)
         == Kept(s.attempts, s.withdrawn) + [Msg(id, s.ops[id].kind.value)]
  {
    NotYetAttempted(s, id);
    KeptAppend(s.attempts, Msg(id, s.ops[id].kind.value), s.withdrawn);
    AttemptJoins(s, t, id);
    forall i | 0 <= i < |t.ops| ensures FateOk(t, i) {
      AttemptKeepsFate(s, t, id, i);
    }
  }

  /** One item is written to the destination of one receiver that had none. */
  lemma DeliveryIsRecorded<V>(s: State<V>, t: State<V>, d: Delivery<V>)
    requires Inboxes(s) && |s.ops| == |t.ops| && d.to < |s.ops|
    requires t.deliveries == s.deliveries + [d]
    requires s.ops[d.to].kind.Receiver? && !Through(s.ops[d.to])
    requires t.ops[d.to].kind.Receiver? && Through(t.ops[d.to])
    requires t.ops[d.to].inbox == s.ops[d.to].inbox + [d.msg.value]
    requires forall i :: 0 <= i < |s.ops| && i != d.to ==> SameInbox(s.ops[i], t.ops[i])
    ensures Inboxes(t)
  {
    forall i | 0 <= i < |t.ops| ensures InboxOk(t, i) {
      assert InboxOk(s, i);
      ValuesAppend(s.deliveries, d, i);
    }
  }

  lemma NoDeliveryKeepsInboxes<V>(s: State<V>, t: State<V>)
    requires Inboxes(s) && |s.ops| == |t.ops| && t.deliveries == s.deliveries
    requires forall i :: 0 <= i < |s.ops| ==> SameInbox(s.ops[i], t.ops[i])
    ensures Inboxes(t)
  {
    forall i | 0 <= i < |t.ops| ensures InboxOk(t, i) {
      assert InboxOk(s, i);
    }
  }

  lemma NoAttemptKeepsFates<V>(s: State<V>, t: State<V>)
    requires Attempts(s) && Fates(s) && |s.ops| == |t.ops|
    requires t.attempts == s.attempts && t.withdrawn == s.withdrawn
    requires forall i :: 0 <= i < |s.ops| ==> SameToFates(s.ops[i], t.ops[i])
    ensures Attempts(t) && Fates(t)
  {
    forall k | 0 <= k < |t.attempts| ensures AttemptOk(t, t.attempts[k]) {
      assert AttemptOk(s, s.attempts[k]);
    }
    forall i | 0 <= i < |t.ops| ensures FateOk(t, i) {
      assert FateOk(s, i);
    }
  }

  lemma DeliveredAppend<V>(ds: seq<Delivery<V>>, d: Delivery<V>)
    ensures Delivered(ds + [d]) == Delivered(ds) + [d.msg]
  {
  }

  /** An item goes from the sending operation straight to a blocked receiver. */
  ghost predicate HandOffStep<V>(s: State<V>, t: State<V>, id: Id, to: Id, msg: Msg<V>) {
    && ClaimStep(s, t, id, to)
    && s.ops[id].kind == Sender(msg.value) && msg.from == id && s.ops[id].pc.Inside?
    && s.ops[to].kind.Receiver? && !s.ops[to].done && Suspended(s.ops[to].pc) && t.ops[to].done
    && t.ops[id].inbox == s.ops[id].inbox && t.ops[to].inbox == s.ops[to].inbox + [msg.value]
    && t.attempts == s.attempts + [msg] && t.withdrawn == s.withdrawn
    && t.deliveries == s.deliveries + [Delivery(msg, to)]
    && Pending(s.chan) == [] && Pending(t.chan) == []
  }

  lemma HandOffKeepsInboxes<V>(s: State<V>, t: State<V>, id: Id, to: Id, msg: Msg<V>)
    requires Inboxes(s) && HandOffStep(s, t, id, to, msg)
    ensures Inboxes(t)
  {
    DeliveryIsRecorded(s, t, Delivery(msg, to));
  }

  lemma HandOffIsAttempt<V>(s: State<V>, t: State<V>, id: Id, to: Id, msg: Msg<V>)
    requires HandOffStep(s, t, id, to, msg)
    ensures AttemptStep(s, t, id)
  {
  }

  lemma HandOffKeepsLog<V>(s: State<V>, t: State<V>, to: Id, msg: Msg<V>)
    requires Log(s) && Pending(s.chan) == [] && Pending(t.chan) == []
    requires t.deliveries == s.deliveries + [Delivery(msg, to)]
    requires Kept(t.attempts, t.withdrawn) == Kept(s.attempts, s.withdrawn) + [msg]
    ensures Log(t)
  {
    DeliveredAppend(s.deliveries, Delivery(msg, to));
  }

  lemma HandOffKeepsHistory<V>(s: State<V>, t: State<V>, id: Id, to: Id, msg: Msg<V>)
    requires History(s) && HandOffStep(s, t, id, to, msg)
    ensures History(t)
  {
    HandOffKeepsInboxes(s, t, id, to, msg);
    HandOffIsAttempt(s, t, id, to, msg);
    AttemptIsRecorded(s, t, id);
    HandOffKeepsLog(s, t, to, msg);
  }

  /** An item joins the pipeline: in the ring, or blocked behind it. */
  ghost predicate JoinStep<V>(s: State<V>, t: State<V>, id: Id, msg: Msg<V>) {
    && id < |s.ops| == |t.ops|
    && s.ops[id].kind == Sender(msg.value) && msg.from == id && s.ops[id].pc.Inside?
    && (forall i :: 0 <= i < |s.ops| && i != id ==> t.ops[i] == s.ops[i])
    && t.ops[id].kind == s.ops[id].kind && t.ops[id].inbox == s.ops[id].inbox
    && (t.ops[id].pc == Leaving(Success) || (t.ops[id].pc == Parking && t.ops[id].queued))
    && t.attempts == s.attempts + [msg] && t.withdrawn == s.withdrawn
    && t.deliveries == s.deliveries && Pending(t.chan) == Pending(s.chan) + [msg]
  }

  lemma JoinKeepsHistory<V>(s: State<V>, t: State<V>, id: Id, msg: Msg<V>)
    requires History(s) && JoinStep(s, t, id, msg)
    ensures History(t)
  {
    NoDeliveryKeepsInboxes(s, t);
    AttemptIsRecorded(s, t, id);
    assert Delivered(s.deliveries) + (Pending(s.chan) + [msg])
        == Delivered(s.deliveries) + Pending(s.chan) + [msg];
  }

  /** A receiving operation takes the oldest item itself. */
  ghost predicate TakeStep<V>(s: State<V>, t: State<V>, id: Id, msg: Msg<V>) {
    && id < |s.ops| == |t.ops|
    && s.ops[id].kind.Receiver? && s.ops[id].pc.Inside?
    && t.ops[id].kind.Receiver? && Through(t.ops[id])
    && t.ops[id].inbox == s.ops[id].inbox + [msg.value]
    && (forall i :: 0 <= i < |s.ops| && i != id ==>
         SameInbox(s.ops[i], t.ops[i]) && SameToFates(s.ops[i], t.ops[i]))
    && t.attempts == s.attempts && t.withdrawn == s.withdrawn
    && t.deliveries == s.deliveries + [Delivery(msg, id)]
    && [msg] + Pending(t.chan) == Pending(s.chan)
  }

  lemma TakeKeepsHistory<V>(s: State<V>, t: State<V>, id: Id, msg: Msg<V>)
    requires History(s) && TakeStep(s, t, id, msg)
    ensures History(t)
  {
    DeliveryIsRecorded(s, t, Delivery(msg, id));
    DeliveredAppend(s.deliveries, Delivery(msg, id));
    NoAttemptKeepsFates(s, t);
    assert Delivered(s.deliveries) + ([msg] + Pending(t.chan))
        == Delivered(s.deliveries) + [msg] + Pending(t.chan);
  }

  /** A blocked sender's item is withdrawn, by close or by its own cancellation. */
  ghost predicate WithdrawStep<V>(s: State<V>, t: State<V>, w: Id, msg: Msg<V>, k: nat) {
    && |s.ops| == |t.ops| && w < |s.ops|
    && s.ops[w].kind == Sender(msg.value) && msg.from == w && s.ops[w].queued
    && t.ops[w].kind == s.ops[w].kind && !Through(t.ops[w]) && !t.ops[w].queued
    && t.ops[w].inbox == s.ops[w].inbox && !t.ops[w].pc.Entering? && !t.ops[w].pc.Inside?
    && (forall i :: 0 <= i < |s.ops| && i != w ==>
         SameInbox(s.ops[i], t.ops[i]) && SameToFates(s.ops[i], t.ops[i]))
    && t.attempts == s.attempts && t.withdrawn == s.withdrawn + {w}
    && t.deliveries == s.deliveries
    && k < |Pending(s.chan)| && Pending(s.chan)[k] == msg
    && Pending(t.chan) == Pending(s.chan)[..k] + Pending(s.chan)[k + 1..]
  }

  lemma WithdrawKeepsFates<V>(s: State<V>, t: State<V>, w: Id, msg: Msg<V>, k: nat)
    requires Attempts(s) && Fates(s) && WithdrawStep(s, t, w, msg, k)
    ensures Attempts(t) && Fates(t)
  {
    forall i | 0 <= i < |t.ops| ensures FateOk(t, i) {
      assert FateOk(s, i);
    }
    forall j | 0 <= j < |t.attempts| ensures AttemptOk(t, t.attempts[j]) {
      assert AttemptOk(s, s.attempts[j]);
    }
  }

  lemma CutOut<T>(d: seq<T>, p: seq<T>, k: nat)
    requires k < |p|
    ensures d + p == (d + p[..k]) + [p[k]] + p[k + 1..]
    ensures d + (p[..k] + p[k + 1..]) == (d + p[..k]) + p[k + 1..]
  {
    assert p == p[..k] + [p[k]] + p[k + 1..];
  }

  lemma WithdrawKeepsLog<V>(s: State<V>, t: State<V>, w: Id, msg: Msg<V>, k: nat)
    requires Log(s) && Attempts(s) && WithdrawStep(s, t, w, msg, k)
    ensures Log(t)
  {
    var p, d := Pending(s.chan), Delivered(s.deliveries);
    CutOut(d, p, k);
    KeptWithdraw(s.attempts, s.withdrawn, d + p[..k], msg, p[k + 1..]);
  }

  lemma WithdrawKeepsHistory<V>(s: State<V>, t: State<V>, w: Id, msg: Msg<V>, k: nat)
    requires History(s) && WithdrawStep(s, t, w, msg, k)
    ensures History(t)
  {
    WithdrawKeepsFates(s, t, w, msg, k);
    WithdrawKeepsLog(s, t, w, msg, k);
    NoDeliveryKeepsInboxes(s, t);
  }

  // ---------- every step is one of these ----------

  lemma SendIsHandOff<V>(s: State<V>, id: Id)
    requires Core(s) && Enabled(s, Act(id)) && s.ops[id].pc.Inside? && s.ops[id].kind.Sender?
    requires !s.chan.closed && s.chan.receivers != []
    ensures HandOffStep(s, Next(s, Act(id)), id, s.chan.receivers[0], Msg(id, s.ops[id].kind.value))
  {
    var to := s.chan.receivers[0];
    assert WaiterOk(s, id) && ReceiverLinked(s, to) && WaiterOk(s, to);
  }

  lemma SendIsJoin<V>(s: State<V>, id: Id)
    requires Core(s) && Enabled(s, Act(id)) && s.ops[id].pc.Inside? && s.ops[id].kind.Sender?
    requires !s.chan.closed && s.chan.receivers == []
    ensures JoinStep(s, Next(s, Act(id)), id, Msg(id, s.ops[id].kind.value))
  {
    SendIsFifo(s.chan, id, Msg(id, s.ops[id].kind.value));
  }

  lemma ReceiveClaims<V>(s: State<V>, id: Id)
    requires Core(s) && Enabled(s, Act(id)) && s.ops[id].pc.Inside? && s.ops[id].kind.Receiver?
    requires s.chan.senders != []
    ensures var t, w, msg := Next(s, Act(id)), s.chan.senders[0].who, Receive(s.chan).1.item;
            && ClaimStep(s, t, id, w)
            && t.ops[id].inbox == s.ops[id].inbox + [msg.value]
            && t.ops[w].inbox == s.ops[w].inbox && t.ops[w].done
            && t.attempts == s.attempts && t.withdrawn == s.withdrawn
            && t.deliveries == s.deliveries + [Delivery(msg, id)] && t.chan == Receive(s.chan).0
  {
    assert SenderLinked(s, s.chan.senders[0]) && WaiterOk(s, id);
  }

  lemma ClaimIsTake<V>(s: State<V>, t: State<V>, id: Id, w: Id, msg: Msg<V>)
    requires ClaimStep(s, t, id, w) && s.ops[id].kind.Receiver? && s.ops[id].pc.Inside?
    requires s.ops[w].kind.Sender? && Suspended(s.ops[w].pc) && t.ops[w].done
    requires t.ops[id].inbox == s.ops[id].inbox + [msg.value] && t.ops[w].inbox == s.ops[w].inbox
    requires t.attempts == s.attempts && t.withdrawn == s.withdrawn
    requires t.deliveries == s.deliveries + [Delivery(msg, id)]
    requires [msg] + Pending(t.chan) == Pending(s.chan)
    ensures TakeStep(s, t, id, msg)
  {
  }

  lemma RefillIsTake<V>(s: State<V>, id: Id)
    requires Core(s) && Enabled(s, Act(id)) && s.ops[id].pc.Inside? && s.ops[id].kind.Receiver?
    requires s.chan.senders != []
    ensures TakeStep(s, Next(s, Act(id)), id, Receive(s.chan).1.item)
  {
    var w := s.chan.senders[0].who;
    ReceiveIsFifo(s.chan, id);
    ReceiveClaims(s, id);
    assert SenderLinked(s, s.chan.senders[0]) && WaiterOk(s, w);
    ClaimIsTake(s, Next(s, Act(id)), id, w, Receive(s.chan).1.item);
  }

  lemma PopIsTake<V>(s: State<V>, id: Id)
    requires Core(s) && Enabled(s, Act(id)) && s.ops[id].pc.Inside? && s.ops[id].kind.Receiver?
    requires s.chan.senders == [] && s.chan.ring != []
    ensures TakeStep(s, Next(s, Act(id)), id, Receive(s.chan).1.item)
  {
    ReceiveIsFifo(s.chan, id);
  }

  lemma ReceiveIsTake<V>(s: State<V>, id: Id)
    requires Core(s) && Enabled(s, Act(id)) && s.ops[id].pc.Inside? && s.ops[id].kind.Receiver?
    requires Receive(s.chan).1.Got?
    ensures TakeStep(s, Next(s, Act(id)), id, Receive(s.chan).1.item)
  {
    if s.chan.senders != [] {
      RefillIsTake(s, id);
    } else {
      PopIsTake(s, id);
    }
  }

  /** Taking one blocked sender out takes its item, and nothing else, out of what is pending. */
  lemma PendingWithout<W, T>(c: Chan<W, T>, k: nat)
    requires k < |c.senders|
    ensures Pending(c.(senders := c.senders[..k] + c.senders[k + 1..]))
         == Pending(c)[..|c.ring| + k] + Pending(c)[|c.ring| + k + 1..]
  {
    var items := Items(c.senders);
    assert Items(c.senders[..k] + c.senders[k + 1..]) == items[..k] + items[k + 1..];
    assert c.ring + (items[..k] + items[k + 1..]) == (c.ring + items[..k]) + items[k + 1..];
    assert (c.ring + items)[..|c.ring| + k] == c.ring + items[..k];
    assert (c.ring + items)[|c.ring| + k + 1..] == items[k + 1..];
  }

  lemma PendingPop<W, T>(c: Chan<W, T>)
    requires c.senders != []
    ensures |c.ring| < |Pending(c)| && Pending(c)[|c.ring|] == c.senders[0].item
    ensures Pending(c.(senders := c.senders[1..]))
         == Pending(c)[..|c.ring|] + Pending(c)[|c.ring| + 1..]
  {
    PendingWithout(c, 0);
    assert c.senders[..0] + c.senders[1..] == c.senders[1..];
  }

  lemma CloseClaimsSender<V>(s: State<V>, id: Id)
    requires Core(s) && Enabled(s, Act(id)) && s.ops[id].pc.Closing?
    requires s.chan.receivers == [] && s.chan.senders != []
    ensures var t, w := Next(s, Act(id)), s.chan.senders[0].who;
            && w < |s.ops| && w != id && t.chan == s.chan.(senders := s.chan.senders[1..])
            && t.ops == s.ops[w := s.ops[w].(done := false, queued := false)]
                             [id := s.ops[id].(pc := Storing(w))]
            && t.attempts == s.attempts && t.withdrawn == s.withdrawn + {w} && t.deliveries == s.deliveries
  {
    assert ClaimOk(s, id) && WaiterOk(s, id) && SenderLinked(s, s.chan.senders[0]);
  }

  lemma ClaimedIsWithdraw<V>(s: State<V>, t: State<V>, id: Id, w: Id)
    requires id < |s.ops| && w < |s.ops| && w != id && s.ops[id].pc.Closing? && s.ops[id].kind.Closer?
    requires s.ops[w].queued && Suspended(s.ops[w].pc) && s.ops[w].kind.Sender? && s.chan.senders != []
    requires s.chan.senders[0] == Parked(w, Msg(w, s.ops[w].kind.value))
    requires t.ops == s.ops[w := s.ops[w].(done := false, queued := false)]
                           [id := s.ops[id].(pc := Storing(w))]
    requires t.chan == s.chan.(senders := s.chan.senders[1..])
    requires t.attempts == s.attempts && t.withdrawn == s.withdrawn + {w} && t.deliveries == s.deliveries
    ensures WithdrawStep(s, t, w, s.chan.senders[0].item, |s.chan.ring|)
  {
    PendingPop(s.chan);
  }

  lemma CloseIsWithdraw<V>(s: State<V>, id: Id)
    requires Core(s) && Enabled(s, Act(id)) && s.ops[id].pc.Closing?
    requires s.chan.receivers == [] && s.chan.senders != []
    ensures WithdrawStep(s, Next(s, Act(id)), s.chan.senders[0].who, s.chan.senders[0].item, |s.chan.ring|)
  {
    var p := s.chan.senders[0];
    assert ClaimOk(s, id) && SenderLinked(s, p) && WaiterOk(s, p.who);
    CloseClaimsSender(s, id);
    ClaimedIsWithdraw(s, Next(s, Act(id)), id, p.who);
  }

  lemma GiveUpFrame<V>(s: State<V>, id: Id) returns (k: nat)
    requires Core(s) && Enabled(s, Act(id)) && s.ops[id].pc.Deciding?
    requires s.ops[id].queued && s.ops[id].kind.Sender?
    ensures k < |s.chan.senders| && s.chan.senders[k] == Parked(id, Msg(id, s.ops[id].kind.value))
    ensures var t := Next(s, Act(id));
            && t.chan == s.chan.(senders := s.chan.senders[..k] + s.chan.senders[k + 1..])
            && t.ops == s.ops[id := s.ops[id].(pc := Leaving(Canceled), queued := false)]
            && t.attempts == s.attempts && t.withdrawn == s.withdrawn + {id} && t.deliveries == s.deliveries
  {
    k := CancelSender(s, id);
    assert SenderLinked(s, s.chan.senders[k]);
  }

  lemma UnlinkedIsWithdraw<V>(s: State<V>, t: State<V>, id: Id, k: nat)
    requires id < |s.ops| && s.ops[id].queued && s.ops[id].kind.Sender? && k < |s.chan.senders|
    requires s.chan.senders[k] == Parked(id, Msg(id, s.ops[id].kind.value))
    requires t.chan == s.chan.(senders := s.chan.senders[..k] + s.chan.senders[k + 1..])
    requires t.ops == s.ops[id := s.ops[id].(pc := Leaving(Canceled), queued := false)]
    requires t.attempts == s.attempts && t.withdrawn == s.withdrawn + {id} && t.deliveries == s.deliveries
    ensures WithdrawStep(s, t, id, s.chan.senders[k].item, |s.chan.ring| + k)
  {
    PendingWithout(s.chan, k);
  }

  lemma UnlinkKeepsHistory<V>(s: State<V>, t: State<V>, id: Id, k: nat)
    requires History(s) && id < |s.ops| && s.ops[id].queued && s.ops[id].kind.Sender?
    requires k < |s.chan.senders| && s.chan.senders[k] == Parked(id, Msg(id, s.ops[id].kind.value))
    requires t.chan == s.chan.(senders := s.chan.senders[..k] + s.chan.senders[k + 1..])
    requires t.ops == s.ops[id := s.ops[id].(pc := Leaving(Canceled), queued := false)]
    requires t.attempts == s.attempts && t.withdrawn == s.withdrawn + {id} && t.deliveries == s.deliveries
    ensures History(t)
  {
    UnlinkedIsWithdraw(s, t, id, k);
    WithdrawKeepsHistory(s, t, id, s.chan.senders[k].item, |s.chan.ring| + k);
  }

  /** Steps that leave no mark on the history. */
  ghost predicate Silent<V>(s: State<V>, id: Id)
    requires id < |s.ops|
  {
    match s.ops[id].pc
    case Inside =>
      (match s.ops[id].kind
       case Sender(_) => s.chan.closed
       case Receiver => !Receive(s.chan).1.Got?
       case Closer => true)
    case Closing => s.chan.receivers != [] || s.chan.senders == []
    case Deciding => !(s.ops[id].queued && s.ops[id].kind.Sender?)
    case _ => true
  }

  /** One operation moves or parks: nothing else changes. */
  ghost predicate OnlyOwn<V>(s: State<V>, t: State<V>, id: Id) {
    && id < |s.ops| == |t.ops| && t.ops == s.ops[id := t.ops[id]]
    && t.attempts == s.attempts && t.withdrawn == s.withdrawn && t.deliveries == s.deliveries
    && t.chan.ring == s.chan.ring && t.chan.senders == s.chan.senders
  }

  lemma OnlyOwnIsSilent<V>(s: State<V>, t: State<V>, id: Id)
    requires OnlyOwn(s, t, id)
    requires SameToFates(s.ops[id], t.ops[id]) && SameInbox(s.ops[id], t.ops[id])
    ensures SameHistory(s, t)
  {
  }

  lemma SilentInside<V>(s: State<V>, id: Id)
    requires Core(s) && Enabled(s, Act(id)) && Silent(s, id) && s.ops[id].pc.Inside?
    ensures SameHistory(s, Next(s, Act(id)))
  {
    assert WaiterOk(s, id);
    var t := Next(s, Act(id));
    assert OnlyOwn(s, t, id);
    OnlyOwnIsSilent(s, t, id);
  }

  lemma SilentClosing<V>(s: State<V>, id: Id)
    requires Core(s) && Enabled(s, Act(id)) && Silent(s, id) && s.ops[id].pc.Closing?
    ensures SameHistory(s, Next(s, Act(id)))
  {
    assert ClaimOk(s, id);
    if s.chan.receivers != [] {
      assert ReceiverLinked(s, s.chan.receivers[0]) && WaiterOk(s, s.chan.receivers[0]);
    }
  }

  lemma SilentDeciding<V>(s: State<V>, id: Id)
    requires Core(s) && Enabled(s, Act(id)) && Silent(s, id) && s.ops[id].pc.Deciding?
    ensures SameHistory(s, Next(s, Act(id)))
  {
    assert WaiterOk(s, id);
    if s.ops[id].queued {
      var k := CancelReceiver(s, id);
    }
  }

  /** What a waking claimer does to the two operations concerned. */
  lemma SilentStoring<V>(s: State<V>, id: Id)
    requires Core(s) && Enabled(s, Act(id)) && s.ops[id].pc.Storing?
    ensures SameHistory(s, Next(s, Act(id)))
  {
    assert ClaimOk(s, id);
  }

  lemma SilentWaking<V>(s: State<V>, id: Id)
    requires Core(s) && Enabled(s, Act(id)) && s.ops[id].pc.Waking?
    ensures SameHistory(s, Next(s, Act(id)))
  {
    assert ClaimOk(s, id);
  }

  lemma SilentMove<V>(s: State<V>, t: State<V>, id: Id, pc: Pc)
    requires Moved(s, t, id, pc) && WaiterOk(s, id)
    requires t.attempts == s.attempts && t.withdrawn == s.withdrawn && t.deliveries == s.deliveries
    requires Takes(s.ops[id].pc, pc) || Frees(s.ops[id].pc, pc) || Outside(s.ops[id], pc)
    ensures SameHistory(s, t)
  {
  }

  lemma SilentUnasked<V>(s: State<V>, step: Step<V>)
    requires Core(s) && Enabled(s, step) && (step.Spurious? || step.Cancel?)
    ensures SameHistory(s, Next(s, step))
  {
    assert WaiterOk(s, step.id);
    SilentMove(s, Next(s, step), step.id, Next(s, step).ops[step.id].pc);
  }

  lemma SilentAct<V>(s: State<V>, id: Id)
    requires Core(s) && Enabled(s, Act(id)) && Silent(s, id)
    ensures SameHistory(s, Next(s, Act(id)))
  {
    match s.ops[id].pc
    case Inside => SilentInside(s, id);
    case Closing => SilentClosing(s, id);
    case Deciding => SilentDeciding(s, id);
    case Storing(_) => SilentStoring(s, id);
    case Waking(_) => SilentWaking(s, id);
    case Asleep =>
    case Returned(_) =>
    case _ =>
      assert WaiterOk(s, id);
      SilentMove(s, Next(s, Act(id)), id, Next(s, Act(id)).ops[id].pc);
  }

  lemma HistoryClosing<V>(s: State<V>, id: Id)
    requires Inv(s) && Enabled(s, Act(id)) && s.ops[id].pc.Closing?
    requires s.chan.receivers == [] && s.chan.senders != []
    ensures History(Next(s, Act(id)))
  {
    CloseIsWithdraw(s, id);
    var p, k := s.chan.senders[0], |s.chan.ring|;
    WithdrawKeepsHistory(s, Next(s, Act(id)), p.who, p.item, k);
  }

  lemma HistoryGivingUp<V>(s: State<V>, id: Id)
    requires Inv(s) && Enabled(s, Act(id)) && s.ops[id].pc.Deciding?
    requires s.ops[id].queued && s.ops[id].kind.Sender?
    ensures History(Next(s, Act(id)))
  {
    var k := GiveUpFrame(s, id);
    UnlinkKeepsHistory(s, Next(s, Act(id)), id, k);
  }

  lemma HistoryInside<V>(s: State<V>, id: Id)
    requires Inv(s) && Enabled(s, Act(id)) && !Silent(s, id) && s.ops[id].pc.Inside?
    ensures History(Next(s, Act(id)))
  {
    var t := Next(s, Act(id));
    if s.ops[id].kind.Receiver? {
      ReceiveIsTake(s, id);
      TakeKeepsHistory(s, t, id, Receive(s.chan).1.item);
    } else if s.chan.receivers != [] {
      SendIsHandOff(s, id);
      HandOffKeepsHistory(s, t, id, s.chan.receivers[0], Msg(id, s.ops[id].kind.value));
    } else {
      SendIsJoin(s, id);
      JoinKeepsHistory(s, t, id, Msg(id, s.ops[id].kind.value));
    }
  }

  lemma HistoryAct<V>(s: State<V>, id: Id)
    requires Inv(s) && Enabled(s, Act(id))
    ensures History(Next(s, Act(id)))
  {
    if Silent(s, id) {
      SilentAct(s, id);
      SameKeepsHistory(s, Next(s, Act(id)));
    } else if s.ops[id].pc.Inside? {
      HistoryInside(s, id);
    } else if s.ops[id].pc.Closing? {
      HistoryClosing(s, id);
    } else {
      HistoryGivingUp(s, id);
    }
  }

  lemma InvNext<V>(s: State<V>, step: Step<V>)
    requires Inv(s) && Enabled(s, step)
    ensures Inv(Next(s, step))
  {
    CoreNext(s, step);
    match step
    case Start(kind) => StartKeepsHistory(s, kind);
    case Act(id) => HistoryAct(s, id);
    case _ => SilentUnasked(s, step); SameKeepsHistory(s, Next(s, step));
  }
}
