/** The channel as one critical section sees it, free of bytes, words and threads.

`Chan<W, T>` is everything the mutex protects: the ring, the two waiter lists and the closed flag.
`W` identifies a waiter (an object in `FutexChannel`, an operation number in `FutexMachine`).
The functions `Send`, `Receive`, `Close` and `Cancel` are what one critical section does to it;
the class in `FutexChannel` is proved to compute them and `FutexMachine` interleaves them.

`Fifo<T>` is the plain closable bounded queue that the channel refines and that the
worker-pool and ping-pong protocols are stated over. */
module Channel {

  datatype Option<+T> = None | Some(value: T)

  datatype Parked<W, T> = Parked(who: W, item: T)

  datatype Chan<W, T> = Chan(
    capacity: nat,
    ring: seq<T>,
    senders: seq<Parked<W, T>>,
    receivers: seq<W>,
    closed: bool)

  datatype SendResult<W> = SendRefused | Handed(to: W) | Stored | SendMustPark
  datatype ReceiveResult<W, T> = ReceiveRefused | Got(item: T, released: Option<W>) | ReceiveMustPark

  function Empty<W, T>(capacity: nat): Chan<W, T> {
    Chan(capacity, [], [], [], false)
  }

  /** Nobody waits for what is already there. Holds of the lists at every moment. */
  predicate Matched<W, T>(c: Chan<W, T>) {
    && |c.ring| <= c.capacity
    && (c.receivers != [] ==> c.ring == [] && c.senders == [])
    && (c.senders != [] ==> |c.ring| == c.capacity)
  }

  /** What holds whenever the mutex is free: in addition, a closed channel has no waiters. */
  predicate Settled<W, T>(c: Chan<W, T>) {
    && Matched(c)
    && (c.closed ==> c.senders == [] && c.receivers == [])
  }

  function Send<W, T>(c: Chan<W, T>, item: T): (Chan<W, T>, SendResult<W>) {
    if c.closed then (c, SendRefused)
    else if c.receivers != [] then (c.(receivers := c.receivers[1..]), Handed(c.receivers[0]))
    else if |c.ring| < c.capacity then (c.(ring := c.ring + [item]), Stored)
    else (c, SendMustPark)
  }

  function ParkSender<W, T>(c: Chan<W, T>, who: W, item: T): Chan<W, T> {
    c.(senders := c.senders + [Parked(who, item)])
  }

  function Receive<W, T>(c: Chan<W, T>): (Chan<W, T>, ReceiveResult<W, T>) {
    if c.ring != [] then
      if c.senders != [] then
        (c.(ring := c.ring[1..] + [c.senders[0].item], senders := c.senders[1..]),
         Got(c.ring[0], Some(c.senders[0].who)))
      else
        (c.(ring := c.ring[1..]), Got(c.ring[0], None))
    else if c.senders != [] then
      (c.(senders := c.senders[1..]), Got(c.senders[0].item, Some(c.senders[0].who)))
    else if c.closed then (c, ReceiveRefused)
    else (c, ReceiveMustPark)
  }

  function ParkReceiver<W, T>(c: Chan<W, T>, who: W): Chan<W, T> {
    c.(receivers := c.receivers + [who])
  }

  function Close<W, T>(c: Chan<W, T>): Chan<W, T> {
    c.(closed := true, senders := [], receivers := [])
  }

  function WithoutSender<W(==), T>(ps: seq<Parked<W, T>>, who: W): seq<Parked<W, T>> {
    if ps == [] then []
    else if ps[0].who == who then ps[1..]
    else [ps[0]] + WithoutSender(ps[1..], who)
  }

  function Unlink<W(==)>(ws: seq<W>, who: W): seq<W> {
    if ws == [] then []
    else if ws[0] == who then ws[1..]
    else [ws[0]] + Unlink(ws[1..], who)
  }

  /** Unlinks `who`, wherever it is linked. */
  function Cancel<W(==), T>(c: Chan<W, T>, who: W): Chan<W, T> {
    c.(senders := WithoutSender(c.senders, who), receivers := Unlink(c.receivers, who))
  }

  ghost predicate Distinct<T>(xs: seq<T>) {
    forall i, j :: 0 <= i < j < |xs| ==> xs[i] != xs[j]
  }

  /** Unlinking removes exactly one element and keeps the order of the others. */
  lemma {:induction false} WithoutSenderSplits<W, T>(ps: seq<Parked<W, T>>, k: nat)
    requires k < |ps|
    requires forall j :: 0 <= j < k ==> ps[j].who != ps[k].who
    ensures WithoutSender(ps, ps[k].who) == ps[..k] + ps[k + 1..]
  {
    if k == 0 {
      assert ps[..0] + ps[1..] == ps[1..];
    } else {
      WithoutSenderSplits(ps[1..], k - 1);
      assert ps[1..][..k - 1] == ps[1..k] && ps[1..][k..] == ps[k + 1..];
      assert [ps[0]] + (ps[1..k] + ps[k + 1..]) == ps[..k] + ps[k + 1..];
    }
  }

  lemma {:induction false} UnlinkSplits<W>(ws: seq<W>, k: nat)
    requires k < |ws|
    requires forall j :: 0 <= j < k ==> ws[j] != ws[k]
    ensures Unlink(ws, ws[k]) == ws[..k] + ws[k + 1..]
  {
    if k == 0 {
      assert ws[..0] + ws[1..] == ws[1..];
    } else {
      UnlinkSplits(ws[1..], k - 1);
      assert ws[1..][..k - 1] == ws[1..k] && ws[1..][k..] == ws[k + 1..];
      assert [ws[0]] + (ws[1..k] + ws[k + 1..]) == ws[..k] + ws[k + 1..];
    }
  }

  lemma {:induction false} WithoutAbsent<W, T>(ps: seq<Parked<W, T>>, ws: seq<W>, who: W)
    ensures (forall p :: p in ps ==> p.who != who) ==> WithoutSender(ps, who) == ps
    ensures who !in ws ==> Unlink(ws, who) == ws
    decreases |ps| + |ws|
  {
    if ps != [] {
      WithoutAbsent(ps[1..], [], who);
    }
    if ws != [] {
      WithoutAbsent<W, T>([], ws[1..], who);
    }
  }

  // ---------- the order of items ----------

  function Items<W, T>(ps: seq<Parked<W, T>>): (r: seq<T>)
    ensures |r| == |ps|
    ensures forall i :: 0 <= i < |ps| ==> r[i] == ps[i].item
  {
    if ps == [] then [] else [ps[0].item] + Items(ps[1..])
  }

  function Whos<W, T>(ps: seq<Parked<W, T>>): (r: seq<W>)
    ensures |r| == |ps|
    ensures forall i :: 0 <= i < |ps| ==> r[i] == ps[i].who
  {
    if ps == [] then [] else [ps[0].who] + Whos(ps[1..])
  }

  lemma {:induction false} ItemsAppend<W, T>(a: seq<Parked<W, T>>, b: seq<Parked<W, T>>)
    ensures Items(a + b) == Items(a) + Items(b)
  {
  }

  /** Everything accepted and not yet received, oldest first. */
  function Pending<W, T>(c: Chan<W, T>): seq<T> {
    c.ring + Items(c.senders)
  }

  /** What one call to send adds at the far end of the pipeline. */
  lemma SendIsFifo<W, T>(c: Chan<W, T>, who: W, item: T)
    requires Settled(c)
    ensures var (d, r) := Send(c, item);
            match r
            case SendRefused => c.closed && d == c
            case Handed(to) => !c.closed && Settled(d) && Pending(c) == [] && Pending(d) == []
            case Stored => !c.closed && Settled(d) && Pending(d) == Pending(c) + [item]
            case SendMustPark =>
              && !c.closed && Settled(ParkSender(d, who, item))
              && Pending(ParkSender(d, who, item)) == Pending(c) + [item]
  {
    var (d, r) := Send(c, item);
    if r == SendMustPark {
      ItemsAppend(c.senders, [Parked(who, item)]);
      assert c.ring + (Items(c.senders) + [item]) == (c.ring + Items(c.senders)) + [item];
    } else if r == Stored {
      assert Items(c.senders) == [];
    }
  }

  lemma TakeFirst<T>(ring: seq<T>, items: seq<T>)
    requires ring != []
    ensures [ring[0]] + (ring[1..] + items) == ring + items
  {
    assert ring == [ring[0]] + ring[1..];
  }

  lemma TakeAndRefill<T>(ring: seq<T>, x: T, items: seq<T>)
    requires ring != []
    ensures [ring[0]] + ((ring[1..] + [x]) + items) == ring + ([x] + items)
  {
    TakeFirst(ring, [x] + items);
    assert (ring[1..] + [x]) + items == ring[1..] + ([x] + items);
  }

  /** What one call to receive takes from the near end. */
  lemma ReceiveIsFifo<W, T>(c: Chan<W, T>, who: W)
    requires Settled(c)
    ensures var (d, r) := Receive(c);
            match r
            case ReceiveRefused => c.closed && d == c && Pending(c) == []
            case Got(item, _) => Settled(d) && [item] + Pending(d) == Pending(c)
            case ReceiveMustPark => !c.closed && Pending(c) == [] && Settled(ParkReceiver(d, who))
  {
    var (d, r) := Receive(c);
    if r.Got? {
      if c.ring != [] {
        if c.senders != [] {
          TakeAndRefill(c.ring, c.senders[0].item, Items(c.senders[1..]));
        } else {
          TakeFirst(c.ring, Items(c.senders));
        }
      }
    }
  }

  // ---------- refinement of the plain queue ----------

  datatype Fifo<T> = Fifo(bound: nat, items: seq<T>, shut: bool)
  datatype Event<T> = Put(item: T) | Take(item: T) | Shut

  predicate CanHappen<T(==)>(f: Fifo<T>, e: Event<T>) {
    match e
    case Put(_) => !f.shut && |f.items| < f.bound
    case Take(x) => f.items != [] && f.items[0] == x
    case Shut => true
  }

  function Apply<T(==)>(f: Fifo<T>, e: Event<T>): Fifo<T>
    requires CanHappen(f, e)
  {
    match e
    case Put(x) => f.(items := f.items + [x])
    case Take(_) => f.(items := f.items[1..])
    case Shut => f.(shut := true)
  }

  predicate Accepts<T(==)>(f: Fifo<T>, es: seq<Event<T>>, g: Fifo<T>)
    decreases |es|
  {
    if es == [] then f == g
    else CanHappen(f, es[0]) && Accepts(Apply(f, es[0]), es[1..], g)
  }

  function PutOf<T>(e: Event<T>): seq<T> {
    if e.Put? then [e.item] else []
  }

  function TakeOf<T>(e: Event<T>): seq<T> {
    if e.Take? then [e.item] else []
  }

  function ItemsPut<T>(es: seq<Event<T>>): seq<T>
    decreases |es|
  {
    if es == [] then [] else PutOf(es[0]) + ItemsPut(es[1..])
  }

  function ItemsTaken<T>(es: seq<Event<T>>): seq<T>
    decreases |es|
  {
    if es == [] then [] else TakeOf(es[0]) + ItemsTaken(es[1..])
  }

  lemma Regroup<T>(a: seq<T>, b: seq<T>, c: seq<T>)
    ensures (a + b) + c == a + (b + c)
  {
  }

  lemma {:induction false} PutsConcat<T>(es: seq<Event<T>>, fs: seq<Event<T>>)
    ensures ItemsPut(es + fs) == ItemsPut(es) + ItemsPut(fs)
    decreases |es|
  {
    if es == [] {
      assert es + fs == fs;
    } else {
      assert (es + fs)[1..] == es[1..] + fs;
      PutsConcat(es[1..], fs);
      Regroup(PutOf(es[0]), ItemsPut(es[1..]), ItemsPut(fs));
    }
  }

  lemma {:induction false} TakesConcat<T>(es: seq<Event<T>>, fs: seq<Event<T>>)
    ensures ItemsTaken(es + fs) == ItemsTaken(es) + ItemsTaken(fs)
    decreases |es|
  {
    if es == [] {
      assert es + fs == fs;
    } else {
      assert (es + fs)[1..] == es[1..] + fs;
      TakesConcat(es[1..], fs);
      Regroup(TakeOf(es[0]), ItemsTaken(es[1..]), ItemsTaken(fs));
    }
  }

  lemma {:induction false} AcceptsConcat<T>(f: Fifo<T>, es: seq<Event<T>>, g: Fifo<T>,
                                            fs: seq<Event<T>>, h: Fifo<T>)
    requires Accepts(f, es, g) && Accepts(g, fs, h)
    ensures Accepts(f, es + fs, h)
    decreases |es|
  {
    if es == [] {
      assert es + fs == fs;
    } else {
      assert (es + fs)[1..] == es[1..] + fs;
      AcceptsConcat(Apply(f, es[0]), es[1..], g, fs, h);
    }
  }

  lemma OneEventConserves<T>(f: Fifo<T>, e: Event<T>)
    requires CanHappen(f, e)
    ensures f.items + PutOf(e) == TakeOf(e) + Apply(f, e).items
  {
  }

  /** What goes in comes out, in the same order, or is still there. */
  lemma {:induction false} FifoConserves<T>(f: Fifo<T>, es: seq<Event<T>>, g: Fifo<T>)
    requires Accepts(f, es, g)
    ensures f.items + ItemsPut(es) == ItemsTaken(es) + g.items
    decreases |es|
  {
    if es == [] {
      assert f.items + [] == [] + g.items;
    } else {
      var h := Apply(f, es[0]);
      var puts, takes := ItemsPut(es[1..]), ItemsTaken(es[1..]);
      FifoConserves(h, es[1..], g);
      OneEventConserves(f, es[0]);
      Regroup(f.items, PutOf(es[0]), puts);
      Regroup(TakeOf(es[0]), h.items, puts);
      Regroup(TakeOf(es[0]), takes, g.items);
    }
  }

  /** The queue a channel stands for. A channel without a buffer can only hand an item from one
  caller to the other, which the queue does with one slot that is never left occupied. */
  function Queue<W, T>(c: Chan<W, T>): Fifo<T> {
    Fifo(if c.capacity == 0 then 1 else c.capacity, c.ring, c.closed)
  }

  /** A hand-off is a put and a take; a put that had to wait happens when a receive makes room. */
  function SendEvents<W, T>(c: Chan<W, T>, item: T): seq<Event<T>> {
    match Send(c, item).1
    case Handed(_) => [Put(item), Take(item)]
    case Stored => [Put(item)]
    case _ => []
  }

  function ReceiveEvents<W, T>(c: Chan<W, T>): seq<Event<T>> {
    match Receive(c).1
    case Got(item, released) =>
      if c.ring == [] then [Put(item), Take(item)]
      else if released.Some? then [Take(item), Put(c.senders[0].item)]
      else [Take(item)]
    case _ => []
  }

  lemma SendRefinesQueue<W, T>(c: Chan<W, T>, item: T)
    requires Settled(c)
    ensures Accepts(Queue(c), SendEvents(c, item), Queue(Send(c, item).0))
  {
    var es := SendEvents(c, item);
    if es != [] {
      var g := Apply(Queue(c), es[0]);
      if |es| == 2 {
        assert g.items == [item];
        assert Apply(g, es[1]).items == [];
        assert es[1..] == [es[1]];
        assert Accepts(Apply(g, es[1]), [], Queue(Send(c, item).0));
      }
    }
  }

  lemma ReceiveRefinesQueue<W, T>(c: Chan<W, T>)
    requires Settled(c)
    ensures Accepts(Queue(c), ReceiveEvents(c), Queue(Receive(c).0))
  {
    var es := ReceiveEvents(c);
    if |es| == 2 {
      var g := Apply(Queue(c), es[0]);
      assert es[1..] == [es[1]];
      assert Accepts(Apply(g, es[1]), [], Queue(Receive(c).0));
    }
  }

  /** Every critical section is a legal sequence of events of the plain queue. (What this makes of whole
  runs is in `FutexRefinement`.) */
  lemma ChannelRefinesQueue<W, T>(c: Chan<W, T>, item: T)
    requires Settled(c)
    ensures Accepts(Queue(c), SendEvents(c, item), Queue(Send(c, item).0))
    ensures Accepts(Queue(c), ReceiveEvents(c), Queue(Receive(c).0))
    ensures Accepts(Queue(c), [Shut], Queue(Close(c))) && Settled(Close(c))
  {
    SendRefinesQueue(c, item);
    ReceiveRefinesQueue(c);
  }

  /** A call returns without waiting exactly when the plain queue could serve it at once, or when
  its counterpart is already waiting, or when the channel is closed. */
  lemma WaitsOnlyWhenItMust<W, T>(c: Chan<W, T>, item: T)
    requires Settled(c)
    ensures Send(c, item).1 == SendMustPark
       <==> !c.closed && c.receivers == [] && |c.ring| == c.capacity
    ensures Receive(c).1 == ReceiveMustPark <==> !c.closed && c.senders == [] && c.ring == []
  {
  }

  /** Without a buffer every transfer is a hand-off between two callers: nothing is ever stored, and
  what is received comes straight from the longest-blocked sender. */
  lemma Rendezvous<W, T>(c: Chan<W, T>, item: T)
    requires Settled(c) && c.capacity == 0
    ensures c.ring == [] && Send(c, item).0.ring == [] && Receive(c).0.ring == []
    ensures !Send(c, item).1.Stored?
    ensures Receive(c).1.Got? ==>
              c.senders != [] && Receive(c).1 == Got(c.senders[0].item, Some(c.senders[0].who))
  {
  }

  // ---------- closing and draining ----------

  /** `n` receives in a row, with the items they return. */
  function Drain<W, T>(c: Chan<W, T>, n: nat): (Chan<W, T>, seq<T>)
    decreases n
  {
    if n == 0 then (c, [])
    else
      var (d, r) := Receive(c);
      match r
      case Got(item, _) => var (e, rest) := Drain(d, n - 1); (e, [item] + rest)
      case _ => (c, [])
  }

  lemma {:induction false} ClosedDrains<W, T>(c: Chan<W, T>, n: nat)
    requires Settled(c) && c.closed
    ensures n <= |c.ring| ==> Drain(c, n) == (c.(ring := c.ring[n..]), c.ring[..n])
    ensures n > |c.ring| ==> Drain(c, n) == (c.(ring := []), c.ring)
    decreases n
  {
    if n > 0 && c.ring != [] {
      var (d, r) := Receive(c);
      ClosedDrains(d, n - 1);
      assert [c.ring[0]] + c.ring[1..] == c.ring;
      if n <= |c.ring| {
        assert c.ring[1..][n - 1..] == c.ring[n..];
        assert [c.ring[0]] + c.ring[1..][..n - 1] == c.ring[..n];
      }
    }
  }

  /** After `Close` every send is refused without a trace, exactly as many receives succeed as there
  were buffered items, in their order, and every one after that is refused. Items of senders that
  were blocked at that moment are never given out. */
  lemma CloseThenDrain<W, T>(c: Chan<W, T>, item: T, n: nat)
    requires Settled(c)
    ensures Send(Close(c), item) == (Close(c), SendRefused)
    ensures Drain(Close(c), |c.ring| + n) == (Close(c).(ring := []), c.ring)
    ensures n <= |c.ring| ==> Drain(Close(c), n).1 == c.ring[..n]
    ensures Receive(Close(c).(ring := [])) == (Close(c).(ring := []), ReceiveRefused)
  {
    ClosedDrains(Close(c), |c.ring| + n);
    ClosedDrains(Close(c), |c.ring|);
    ClosedDrains(Close(c), n);
    assert Close(c).(ring := c.ring[|c.ring|..]) == Close(c).(ring := []);
    assert c.ring[..|c.ring|] == c.ring;
  }
}
