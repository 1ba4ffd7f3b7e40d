/** The type-erased channel: a ring of raw bytes, two lists of parked waiters, and the critical
section of every operation on them. A hand-off writes straight into the parked peer's own memory.

Each method here runs from taking the mutex to releasing it, and is proved to do to the abstract
channel exactly what the function of the same name in `Channel` says. What happens between critical
sections (parking, waking, racing cancellation, frames dying) is `FutexMachine`. */
module FutexChannel {
  import C = Channel
  import opened Octets

  newtype u32 = x: int | 0 <= x < 0x1_0000_0000

  type Bytes = seq<byte>

  // ---------- the ring, as bytes and as elements ----------

  lemma SlotFits(i: nat, capacity: nat, elemSize: nat)
    requires i < capacity
    ensures 0 <= i * elemSize <= i * elemSize + elemSize <= capacity * elemSize
  {
    assert (capacity - i - 1) * elemSize >= 0;
    assert capacity * elemSize == i * elemSize + elemSize + (capacity - i - 1) * elemSize;
  }

  /** Distinct slots never share a byte. */
  lemma SlotsDisjoint(i: nat, j: nat, capacity: nat, elemSize: nat)
    requires i < capacity && j < capacity && i != j
    ensures i * elemSize + elemSize <= j * elemSize || j * elemSize + elemSize <= i * elemSize
  {
    if i < j {
      SlotFits(i, j, elemSize);
    } else {
      SlotFits(j, i, elemSize);
    }
  }

  /** The element at `index`: the bytes from `elemPtr(index)` on. */
  ghost function Slot(buf: Bytes, elemSize: nat, capacity: nat, index: nat): Bytes
    requires |buf| == capacity * elemSize && index < capacity
  {
    SlotFits(index, capacity, elemSize);
    buf[index * elemSize..index * elemSize + elemSize]
  }

  /** The whole buffer as elements. */
  ghost function Slots(buf: Bytes, elemSize: nat, capacity: nat): (r: seq<Bytes>)
    requires |buf| == capacity * elemSize
    ensures |r| == capacity
    ensures forall i :: 0 <= i < capacity ==> r[i] == Slot(buf, elemSize, capacity, i)
  {
    seq(capacity, i requires 0 <= i < capacity => Slot(buf, elemSize, capacity, i))
  }

  /** The `count` slots from `head` on, wrapping around. */
  ghost function Window(slots: seq<Bytes>, head: nat, count: nat): seq<Bytes>
    requires head <= |slots| && count <= |slots|
  {
    if head + count <= |slots| then slots[head..head + count]
    else slots[head..] + slots[..head + count - |slots|]
  }

  /** `x` modulo the capacity, for the positions the ring ever computes. */
  ghost function Wrapped(x: nat, capacity: nat): nat
    requires x < 2 * capacity
  {
    if x < capacity then x else x - capacity
  }

  lemma WrappedIsMod(x: nat, capacity: nat)
    requires x < 2 * capacity
    ensures x % capacity == Wrapped(x, capacity)
  {
    var q := x / capacity;
    assert x == capacity * q + x % capacity;
    assert q >= 2 ==> capacity * (q - 2) >= 0;
    assert q == 1 ==> capacity * q == capacity;
  }

  lemma WindowAt(slots: seq<Bytes>, head: nat, count: nat, i: nat)
    requires head < |slots| && count <= |slots| && i < count
    ensures |Window(slots, head, count)| == count
    ensures Window(slots, head, count)[i] == slots[Wrapped(head + i, |slots|)]
  {
  }

  /** Writing the slot after the last element appends exactly that element. */
  lemma WindowPush(slots: seq<Bytes>, head: nat, count: nat, item: Bytes)
    requires head < |slots| && count < |slots|
    ensures Window(slots[Wrapped(head + count, |slots|) := item], head, count + 1)
         == Window(slots, head, count) + [item]
  {
    var written := slots[Wrapped(head + count, |slots|) := item];
    var was, now := Window(slots, head, count), Window(written, head, count + 1);
    forall i | 0 <= i <= count ensures |now| == count + 1 && now[i] == (was + [item])[i] {
      WindowAt(written, head, count + 1, i);
      if i < count {
        WindowAt(slots, head, count, i);
      }
    }
  }

  /** Advancing the head drops exactly the first element. */
  lemma WindowPop(slots: seq<Bytes>, head: nat, count: nat)
    requires head < |slots| && 0 < count <= |slots|
    ensures Window(slots, head, count)
         == [slots[head]] + Window(slots, Wrapped(head + 1, |slots|), count - 1)
  {
    var next := Wrapped(head + 1, |slots|);
    var was, now := Window(slots, head, count), Window(slots, next, count - 1);
    forall i | 0 <= i < count ensures |was| == count && was[i] == ([slots[head]] + now)[i] {
      WindowAt(slots, head, count, i);
      if i > 0 {
        WindowAt(slots, next, count - 1, i - 1);
      }
    }
  }

  /** Overwriting one slot leaves every other slot as it was. */
  lemma WriteSlot(buf: Bytes, buf': Bytes, elemSize: nat, capacity: nat, index: nat, item: Bytes)
    requires |buf| == capacity * elemSize && index < capacity && |item| == elemSize
    requires index * elemSize + elemSize <= |buf|
    requires buf' == buf[..index * elemSize] + item + buf[index * elemSize + elemSize..]
    ensures |buf'| == |buf|
    ensures Slots(buf', elemSize, capacity) == Slots(buf, elemSize, capacity)[index := item]
  {
    forall i | 0 <= i < capacity && i != index
      ensures Slot(buf', elemSize, capacity, i) == Slot(buf, elemSize, capacity, i)
    {
      SlotFits(i, capacity, elemSize);
      SlotsDisjoint(i, index, capacity, elemSize);
      var at := i * elemSize;
      assert buf'[at..at + elemSize] == buf[at..at + elemSize];
    }
    assert Slot(buf', elemSize, capacity, index) == item;
  }

  // ---------- lists ----------

  lemma UnlinkKeepsRest<W>(ws: seq<W>, k: nat)
    requires k < |ws| && C.Distinct(ws)
    ensures C.Unlink(ws, ws[k]) == ws[..k] + ws[k + 1..]
    ensures |C.Unlink(ws, ws[k])| == |ws| - 1
    ensures C.Distinct(C.Unlink(ws, ws[k]))
    ensures forall w :: w in C.Unlink(ws, ws[k]) ==> w in ws && w != ws[k]
  {
    C.UnlinkSplits(ws, k);
  }

  lemma UnlinkRest<W>(ws: seq<W>, w: W)
    requires w in ws && C.Distinct(ws)
    ensures |C.Unlink(ws, w)| == |ws| - 1
    ensures C.Distinct(C.Unlink(ws, w))
    ensures forall x :: x in C.Unlink(ws, w) ==> x in ws && x != w
  {
    var k :| 0 <= k < |ws| && ws[k] == w;
    UnlinkKeepsRest(ws, k);
  }

  // ---------- memory ----------

  method CopyBytes(dst: array<byte>, dstAt: nat, src: array<byte>, srcAt: nat, n: nat)
    requires dst != src
    requires dstAt + n <= dst.Length && srcAt + n <= src.Length
    modifies dst
    ensures dst[..] == old(dst[..])[..dstAt] + src[srcAt..srcAt + n] + old(dst[..])[dstAt + n..]
  {
    forall k | 0 <= k < n {
      dst[dstAt + k] := src[srcAt + k];
    }
  }

  /** A blocked operation's part of its own stack frame. */
  class Waiter {
    var futex: u32            // 0 parked, 1 woken
    const data: array<byte>   // sender: the item; receiver: where the item goes
    var done: bool            // the item was handed over
    var queued: bool          // still linked in a list

    constructor (data: array<byte>)
      ensures this.data == data && futex == 0 && !done && queued
    {
      this.data := data;
      futex, done, queued := 0, false, true;
    }

    ghost predicate IsParked()
      reads this
    {
      futex == 0 && !done && queued
    }
  }

  datatype Status = Ok | Closed | Blocked

  class FutexChannelImpl {
    const buffer: array<byte>
    const elemSize: nat
    const capacity: nat
    var head: nat
    var tail: nat
    var count: nat
    var closed: bool
    var senders: seq<Waiter>
    var receivers: seq<Waiter>

    ghost predicate ValidRing()
      reads this
    {
      && buffer.Length == capacity * elemSize
      && count <= capacity
      && (capacity == 0 ==> head == tail == 0)
      && (capacity > 0 ==> head < capacity && tail == Wrapped(head + count, capacity))
    }

    /** Everything a list may point at: parked frames with memory of the right size, none of it shared. */
    ghost predicate ValidList(ws: seq<Waiter>)
      reads this, ws
    {
      && (forall w :: w in ws ==> w.IsParked() && w.data != buffer && w.data.Length == elemSize)
      && C.Distinct(ws)
    }

    ghost predicate ValidLists()
      reads this, senders, receivers
    {
      && ValidList(senders)
      && ValidList(receivers)
      && (forall a, b :: a in receivers && b in receivers && a != b ==> a.data != b.data)
    }

    ghost function ParkedItems(ws: seq<Waiter>): (r: seq<C.Parked<Waiter, Bytes>>)
      reads set w | w in ws :: w.data
      ensures |r| == |ws|
      ensures forall i :: 0 <= i < |ws| ==> r[i] == C.Parked(ws[i], ws[i].data[..])
    {
      seq(|ws|, i requires 0 <= i < |ws| reads if 0 <= i < |ws| then {ws[i].data} else {} =>
            C.Parked(ws[i], ws[i].data[..]))
    }

    /** The buffered items, oldest first. */
    ghost function Elements(): seq<Bytes>
      requires ValidRing()
      reads this, buffer
    {
      Window(Slots(buffer[..], elemSize, capacity), head, count)
    }

    lemma ParkedItemsSplit(ws: seq<Waiter>, k: nat)
      requires k < |ws|
      ensures ParkedItems(ws[..k] + ws[k + 1..]) == ParkedItems(ws)[..k] + ParkedItems(ws)[k + 1..]
    {
      var left, ps := ws[..k] + ws[k + 1..], ParkedItems(ws);
      forall i | 0 <= i < |left| ensures ParkedItems(left)[i] == (ps[..k] + ps[k + 1..])[i] {
        assert left[i] == ws[if i < k then i else i + 1];
      }
    }

    lemma ParkedItemsWithout(ws: seq<Waiter>, w: Waiter)
      requires w in ws && C.Distinct(ws)
      ensures ParkedItems(C.Unlink(ws, w)) == C.WithoutSender(ParkedItems(ws), w)
    {
      var k :| 0 <= k < |ws| && ws[k] == w;
      var ps := ParkedItems(ws);
      UnlinkKeepsRest(ws, k);
      forall j | 0 <= j < k ensures ps[j].who != ps[k].who {
        assert ws[j] != ws[k];
      }
      C.WithoutSenderSplits(ps, k);
      ParkedItemsSplit(ws, k);
    }

    /** The abstract channel these fields and bytes stand for. */
    ghost function Abs(): C.Chan<Waiter, Bytes>
      requires ValidRing()
      reads this, buffer, set w | w in senders :: w.data
    {
      C.Chan(capacity, Elements(),
             ParkedItems(senders), receivers, closed)
    }

    ghost predicate Valid()
      reads this, buffer, senders, receivers, set w | w in senders :: w.data
    {
      && ValidRing()
      && ValidLists()
      && C.Settled(Abs())
    }

    /** `FutexChannel(T).init`: the capacity is the length of the caller's buffer, in elements. */
    constructor (buffer: array<byte>, elemSize: nat, capacity: nat)
      requires buffer.Length == capacity * elemSize
      ensures Valid() && Abs() == C.Empty(capacity)
      ensures this.buffer == buffer && this.elemSize == elemSize && this.capacity == capacity
    {
      this.buffer, this.elemSize, this.capacity := buffer, elemSize, capacity;
      head, tail, count, closed := 0, 0, 0, false;
      senders, receivers := [], [];
    }

    /** Writes one element at the tail. */
    method PushElement(src: array<byte>)
      requires ValidRing() && count < capacity
      requires src != buffer && src.Length == elemSize
      modifies `tail, `count, buffer
      ensures ValidRing() && count == old(count) + 1
      ensures Elements()
           == old(Elements()) + [src[..]]
    {
      SlotFits(tail, capacity, elemSize);
      assert src[0..elemSize] == src[..];
      CopyBytes(buffer, tail * elemSize, src, 0, elemSize);
      WriteSlot(old(buffer[..]), buffer[..], elemSize, capacity, tail, src[..]);
      WindowPush(old(Slots(buffer[..], elemSize, capacity)), head, count, src[..]);
      WrappedIsMod(tail + 1, capacity);
      tail := (tail + 1) % capacity;
      count := count + 1;
    }

    /** Reads and removes the element at the head. */
    method PopElement(dst: array<byte>)
      requires ValidRing() && count > 0
      requires dst != buffer && dst.Length == elemSize
      modifies `head, `count, dst
      ensures ValidRing() && count == old(count) - 1
      ensures [dst[..]] + Elements()
           == old(Elements())
    {
      SlotFits(head, capacity, elemSize);
      CopyBytes(dst, 0, buffer, head * elemSize, elemSize);
      assert dst[..] == Slot(buffer[..], elemSize, capacity, head);
      WindowPop(Slots(buffer[..], elemSize, capacity), head, count);
      WrappedIsMod(head + 1, capacity);
      head := (head + 1) % capacity;
      count := count - 1;
    }

    /** Marks a claimed waiter's outcome and flips its word, as its claimer does before the wake call. */
    method Release(w: Waiter, done: bool)
      modifies w
      ensures w.done == done && !w.queued && w.futex == 1
    {
      w.done := done;
      w.queued := false;
      w.futex := 1;
    }

    /** Hands `item` to the longest-waiting receiver. */
    method HandToReceiver(item: array<byte>) returns (r: Waiter)
      requires ValidRing() && ValidLists() && receivers != []
      requires item.Length == elemSize && item != receivers[0].data
      modifies `receivers, receivers[0], receivers[0].data
      ensures r == old(receivers[0]) && receivers == old(receivers)[1..]
      ensures r.data[..] == item[..] && r.done && !r.queued && r.futex == 1
      ensures ValidList(receivers)
    {
      r := receivers[0];
      receivers := receivers[1..];
      CopyBytes(r.data, 0, item, 0, elemSize);
      Release(r, true);
    }

    /** The branch of `send` that has to block. */
    method ParkSender(item: array<byte>) returns (w: Waiter)
      requires Valid() && !closed && receivers == [] && count == capacity
      requires item.Length == elemSize && item != buffer
      modifies `senders
      ensures Valid() && fresh(w) && w.data == item
      ensures Abs() == C.ParkSender(old(Abs()), w, item[..])
    {
      w := new Waiter(item);
      senders := senders + [w];
      assert ValidLists();
      assert Elements() == old(Elements());
      assert ParkedItems(senders) == old(ParkedItems(senders)) + [C.Parked(w, item[..])];
    }

    /** The critical section of `send`. A caller that must block gets the waiter it has to park on. */
    method Send(item: array<byte>) returns (status: Status, w: Waiter?)
      requires Valid()
      requires item.Length == elemSize && item != buffer
      requires forall r :: r in receivers ==> r.data != item
      modifies this, buffer, receivers, set r | r in receivers :: r.data
      ensures Valid()
      ensures var (d, r) := old(C.Send(Abs(), item[..]));
              match r
              case SendRefused => status == Closed && Abs() == d
              case Handed(to) =>
                && status == Ok && Abs() == d
                && to.data[..] == item[..] && to.done && !to.queued && to.futex == 1
              case Stored => status == Ok && Abs() == d
              case SendMustPark =>
                && status == Blocked && w != null && fresh(w) && w.data == item
                && Abs() == C.ParkSender(d, w, item[..])
      ensures forall o :: o in receivers ==> o.data[..] == old(o.data[..])
    {
      w := null;
      if closed {
        return Closed, null;
      }
      if receivers != [] {
        var r := HandToReceiver(item);
        return Ok, null;
      }
      if count < capacity {
        PushElement(item);
        return Ok, null;
      }
      w := ParkSender(item);
      return Blocked, w;
    }

    /** Moves the longest-blocked sender's item into the slot that has just been freed. */
    method RefillFromSender() returns (s: Waiter)
      requires ValidRing() && ValidLists() && senders != [] && count < capacity
      modifies `senders, `tail, `count, buffer, senders[0]
      ensures s == old(senders[0]) && senders == old(senders)[1..]
      ensures s.done && !s.queued && s.futex == 1
      ensures ValidRing() && ValidList(senders)
      ensures Elements() == old(Elements()) + [old(s.data[..])]
    {
      s := senders[0];
      senders := senders[1..];
      PushElement(s.data);
      Release(s, true);
    }

    /** Takes the longest-blocked sender's item straight from its frame. */
    method TakeFromSender(result: array<byte>) returns (s: Waiter)
      requires ValidRing() && ValidLists() && senders != []
      requires result.Length == elemSize && result != senders[0].data
      modifies `senders, senders[0], result
      ensures s == old(senders[0]) && senders == old(senders)[1..]
      ensures s.done && !s.queued && s.futex == 1
      ensures result[..] == s.data[..] == old(s.data[..]) && ValidList(senders)
    {
      s := senders[0];
      senders := senders[1..];
      CopyBytes(result, 0, s.data, 0, elemSize);
      Release(s, true);
    }

    /** The branch of `receive` that finds a buffered item and a sender waiting to refill its slot. */
    method PopAndRefill(result: array<byte>) returns (s: Waiter)
      requires ValidRing() && ValidLists() && count > 0 && senders != []
      requires result.Length == elemSize && result != buffer && result != senders[0].data
      modifies `head, `tail, `count, `senders, buffer, senders[0], result
      ensures ValidRing() && ValidList(senders)
      ensures s == old(senders[0]) && senders == old(senders)[1..]
      ensures s.done && !s.queued && s.futex == 1
      ensures old(Elements()) != [] && result[..] == old(Elements())[0]
      ensures Elements() == old(Elements())[1..] + [old(s.data[..])]
    {
      PopElement(result);
      ghost var rest := Elements();
      assert rest == ([result[..]] + rest)[1..];
      s := RefillFromSender();
    }

    /** The branch of `receive` that finds a buffered item. */
    method ReceiveBuffered(result: array<byte>)
      requires Valid() && count > 0
      requires result.Length == elemSize && result != buffer
      requires forall o :: o in senders ==> o.data != result
      modifies `head, `tail, `count, `senders, buffer, senders, result
      ensures Valid()
      ensures var (d, r) := old(C.Receive(Abs()));
              && r.Got? && Abs() == d && result[..] == r.item
              && (r.released.Some? ==>
                    r.released.value.done && !r.released.value.queued && r.released.value.futex == 1)
    {
      if senders != [] {
        var s := PopAndRefill(result);
      } else {
        PopElement(result);
        ghost var rest := Elements();
        assert rest == ([result[..]] + rest)[1..];
      }
    }

    /** The critical section of `receive`. */
    method Receive(result: array<byte>) returns (status: Status, w: Waiter?)
      requires Valid()
      requires result.Length == elemSize && result != buffer
      requires forall o :: o in senders || o in receivers ==> o.data != result
      modifies this, buffer, senders, result
      ensures Valid()
      ensures var (d, r) := old(C.Receive(Abs()));
              match r
              case ReceiveRefused => status == Closed && Abs() == d && result[..] == old(result[..])
              case Got(item, released) =>
                && status == Ok && Abs() == d && result[..] == item
                && (released.Some? ==>
                      released.value.done && !released.value.queued && released.value.futex == 1)
              case ReceiveMustPark =>
                && status == Blocked && w != null && fresh(w) && w.data == result
                && Abs() == C.ParkReceiver(d, w) && result[..] == old(result[..])
    {
      w := null;
      if count > 0 {
        ReceiveBuffered(result);
        return Ok, null;
      }
      if senders != [] {
        var s := TakeFromSender(result);
        return Ok, null;
      }
      if closed {
        return Closed, null;
      }
      w := new Waiter(result);
      receivers := receivers + [w];
      return Blocked, w;
    }

    /** The cancel branch for a blocked sender that no peer has claimed. */
    method UnlinkSender(w: Waiter)
      requires Valid() && w in senders
      modifies `senders, w
      ensures Valid() && Abs() == C.Cancel(old(Abs()), w)
      ensures !w.queued && w.done == old(w.done) && w.futex == old(w.futex)
    {
      ghost var rest, parked := C.Unlink(senders, w), Abs().senders;
      UnlinkRest(senders, w);
      ParkedItemsWithout(senders, w);
      C.WithoutAbsent(parked, receivers, w);
      senders := C.Unlink(senders, w);
      w.queued := false;
      assert ValidList(rest);
      assert ParkedItems(rest) == C.WithoutSender(parked, w);
    }

    /** The cancel branch for a blocked receiver that no peer has claimed. */
    method UnlinkReceiver(w: Waiter)
      requires Valid() && w in receivers
      modifies `receivers, w
      ensures Valid() && Abs() == C.Cancel(old(Abs()), w)
      ensures !w.queued && w.done == old(w.done) && w.futex == old(w.futex)
    {
      ghost var rest := C.Unlink(receivers, w);
      UnlinkRest(receivers, w);
      C.WithoutAbsent(Abs().senders, [], w);
      receivers := C.Unlink(receivers, w);
      w.queued := false;
      assert ValidList(rest);
    }

    /** The critical section a canceled wait enters: unlink unless a peer has claimed the waiter. */
    method CancelPark(w: Waiter, sending: bool) returns (canceled: bool)
      requires Valid()
      requires w.queued ==> w in if sending then senders else receivers
      modifies `senders, `receivers, w
      ensures Valid() && canceled == old(w.queued) && !w.queued
      ensures w.done == old(w.done) && w.futex == old(w.futex)
      ensures Abs() == if canceled then C.Cancel(old(Abs()), w) else old(Abs())
    {
      canceled := w.queued;
      if canceled {
        if sending {
          UnlinkSender(w);
        } else {
          UnlinkReceiver(w);
        }
      }
    }

    ghost predicate IsClosedOut(w: Waiter)
      reads w
    {
      !w.done && !w.queued && w.futex == 1
    }

    method ReleaseReceivers()
      requires ValidLists() && senders == []
      modifies `receivers, receivers
      ensures receivers == []
      ensures forall w :: w in old(receivers) ==> IsClosedOut(w)
    {
      ghost var n := |receivers|;
      while receivers != []
        invariant |receivers| <= n && receivers == old(receivers)[n - |receivers|..]
        invariant forall i :: 0 <= i < n - |receivers| ==> IsClosedOut(old(receivers)[i])
      {
        var r := receivers[0];
        receivers := receivers[1..];
        Release(r, false);
      }
    }

    method ReleaseSenders()
      requires ValidLists() && receivers == []
      modifies `senders, senders
      ensures senders == []
      ensures forall w :: w in old(senders) ==> IsClosedOut(w)
    {
      ghost var n := |senders|;
      while senders != []
        invariant |senders| <= n && senders == old(senders)[n - |senders|..]
        invariant forall i :: 0 <= i < n - |senders| ==> IsClosedOut(old(senders)[i])
      {
        var s := senders[0];
        senders := senders[1..];
        Release(s, false);
      }
    }

    /** The two loops of `close`. */
    method ReleaseAll()
      requires ValidLists() && (receivers != [] ==> senders == [])
      modifies `senders, `receivers, senders, receivers
      ensures senders == [] && receivers == []
      ensures forall w :: w in old(senders) ==> IsClosedOut(w)
      ensures forall w :: w in old(receivers) ==> IsClosedOut(w)
    {
      if receivers != [] {
        ReleaseReceivers();
      }
      ReleaseSenders();
    }

    /** The critical section of `close`: everybody still parked is released without an item. */
    method Close()
      requires Valid()
      modifies this, senders, receivers
      ensures Valid() && Abs() == C.Close(old(Abs()))
      ensures forall w :: !old(closed) && w in old(senders) ==> IsClosedOut(w)
      ensures forall w :: !old(closed) && w in old(receivers) ==> IsClosedOut(w)
    {
      if closed {
        return;
      }
      ghost var was := Abs();
      assert receivers != [] ==> was.senders == [];
      closed := true;
      ReleaseAll();
      assert Abs() == was.(closed := true, senders := [], receivers := []);
    }
  }
}
