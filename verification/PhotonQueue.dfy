/** The queue of the photon pool as an object: each method is one indivisible piece of `push` or `pop`.

Threads interleave between the pieces, so the object also counts, in ghost fields, the callers that
are between two of them. `PhotonPool` interleaves the same pieces for given producers and consumers. */
module PhotonQueue {
  import opened Checksum
  import opened PhotonPool
  import opened PhotonInvariant

  class Queue {
    var buf: array<nat>
    var head: nat
    var tail: nat
    var items: nat
    var space: nat

    /** All values ever written and read, in the order of the critical sections. */
    ghost var pushed: seq<nat>
    ghost var popped: seq<nat>
    /** Callers of `push` that hold a unit of space, and that have written but not signaled. */
    ghost var granted: nat
    ghost var written: nat
    /** Callers of `pop` that hold an item, and that have read but not signaled. */
    ghost var claimed: nat
    ghost var emptied: nat

    ghost predicate Valid()
      reads this, buf
    {
      && buf.Length == CAP && Counted()
      && head == |popped| % WORD && tail == |pushed| % WORD
      && popped == pushed[..|popped|]
      && forall k :: |popped| <= k < |pushed| ==> buf[k % CAP] == pushed[k]
    }

    ghost predicate Counted()
      reads this
    {
      && |popped| <= |pushed|
      && space + granted + (|pushed| - |popped|) + emptied == CAP
      && |pushed| - |popped| == items + claimed + written
    }

    /** What has been pushed and not popped. */
    ghost function Contents(): seq<nat>
      reads this
      requires |popped| <= |pushed|
    {
      pushed[|popped|..]
    }

    constructor ()
      ensures Valid() && fresh(buf)
      ensures Contents() == [] && buf.Length == 256 && space == 256 && items == 0
      ensures granted == 0 && written == 0 && claimed == 0 && emptied == 0
    {
      buf := new nat[CAP](_ => 0);
      head, tail, items, space := 0, 0, 0, CAP;
      pushed, popped := [], [];
      granted, written, claimed, emptied := 0, 0, 0, 0;
    }

    /** `space.wait(1)` when it gets through. */
    method TakeSpace()
      requires Valid() && space > 0
      modifies `space, `granted
      ensures Valid() && space == old(space) - 1 && granted == old(granted) + 1
    {
      space := space - 1;
      granted := granted + 1;
    }

    /** The critical section of `push`. Whoever holds a unit of space overwrites nothing unread. */
    method Write(v: nat)
      requires Valid() && granted > 0
      modifies `tail, `pushed, `granted, `written, buf
      ensures Valid() && granted == old(granted) - 1 && written == old(written) + 1
      ensures pushed == old(pushed) + [v] && Contents() == old(Contents()) + [v]
      ensures buf[..] == old(buf[..])[old(tail) % CAP := v] && tail == (old(tail) + 1) % WORD
    {
      SlotIndex(|pushed|);
      forall k | |popped| <= k < |pushed| ensures k % CAP != |pushed| % CAP {
        SlotsDiffer(k, |pushed|);
      }
      buf[tail % CAP] := v;
      tail := (tail + 1) % WORD;
      pushed := pushed + [v];
      granted, written := granted - 1, written + 1;
    }

    /** `items.signal(1)`. */
    method SignalItem()
      requires Valid() && written > 0
      modifies `items, `written
      ensures Valid() && items == old(items) + 1 && written == old(written) - 1
    {
      items := items + 1;
      written := written - 1;
    }

    /** `items.wait(1)` when it gets through. */
    method TakeItem()
      requires Valid() && items > 0
      modifies `items, `claimed
      ensures Valid() && items == old(items) - 1 && claimed == old(claimed) + 1
    {
      items := items - 1;
      claimed := claimed + 1;
    }

    /** The critical section of `pop`. Whoever holds an item reads the oldest value that was pushed. */
    method Read() returns (v: nat)
      requires Valid() && claimed > 0
      modifies `head, `popped, `claimed, `emptied
      ensures Valid() && claimed == old(claimed) - 1 && emptied == old(emptied) + 1
      ensures |old(Contents())| > 0 && v == old(Contents())[0] && Contents() == old(Contents())[1..]
      ensures popped == old(popped) + [v] && head == (old(head) + 1) % WORD
    {
      SlotIndex(|popped|);
      v := buf[head % CAP];
      head := (head + 1) % WORD;
      popped := popped + [v];
      claimed, emptied := claimed - 1, emptied + 1;
    }

    /** `space.signal(1)`. */
    method SignalSpace()
      requires Valid() && emptied > 0
      modifies `space, `emptied
      ensures Valid() && space == old(space) + 1 && emptied == old(emptied) - 1
    {
      space := space + 1;
      emptied := emptied - 1;
    }

    /** A whole `push` that nothing interrupts. */
    method Push(v: nat)
      requires Valid() && space > 0
      modifies this, buf
      ensures Valid() && buf == old(buf) && popped == old(popped)
      ensures Contents() == old(Contents()) + [v]
      ensures space == old(space) - 1 && items == old(items) + 1
      ensures granted == old(granted) && written == old(written)
      ensures claimed == old(claimed) && emptied == old(emptied)
    {
      TakeSpace();
      Write(v);
      SignalItem();
    }

    /** A whole `pop` that nothing interrupts. */
    method Pop() returns (v: nat)
      requires Valid() && items > 0
      modifies this
      ensures Valid() && buf == old(buf) && pushed == old(pushed)
      ensures |old(Contents())| > 0 && [v] + Contents() == old(Contents())
      ensures space == old(space) + 1 && items == old(items) - 1
      ensures granted == old(granted) && written == old(written)
      ensures claimed == old(claimed) && emptied == old(emptied)
    {
      TakeItem();
      v := Read();
      SignalSpace();
    }
  }
}
