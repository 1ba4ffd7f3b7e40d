# Verified models of the benchmark suite's concurrent protocols

The repository compares runtimes by running the same small concurrent programs on each of them. Its
numbers mean something only if those programs do the same work on every schedule. This project models
them in Dafny and proves that they do.

**The futex channel.** A blocking multi-producer multi-consumer channel made of a mutex, a ring of
bytes, two lists of waiters and one futex word per blocked caller. It is modelled at three
levels:

- `Channel.dfy` is what one critical section does, free of bytes and threads, and the plain closable
  bounded queue (`Fifo`).
- `FutexChannel.dfy` is the object with its byte ring and lists, updated in place. Its methods are
  proved to compute the functions of `Channel`.
- `FutexMachine.dfy` interleaves any number of operations one memory access at a time: taking and
  releasing the mutex, storing the word and the wake call as separate steps, loading the word,
  falling asleep, spurious wake-ups, cancellation at every point where it can strike. `FutexInvariant`
  and `FutexHistory` hold what every step keeps; `FutexSafety`, `FutexOrder` and `FutexProgress` hold
  the results about whole runs, `FutexOutcomes` says what each
  operation returns and why, and `FutexRefinement` shows that every run of the channel is a run of the plain
  queue.

**The worker pools.** `PhotonPool.dfy` is the queue of 256 slots with two counting semaphores, its
producers, consumers and the main thread that stops them, one semaphore or memory operation at a
time; `PhotonQueue.dfy` is the queue itself as an object. `PoolProtocols.dfy` is the pool over a library
queue with the four ways to end it that the runtimes use; the library queue is the `Fifo` of `Channel`.
`PhotonInvariant`, `PhotonRuns`, `PoolInvariant` and `PoolRuns` prove that no schedule deadlocks, that
every run ends, and what the checksum then is. `EvenSplit.dfy` is the division of the items,
`Checksum.dfy` the work and its order-independent combination, and `Agreement.dfy` puts these together:
all pools end with the same checksum.

**The smaller protocols.** `PingPong.dfy` (two tasks over two queues of one slot, for any limit),
`PhotonSlot.dfy` (the variant that never closes anything) and `TurnTaking.dfy` (mutex and condition,
signaling after the unlock).

**Streams.** `HttpFraming.dfy` is the loop that answers requests from a buffer it shifts in place,
`EchoDriver.dfy` the pipelined driver against the echo server.

`Folds`, `Workload`, `Arithmetic`, `Turns` and `Octets` are shared helpers.

## Assumptions

- Memory is sequentially consistent; a mutex excludes, and is taken and released in one step each.
- `futexWait` compares the word and falls asleep in one step, and may return at any time, with or
  without Canceled. `futexWake` wakes the sleeper on that word, if there is one.
- Counting semaphores take and give units in one step. A condition's `wait` releases the mutex and
  falls asleep in one step, may wake for no reason, and takes the mutex again; its `signal` is lost when
  nobody sleeps.
- A library queue is a closable bounded queue: `Fifo`. A send to a full queue waits, a receive from an
  empty one waits or is refused once it is closed.
- A socket is a sequence of bytes that arrives in non-empty pieces of any size.

A run is any list of enabled steps, so the scheduler is unrestricted. "Ends" means that every run has a
bounded number of steps and that a state in which nobody can move is the intended final state.

## Where code and comments differ

- `src/futex_channel.zig:84-85` says that a waiter found claimed has had its hand-off completed. The
  claimer may also be `close`; the code returns Closed then, and the model follows the code.
- `cpp/queue_ping_pong_photon.cpp:81` reports `per_pair` messages; `per_pair + 2` are sent.
- `src/worker_pool.zig:120` calls the split even. It is, as long as producers times items stays below
  2^64 (`EvenSplit.SplitCoversIff`); with a larger product the C++ programs silently leave out items.
- The driver assumes that a window of messages can be in flight. It can block for ever when the window
  is larger than what the two directions of the connection hold (`EchoDriver.NeverStuckIffWindowFits`).

## Model

Paths are relative to the root of the benchmark repository.

| member | source | states |
|---|---|---|
| `FutexChannel.FutexChannelImpl.constructor` | src/futex_channel.zig:207-213 | a fresh channel is empty and open, with the length of the caller's buffer, in elements, as its capacity |
| `FutexChannel.SlotsDisjoint` | src/futex_channel.zig:59-61 | the byte ranges of two different slots never overlap, for every element size and capacity |
| `FutexChannel.WriteSlot` | src/futex_channel.zig:116 | overwriting the bytes of one slot changes that element and no other |
| `FutexChannel.WindowPush` | src/futex_channel.zig:115-118 | storing at the wrapped position behind the last element appends exactly that element |
| `FutexChannel.WindowPop` | src/futex_channel.zig:136-139 | advancing the wrapped head drops exactly the oldest element |
| `FutexChannel.FutexChannelImpl.PushElement` | src/futex_channel.zig:116-118 | the bytes of the item become the newest element; `tail` stays `head + count` modulo the capacity, and the modulus is taken only when there is a slot |
| `FutexChannel.FutexChannelImpl.PopElement` | src/futex_channel.zig:137-139 | the destination gets the bytes of the oldest element, which leaves the ring |
| `FutexChannel.FutexChannelImpl.HandToReceiver` | src/futex_channel.zig:104-109 | the longest-waiting receiver is unlinked, its own memory gets the item, and its flags and word say so |
| `FutexChannel.FutexChannelImpl.PopAndRefill` | src/futex_channel.zig:136-149 | the oldest element goes to the caller and the longest-blocked sender's item enters at the far end, so the queue keeps its order |
| `FutexChannel.FutexChannelImpl.Send` | src/futex_channel.zig:95-126 | on bytes and lists, `send` does what the abstract channel's `Send` does: refused when closed, handed over, stored, or parked, with no other receiver's memory touched |
| `FutexChannel.FutexChannelImpl.Receive` | src/futex_channel.zig:132-173 | on bytes and lists, `receive` does what the abstract channel's `Receive` does; a refused or parked receive leaves its destination alone |
| `FutexChannel.FutexChannelImpl.CancelPark` | src/futex_channel.zig:75-86 | a canceled wait is unlinked exactly when no peer had claimed it, and otherwise changes nothing in the channel |
| `FutexChannel.FutexChannelImpl.Close` | src/futex_channel.zig:179-196 | everybody parked is released without an item and both lists are empty; the buffered elements stay; a second close does nothing |
| `Channel.SendIsFifo` | src/futex_channel.zig:95-126 | a send that is not refused puts its item behind everything buffered or blocked, or hands it to a receiver that waits on an empty channel |
| `Channel.ReceiveIsFifo` | src/futex_channel.zig:132-173 | a receive takes the oldest of everything buffered or blocked; it is refused only when closed and empty |
| `Channel.ChannelRefinesQueue` | src/futex_channel.zig:95-196 | every critical section of send, receive and close that is entered on a settled channel is a legal sequence of put, take and close events of one closable bounded queue |
| `Channel.FifoConserves` | src/futex_channel.zig:95-177 | a queue gives out what was put into it, in the same order, and holds the rest |
| `Channel.WaitsOnlyWhenItMust` | src/futex_channel.zig:98-126 | a call has to wait exactly when the channel is open, its counterpart is not waiting, and the ring is full (for a send) or empty (for a receive) |
| `Channel.Rendezvous` | src/futex_channel.zig:103-163 | with capacity zero nothing is ever stored: every transfer is a direct hand-off |
| `Channel.UnlinkSplits` | src/futex_channel.zig:78-81 | canceling takes exactly one waiter out of its list and keeps the order of the rest |
| `Channel.CloseThenDrain` | src/futex_channel.zig:98-101 | after close every send is refused, exactly as many receives succeed as items were buffered, in order, and the next is refused |
| `FutexInvariant.CoreNext` | src/futex_channel.zig:65-196 | every step of every thread keeps mutual exclusion, the flags and words of waiters, the claims of claimers, and the lists: linked exactly when queued, receivers only on an empty channel, senders only on a full one |
| `FutexInvariant.LoseRaceKeepsOps` | src/futex_channel.zig:84-86 | a cancel that finds its waiter claimed finds the word set as well |
| `FutexHistory.InvNext` | src/futex_channel.zig:95-196 | every step keeps the record of who sent, withdrew and received what in agreement with the channel |
| `FutexHistory.KeptWithdraw` | src/futex_channel.zig:78-83 | withdrawing one attempt takes exactly that item out of the queue's history and keeps the order of the others |
| `FutexSafety.EveryRunIsFifo` | src/futex_channel.zig:95-196 | on every interleaving: items received, then buffered, then blocked are the attempted sends in lock order, less exactly those that were canceled or closed out and can return nothing else |
| `FutexSafety.NoSendOvertakes` | src/futex_channel.zig:123-126 | when an item has been accepted, so has every one attempted before it that was not canceled or closed out |
| `FutexSafety.OutcomesAreExact` | src/futex_channel.zig:72-93 | a send returns success exactly when its item was accepted, once; a receive exactly when one item was written to its destination; either error leaves no trace, however the cancel races with a claim (which error it is: `FutexOutcomes`) |
| `FutexSafety.ChangesOnlyWhatItMayTouch` | src/futex_channel.zig:65-196 | no step changes a frame outside the set that the lifetime property speaks of |
| `FutexSafety.ReadsOnlyWhatItMayTouch` | src/futex_channel.zig:65-196 | nor does a step read one: with any other frame in its place the step does the same to everything else |
| `FutexSafety.FramesOutliveTheirUse` | src/futex_channel.zig:21-25 | no step touches the frame of an operation that has returned, on the normal path or the cancel path |
| `FutexSafety.NoLostWakeup` | src/futex_channel.zig:65-93 | whoever sleeps with its word set is about to be woken by the holder of the mutex, and whoever sleeps unlinked is about to have its word set |
| `FutexSafety.UnlockedStates` | src/futex_channel.zig:103-129 | whenever the mutex is free: blocked receivers mean empty, open and no senders; blocked senders mean full, open and no receivers; linked is the same as queued, unclaimed and empty-handed |
| `FutexOrder.NoOvertaking` | src/futex_channel.zig:104-112 | while a receiver is blocked, no other operation gets an item unless it is parked in front of it or had its item already: neither one parked behind it nor one that has yet to look at the channel or to start |
| `FutexOrder.ClosedForGood` | src/futex_channel.zig:98-101 | once closed the lists stay empty for ever and nothing more is accepted: a send that had not got through never does |
| `FutexOrder.CloseLeavesNobody` | src/futex_channel.zig:179-196 | a closed channel with a free mutex has nobody on its lists |
| `FutexOrder.BlockedGetClosed` | src/futex_channel.zig:184-195 | everybody blocked when the channel is closed is taken off by close before the mutex is free again, and by nobody else: it returns nothing but Closed, a sender's item is never accepted and a receiver gets none |
| `FutexProgress.ActDecreases` | src/futex_channel.zig:65-93 | every access of every operation brings the end nearer |
| `FutexProgress.RunsAreFinite` | src/futex_channel.zig:65-196 | with n operations and k spurious wake-ups a run has at most 14n + 3k steps in all, cancellations included |
| `FutexProgress.QuiescentMeansDone` | src/futex_channel.zig:65-93 | where nobody can move, the mutex is free and everybody has returned, except waiters that are linked and unclaimed on an open channel that cannot serve them |
| `FutexProgress.CanFinish` | src/futex_channel.zig:65-93 | from every state the operations by themselves can run on to such a state |
| `FutexProgress.ClaimedReturns` | src/futex_channel.zig:84-92 | a waiter that has been claimed has returned whenever the run can go no further |
| `FutexProgress.BlockedReturnClosed` | src/futex_channel.zig:179-196 | whoever was blocked when the channel was closed has returned Closed whenever the run can go no further |
| `FutexRefinement.StepRefines` | src/futex_channel.zig:65-196 | every step of every operation is a legal sequence of events of the queue, which the loops of close, wake-ups and cancellations leave alone |
| `FutexRefinement.RefusesLikeTheQueue` | src/futex_channel.zig:98-126 | an operation is on its way out with Closed exactly when the queue refuses it and, with a buffer, parks exactly when the queue makes it wait (that it then returns Closed: `FutexOutcomes.FateIsFinal`) |
| `FutexRefinement.EveryRunRefinesQueue` | src/futex_channel.zig:95-196 | every run is a run of one closable bounded queue: receivers are given what is taken from it in its order, and the accepted items are those put into it |
| `FutexOutcomes.LookingDecides` | src/futex_channel.zig:98-173 | what looking at the channel settles: Closed exactly when the queue refuses, nothing when it makes the caller wait, otherwise success |
| `FutexOutcomes.CancelDecides` | src/futex_channel.zig:72-86 | a cancellation settles Canceled before the mutex is taken, or under it when nobody has claimed the waiter; otherwise it changes nothing |
| `FutexOutcomes.FateIsFinal` | src/futex_channel.zig:98-177 | once settled an outcome never changes, and is what the operation returns |
| `FutexOutcomes.ErrorsAreHonest` | src/futex_channel.zig:72-83 | Closed is returned only from a closed channel and Canceled only by an operation that was canceled; close returns neither |
| `FutexOutcomes.LateCallsGetClosed` | src/futex_channel.zig:165-168 | whoever looks at a closed channel, any sender, and any receiver once it is drained, returns Closed unless canceled |
| `FutexOutcomes.CancelCanWin` | src/futex_channel.zig:74-83 | a sleeper that nobody has claimed can be canceled whenever the mutex is free, and is then out of the channel |
| `FutexOutcomes.SpuriousChangesNothing` | src/futex_channel.zig:73-74 | a sleeper may wake for no reason; with its word clear it is asleep again two accesses later and nothing has changed |
| `FutexRefinement.AcceptedForGood` | src/futex_channel.zig:95-177 | what has once been accepted or delivered stays so, in its place |
| `PhotonQueue.Queue.constructor` | cpp/worker_pool_photon.cpp:22-26 | the queue starts empty with 256 units of space |
| `PhotonQueue.Queue.Write` | cpp/worker_pool_photon.cpp:30-31 | whoever holds a unit of space appends its value and overwrites nothing unread, also when `tail` wraps at 2^64 |
| `PhotonQueue.Queue.Read` | cpp/worker_pool_photon.cpp:39-40 | whoever holds an item reads the oldest unread value, also when `head` wraps at 2^64 |
| `PhotonQueue.Queue.Push` | cpp/worker_pool_photon.cpp:27-34 | an uninterrupted push appends its value and turns one unit of space into one item |
| `PhotonQueue.Queue.Pop` | cpp/worker_pool_photon.cpp:35-44 | an uninterrupted pop returns the oldest value and turns one item into one unit of space |
| `PhotonInvariant.CountingPush` | cpp/worker_pool_photon.cpp:27-34 | every step of a push keeps: space, units in hands, unread values and units not yet returned make 256 |
| `PhotonInvariant.CountingPop` | cpp/worker_pool_photon.cpp:35-44 | the same for every step of a pop |
| `PhotonInvariant.SlotsAreThere` | cpp/worker_pool_photon.cpp:27-44 | a writer always has a free slot before it and a reader a full one |
| `PhotonInvariant.SlotIndex` | cpp/worker_pool_photon.cpp:31-40 | the slot index survives the wrap-around of the counters, because 256 divides 2^64 |
| `PhotonInvariant.InvNext` | cpp/worker_pool_photon.cpp:22-110 | every step of every thread keeps the counts, the ring, the roles, the ledger of items and zeros, and the results |
| `PhotonRuns.StuckIsFinal` | cpp/worker_pool_photon.cpp:60-110 | for any items and positive numbers of producers and consumers no schedule deadlocks |
| `PhotonRuns.EveryRun` | cpp/worker_pool_photon.cpp:22-110 | in every run pops follow the order of pushes, no zero is popped before an item, and the number of steps is at most 12 an item, 17 a consumer, one a producer and 2 |
| `PhotonRuns.PrintsTheChecksum` | cpp/worker_pool_photon.cpp:107-115 | whenever main gets to print, on any schedule, every consumer has gone and the checksum is that of the items 1 to n |
| `PhotonRuns.EveryRunFinishes` | cpp/worker_pool_photon.cpp:60-110 | every run that can go no further is complete: main prints, queue empty, one zero per consumer, each item processed once, and the checksum that of the items 1 to n |
| `PoolRuns.InvNext` | src/worker_pool.zig:31-47 | every step of each of the four designs keeps the countdown, the closing rule, the queue's history and the results |
| `PoolInvariant.CountdownLeave` | cpp/worker_pool_asio.cpp:40 | leaving keeps the countdown: the counter counts who is running, and only the producer that takes it from one to zero ends the run |
| `PoolInvariant.RunningMeansOpen` | src/worker_pool.zig:33-37 | a producer that is still running never finds the queue closed |
| `PoolInvariant.NoStrayZero` | cpp/worker_pool_asio.cpp:37-39 | zeros reach only consumers of the design that sends them |
| `PoolRuns.StuckIsFinal` | src/worker_pool.zig:31-47 | none of the four designs deadlocks on any schedule |
| `PoolRuns.EveryRun` | go/worker_pool/main.go:22-65 | in every run no send is refused, at most one task ends the run and only after every item has been accepted, and the number of steps is bounded by the items, producers and consumers |
| `PoolRuns.EveryRunAgrees` | rust/src/bin/worker_pool.rs:70-95 | every run that can go no further has an empty queue, every item processed once, and the checksum of the items 1 to n, accumulated atomically or from the results |
| `PoolRuns.StoppedHasTheChecksum` | go/worker_pool/main.go:61-70 | whenever all consumers have stopped, wherever the producers are, the queue is empty, every item has been processed once and both checksums are right |
| `PoolRuns.CombinedIsFold` | src/worker_pool.zig:127-128 | combining the consumers' results gives the fold of all items they took, whoever took which |
| `Checksum.Work` | src/worker_pool.zig:20-29 | bit i of the result is set exactly when an odd number of the states of the recurrence have bit i + 29 set |
| `Checksum.StateIs` | src/worker_pool.zig:25 | the states in closed form, with the multiplier and the increment as numbers, modulo 2^64 |
| `Checksum.ExclusiveOrIs` | src/worker_pool.zig:26 | a bit is in the combination exactly when it is in one of the two words but not in both |
| `Checksum.BitsAre` | src/worker_pool.zig:26 | the bits of a word are its 64 lowest binary digits |
| `Checksum.FoldIs` | src/worker_pool.zig:127-128 | bit i of a combined result is the parity of bit i + 29 over all states of all items |
| `Checksum.BitsDetermine` | src/worker_pool.zig:26 | two words with the same bits are the same number, so words may be compared as bit sets |
| `Checksum.FoldPermutation` | cpp/worker_pool_asio.cpp:49-55 | the checksum does not depend on the order in which items are processed |
| `Checksum.BenchmarkIsCommutative` | src/worker_pool.zig:26 | exclusive or of words is commutative and associative, has a neutral word, and cancels itself |
| `Agreement.ExpectedIs` | src/worker_pool.zig:20-29 | the expected checksum bit by bit, from the states of the recurrence on the items 1 to n |
| `Agreement.PhotonPrints` | README.md:282-283 | the semaphore queue prints the expected checksum on every schedule, for any positive numbers of producers and consumers and the exact split |
| `Agreement.PoolPrints` | README.md:282-283 | so does each of the four designs once its consumers have stopped, for any queue size too; hence all agree |
| `Agreement.PhotonPrintsOnWords` | cpp/worker_pool_photon.cpp:62-63 | the same with the boundaries computed on 64-bit words, while producers times items is below 2^64 |
| `Agreement.PoolPrintsOnWords` | cpp/worker_pool_asio.cpp:86-87 | the same for the four designs |
| `EvenSplit.SplitIsEven` | src/worker_pool.zig:119-122 | the ranges follow each other from the first item to the last and differ by at most one item |
| `EvenSplit.Split` | cpp/worker_pool_asio.cpp:85-89 | the loop over words gives every producer its range, and it is the exact one when producers times items is below 2^64 |
| `EvenSplit.SplitCoversIff` | cpp/worker_pool_asio.cpp:86-87 | every item gets a producer if and only if producers times items is below 2^64; otherwise the last item is never sent |
| `EvenSplit.SplitIsDisjoint` | src/worker_pool.zig:121-122 | below that bound no item gets two producers |
| `EvenSplit.NoOverflow` | src/worker_pool.zig:121-122 | below that bound no intermediate product overflows |
| `PingPong.OneMover` | src/queue_ping_pong_futex.zig:18-56 | in every reachable state exactly one task can move, until both have returned |
| `PingPong.StepKeeps` | src/queue_ping_pong.zig:16-48 | every step keeps the game in one of its four phases and is one step closer to the end |
| `PingPong.EveryState` | src/queue_ping_pong_futex.zig:18-56 | at most one value is in flight, the values are 0, 1, 2, ... in order, sent by turns, and no send blocks or is refused |
| `PingPong.EveryRunEnds` | src/queue_ping_pong_futex.zig:30-47 | every run ends with both tasks returned after the same number of steps, max(limit, 1) values sent, and the parity of that number deciding who closed |
| `PhotonSlot.StepKeeps` | cpp/queue_ping_pong_photon.cpp:16-30 | every step on a semaphore or a value keeps the protocol's phase and is one step closer to the end |
| `PhotonSlot.EveryState` | cpp/queue_ping_pong_photon.cpp:55-75 | every value is read before the next is written, and no send, the releasing ones included, has to wait |
| `PhotonSlot.EveryRunEnds` | cpp/queue_ping_pong_photon.cpp:55-77 | for every positive limit all runs end after the same number of steps with limit + 2 values sent, the last one left unread in one slot |
| `TurnTaking.InvNext` | src/condition_bench.zig:17-25 | every step keeps mutual exclusion, the turns and the rule about sleepers |
| `TurnTaking.EveryState` | src/condition_bench.zig:17-25 | a player that sleeps through its own turn is about to be signaled, the two never both sleep, and the turns alternate |
| `TurnTaking.StuckIsFinal` | src/condition_bench.zig:17-25 | nobody can move only when both players are done |
| `TurnTaking.WholeRound` | src/condition_bench.zig:18-23 | a player whose turn it is locks, looks, passes the turn on under the mutex, unlocks, and only then signals and wakes the other |
| `TurnTaking.SpuriousChangesNothing` | src/condition_bench.zig:20 | a sleeper may wake for no reason, and is asleep again three steps later with nothing changed |
| `TurnTaking.EveryRunEnds` | src/condition_bench.zig:17-25 | any number of rounds takes at most 16 steps a round, 6 more, and 4 for each spurious wake, and ends with both players done |
| `HttpFraming.IndexOf` | src/tcp_server_native.zig:52 | the search returns the first CR LF CR LF in the filled part of the buffer |
| `HttpFraming.CopyForwards` | src/tcp_server_native.zig:54 | the shift moves the rest of the buffer to the front unharmed although source and target overlap |
| `HttpFraming.Incremental` | go/tcp_server/main.go:55-77 | looking at bytes as they come finds the same requests as looking at the whole stream |
| `HttpFraming.RequestsFrame` | src/tcp_server_native.zig:47-57 | the greedy cut yields requests that end with their only CR LF CR LF, and a rest without one |
| `HttpFraming.SentIsCounted` | src/tcp_server_native.zig:47-57 | a stream of k texts, each followed by CR LF CR LF with none beginning earlier, and a rest without one has exactly k requests |
| `HttpFraming.EveryStreamIsSent` | src/tcp_server_native.zig:47-57 | every stream is of that form, with as many texts as it has requests |
| `HttpFraming.FramesAreUnique` | src/tcp_server_native.zig:47-57 | there is no other such cut of the stream |
| `HttpFraming.GreedyIsMost` | src/tcp_server_native.zig:52-57 | no choice of non-overlapping terminators has more of them than the greedy count |
| `HttpFraming.Connection.Read` | src/tcp_server_native.zig:58-60 | a read delivers the next bytes of the stream, as many as have arrived and fit, and nothing before `start` changes |
| `HttpFraming.Drain` | src/tcp_server_native.zig:52-57 | the inner loop answers every request in the buffer and leaves the rest after the last CR LF CR LF |
| `HttpFraming.Serve` | rust/src/bin/tcp_server.rs:51-69 | the handler answers every request it received once; a stream that fits and consists of k texts, each followed by CR LF CR LF, and a rest gets exactly k answers and leaves the rest in the buffer, in whatever pieces it arrives |
| `EchoDriver.NextAnswer` | driver/tcp_driver.go:118 | what the driver reads next is the rest of the message it expects |
| `EchoDriver.InvNext` | driver/tcp_driver.go:106-128 | every transfer keeps the counters and conserves the bytes |
| `EchoDriver.EveryState` | driver/tcp_driver.go:106-128 | bytes read back are a prefix of bytes written and the rest is on its way in order; the driver reads only with min(msgs, got + pipeline) messages sent, and got <= sent <= min(msgs, got + pipeline) in every state, its pipeline being positive; runs are bounded |
| `EchoDriver.AnyCut` | src/tcp_server_native.zig:29-32 | transfers of every size are possible, and one in two parts is the same as one |
| `EchoDriver.DoneMeansComplete` | driver/tcp_driver.go:117-128 | when the driver is done it has sent and got back every message and nothing is left in a pipe or in the server |
| `EchoDriver.CanDeadlock` | driver/tcp_driver.go:107-118 | a window that does not fit can be brought to a standstill |
| `EchoDriver.NeverStuckIffWindowFits` | driver/tcp_driver.go:106-128 | no run gets stuck if and only if min(msgs, pipeline) messages fit into the two pipes and one byte in the server's hands |

## Left out

- Weak memory: the acquire and release orderings of the source are taken as sequential consistency.
- The insides of zio, xsync, std.Io, tokio, Asio, Photon and the Go runtime: schedulers, event loops,
  library queues, mutexes, conditions and semaphores are used by the contracts above only.
- Machine width of counters: `head`, `tail` and `count` of the futex channel and the item numbers are
  unbounded; the 64-bit arithmetic of the recurrence, of the photon queue's counters and of the split is
  modelled as written.
- FutexChannel.FutexChannelImpl.CancelPark: the loop of `park` and its two ways to return are steps of
  `FutexMachine`, not a method, because they span several critical sections.
- FutexChannel.FutexChannelImpl.Send: the wake call is a step of `FutexMachine`; the method only sets the
  word.
- Intrusive list nodes: the two lists are sequences of waiters, so the links inside a waiter are not
  modelled.
- Checksum.Work: words are sets of bit positions; `Checksum.BitsDetermine` shows that nothing is lost.
- Adding a consumer's result to the checksum is one step: the photon program runs on one virtual CPU and
  does not yield there, the Asio program uses an atomic operation.
- Pools with no producer or no consumer: the programs do not finish or have nothing to split.
- Cancellation in the pools, the ping-pong games and the turn-taking game.
- `--pairs=N`: one pair is modelled; pairs share nothing but the count of finished tasks.
- HttpFraming.Serve: a buffer that is full without a terminator ends the loop here, as a read into an
  empty slice returns zero; in Go that read does not report the end of the stream and the loop spins.
- HttpFraming.Connection.Respond: a response is counted, its bytes are not modelled.
- Accept loops, connection set-up, read and write errors other than a peer that goes away, and the sink
  and source modes.
- The HTTP mode of `src/tcp_server.zig`: its buffer is managed inside the standard library.
- Argument parsing, timing, rates and log output; `bench.py`, scripts and build files.
- The sleep, yield, mutex, rwlock, task-chain, spawn-tree, fan-out and cpu-parallel benchmarks, and the
  native, xsync, Go, Rust and Asio copies of the pool and of the ping-pong game: simple counters, or the
  same protocols again.
