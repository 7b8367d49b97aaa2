# HThread: the protocols under the run queue, proved

HThread runs user-level threads (vthreads) on worker threads that share a run queue. The
run queue is moodycamel's `BlockingConcurrentQueue`; barriers, reader/writer locks and the
worker loop are HThread's own. This project models each of these protocols and proves what
the code promises about every run of any number of threads.

Each protocol is a step system: a state, one function per program point, and a run over an
arbitrary schedule of threads, calls and allocation failures. One step is one load, store or
read-modify-write of memory that another thread may touch; memory is sequentially
consistent. Accesses that only the executing thread can observe are merged with the step
next to them. Each theorem holds for every reachable state, by an inductive invariant with
an explicit witness. A sequential algorithm inside a protocol is a method with the loop of
the source, tied by its contract to the function the protocol uses.

What a call returns is stated over the run from the call's first step to its last, with any
steps of other threads in between: "at an instant of the call" is the state before one of these
steps.

| file | what it models |
|---|---|
| `Counting.dfy`, `Options.dfy` | sums over threads, optional values |
| `FreeList.dfy` | the lock-free free list of blocks, with 32-bit reference words |
| `Tickets.dfy` | the optimistic dequeue counters of a sub-queue |
| `Circular.dfy`, `Slots.dfy` | wrapped 64-bit indices, and positions on a circular array |
| `BlockIndex.dfy`, `CircularIndex.dfy` | the circular block index: entries, headers, growth; the same as an object updated in place |
| `ImplicitQueue.dfy` | an implicit producer's sub-queue: bulk enqueue with rollback, dequeue, blocks; its invariant |
| `ImplicitConsumers.dfy`, `ImplicitProducers.dfy` | consumer and producer steps keep that invariant |
| `ImplicitRuns.dfy`, `ImplicitCalls.dfy` | whole runs of the sub-queue and the theorems about them; one bulk enqueue from beginning to end |
| `ImplicitProgress.dfy` | calls on the sub-queue come to an end |
| `IndexRuns.dfy` | the producer's steps on the index, with consumers' stores in between, refine the object's methods |
| `Composition.dfy` | the ticket counters make the claims, and the free list the pool, of the sub-queue |
| `ProducerHash.dfy` | the chain of hash tables from thread ids to producers |
| `BlockingQueue.dfy` | the lightweight semaphore and the blocking queue around it |
| `RingQueue.dfy`, `Bits.dfy` | the single-producer single-consumer queue of ring buffers, and its power-of-two rounding |
| `Scheduler.dfy` | the worker loop and the two-queue barrier |
| `RwLock.dfy` | the reader/writer lock |

In `ImplicitQueue.dfy`, `ProducerHash.dfy` and `Scheduler.dfy` the invariant is stated in parts, each under
`forall u :: Use(part, u) ==> ...`. `Use` is true of everything; the form keeps a part closed in
proofs that do not concern it.

## Assumptions

- Only the owner of a node calls `add`; fewer than 2^31 - 1 threads use a free list.
- Index distances stay below 2^63. The concurrent models of the sub-queue use unbounded
  indices; `Circular`, `Tickets.Decision64Agrees`, `Tickets.Recheck64Agrees` and
  `Slots.LookupIsWalk` relate the code's word arithmetic to them.
- Bulk dequeue is called with max > 0.
- A barrier is used by exactly `waiters` vthreads (any number of others share the workers).
- Callers of the reader/writer lock are vthreads and unlock only what they hold.
- Capacities of block indices, hash tables and ring buffers are powers of two wherever the
  code masks with `capacity - 1`; the models step and wrap, and `Slots.WalkIsRemainder`,
  `Bits.MaskIsRemainder` and `RingQueue.MaskingWraps` say that this is the masking.
- The build defines `BLOCKING_QUEUE`, `SPIN_LOCK_STYLE` and `BLOCKED_BARRIER`;
  `MOODYCAMEL_CPP11_THREAD_LOCAL_SUPPORTED` is not defined, so implicit producers are never
  recycled. `MAX_SUBQUEUE_SIZE` is unlimited, the default.
- In the sub-queue model a consumer's claim is one step that takes a range below the tail
  index, and the pool of blocks is a set. `Composition.TicketsMakeClaims` and
  `Composition.FreeListMakesPool` say that the steps of the ticket counters and of the free
  list are such claims and such changes of the pool.

## Model

| member | source | states |
|---|---|---|
| FreeList.NodeInOnePlace | inc/concurrentqueue.h:1365-1444 | In every run of `add` and `try_get` by any number of threads, each node is in exactly one place: with one caller, once on an acyclic list, in the hands of one linking or one taking thread, or flagged while a reference to it is held. No node is handed to two owners. |
| FreeList.Quiescent | inc/concurrentqueue.h:1365-1444 | With no operation in flight every node is owned or on the list exactly once, and its reference word says which. |
| FreeList.ReferenceFreezesNext | inc/concurrentqueue.h:1384-1411 | ABA freedom: as long as a thread holds a reference to a node, no sequence of steps of the others changes its `freeListNext`. |
| FreeList.TakeInstallsSuccessor | inc/concurrentqueue.h:1395-1404 | A successful head CAS in `try_get` removes the first node of the list and installs its true successor; the rest of the list stays. |
| FreeList.GetOutcome | inc/concurrentqueue.h:1379-1416 | In every run a `try_get` ends with a node that had no owner and now has one, or it ends without a node, and then the list was empty at an instant of the call. |
| FreeList.GetAlone | inc/concurrentqueue.h:1379-1416 | From any reachable state with no other operation in flight, `try_get` returns the first node and leaves the rest of the list; on an empty list it returns null and changes nothing. |
| FreeList.AddAlone | inc/concurrentqueue.h:1365-1377 | From any such state `add` puts the node at the front of the list. |
| FreeList.TakenNodeIsNotFlagged | inc/concurrentqueue.h:1396-1403 | The assertion in `try_get` never fails: an unlinked node has a clear flag and at least the two references about to be dropped. |
| FreeList.RunInvariant | inc/concurrentqueue.h:1365-1444 | Ownership, list shape and every 32-bit reference word (count, list's reference, flag) agree in every reachable state. |
| Tickets.TicketConservation | inc/concurrentqueue.h:2464-2531 | In every state `dequeueOptimisticCount` equals `headIndex` plus `dequeueOvercommit` plus the tickets in flight. |
| Tickets.ClaimsDisjointBelowTail | inc/concurrentqueue.h:2686-2708 | For every mix of single and bulk dequeues, with arbitrarily old loads, claimed ranges are non-empty and disjoint, cover exactly the indices below `headIndex`, and `headIndex` never passes `tailIndex`. |
| Tickets.GoodsBounded | inc/concurrentqueue.h:2464-2531 | The counting argument: there are never more successful tickets than elements. |
| Tickets.AloneFailsOnlyWhenEmpty | inc/concurrentqueue.h:2686-2708 | With no other dequeue in flight, a dequeue fails exactly when the sub-queue is empty, and otherwise claims min(max, size) elements. |
| Tickets.DequeueOutcome | inc/concurrentqueue.h:2686-2708 | Whatever the others do and however old the loaded values are, a dequeue takes a ticket for each of the next max that seems to be below the tail, claims from the head one element for each ticket that is below the tail it loads after that, and gives back exactly the others; it fails only if there are none such. |
| Tickets.OvercommitBelowTicket | inc/concurrentqueue.h:2472-2473 | The assertion `overcommit <= myDequeueCount` never fails. |
| Tickets.Decision64Agrees | inc/concurrentqueue.h:2688-2692 | On 64-bit words the first decision of both dequeue forms is the one on unbounded indices, for distances below 2^63. |
| Tickets.Recheck64Agrees | inc/concurrentqueue.h:2695-2704 | Likewise the decision after taking tickets. |
| Circular.CircularLessThanAgrees | inc/concurrentqueue.h:399-410 | For indices less than 2^64 apart, the wrapped comparison equals `<` if and only if -2^63 < a - b <= 2^63. |
| Circular.CircularLessThanFailsFarApart | inc/concurrentqueue.h:399-410 | Outside that range it fails: 0 is before 2^63 and the words say it is not. |
| Circular.SlotIsRelative | inc/concurrentqueue.h:2852-2862 | For a block k places from the tail block, however the indices have wrapped and although the division is unsigned, the slot formula gives the slot k places from the tail, for every capacity dividing 2^64 / BLOCK_SIZE. |
| Slots.LookupIsWalk | inc/concurrentqueue.h:2852-2862 | The same slot as the one reached by stepping slot by slot from the tail, which is what the block index model uses. |
| Slots.WalkIsRemainder | inc/concurrentqueue.h:2859-2860 | Stepping round the array is addition modulo the capacity. |
| BlockIndex.NewBlockIndex | inc/concurrentqueue.h:2881-2900 | The copying loops produce the re-based index: the old slots from the one after the tail round to the tail, then fresh entries; the new tail is the last copied slot. |
| BlockIndex.LookupFindsSlot | inc/concurrentqueue.h:2847-2863 | From any header, old or new, any tail and whatever valid key is found there (even a stale one), the lookup computes the slot of the block looked for. |
| BlockIndex.SetKeySlotted | inc/concurrentqueue.h:2811-2818 | Reusing a slot for a new block keeps all headers consistent, old ones included. |
| BlockIndex.SetKeyWithin | inc/concurrentqueue.h:2811-2818 | The keys of the published header stay within one turn of the highest block number. |
| BlockIndex.GrowSlotted | inc/concurrentqueue.h:2865-2907 | Growth by re-basing keeps slots and keys consistent in all headers, for any number of growths. |
| BlockIndex.GrowKeepsEntries | inc/concurrentqueue.h:2825-2831 | After growth the last blocks keep their entries, and the entry for the next block is fresh, as the code asserts. |
| CircularIndex.ProducerIndex.constructor | inc/concurrentqueue.h:2865-2907 | A first index: fresh entries in order and the tail before the first slot. |
| CircularIndex.ProducerIndex.NewIndex | inc/concurrentqueue.h:2865-2907 | In place: either the allocation fails and nothing changes, or the index becomes the grown one. |
| CircularIndex.ProducerIndex.Insert | inc/concurrentqueue.h:2808-2832 | In place: the free slot after the tail gets the key and becomes the tail; a slot in use makes the index grow first, or the call fail unchanged. |
| CircularIndex.ProducerIndex.Rewind | inc/concurrentqueue.h:2834-2838 | In place: the tail goes one slot back and nothing else changes. |
| CircularIndex.ProducerIndex.EntryFor | inc/concurrentqueue.h:2840-2863 | The formula on the object's fields yields the entry of the block's slot. |
| CircularIndex.RewindUndoesInsert | inc/concurrentqueue.h:2834-2838 | Rewinding after an insertion restores every header. |
| IndexRuns.InsertRefined | inc/concurrentqueue.h:2808-2832 | From the test of the slot to the store of the tail, with any steps of consumers and other producers in between, a run of the concurrent model leaves the index as the object's `Insert` does, grown first only if the slot was in use when tested, but for entries that consumers have set to null meanwhile. |
| IndexRuns.RewindRefined | inc/concurrentqueue.h:2834-2838 | Likewise a run over the rewind after a failed requisition leaves the index one slot back, as the object's `Rewind`, but for entries that consumers have set to null. |
| ImplicitRuns.NeverFaults | inc/concurrentqueue.h:2400-2863 | In every interleaving no access of producer or consumers is to missing memory or through null, and the code's assertions hold: `tailBlock` is not null when linked to, the tail's key is valid, the entry found has the key looked for and a block (in the producer's own lookups during rollback too), the element is there, the count stays within the block. |
| ImplicitRuns.LookupFindsClaimed | inc/concurrentqueue.h:2840-2863 | For every claimed index not yet marked empty, a lookup in the published header finds the entry with its block's number and the block that holds the element, whatever was released out of order, rolled back or moved by growth, also when blocks are released between the test for a free slot and the publication of the larger index. |
| ImplicitRuns.HeldHeaderFindsClaimed | inc/concurrentqueue.h:2711-2724 | The same for a consumer that still holds an older header and walks it slot by slot. |
| ImplicitRuns.DeliversInOrder | inc/concurrentqueue.h:2708-2778 | What a consumer has moved out of its range is what was enqueued at those indices, in order; and what was enqueued is what the successful calls were given, in order. |
| ImplicitRuns.DeliveredOnce | inc/concurrentqueue.h:2708-2778 | Over the history of all deliveries of a run: each is of a claimed index and is the element enqueued there, no index is delivered twice, and a claimed index has been delivered if and only if no consumer still has it to move out. |
| ImplicitRuns.MovedOnce | inc/concurrentqueue.h:2708-2727 | No index is left to be moved out by two consumers at a time. |
| ImplicitRuns.ReleasedOnce | inc/concurrentqueue.h:1503-1540 | No block number is ever released twice, and only when all its indices are claimed and none is left to mark. |
| ImplicitRuns.CompletedIsReleased | inc/concurrentqueue.h:2764-2774 | A block whose indices are all claimed and marked has been released, or its completer is about to do it. |
| ImplicitRuns.CompleterReleases | inc/concurrentqueue.h:2513-2522 | The dequeuer about to release a block is the only one; the block is this producer's, not yet released, and all 32 elements are moved out; nobody else uses the block. |
| ImplicitRuns.ProducerWritesOwn | inc/concurrentqueue.h:2601-2627 | The producer writes elements and chain links only into blocks it holds and that are not released, although `tailBlock` may have been released when it was full. |
| ImplicitRuns.NothingLeftBehind | inc/concurrentqueue.h:2570-2588 | Between calls, failed ones included, every block held is found by a lookup in the published header, under the number of an enqueued and unreleased block, or a consumer is about to release it: every block taken by a failed call is back in the pool. |
| ImplicitRuns.NoEntryLeft | inc/concurrentqueue.h:2570-2588 | Between calls no slot of the published index has a block under a number that was not enqueued: a failed call leaves no live entry. |
| ImplicitRuns.TailBlockReady | inc/concurrentqueue.h:2584-2587 | Between calls, also after a rollback, a partly filled last block is `tailBlock`, is held, and is the block a lookup in the published header finds for the tail index. |
| ImplicitCalls.BulkAllOrNothing | inc/concurrentqueue.h:2536-2683 | From any reachable state, through the beginning of a bulk enqueue and any interleaving with consumers and other producers, to its end: either contents, tail index and log have grown by exactly its items, or contents, tail index and `tailBlock` are as before and no block is held that was not held before. Either way every block number not released meanwhile is found by lookup in the published header with the same block as before. |
| ImplicitCalls.FailsOnlyIfRefused | inc/concurrentqueue.h:2553-2583 | Over the same runs: the call fails if and only if a larger index, which it needed because the slot after the tail was in use, or a block was refused to it on the way; otherwise it succeeds. |
| ImplicitProgress.ProducerEnds | inc/concurrentqueue.h:2536-2683 | Each of the producer's own steps in a call, granted or refused, lowers a bound on the steps left, which depends on its items and the blocks held; no step of another thread raises it. |
| ImplicitProgress.ConsumerEnds | inc/concurrentqueue.h:2708-2778 | A dequeue of n claimed elements is over after at most 7 n + 4 further steps of its own, all its elements moved out; no step of another thread changes anything about it. |
| ImplicitRuns.RunInvariant | inc/concurrentqueue.h:2400-2907 | The invariant of index, blocks, counts, consumers, contents and producer holds in every run, with any allocation failing and other producers using the pool. |
| ImplicitConsumers.KeepLoadHeader | inc/concurrentqueue.h:2853 | The step keeps the invariant, whose part for this program point says that the header loaded has the entries of all the consumer's blocks and a valid key at its tail, even while the producer inserts or rolls back. |
| ImplicitConsumers.KeepLoadKey | inc/concurrentqueue.h:2855-2860 | The tail's key is valid, as the code asserts, and the step keeps the invariant: the slot computed is that of the consumer's block. |
| ImplicitConsumers.FoundEntry | inc/concurrentqueue.h:2861 | The entry in the consumer's slot has its block's number and block. |
| ImplicitConsumers.KeepMove | inc/concurrentqueue.h:2722-2727 | Moving an element out keeps the invariant: contents of all other cells, deliveries and the producer's pending writes. |
| ImplicitConsumers.KeepMark | inc/concurrentqueue.h:1522-1540 | Marking keeps the invariant: count plus unmarked claims equal the claimed part of the block, and a block at 32 has one completer. |
| ImplicitConsumers.KeepUnlink | inc/concurrentqueue.h:2771 | Storing null keeps the invariant: the entries of all blocks in use but the completer's stand. Block numbers keep their entries and blocks. |
| ImplicitConsumers.KeepRelease | inc/concurrentqueue.h:2773 | Giving the block back to the pool keeps the invariant: nobody else uses it and it was not released before. Block numbers keep their entries and blocks. |
| ImplicitProducers.KeepPublish | inc/concurrentqueue.h:2821-2831 | Publishing the larger index keeps the invariant, for consumers with old headers too and whatever they have released since the slot was found in use. Block numbers keep their entries and blocks. |
| ImplicitProducers.KeepStoreKey | inc/concurrentqueue.h:2813-2816 | Storing the key in a free slot keeps the invariant: the slot is of no block in use. |
| ImplicitProducers.KeepTakeBlock | inc/concurrentqueue.h:2990-3007 | Taking and resetting any block of the pool keeps the invariant: it is no block in use. |
| ImplicitProducers.KeepStoreValue | inc/concurrentqueue.h:2593-2607 | Inserting the block keeps the invariant: it has the next number, is linked after the last one, and its count is zero. Block numbers keep their entries and blocks. |
| ImplicitProducers.WritesOwnBlock | inc/concurrentqueue.h:2619-2627 | `tailBlock` is the block of the index being written, and it is in use. |
| ImplicitProducers.LastIsEnd | inc/concurrentqueue.h:2675-2678 | The assertion at the end of the filling loop: every element has been constructed. |
| ImplicitProducers.KeepCommit | inc/concurrentqueue.h:2681 | Storing the tail index keeps the invariant: the cells of the call's items are then those of the new indices, in order. |
| ImplicitProducers.UndoLookup | inc/concurrentqueue.h:2577-2583 | During rollback the producer's own lookup finds the slot of each block to undo, and there the entry with its number and block, as the code asserts, although the tail moves back at the same time. |
| ImplicitProducers.KeepUndone | inc/concurrentqueue.h:2573-2583 | The end of the rollback of the index keeps the invariant without the numbers of the failed call; the numbers below keep their entries and blocks. |
| ImplicitProducers.KeepGiveBack | inc/concurrentqueue.h:2974-2981 | Each block of the chain goes back to the pool, in order, and the invariant is kept. |
| ProducerHash.AgreesWithMap | inc/concurrentqueue.h:3283-3431 | The chain of tables agrees with a plain map: a thread has a producer if and only if its id is in some table (or it is just storing it), wherever its id is its own producer is stored, and the last finished call of a registered thread returned that producer, whatever allocations have failed; null is only ever returned to a thread that is not registered. |
| ProducerHash.KeepsProducer | inc/concurrentqueue.h:3302-3344 | However a run goes on, with any allocations failing, a registered thread keeps its producer and every call it finishes returns it. |
| ProducerHash.ProducersDiffer | inc/concurrentqueue.h:3388-3424 | Two threads never share a producer. |
| ProducerHash.TablesKeepEmptySlot | inc/concurrentqueue.h:3306-3335 | Every table always has an empty slot, with lazy migration, concurrent resizes and failed allocations. |
| ProducerHash.EmptySlot | inc/concurrentqueue.h:3346-3388 | The counting argument: at most n tickets are n or less, so a table has fewer ids than three quarters of its slots. |
| ProducerHash.ProbesEnd | inc/concurrentqueue.h:3305-3343 | No probe loop goes round: it meets an empty slot or its id within the capacity. |
| ProducerHash.FailsOnlyWithoutMemory | inc/concurrentqueue.h:3282 | If every allocation succeeds no call returns null. |
| ProducerHash.CallOutcome | inc/concurrentqueue.h:3283-3431 | In every run, whatever others are refused: a call returns null if and only if this call was refused memory, for a table or for its producer; otherwise it returns its thread's producer, which is then registered in the table that was newest when the call began or in a newer one. |
| ProducerHash.CallGoesOn | inc/concurrentqueue.h:3302-3430 | Each step of a call brings it to a later phase or nearer to the end of its phase; only a thread whose table has no room goes back, to look for a larger one. |
| ProducerHash.WaitsForHolder | inc/concurrentqueue.h:3349-3387 | The resize flag is taken if and only if some thread is at work under it, and a thread that must wait for a larger table waits for another such thread. |
| ProducerHash.NeverFaults | inc/concurrentqueue.h:3283-3431 | Every access is to a table and slot that exist. |
| ProducerHash.NewCapacity | inc/concurrentqueue.h:3356-3359 | The doubling loop yields at least twice the capacity and no more than needed for the ticket to be below half, so the room test after an allocation always succeeds. |
| ProducerHash.RunInvariant | inc/concurrentqueue.h:3283-3431 | Tables, tickets, resize flag, producers and program points agree in every run. |
| BlockingQueue.SemaphoreAccounting | inc/blockingconcurrentqueue.h:201-302 | Committed waiters always equal kernel permits plus pending posts plus max(0, -m_count), and completed acquisitions never exceed the initial count plus what was signalled. |
| BlockingQueue.RetryFindsElement | inc/blockingconcurrentqueue.h:587-686 | The inner element count always equals elements not yet signalled plus available and travelling permits plus permits held by consumers; so a consumer in a retry loop has its elements to find, in single and bulk calls. |
| BlockingQueue.NoLostWakeup | inc/blockingconcurrentqueue.h:293-302 | Once signallers are done, waiters without a kernel permit are exactly the negative part of the counter, and if an element is not reserved a permit for it can be taken. |
| BlockingQueue.WaitManyBounds | inc/blockingconcurrentqueue.h:222-291 | Over the history of all acquisitions of a run: `tryWaitMany(max)` got exactly the positive part of `m_count` at its last access, up to max, so 0 only from a count of 0 or less. `waitMany(max)` got that, or one permit the hard way and greedily what there was on top; with max > 0 at least 1. The permits of a consumer in its retry loop are those of its call. |
| BlockingQueue.WaitNeverEmpty | inc/blockingconcurrentqueue.h:222-291 | A waiting call with max > 0 never leaves the semaphore empty-handed. |
| BlockingQueue.CallOutcome | inc/blockingconcurrentqueue.h:587-686 | In every run: an enqueue that finds memory puts in exactly its elements and as many permits; a dequeue takes out exactly as many elements as its own recorded grant has permits, and acquires a permit the hard way only if `m_count` was 0 or less at an instant of the call. |
| BlockingQueue.CallAlone | inc/blockingconcurrentqueue.h:587-686 | With nothing in flight the semaphore counts the elements; then an enqueue adds its n, and a dequeue takes min(max, elements) from both, at once, with or without waiting. |
| RingQueue.Fifo | inc/readerwriterqueue.h:202-293 | For every interleaving of one producer and one consumer the removed values are a prefix of the added ones, and a consumer about to read finds the oldest element. |
| RingQueue.NextBlockAssertions | inc/readerwriterqueue.h:257-273 | The code's assertions hold despite stale `localFront` and `localTail`: a consumer that moves on finds the next block non-empty, a producer finds it empty. |
| RingQueue.EmptyIsRight | inc/readerwriterqueue.h:225-290 | A dequeue reports empty only if all elements enqueued when it loaded the front block's tail had been removed. |
| RingQueue.DequeueReturns | inc/readerwriterqueue.h:202-405 | In every run a `try_dequeue`, `pop` or `peek` that returns an element returns the oldest and removes it (`peek` leaves it); one that returns nothing had all elements enqueued by an instant of the call removed already. |
| RingQueue.FullIsRight | inc/readerwriterqueue.h:443-516 | `try_enqueue` gives up only if at least `maxSize` elements were queued at an instant during the call. |
| RingQueue.EnqueueReturns | inc/readerwriterqueue.h:430-516 | In every run a call adds its element at the end, or adds nothing, and then at least `maxSize` elements were queued at an instant of the call; `enqueue` adds nothing only if it was also refused a block. |
| RingQueue.WaitFree | inc/readerwriterqueue.h:202-516 | No call waits: each own step of a side lowers a bound on the steps left, seven for an enqueue and nine for a dequeue, and the other side's steps leave it alone. |
| RingQueue.Construct | inc/readerwriterqueue.h:76-133 | For every `maxSize` the constructor's loop and block-count formula give a ring with room for `maxSize` elements, all block sizes powers of two, if and only if `maxSize` is below 2^63; from there on `ceilToPow2` wraps and the one block has size 0. |
| RingQueue.InitialBlockCount | inc/readerwriterqueue.h:90-95 | The formula is one more than the least number of blocks, of `maxBlock - 1` usable elements each, that hold `maxSize` elements. |
| RingQueue.RunKeepsPowers | inc/readerwriterqueue.h:486-502 | In every run block sizes stay powers of two. |
| RingQueue.MaskingWraps | inc/readerwriterqueue.h:238 | So in every run, for every block, masking an index with the size minus one is the wrapping that the model does. |
| RingQueue.NextIndexIsMask | inc/readerwriterqueue.h:238 | Wrapping an index is masking with the size minus one. |
| RingQueue.RunInvariant | inc/readerwriterqueue.h:202-524 | Ring, filled stretch, shadow indices and contents agree in every run of enqueue, dequeue, peek and pop. |
| Bits.CeilToPow2 | inc/readerwriterqueue.h:535-547 | The least power of two at or above a positive 64-bit argument up to 2^63; zero for zero and for larger arguments, by wrap-around. |
| Bits.SmearDoubles | inc/readerwriterqueue.h:538-545 | Or-ing a number with itself shifted by c doubles a run of c ones at its top. |
| Scheduler.OneWorkerOnePlace | src/mgr_thread.cpp:117-156 | No vthread is ever being run by two workers, and each has at most one place in the run and blocked queues and in transit between them, even when the waker enqueues it before its worker has switched away. |
| Scheduler.NeverLost | src/mgr_thread.cpp:117-156 | A live vthread has its place or is being run; both only between pushing itself on a blocked queue and its worker noting the switch, and then it is not runnable. A finished one has no place. |
| Scheduler.TakenIsRun | src/mgr_thread.cpp:117-137 | A worker runs the vthread it takes from the run queue if and only if no worker still runs it; otherwise it puts it back and all is as before. |
| Scheduler.NobodyLeavesEarly | inc/strategy.h:187-238 | Nobody has left more rounds of the barrier than everybody has arrived in. |
| Scheduler.OneSerialPerRound | inc/strategy.h:187-238 | In each round exactly one user gets PTHREAD_BARRIER_SERIAL_THREAD. |
| Scheduler.WokenOncePerRound | inc/strategy.h:215-235 | In each round every other user is woken exactly once. |
| Scheduler.SerialWakesAll | inc/strategy.h:208-235 | Whoever has got the serial result of a round has woken every other user of that round before. |
| Scheduler.WaitsForSomebody | inc/strategy.h:187-238 | No deadlock: whoever waits and is not woken waits for a user that has not arrived in this round, or for the last to arrive, which is on its way to wake the others. |
| Scheduler.CallOutcome | inc/strategy.h:187-238 | When a call of `pthread_barrier_wait` returns, its caller has arrived once more and got one more result, and every user has arrived in that round. |
| Scheduler.CallGoesOn | inc/strategy.h:187-238 | Each own step of a vthread in the barrier brings it nearer to its return, but for a pop that finds a waiter not yet pushed, after which it yields; steps of others do not put it off. |
| Scheduler.QueuesHoldOneRound | inc/strategy.h:201-235 | The two parity queues never mix rounds: one holds waiters of the current round, the other of the round just completed. |
| Scheduler.ResetSucceeds | inc/strategy.h:211-212 | The CAS that resets `cur_waiters` never fails. |
| Scheduler.RunInvariant | inc/strategy.h:187-256 | Places, runners, rounds and counters agree in every run of any number of workers and vthreads. |
| RwLock.Exclusion | src/hthread.cpp:134-192 | In every run of blocking and try forms: never two writers, never a writer with a reader, `r` counts exactly the readers that have incremented and not decremented, and unlock takes the side its caller holds. |
| RwLock.CallOutcome | src/hthread.cpp:134-192 | In every run: a lock call returns 0 exactly with one more read lock, or the write lock, and EBUSY without a change; only the try forms return EBUSY, and only if there was a writer, or for `trywrlock` a reader, at an instant of the call. Unlock gives up the side it holds. |
| RwLock.TryEnds | src/hthread.cpp:134-192 | Whatever the others do, `tryrdlock` is over within five steps of its own, `trywrlock` within six and unlock within three, the first included. |
| RwLock.FreeIsAcquired | src/hthread.cpp:134-181 | A free lock is acquired by whoever goes on alone, by each of the four forms. |
| RwLock.AnnouncedLater | src/hthread.cpp:158-181 | A writer that is not in yet announces itself in `w` only after an instant of the call without readers. |
| RwLock.AllReleased | src/hthread.cpp:181-199 | Once every vthread is idle and holds nothing, the lock is as it was initialised. |

## Left out

- Condition variables and join: the worker's `ret > 5` path, where a vthread may be enqueued twice.
- `ExplicitProducer` and producer and consumer tokens, which HThread does not use.
- Context switches in assembly, signal-driven preemption and stack setup.
- C++ memory orders (memory is sequentially consistent), exception branches, destructors, alignment, moving and swapping queues.
- The choice among producers in `try_dequeue` of the whole queue: the models are of one sub-queue and of the blocking wrapper over an element count.
- Update in place of protocol state: states of the step systems are values, so that whole runs can be compared; only the producer's block index is also given as an object.
- The Boost blocked queues of the barrier and the scheduler's run queue are an atomic FIFO queue and an atomic bag; a push never fails, so the retry loop around it is one step.
- A single enqueue is modelled as a bulk of one, which also clears the new block's chain link; nobody reads that link.
- Failure of the first allocation in the constructor of an implicit producer, and a hash of initial size zero.
- `MAX_SUBQUEUE_SIZE` limits and the `full` test in bulk enqueue, which cannot succeed for distances below 2^63.
- Fairness: that a waiting thread is eventually scheduled, so that calls whose end depends on others (blocking forms, waiting for a larger table, retries of lost compare-and-swaps) do end. What a thread does on its own, and what it waits for, is proved.
- Spin mutex, counting semaphores, work-splitting and id arithmetic, which would only add easy members.
- `LOCKFREE_COND`, `LOCKFREE_BARRIER`, `USE_HSEM`, `USE_FUTEX` and other variants the build does not select.
- Circular.CircularLessThanAgrees: stated for indices less than 2^64 apart, because further apart the words no longer determine the order.
