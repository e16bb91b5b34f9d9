# NVM burst buffer: models and proofs

Dafny models of the parts of the burst buffer that are hard to get right, and proofs of what they promise.
`dafny verify dfyconfig.toml` checks everything.

## What is modelled

**The life cycle of a buffered block** (`BurstBuffer.dfy`). Writers, flush, sync and balloon threads share the inode
table, the block table, a hash index and queues of inode indices. Every queue operation, lock operation and observable
store is one step, and any schedule of any number of volumes and flush threads is a run. The model follows the code
where it differs from the simplest reading: `nvm_flush` takes an inode lock and `nvm_sync` releases it, an index may sit
in several clean queues, a node is unlocked in a step of its own after the inode, and a write takes effect at the second
of the two stores that exchange block indices. `BurstInvariant.dfy` is the inductive invariant; the `Burst*Steps.dfy`
files and `BurstFrames.dfy` show that every step keeps it; `BurstRuns.dfy` lifts it to every reachable state;
`BurstTheorems.dfy`, `Recovery.dfy`, `CrashImages.dfy`, `Sharding.dfy` and `DirtyCount.dfy` say what it means. `WriteReturns.dfy` follows a
call of `nvm_durable_write` from its beginning to its return, `FreeReserve.dfy`, `TakeWaits.dfy` and `ThreadWaits.dfy`
say what it and the other threads can wait for, and `VolumeTokens.dfy` follows the volumes through the hands of the
flush threads. `ThreadBodies.dfy` holds the bodies of the writer, sync and balloon threads as methods that change the
tables and queues in place; each is shown to be a schedule of the step machine. `BadRuns.dfy` holds runs that end badly,
and `LostForGood.dfy` what one of them leads to.

**The ticket queue** `lfqueue`: a step machine with any number of producers and consumers (`TicketQueue.dfy`), the plain
queue that every interleaving of it is (`PlainQueue.dfy`), and the class itself, over its arrays and counters, tied to
the machine (`LfQueue.dfy`). The queues of the life cycle are sequences on the strength of `PlainQueue.StepIsPlain`, and
what `get_size` computes from the counters while others are at work is the size of the sequence
(`PlainQueue.SizeIsLength`).

**The loops of `nvm_flush`** on arrays (`FlushLoops.dfy`), against a specification of what is taken, written and handed
on (`FlushSpec.dfy`). In the life cycle every interleaving collects what the specification says (`FlushCollect.dfy`),
and the order of writes and hand-offs is a schedule (`FlushRuns.dfy`).

**The latch-free list** `lflist`: a step machine in which every shared access is a step (`LatchFreeList.dfy`), what its
search and its remove are bound to find (`RemoveFinds.dfy`), and the class with its traversal loop, tied to the machine
(`LfList.dfy`).

**The AVL tree** with lazy deletion: the tree as a value with its laws (`AvlTree.dfy`), what every operation does to the
answers of search (`AvlSearch.dfy`), and heap nodes changed in place by rotation, by copy and by mark (`AvlNodes.dfy`,
`AvlPurge.dfy`, `AvlRoot.dfy`).

**The table layout** and the first contents of tables and queues (`TableLayout.dfy`).

Theorems that require the invariant hold in every reachable state (`BurstRuns.ReachableInv`), whatever the schedule.

Some fields of the models are history: they record and never decide (`owner`, `Inode.place`, `spec` and `dropped` of the
life cycle; `inputs`, `outputs`, `pHolder` and `cHolder` of the ticket queue; `appender`, `winner` and `removed` of the
list). Theorems that speak of them have partners that do not: `BurstTheorems.Logical`, `BurstTheorems.Has` and
`BurstTheorems.Bijection` are read off the tables and threads alone.

## Where the code does less than it seems to

Each of these is stated exactly, as a condition that a caller could test.

- Recovery seeks to the product of two `uint32_t` values, so a byte offset of 2^32 or more wraps: the block is not
  restored, and is written over a smaller block number of the volume (`Recovery.TargetIsOwnPlace`,
  `Recovery.WrappedOffsetIsLost`, `Recovery.WrappedOffsetHits`). A key is restored, for all contents and all crashes, if
  and only if it is spared: the inode that buffers it has an offset that fits and comes behind every other inode whose
  block recovery writes to its place, and without such an inode nothing is written there (`Recovery.KeyExactIffSpared`).
  So a block whose own offset fits can be lost as well; `BadRuns.VictimExists` is a reachable state in which the block at
  number 0 is. With no write half marked, recovery is exact if and only if every offset fits
  (`Recovery.ExactIffOffsetsFit`).
- With offsets that fit, recovery is exact if and only if no write is between marking a newly taken inode DIRTY and
  giving it its block: otherwise the left-overs in the recycled block are written over the file
  (`Recovery.ExactIffNotHalfMarked`; such a state is reachable, `BadRuns.HalfMarkedExists`).
- A crash between the two stores that exchange block indices leaves two owners of one block
  (`BurstTheorems.BijectionUnlessExchanging`, `Recovery.RebootNeedsBijection`, `BadRuns.ExchangingExists`), and lone
  writes after it never mend that (`ThreadBodies.LoneWriteKeepsOwners`).
- A write whose last block number is 2^32 - 1 never leaves its loop, and any other visits just its own blocks
  (`ThreadBodies.LoopEnds`). The life cycle leaves that block number out.
- Between a writer's two unlocks its inode can be flushed and cleaned, and then a balloon thread that fails to lock the
  node forgets it, CLEAN and in no queue (`BurstTheorems.DropLoses`; `BadRuns.LostInodeExists` is such a run). It
  stays so whatever all threads do, until its key is written again (`LostForGood.LostStaysLost`). Nothing
  else loses an inode (`BurstTheorems.DroppedOnlyByDrops`, `BurstTheorems.NothingLost`).
- The test for enough free inodes reserves nothing: a writer that has passed it can have to wait for a free inode all the
  same if and only if there are 100 volumes or more, the table having room for 128 (`TakeWaits.WaitsIff`).
- The block table overruns the region by one block if and only if the division that sizes it leaves no remainder and its
  quotient fits 32 bits (`TableLayout.Layout`). Where a mutex takes 40 bytes it never does (`TableLayout.FitsWith40`);
  where one takes 48 bytes it can (`TableLayout.OverrunExists`).
- Coalesced writes agree with separate ones if and only if no block number 2^32 - 1 is directly followed by block
  number 0 (`FlushSpec.GatheredIffNoWrap`).
- The AVL insert makes an AVL tree if and only if no node has the key yet, logically deleted nodes included
  (`AvlTree.InsertKeepsAvl`, `AvlTree.EqualKeysUnbalance`).
- `lflist::remove` never removes the last node of the list, whatever it holds (`LfListObject.LfList.Remove`).

## Model

| member | source | states |
|---|---|---|
| BurstTheorems.StepRefinesMap | src/nvm0write.cc:203-232 | in every interleaving, the second block-index store of a write gives its key the caller's block, and no other step of any thread changes what any key means |
| BurstTheorems.RunRefinesMap | src/nvm0write.cc:152-233 | after any run, every key means the block that the last landed write of that run gave it in a plain map |
| BurstTheorems.LogicalIsSpec | src/nvm0hash.cc:55-63 | the block found through the index, or else stable storage, is the plain map's block |
| BurstTheorems.WriteTookEffect | src/nvm0write.cc:214-223 | once the exchange is done, a call's key means the caller's block until the call returns; that no call returns before is WriteReturns.ReturnIsWritten |
| WriteReturns.ReturnIsWritten | src/nvm0write.cc:214-232 | whichever step of whichever thread makes a writer idle again, the exchange of its call is done, and its key means the caller's block then |
| WriteReturns.CallIsWritten | src/nvm0write.cc:93-138 | over every run from the beginning of a call to its return, the call takes effect exactly once and its key means the caller's block at the return, however often it has found too few free inodes or its node invalidated |
| FreeReserve.TakeNeverWaits | src/nvm0write.cc:58-62 | with fewer than 100 volumes, a writer that has passed isFreeLFQueueEnough finds an inode in its free queue at once, however many others passed it at the same time |
| FreeReserve.StepReserve | src/nvm0write.cc:22-26 | every step of every thread leaves the free count high enough for all writers that have passed the test |
| TakeWaits.WaitsIff | src/nvm0write.cc:103-109 | a writer that has passed isFreeLFQueueEnough can be made to wait for a free inode, in some reachable state, if and only if there are at least 100 volumes |
| ThreadWaits.WriterWaitsFor | src/nvm0write.cc:203-210 | a call that has begun takes its next step; or it waits for the lock of an inode that a flush or sync thread has locked or been handed, and that thread can take its own next step; or, with 100 volumes or more, it waits for a free inode |
| ThreadWaits.FlusherWaitsIff | src/nvm0flush.cc:27-36 | a flush thread waits only without a volume, for a tenth of the inodes to be dirty or for a volume that others have taken since its test |
| ThreadWaits.SyncerWaitsIff | src/nvm0sync.cc:18-33 | a sync thread waits only between rounds, and only for an inode in its queue |
| BurstTheorems.CleanIsDurable | src/nvm0sync.cc:48-63 | a CLEAN inode's block is on stable storage, is what its key means, and no unsynced write to its place is left |
| BurstTheorems.SnapshotIsDurable | src/nvm0sync.cc:48-58 | every inode of the snapshot that is not CLEAN yet, the one in hand included, is locked, and its block is on stable storage and is what its key means |
| BurstTheorems.OnePlace | src/nvm0flush.cc:70-84 | every inode is in exactly one queue, once, or in exactly one thread's hands, as its state, volume and lock say |
| BurstTheorems.HasIsPlace | src/nvm0write.cc:93-138 | where an inode is, read off queues and threads, is one place |
| BurstTheorems.WriterNeverSeesSync | src/nvm0write.cc:209-212 | a writer that holds an inode lock never finds the inode SYNC |
| BurstTheorems.CleanIsFindable | src/nvm0balloon.cc:70-77 | a CLEAN inode that was not dropped is in a clean queue, on its way to one, or about to be dirtied |
| BurstTheorems.DroppedOnlyByDrops | src/nvm0balloon.cc:80-82 | only a failed trylock between a writer's two unlocks drops an inode |
| BurstTheorems.DropLoses | src/nvm0balloon.cc:94-101 | after such a trylock the inode is CLEAN and findable if and only if its index has another copy |
| BadRuns.LostInodeExists | src/nvm0balloon.cc:79-82 | some schedule of twelve writes of new keys, a second write of the first one, a flush that the low-water mark lets start, a sync and a balloon pass ends with a lost CLEAN inode, which nothing will find |
| LostForGood.LostStaysLost | src/nvm0balloon.cc:80-82 | over every run without a new call on its key, a lost inode stays CLEAN, keeps its key and stays unfindable |
| LostForGood.StepIgnores | src/nvm0balloon.cc:80-82 | no step of any thread but the beginning of a call on its key finds a lost inode |
| LostForGood.DropIsLost | src/nvm0balloon.cc:94-101 | a failed trylock between a writer's two unlocks loses the inode unless its index has another copy |
| BadRuns.HalfMarkedExists | src/nvm0write.cc:211-214 | a state with a DIRTY inode that has not received its block is reachable |
| BadRuns.ExchangingExists | src/nvm0write.cc:50-51 | a state between the two stores of an exchange is reachable |
| BadRuns.VictimExists | src/nvm0nvm.cc:361-370 | in some reachable state with no write half marked, recovery writes the block of number 2^18 over the buffered block of number 0, whose own offset fits, whatever the crash leaves |
| BurstTheorems.NothingLost | src/nvm0write.cc:222-223 | over a run without such a trylock every CLEAN inode stays findable |
| BurstTheorems.IndexAgrees | src/nvm0hash.cc:32-49 | a non-FREE inode is the one its own key's valid node points to, so no key has two |
| BurstTheorems.ValidNodesAreDistinct | src/nvm0hash.cc:68-75 | valid nodes point to distinct inodes that carry the nodes' keys |
| BurstTheorems.BijectionUnlessExchanging | src/nvm0write.cc:50-51 | the block indices of inodes and volumes are a bijection onto the blocks if and only if no writer is between the two stores |
| BurstRuns.BootInv | src/nvm0nvm.cc:143-224 | the state after nvm_system_init satisfies the invariant, whatever the memory and the files hold |
| BurstRuns.StepKeeps | src/nvm0nvm.cc:200-216 | the next step of whatever thread touches only what exists and keeps the invariant |
| BurstRuns.ReachableInv | src/nvm0nvm.cc:200-216 | in every reachable state the invariant holds and no thread is about to touch what does not exist |
| BurstWriterSteps.WriterKeeps | src/nvm0write.cc:93-138 | every step of a writer is safe and keeps the invariant; what the steps add up to is WriteReturns.CallIsWritten |
| BurstFlusherSteps.FlusherKeeps | src/nvm0flush.cc:56-170 | every step of a flush thread is safe and keeps the invariant; that none loses a volume is VolumeTokens.EveryVolumeIsServed |
| BurstFlusherSteps.CollectNeverWaits | src/nvm0flush.cc:70-71 | with the volume token held, the collection's dequeue never finds the dirty queue empty |
| VolumeTokens.EveryVolumeIsServed | src/nvm0flush.cc:31-44 | in every reachable state every volume is in the in-use queue, once, or in the hands of exactly one flush thread |
| VolumeTokens.StepServes | src/nvm0flush.cc:36-44 | no step of any thread loses a volume |
| VolumeTokens.TurnComes | src/nvm0flush.cc:36-44 | every dequeue of the in-use queue brings each waiting volume one place forward, the front one into the hands of the thread that dequeues, and no other step moves any |
| VolumeTokens.TurnStarts | src/nvm0flush.cc:27-42 | a flush thread that finds a tenth of the inodes dirty and a volume in use takes the volume at the front, and goes on to flush it if and only if its dirty queue holds more than one inode |
| VolumeTokens.HolderAdvances | src/nvm0flush.cc:40-44 | a flush thread with a volume can always take its next step, and each one brings it nearer to putting the volume back behind all others, which is its last one |
| VolumeTokens.OthersDoNotDelay | src/nvm0flush.cc:40-44 | no step of any other thread takes it further from that |
| BurstSyncerSteps.SyncerKeeps | src/nvm0sync.cc:42-64 | every step of a sync thread is safe and keeps the invariant |
| BurstBalloonStep.BalloonKeeps | src/nvm0balloon.cc:68-92 | a pass of a balloon thread is safe and keeps the invariant |
| Recovery.RecoveryStart | src/nvm0nvm.cc:353-383 | the two loops write every DIRTY or SYNC inode's block to its target, in table order; those inodes become CLEAN, every other inode keeps its state, and all keep block number, volume, block and lock |
| CrashImages.StepImages | src/nvm0flush.cc:97-125 | a write of a block to a file adds to what a crash can leave, with the block or without, and takes nothing away; sync() leaves just what has been written; no other step of any thread changes what a crash can leave |
| Recovery.CrashLosesNothing | src/nvm0nvm.cc:360-374 | after a crash that kept any subset of the unsynced writes, recovery leaves in the file what a spared key meant |
| Recovery.RecoveryRestarts | src/nvm0nvm.cc:360-374 | a crash while the blocks are written, whatever it leaves at the places that recovery writes to, changes nothing of what recovery leaves in the end |
| Recovery.RecoveryEnds | src/nvm0nvm.cc:376-382 | a crash while inodes are being made CLEAN changes nothing either: recovery from that table leaves every file as it is |
| Recovery.KeyExactIffSpared | src/nvm0nvm.cc:361-370 | recovery restores a key, for all contents of the blocks it writes and all crashes, if and only if the inode that buffers the key is the last one written to its place, or there is no such inode and nothing is written there |
| Recovery.ExactIffAllSpared | src/nvm0nvm.cc:361-370 | recovery is exact if and only if that holds of every key |
| Recovery.ExactIffOffsetsFit | src/nvm0nvm.cc:366 | with no write half marked, recovery is exact if and only if the byte offset of every inode that needs it fits 32 bits |
| Recovery.ExactIffNotHalfMarked | src/nvm0write.cc:211-214 | with offsets that fit, recovery is exact for all left-overs and all crashes if and only if no new inode is DIRTY without its block |
| Recovery.TargetIsOwnPlace | src/nvm0nvm.cc:366 | an inode's block is sent to the inode's own place if and only if its byte offset fits 32 bits |
| Recovery.TargetIsModulo | src/nvm0nvm.cc:366 | the target is block number modulo 2^18 of the inode's volume |
| Recovery.WrappedOffsetIsLost | src/nvm0nvm.cc:366-367 | with a larger offset its place keeps what the crash left there |
| Recovery.WrappedOffsetHits | src/nvm0nvm.cc:366-367 | with a larger offset the block is written over a smaller number of its volume, where it stays unless a later inode's block is written there |
| Recovery.RebootContinues | src/nvm0nvm.cc:143-187 | after a crash outside an exchange, the block indices of the table that recovery leaves have one owner per block, and a boot from that table and the recovered files is a boot state in which every spared key means what it meant |
| Recovery.RebootNeedsBijection | src/nvm0write.cc:50-51 | the table that recovery leaves after a crash has one owner per block if and only if no exchange was half done |
| Sharding.FreeQueuesAreEven | src/nvm0write.cc:61-62 | over every run the two free queues differ by at most two in claimed size |
| Sharding.EnoughInBothQueues | src/nvm0write.cc:22-26 | with no take in flight the free count is exact, and 100 means at least 49 in each queue |
| Sharding.FreeCountCoversQueues | src/nvm0balloon.cc:87-88 | the free count never falls below what the free queues hold, so it never wraps |
| Sharding.StepShards | src/nvm0write.cc:88 | every step keeps the shares of both queues and the counter in step |
| DirtyCount.DirtyCountIsExact | src/nvm0write.cc:216-220 | in every reachable state the dirty counter is the number of inodes in dirty queues, about to be put there, or taken by a flush thread and not yet SYNC; it never wraps |
| DirtyCount.QuietCountIsDirty | src/nvm0flush.cc:159-163 | with no writer between marking an inode and counting it, the counter is the number of DIRTY inodes |
| DirtyCount.StepCounts | src/nvm0flush.cc:159-163 | every step of every thread keeps the counter exact |
| ThreadBodies.Nvm.NvmDurableWrite | src/nvm0write.cc:152-233 | a lone write of one aligned block is a schedule of the machine; its node is valid and unlocked, its inode DIRTY and unlocked with the block, the old block the volume's spare; the inode is counted and enqueued unless it was DIRTY, and taken off its free queue and off the count if it is new; nothing else changes |
| ThreadBodies.Nvm.GetHashNodeWithLock | src/nvm0write.cc:93-138 | the valid node's inode, or the next free inode of the shard in turn tagged with the key, under a locked valid node; queues and counters change by that inode alone |
| ThreadBodies.Nvm.GetFreeInode | src/nvm0write.cc:58-91 | takes the first inode of the shard in turn, tags it, moves the turn on and decrements the count |
| ThreadBodies.LoopEnds | src/nvm0write.cc:201-230 | the loop over the blocks ends, after just the blocks of the call, if and only if the last one is not 2^32 - 1 |
| ThreadBodies.Nvm.WriteDataToNvmBlock | src/nvm0write.cc:41-56 | the data goes to the volume's spare block, and inode and volume exchange blocks |
| ThreadBodies.Nvm.NvmSync | src/nvm0sync.cc:42-64 | commits the files, then makes every queued inode CLEAN and unlocked and deals it to the clean queues in turn, in queue order |
| ThreadBodies.AllCleanIs | src/nvm0sync.cc:54-62 | what that table is, inode by inode: the queued ones CLEAN and unlocked, nothing else changed |
| ThreadBodies.CleanDealtInTurn | src/nvm0sync.cc:59-60 | each inode goes behind what is in the clean queue in turn |
| ThreadBodies.CleanDealtEvenly | src/nvm0sync.cc:59-60 | each clean queue gets one inode in every round that reaches it, so no two differ by more than one |
| ThreadBodies.Nvm.FillOne | src/nvm0balloon.cc:70-109 | a pass is one step of the machine: it takes the front of the clean queue; if that inode and its node's are CLEAN and the node is unlocked, it invalidates the node, frees the inode, counts it and deals it to the free queue in turn, and otherwise changes nothing else |
| ThreadBodies.Nvm.FillFreeInodes | src/nvm0balloon.cc:68-92 | ends with the clean queue empty, by a schedule of the machine that keeps the invariant |
| ThreadBodies.LoneWriteKeepsOwners | src/nvm0write.cc:50-51 | the exchange of a lone write keeps every block's number of owners |
| ThreadBodies.LoneWriteTookEffect | src/nvm0write.cc:203-230 | after a lone write its key means the caller's block |
| PlainQueue.StepIsPlain | include/nvm0lfqueue.h:61-94 | in every interleaving each step appends one value to a sequence, takes the one at its front, hands one straight to a waiting dequeue, or leaves it alone |
| PlainQueue.RunIsPlain | include/nvm0lfqueue.h:61-94 | every run of the ticket queue is a run of the plain queue |
| PlainQueue.ReturnsWhatIsDelivered | include/nvm0lfqueue.h:78-94 | over every run, the k-th dequeue to begin returns the k-th value that the plain queue delivers |
| PlainQueue.SizeIsLength | include/nvm0lfqueue.h:96-106 | whatever operations are in flight, get_size is the number of values of the plain queue cut to 32 bits, 0 while dequeues wait, and is_empty tells whether there are none |
| PlainQueue.SizeIsLowerBound | include/nvm0lfqueue.h:96-106 | when others work between the loads of the two counters, the queue held no fewer values than get_size says at any moment in between |
| TicketQueue.Fifo | include/nvm0lfqueue.h:61-94 | the dequeue of ticket t returned the value of the enqueue of ticket t |
| TicketQueue.ExactlyOnce | include/nvm0lfqueue.h:78-94 | a dequeue about to return has its own ticket's value, which nobody returned before |
| TicketQueue.HistoryStands | include/nvm0lfqueue.h:61-94 | what was enqueued or returned under a ticket is never revised |
| TicketQueue.MutualExclusion | include/nvm0lfqueue.h:67-93 | no two threads are past their spin tests in one slot |
| TicketQueue.NoOverwrite | include/nvm0lfqueue.h:74-75 | a value is stored only over one that has been returned |
| TicketQueue.NeverOverfull | include/nvm0lfqueue.h:61-94 | published and not yet returned values never exceed the capacity |
| TicketQueue.Progress | include/nvm0lfqueue.h:66-92 | while a producer and a consumer both hold tickets, some ticket holder can move |
| TicketQueue.ReachableInv | include/nvm0lfqueue.h:35-52 | in every reachable state each slot is empty and awaits ticket C = P + capacity, or full and awaits ticket P = C |
| TicketQueue.SlotIsModulo | include/nvm0lfqueue.h:67 | the slot of a ticket is its remainder |
| LfQueueObject.LfQueue.constructor | include/nvm0lfqueue.h:35-52 | a new queue is empty, in the machine's initial state |
| LfQueueObject.LfQueue.Enqueue | include/nvm0lfqueue.h:61-76 | an uninterrupted enqueue is four steps of the machine and appends its value |
| LfQueueObject.LfQueue.Dequeue | include/nvm0lfqueue.h:78-94 | an uninterrupted dequeue is four steps of the machine and takes the oldest value |
| LfQueueObject.LfQueue.GetSize | include/nvm0lfqueue.h:96-101 | what PlainQueue.SizeIsLength speaks of, in every state of the counters; with nothing in flight, the number of values held, cut to 32 bits |
| LfQueueObject.LfQueue.IsEmpty | include/nvm0lfqueue.h:103-106 | what PlainQueue.SizeIsLength speaks of, in every state of the counters; with nothing in flight, whether no value is held |
| FlushLoops.FlushThread.Collect | src/nvm0flush.cc:64-84 | takes exactly the unlocked ones of the first n inodes, in order, locks them, and puts the others back behind what writers add; n stops at a full batch or one short of the queue's size |
| FlushLoops.FlushThread.LookAhead | src/nvm0flush.cc:89-103 | the length of the run of consecutive block numbers |
| FlushLoops.FlushThread.WriteBatch | src/nvm0flush.cc:105-168 | one gathered write of one run, and its hand-off to the sync queues in turn |
| FlushLoops.FlushThread.HandOff | src/nvm0flush.cc:155-166 | marks exactly the batch SYNC and deals it in turn |
| FlushLoops.FlushThread.NvmFlush | src/nvm0flush.cc:56-170 | what a call takes, where it writes the blocks, which batches it forms and which sync queue gets which inode |
| FlushCollect.CollectMeetsSpec | src/nvm0flush.cc:64-84 | however all threads interleave, a flush thread collects what the specification says of its trylocks' outcomes and of what the writer enqueues meanwhile |
| FlushCollect.StepTracks | src/nvm0flush.cc:70-84 | every step of every thread keeps the collection in line with the specification |
| FlushRuns.WriteOutIsRun | src/nvm0flush.cc:86-169 | from any reachable state in which a flush thread starts to write, writing and handing off batch by batch is a schedule of the life cycle; the gathered writes go to the file of the thread's volume, and every inode is marked SYNC and dealt in turn |
| FlushSpec.CollectConserves | src/nvm0flush.cc:70-84 | no inode is lost or taken twice by the collection |
| FlushSpec.TakenInOrder | src/nvm0flush.cc:70-84 | the taken inodes are distinct, and are exactly the unlocked ones among the first n |
| FlushSpec.TakenGrows | src/nvm0flush.cc:70-84 | each inode taken stands behind those taken before it |
| FlushSpec.RunIsMaximal | src/nvm0flush.cc:89-103 | a run is consecutive and cannot be longer |
| FlushSpec.MaximalIsRun | src/nvm0flush.cc:89-103 | only one length is that of a maximal run |
| FlushSpec.BatchesCover | src/nvm0flush.cc:86-169 | the batches are all the inodes, in order |
| FlushSpec.BatchIsRun | src/nvm0flush.cc:86-169 | each batch is the maximal run from where the one before it ends |
| FlushSpec.GatheredIffNoWrap | src/nvm0flush.cc:97-125 | the gathered writes equal separate ones if and only if no last block number is directly followed by number 0 |
| FlushSpec.EachHolds | src/nvm0flush.cc:97-125 | of the blocks written to one number the last one is there afterwards, and nothing else changes |
| FlushSpec.DealtConserves | src/nvm0flush.cc:155-166 | the hand-off loses and repeats no inode |
| FlushSpec.DealtInTurn | src/nvm0flush.cc:164-166 | each inode goes to the sync queue in turn, behind those before it, and to no other |
| FlushSpec.DealtEvenly | src/nvm0flush.cc:164-166 | the sync queues get half of the inodes each, up to one |
| LatchFreeList.PointersGoForward | src/ut0lflist.cc:72-89 | every next pointer leads to a later append, over marked nodes only |
| LatchFreeList.UnlinkDropsNoLiveNode | src/ut0lflist.cc:104-117 | the swap in search takes out marked nodes only |
| LatchFreeList.FoundIsNext | src/ut0lflist.cc:100-117 | a search turns to the node it has found only when the live node before it was read pointing to it or has just been made to; a failed swap starts the search again |
| LatchFreeList.LiveIsReachable | src/ut0lflist.cc:66-119 | a live node is found from the head as soon as every earlier append has stored its link |
| LatchFreeList.WhoWritesNext | src/ut0lflist.cc:160-171 | a marked node's next never changes, and a null next is written only by the append of the following node |
| LatchFreeList.MarkedByItsRemove | src/ut0lflist.cc:141-151 | a node is marked in one step of a remove of its own data, which is then the one to return 1 for it |
| RemoveFinds.NeverMissed | src/ut0lflist.cc:125-155 | a remove does not return 0 if a node with its data is live, linked and not the last throughout the call |
| RemoveFinds.SearchEndsThere | src/ut0lflist.cc:66-119 | a search while such a node is there throughout ends at a node with that data that is live at that moment and no later in the list |
| RemoveFinds.StepToward | src/ut0lflist.cc:66-119 | while such a node is there, no step of any thread takes a search or a remove past it |
| LatchFreeList.RemovesOnce | src/ut0lflist.cc:144-149 | no two removes return 1 for one node |
| LatchFreeList.Accounting | src/ut0lflist.cc:148-170 | the count is the live nodes up to pending increments and decrements, modulo 2^64; appended nodes are live, removed once, or about to be |
| LatchFreeList.QuietList | src/ut0lflist.cc:121-171 | with nothing in flight the count is appends less removes, marked nodes are the removed ones, and live nodes are reachable |
| LatchFreeList.NeverStuck | src/ut0lflist.cc:60-119 | no operation ever follows a null pointer |
| LatchFreeList.StepKeeps | src/ut0lflist.cc:60-171 | every step of every operation keeps the list invariant |
| LfListObject.MarkedWords | src/ut0lflist.cc:9-29 | marking keeps the reference, and no two pairs of reference and mark share a word |
| LfListObject.LfList.Traverse | src/ut0lflist.cc:68-91 | the traversal ends at the first live node with the data, or the last node, and knows the live node before it |
| LfListObject.LfList.Search | src/ut0lflist.cc:60-119 | the same, with the marked nodes in between taken out and what the list holds unchanged |
| LfListObject.LfList.Remove | src/ut0lflist.cc:125-155 | returns 1 if and only if a live node other than the last holds the data, and then takes out the first such; otherwise changes nothing held |
| LfListObject.LfList.Append | src/ut0lflist.cc:160-171 | adds its data behind everything held |
| AvlTree.InsertKeepsAvl | src/nvm0avltree.cc:43-97 | insert makes an AVL tree if and only if its key is new; it adds the entry where its key belongs and at most one level; that nothing else changes is AvlSearch.InsertAll |
| AvlTree.InsertOrderedIff | src/nvm0avltree.cc:54-62 | insert keeps the keys strictly ordered if and only if its key is new, whatever the shape |
| AvlTree.EqualKeysUnbalance | src/nvm0avltree.cc:70-94 | three inserts of one key leave the tree unbalanced |
| AvlTree.InsertShape | src/nvm0avltree.cc:64-96 | insert keeps stored heights exact and the balance within one |
| AvlTree.DeleteKeepsAvl | src/nvm0avltree.cc:134-225 | physical delete keeps an AVL tree, takes out just the entry of its key and at most one level |
| AvlTree.DeleteShape | src/nvm0avltree.cc:192-224 | delete keeps stored heights exact and the balance within one |
| AvlTree.RotationsKeepOrder | src/nvm0avltree.cc:339-375 | rotations change no key order |
| AvlTree.FibonacciBound | src/nvm0avltree.cc:43-97 | a tree of height h has at least Fib(h + 2) - 1 nodes |
| AvlTree.HeightIsLogarithmic | src/nvm0avltree.cc:43-97 | 2^(height / 2) is at most the number of nodes plus one |
| AvlTree.SearchFinds | src/nvm0avltree.cc:9-29 | search finds the entry of a key if and only if there is one |
| AvlTree.InvalidateMarks | src/nvm0avltree.cc:101-129 | logical delete marks just the entry of its key |
| AvlSearch.InsertAll | src/nvm0avltree.cc:43-97 | insert adds its entry, once, whole, and loses, repeats or changes no other |
| AvlSearch.SearchInserted | src/nvm0avltree.cc:9-97 | after the insert of a new key the search for it finds the entry inserted, and the search for any other key what it found before |
| AvlSearch.SearchDeleted | src/nvm0avltree.cc:134-225 | after a physical delete the search for its key finds nothing, and any other search what it found before |
| AvlSearch.SearchInvalidated | src/nvm0avltree.cc:101-129 | after a logical delete the search for its key finds the same entry marked invalid, and any other search what it found before |
| AvlSearch.SearchPurged | src/nvm0avltree.cc:227-242 | after the purge every search finds what it found before if that is valid, and else nothing |
| AvlSearch.FirstInvalidIsFirst | src/nvm0avltree.cc:244-271 | the walk finds the first invalid entry in preorder |
| AvlTree.FirstInvalidFinds | src/nvm0avltree.cc:244-271 | the walk finds an invalid entry if and only if there is one |
| AvlTree.PurgeLeavesValid | src/nvm0avltree.cc:227-242 | with the right count the purge leaves exactly the valid entries, unchanged, in an AVL tree |
| AvlNodes.RightRotate | src/nvm0avltree.cc:339-356 | the rotation in place, with both heights updated |
| AvlNodes.LeftRotate | src/nvm0avltree.cc:358-375 | the rotation in place, with both heights updated |
| AvlNodes.InsertNode | src/nvm0avltree.cc:43-97 | the insert in place makes the tree that the insert of values makes of the new node's entry, of the same nodes and the new one; what searches find in it is AvlSearch.SearchInserted |
| AvlPurge.PhysicalDelete | src/nvm0avltree.cc:134-225 | the delete in place makes the tree that the delete of values makes, even when the node to delete is in the tree |
| AvlPurge.DeleteByCopy | src/nvm0avltree.cc:172-184 | a node with two children takes over its successor's entry, which is deleted on the right |
| AvlPurge.MinNode | src/nvm0avltree.cc:276-288 | the node of the smallest key |
| AvlPurge.FindInvalid | src/nvm0avltree.cc:244-271 | the stack walk returns the first invalid node in preorder, or null if there is none |
| AvlPurge.MarkInvalid | src/nvm0avltree.cc:101-129 | the loop marks the node of the key and tells whether it was valid |
| AvlRoot.TreeRoot.Insert | src/nvm0avltree.cc:31-38 | adds the entry: a search for its key finds just that entry then, and any other search what it found before; keeps both counts right and the tree an AVL tree |
| AvlRoot.TreeRoot.LogicalDelete | src/nvm0avltree.cc:101-129 | marks the entry, and counts it if it was valid; a search for its key finds it invalid then, and any other search what it found before |
| AvlRoot.TreeRoot.Rebalance | src/nvm0avltree.cc:227-242 | ends with exactly the valid entries, correct counts and an AVL tree; searches find the same valid entries as before, and no others |
| AvlRoot.TreeRoot.SearchTree | src/nvm0avltree.cc:9-29 | the node of the key if and only if there is one, with the entry that the search of values finds |
| TableLayout.Layout | src/nvm0nvm.cc:102-115 | the inode table ends before the aligned block table, whose blocks fit if and only if the division leaves a remainder or its quotient is cut to 32 bits, and else overrun by one block |
| TableLayout.FitsWith40 | src/nvm0nvm.cc:102-115 | with a 40-byte mutex and a page-aligned region the blocks always fit |
| TableLayout.OverrunExists | src/nvm0nvm.cc:102-115 | with a 48-byte mutex the last block of a 77 MiB region that starts one page behind a block boundary lies outside |
| TableLayout.StructureBuild | src/nvm0nvm.cc:117-124 | inode i is FREE and owns block i, volume v owns the v-th block after those, so that every block has exactly one owner; nothing else changes |
| TableLayout.FillFreeQueues | src/nvm0nvm.cc:181-187 | every inode is FREE, unlocked and in the free queue of its parity, in order |
| TableLayout.FirstBoot | src/nvm0nvm.cc:117-187 | the first boot starts from a reachable state |

## Left out

- `nvm_durable_write` of partial, unaligned or several blocks: one call writes one aligned block.
- Several writers on one volume: as in the driver, one writer per volume.
- libcuckoo: the hash map is an atomic map. `invalid_list`, which nothing reads, is left out.
- ThreadBodies.Nvm.GetHashNodeWithLock: a lone caller without enough free inodes, or with its node locked, would wait for ever, so neither is the case; waiting is in the step machine.
- ThreadBodies.Nvm.NvmDurableWrite: the same, for the same reason.
- BurstFlusherSteps.FlusherKeeps: the machine lets writes and hand-offs come in any order that hands each inode off after its write, which includes the order of the code (FlushRuns.WriteOutIsRun).
- BurstRuns.StepKeeps: calls that write block number 2^32 - 1 are left out, because such a call never ends (ThreadBodies.LoopEnds) and writes over other keys.
- BurstBalloonStep.BalloonKeeps: one pass of the balloon loop is one step; two balloon threads inside one pass each are not modelled, since nothing in the code protects them from each other.
- `sync()` is one step that makes all cached writes durable; file names are volume identities. Recovery opens `VOL_<vid>.txt` in the working directory, while with MULTIPLE_STORAGE_ON the volumes' files lie under `/opt/nvm1` and `/opt/nvm2`: the theorems about recovery hold only if these are the same files.
- The queues of the life cycle are unbounded sequences. An inode is in the free, dirty and sync queues at most once, and their capacity is the number of inodes; that the clean queues, where one index may sit several times, do not fill up is assumed.
- Counters of the ticket queue, tickets and round-robin counters are unbounded; `lfqueue::close` and its abandoned tickets are left out.
- LfListObject.LfList.Search: requires a non-empty list, since `search` never ends on an empty one.
- LatchFreeList.StepKeeps: data 0, which the dummy head holds, is not searched for, and node memory is never given back.
- AvlRoot.TreeRoot.Insert: requires a key that no node has; AvlTree.InsertKeepsAvl says what happens otherwise.
- AvlNodes.InsertNode: requires a key that no node has, because equal keys unbalance the tree (AvlTree.EqualKeysUnbalance), and the rotations count on balance.
- AvlPurge.PhysicalDelete: memory given back by `free` is memory no longer owned; allocation failure is not modelled. Tree counts are unbounded.
- Recovery.CrashLosesNothing: for spared keys, which by Recovery.KeyExactIffSpared are all that are restored.
- Recovery.RebootContinues: not for a crash inside an exchange, after which no table of owners exists (Recovery.RebootNeedsBijection).
- TableLayout.Layout: structure sizes are parameters, and the region is taken to be large enough for the tables and below 2^64.
- FlushLoops.FlushThread.Collect: other threads show up as the outcome of each trylock and as what writers enqueue; FlushCollect.CollectMeetsSpec reads both off a run of the life cycle.
- Volume allocation and lookup, `nvm_system_close`, condition variables, the monitor, options and benchmark drivers.
- `TEMP_FIX`, `WRITE_DEBUG` and `SYNC_OPTION` off.
