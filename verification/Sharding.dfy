/** The two free queues share the free inodes evenly, because both ends of them are picked in turn. */
module Sharding {
  import opened Queues
  import opened BurstBuffer
  import opened BurstInvariant
  import opened BurstFrames
  import opened BurstRuns
  import Writers = BurstWriterSteps
  import Flushers = BurstFlusherSteps
  import Syncers = BurstSyncerSteps
  import Balloons = BurstBalloonStep

  /** How many of the first x tickets go to queue r. */
  function Share(x: nat, r: nat): nat
    requires r < NUM_FREE
  {
    (x + 1 - r) / 2
  }

  /** The writers that hold a ticket of queue r and have not dequeued yet. */
  function Takers(s: State, r: nat): set<nat> {
    set v: nat | v < |s.writers| && s.writers[v].pc == WTake && s.writers[v].shard == r
  }

  /** The writers that have dequeued and not yet decremented inode_free_count. */
  function Holders(s: State): set<nat> {
    set v: nat | v < |s.writers| && (s.writers[v].pc == WTag || s.writers[v].pc == WDec)
  }

  predicate ShardAt(s: State, r: nat)
    requires r < NUM_FREE
  {
    |At(s, Free(r))| == Share(|s.inodes|, r) + Share(s.freeEnq, r) - Share(s.freeDeq, r) + |Takers(s, r)|
  }

  predicate ShardOk(s: State) {
    && |s.writers| == |s.spare|
    && ShardAt(s, 0) && ShardAt(s, 1)
    && s.freeCount == |At(s, Free(0))| + |At(s, Free(1))| + |Holders(s)|
  }

  lemma {:induction false} FreeListLength(n: nat, r: nat)
    requires r < NUM_FREE
    ensures |FreeList(n, r)| == Share(n, r)
  {
    if n > 0 { FreeListLength(n - 1, r); }
  }

  lemma BootShards(inodeBlock: seq<nat>, volumeBlock: seq<nat>, owner: seq<Owner>, blocks: seq<Block>,
                   files: map<Key, Block>, flushers: nat)
    ensures ShardOk(Boot(inodeBlock, volumeBlock, owner, blocks, files, flushers))
  {
    var s := Boot(inodeBlock, volumeBlock, owner, blocks, files, flushers);
    FreeListLength(|inodeBlock|, 0);
    FreeListLength(|inodeBlock|, 1);
    assert Takers(s, 0) == {} && Takers(s, 1) == {} && Holders(s) == {};
  }

  lemma QuietShards(s: State, t: State)
    requires ShardOk(s) && Quiet(s, t)
    ensures ShardOk(t)
  {
    assert forall r :: Takers(t, r) == Takers(s, r);
    assert Holders(t) == Holders(s);
  }

  lemma TakersMove(s: State, t: State, v: nat, r: nat)
    requires v < |s.writers| && Writers.FreeMoves(s, t, v)
    ensures s.writers[v].pc == WClaim && s.freeDeq % NUM_FREE == r ==> Takers(t, r) == Takers(s, r) + {v} && v !in Takers(s, r)
    ensures s.writers[v].pc == WTake && s.writers[v].shard == r ==> Takers(s, r) == Takers(t, r) + {v} && v !in Takers(t, r)
    ensures !(s.writers[v].pc == WClaim && s.freeDeq % NUM_FREE == r) && !(s.writers[v].pc == WTake && s.writers[v].shard == r)
            ==> Takers(t, r) == Takers(s, r)
  {
  }

  lemma HoldersMove(s: State, t: State, v: nat)
    requires v < |s.writers| && Writers.FreeMoves(s, t, v)
    ensures s.writers[v].pc == WTake ==> Holders(t) == Holders(s) + {v} && v !in Holders(s)
    ensures s.writers[v].pc == WDec ==> Holders(s) == Holders(t) + {v} && v !in Holders(t)
    ensures s.writers[v].pc != WTake && s.writers[v].pc != WDec ==> Holders(t) == Holders(s)
  {
  }

  /** A ticket more at the dequeuing end is one writer more waiting at that ticket's queue. */
  lemma ShareStep(x: nat, r: nat)
    requires r < NUM_FREE
    ensures Share(x + 1, r) == Share(x, r) + (if x % NUM_FREE == r then 1 else 0)
  {
  }

  lemma WriterShard(s: State, t: State, v: nat, r: nat)
    requires r < NUM_FREE && ShardAt(s, r) && v < |s.writers| && Writers.FreeMoves(s, t, v)
    requires if s.writers[v].pc == WTake && s.writers[v].shard == r then |At(t, Free(r))| == |At(s, Free(r))| - 1
             else At(t, Free(r)) == At(s, Free(r))
    ensures ShardAt(t, r)
  {
    TakersMove(s, t, v, r);
    ShareStep(s.freeDeq, r);
  }

  lemma WriterShards(s: State, t: State, v: nat)
    requires ShardOk(s) && v < |s.writers| && Writers.Leaves(s, t, v)
    requires s.writers[v].pc == WTake ==> s.writers[v].shard < NUM_FREE
    ensures ShardOk(t)
  {
    WriterShard(s, t, v, 0);
    WriterShard(s, t, v, 1);
    HoldersMove(s, t, v);
    assert ShardAt(t, 0) && ShardAt(t, 1);
  }

  lemma SkipShards(s: State, t: State)
    requires ShardOk(s) && FreeRests(s, t) && t.writers == s.writers && |t.inodes| == |s.inodes|
    requires |t.spare| == |s.spare|
    ensures ShardOk(t)
  {
    assert forall r :: Takers(t, r) == Takers(s, r);
    assert Holders(t) == Holders(s);
  }

  lemma FreeShard(s: State, b: nat, r: nat)
    requires r < NUM_FREE && ShardAt(s, r) && b < |s.clean| && s.clean[b] != [] && s.clean[b][0] < |s.inodes|
    ensures ShardAt(StepFree(s, b), r)
  {
    assert Takers(StepFree(s, b), r) == Takers(s, r);
    ShareStep(s.freeEnq, r);
  }

  lemma FreeShards(s: State, b: nat)
    requires ShardOk(s) && b < |s.clean| && s.clean[b] != [] && s.clean[b][0] < |s.inodes|
    ensures ShardOk(StepFree(s, b))
  {
    FreeShard(s, b, 0);
    FreeShard(s, b, 1);
    assert Holders(StepFree(s, b)) == Holders(s);
  }

  lemma BalloonShards(s: State, b: nat)
    requires ShardOk(s) && b < |s.clean| && BalloonSafe(s, b)
    ensures ShardOk(BalloonStep(s, b))
  {
    SkipShards(s, StepSkip(s, b));
    SkipShards(s, StepDrop(s, b));
    FreeShards(s, b);
  }

  lemma StepShards(s: State, a: Action)
    requires Inv(s) && ShardOk(s) && Guard(s, a)
    ensures Safe(s, a) && ShardOk(Do(s, a))
  {
    StepKeeps(s, a);
    match a
    case Begin(v, lbn, data) =>
      Writers.BeginKeeps(s, v, lbn, data);
      WriterShards(s, StepBegin(s, v, lbn, data), v);
    case Write(v) =>
      assert WriterOk(s, v);
      Writers.WriterKeeps(s, v);
      WriterShards(s, WriterStep(s, v), v);
    case Tear(v, junk) =>
      Writers.TearKeeps(s, v, junk);
      QuietShards(s, Do(s, a));
    case Flush(f, write) =>
      Flushers.FlusherKeeps(s, f, write);
      QuietShards(s, FlusherStep(s, f, write));
    case DoSync(q) =>
      Syncers.SyncerKeeps(s, q);
      QuietShards(s, SyncerStep(s, q));
    case Balloon(b) => BalloonShards(s, b);
  }

  lemma {:induction false} RunShards(s: State, run: seq<Action>)
    requires Inv(s) && ShardOk(s) && ValidRun(s, run)
    ensures Inv(Exec(s, run)) && ShardOk(Exec(s, run))
    decreases |run|
  {
    if run != [] {
      StepKeeps(s, run[0]);
      StepShards(s, run[0]);
      RunShards(Do(s, run[0]), run[1..]);
    }
  }

  /** get_size of free queue r: tickets claimed for enqueue and not yet for dequeue. */
  function ClaimedSize(s: State, r: nat): int {
    |At(s, Free(r))| - |Takers(s, r)|
  }

  lemma ReachableShards(s: State)
    requires Reachable(s)
    ensures Inv(s) && ShardOk(s)
  {
    var inodeBlock, volumeBlock, owner, blocks, files, flushers, run :|
      && OwnersAgree(owner, inodeBlock, volumeBlock) && |blocks| == |owner|
      && ValidRun(Boot(inodeBlock, volumeBlock, owner, blocks, files, flushers), run)
      && s == Exec(Boot(inodeBlock, volumeBlock, owner, blocks, files, flushers), run);
    BootInv(inodeBlock, volumeBlock, owner, blocks, files, flushers);
    BootShards(inodeBlock, volumeBlock, owner, blocks, files, flushers);
    RunShards(Boot(inodeBlock, volumeBlock, owner, blocks, files, flushers), run);
  }

  /** Over every run the free queues differ by at most two in claimed size, queue 0 being at most one behind. */
  lemma FreeQueuesAreEven(s: State)
    requires Reachable(s)
    ensures -1 <= ClaimedSize(s, 0) - ClaimedSize(s, 1) <= 2
  {
    ReachableShards(s);
  }

  /**
   With no writer between its ticket and its decrement of inode_free_count, the counter is exact, and a count that
   passes isFreeLFQueueEnough means at least 49 inodes in each queue.
   */
  lemma EnoughInBothQueues(s: State)
    requires Reachable(s) && Takers(s, 0) == {} && Takers(s, 1) == {} && Holders(s) == {}
    ensures s.freeCount == |At(s, Free(0))| + |At(s, Free(1))|
    ensures s.freeCount >= FREE_MIN_COUNT ==> |At(s, Free(0))| >= 49 && |At(s, Free(1))| >= 49
  {
    ReachableShards(s);
    FreeQueuesAreEven(s);
  }

  /** inode_free_count never drops below the number of inodes in the free queues, so it never wraps below zero. */
  lemma FreeCountCoversQueues(s: State)
    requires Reachable(s)
    ensures s.freeCount >= |At(s, Free(0))| + |At(s, Free(1))| >= 0
  {
    ReachableShards(s);
  }
}
