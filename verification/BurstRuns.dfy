/** Booting, runs, and the invariant over every run. */
module BurstRuns {
  import opened Queues
  import opened BurstBuffer
  import opened BurstInvariant
  import Writers = BurstWriterSteps
  import Flushers = BurstFlusherSteps
  import Syncers = BurstSyncerSteps
  import Balloons = BurstBalloonStep

  // ------------------------------------------------------------------------------------------- boot

  /** The inodes that nvm_system_init enqueues into free queue r: those congruent to r, in ascending order. */
  function FreeList(n: nat, r: nat): seq<nat> {
    if n == 0 then [] else FreeList(n - 1, r) + (if (n - 1) % NUM_FREE == r then [n - 1] else [])
  }

  lemma {:induction false} FreeListHolds(n: nat, r: nat)
    ensures NoDup(FreeList(n, r))
    ensures forall i: nat :: i in FreeList(n, r) <==> i < n && i % NUM_FREE == r
  {
    if n > 0 {
      FreeListHolds(n - 1, r);
      if (n - 1) % NUM_FREE == r { PushFacts(FreeList(n - 1, r), n - 1); }
    }
  }

  lemma {:induction false} FreeListAscends(n: nat, r: nat)
    ensures forall a, b | 0 <= a < b < |FreeList(n, r)| :: FreeList(n, r)[a] < FreeList(n, r)[b]
  {
    if n > 0 {
      var rest := FreeList(n - 1, r);
      FreeListAscends(n - 1, r);
      FreeListHolds(n - 1, r);
      assert forall a | 0 <= a < |rest| :: rest[a] in rest;
    }
  }

  /** Who owns each block: exactly one inode or volume, and each inode and volume owns one. */
  predicate OwnersAgree(owner: seq<Owner>, inodeBlock: seq<nat>, volumeBlock: seq<nat>) {
    && |owner| == |inodeBlock| + |volumeBlock|
    && (forall i: nat | i < |inodeBlock| :: inodeBlock[i] < |owner| && owner[inodeBlock[i]] == OfInode(i))
    && (forall v: nat | v < |volumeBlock| :: volumeBlock[v] < |owner| && owner[volumeBlock[v]] == OfVolume(v))
  }

  const IDLE_WRITER := Writer(WIdle, 0, 0, 0, FREE, 0, 0)
  const IDLE_FLUSHER := Flusher(FIdle, 0, 0, 0, 0, 0)
  const IDLE_SYNCER := Syncer(SIdle, 0, 0)

  /**
   The state after nvm_system_init: every inode FREE, the index empty, the free queues filled, the volumes in use.
   Block indices and block contents are whatever the non-volatile memory holds, and so are the files.
   */
  function Boot(inodeBlock: seq<nat>, volumeBlock: seq<nat>, owner: seq<Owner>, blocks: seq<Block>,
                files: map<Key, Block>, flushers: nat): State {
    State(
      seq(|inodeBlock|, i requires 0 <= i < |inodeBlock| => Inode(0, 0, FREE, inodeBlock[i], Nobody, In(Free(i % NUM_FREE)))),
      volumeBlock, blocks, map[],
      map[Free(0) := FreeList(|inodeBlock|, 0), Free(1) := FreeList(|inodeBlock|, 1)],
      seq(NUM_BALLOON, _ => []), seq(|volumeBlock|, v => v),
      0, 0, |inodeBlock|, 0, 0, 0,
      seq(|volumeBlock|, _ => IDLE_WRITER), seq(flushers, _ => IDLE_FLUSHER), seq(NUM_SYNCER, _ => IDLE_SYNCER),
      files, files, map[], owner, files, {})
  }

  lemma BootQueues(inodeBlock: seq<nat>, volumeBlock: seq<nat>, owner: seq<Owner>, blocks: seq<Block>,
                   files: map<Key, Block>, flushers: nat, id: QueueId)
    ensures var s := Boot(inodeBlock, volumeBlock, owner, blocks, files, flushers);
            && BoxOk(s, id)
            && (id.Free? && id.r < NUM_FREE ==> forall i: nat :: i in At(s, id) <==> i < |s.inodes| && i % NUM_FREE == id.r)
            && (!(id.Free? && id.r < NUM_FREE) ==> At(s, id) == [])
  {
    FreeListHolds(|inodeBlock|, 0);
    FreeListHolds(|inodeBlock|, 1);
  }

  lemma BootInode(inodeBlock: seq<nat>, volumeBlock: seq<nat>, owner: seq<Owner>, blocks: seq<Block>,
                  files: map<Key, Block>, flushers: nat, i: nat)
    requires OwnersAgree(owner, inodeBlock, volumeBlock) && |blocks| == |owner| && i < |inodeBlock|
    ensures var s := Boot(inodeBlock, volumeBlock, owner, blocks, files, flushers); InodeOk(s, i) && CleanOk(s, i)
  {
    BootQueues(inodeBlock, volumeBlock, owner, blocks, files, flushers, Free(i % NUM_FREE));
  }

  lemma BootInv(inodeBlock: seq<nat>, volumeBlock: seq<nat>, owner: seq<Owner>, blocks: seq<Block>,
                files: map<Key, Block>, flushers: nat)
    requires OwnersAgree(owner, inodeBlock, volumeBlock) && |blocks| == |owner|
    ensures Inv(Boot(inodeBlock, volumeBlock, owner, blocks, files, flushers))
  {
    var s := Boot(inodeBlock, volumeBlock, owner, blocks, files, flushers);
    forall i: nat | i < |s.inodes| ensures InodeOk(s, i) && CleanOk(s, i) {
      BootInode(inodeBlock, volumeBlock, owner, blocks, files, flushers, i);
    }
    forall id: QueueId ensures BoxOk(s, id) && (!id.Free? ==> At(s, id) == []) {
      BootQueues(inodeBlock, volumeBlock, owner, blocks, files, flushers, id);
    }
    forall k: Key ensures KeyOk(s, k) {}
    forall v: nat | v < |s.writers| ensures WriterOk(s, v) {}
    forall f: nat | f < |s.flushers| ensures FlusherOk(s, f) {}
    forall q: nat | q < |s.syncers| ensures SyncerOk(s, q) {}
  }

  // ------------------------------------------------------------------------------------------- runs

  /** Whatever thread moves next, its step is safe and keeps the invariant. */
  lemma StepKeeps(s: State, a: Action)
    requires Inv(s) && Guard(s, a)
    ensures Safe(s, a) && Inv(Do(s, a))
  {
    match a
    case Begin(v, lbn, data) => Writers.BeginKeeps(s, v, lbn, data);
    case Write(v) => Writers.WriterKeeps(s, v);
    case Tear(v, junk) => Writers.TearKeeps(s, v, junk);
    case Flush(f, write) => Flushers.FlusherKeeps(s, f, write);
    case DoSync(q) => Syncers.SyncerKeeps(s, q);
    case Balloon(b) => Balloons.BalloonKeeps(s, b);
  }

  lemma {:induction false} RunKeeps(s: State, run: seq<Action>)
    requires Inv(s) && ValidRun(s, run)
    ensures Inv(Exec(s, run))
    decreases |run|
  {
    if run != [] {
      StepKeeps(s, run[0]);
      RunKeeps(Do(s, run[0]), run[1..]);
    }
  }

  /** s is reached from a boot by some schedule. */
  ghost predicate Reachable(s: State) {
    exists inodeBlock: seq<nat>, volumeBlock: seq<nat>, owner: seq<Owner>, blocks: seq<Block>, files: map<Key, Block>,
           flushers: nat, run: seq<Action> ::
      && OwnersAgree(owner, inodeBlock, volumeBlock) && |blocks| == |owner|
      && ValidRun(Boot(inodeBlock, volumeBlock, owner, blocks, files, flushers), run)
      && s == Exec(Boot(inodeBlock, volumeBlock, owner, blocks, files, flushers), run)
  }

  /** The invariant holds in every reachable state, and no thread is ever about to touch what does not exist. */
  lemma ReachableInv(s: State)
    requires Reachable(s)
    ensures Inv(s)
    ensures forall a: Action | Guard(s, a) :: Safe(s, a)
  {
    var inodeBlock, volumeBlock, owner, blocks, files, flushers, run :|
      && OwnersAgree(owner, inodeBlock, volumeBlock) && |blocks| == |owner|
      && ValidRun(Boot(inodeBlock, volumeBlock, owner, blocks, files, flushers), run)
      && s == Exec(Boot(inodeBlock, volumeBlock, owner, blocks, files, flushers), run);
    BootInv(inodeBlock, volumeBlock, owner, blocks, files, flushers);
    RunKeeps(Boot(inodeBlock, volumeBlock, owner, blocks, files, flushers), run);
    forall a: Action | Guard(s, a) ensures Safe(s, a) { StepKeeps(s, a); }
  }
}
