/**
 What the threads can wait for: flush and sync threads only for work, and a call of nvm_durable_write for an inode lock,
 whose holder can always go on, or for a free inode where there are too many volumes.
 */
module ThreadWaits {
  import opened BurstBuffer
  import opened BurstInvariant
  import opened BurstRuns
  import opened BurstTheorems
  import opened VolumeTokens
  import opened FreeReserve
  import opened TakeWaits
  import opened BurstFlusherSteps

  /** A sync thread waits only between its rounds, and only for an inode to sync. */
  lemma SyncerWaitsIff(s: State, q: nat)
    requires Inv(s) && q < |s.syncers|
    ensures !Guard(s, DoSync(q)) <==> s.syncers[q].pc == SIdle && At(s, Sync(q)) == []
  {
    assert SyncerOk(s, q);
  }

  /** A flush thread waits only without a volume: for enough DIRTY inodes, or for the volumes that others have taken since. */
  lemma FlusherWaitsIff(s: State, f: nat, write: bool)
    requires Inv(s) && f < |s.flushers|
    ensures !Guard(s, Flush(f, write)) <==>
              || (s.flushers[f].pc == FIdle && 10 * (s.dirtyCount + 1) <= |s.inodes|)
              || (s.flushers[f].pc == FClaim && s.inuse == [])
  {
    if s.flushers[f].pc == FCollect { CollectNeverWaits(s, f); }
  }

  /** The thread of this step has inode i in its hands, or it is the thread whose queue holds the inode. */
  predicate Handles(s: State, a: Action, i: nat) {
    match a
    case Flush(f, _) =>
      || i in At(s, Todo(f)) || i in At(s, Done(f))
      || (f < |s.flushers| && s.flushers[f].pc == FHand && s.flushers[f].cur == i)
    case DoSync(q) =>
      || i in At(s, Sync(q))
      || (q < |s.syncers| && s.syncers[q].cur == i
          && (s.syncers[q].pc == SClean || s.syncers[q].pc == SPush || s.syncers[q].pc == SUnlock))
    case _ => false
  }

  lemma FlusherHolds(s: State, i: nat, f: nat)
    requires Inv(s) && f < |s.flushers| && Handles(s, Flush(f, true), i)
    ensures Guard(s, Flush(f, true))
  {
    assert FlusherOk(s, f);
    HolderNeverWaits(s, f, true);
  }

  lemma SyncerHolds(s: State, i: nat, q: nat)
    requires Inv(s) && q < |s.syncers| && Handles(s, DoSync(q), i)
    ensures Guard(s, DoSync(q))
  {
    assert SyncerOk(s, q);
  }

  /** Whoever has a lock that no writer has can take its next step, or else the thread can in whose queue the inode is. */
  lemma HolderGoesOn(s: State, i: nat)
    requires Inv(s) && i < |s.inodes| && s.inodes[i].lock != Nobody && !s.inodes[i].lock.Writing?
    ensures exists a: Action :: Handles(s, a, i) && Guard(s, a)
  {
    var x := s.inodes[i];
    assert InodeOk(s, i);
    if x.lock.Cleaning? {
      SyncerHolds(s, i, x.lock.q);
      assert Handles(s, DoSync(x.lock.q), i);
    } else {
      match x.place
      case In(Todo(f)) => FlusherHolds(s, i, f); assert Handles(s, Flush(f, true), i);
      case In(Done(f)) => FlusherHolds(s, i, f); assert Handles(s, Flush(f, true), i);
      case AtHandOff(f) => FlusherHolds(s, i, f); assert Handles(s, Flush(f, true), i);
      case In(Sync(q)) => SyncerHolds(s, i, q); assert Handles(s, DoSync(q), i);
      case AtSyncer(q) => SyncerHolds(s, i, q); assert Handles(s, DoSync(q), i);
    }
  }

  /** No two calls are on one inode: a writer that has its lock is the one whose key it buffers. */
  lemma LockedForItsKey(s: State, i: nat, u: nat)
    requires Inv(s) && i < |s.inodes| && s.inodes[i].lock == Writing(u)
    ensures u < |s.writers| && HoldsInode(s.writers[u].pc) && s.inodes[i].vol == u
  {
    assert InodeOk(s, i) && WriterOk(s, u);
  }

  /** Nobody else locks a writer's node for longer than a step, so it waits only for the inode behind it. */
  lemma OnlyInodeLock(s: State, v: nat)
    requires Inv(s) && v < |s.writers| && s.writers[v].pc != WIdle && !Waits(s, v) && !Guard(s, Write(v))
    ensures s.writers[v].pc == WLockInode
  {
    assert KeyOk(s, WKey(s, v));
  }

  lemma HolderOfNext(s: State, v: nat)
    requires Inv(s) && v < |s.writers| && s.writers[v].pc == WLockInode && !Guard(s, Write(v))
    ensures s.writers[v].i < |s.inodes| && exists a: Action :: Handles(s, a, s.writers[v].i) && Guard(s, a)
  {
    var i := s.writers[v].i;
    assert WriterOk(s, v);
    if s.inodes[i].lock.Writing? { LockedForItsKey(s, i, s.inodes[i].lock.v); }
    HolderGoesOn(s, i);
  }

  /**
   A call that has begun takes its next step; or it waits for the lock of an inode that a flush or a sync thread has
   locked, or has been handed locked, and that thread can take its own; or, with 100 volumes or more, it waits for a free
   inode.
   */
  lemma WriterWaitsFor(s: State, v: nat)
    requires Reachable(s) && v < |s.writers| && s.writers[v].pc != WIdle
    ensures || Guard(s, Write(v))
            || (&& s.writers[v].pc == WLockInode && s.writers[v].i < |s.inodes|
                && exists a: Action :: Handles(s, a, s.writers[v].i) && Guard(s, a))
            || (Waits(s, v) && |s.writers| >= 100)
  {
    ReachableInv(s);
    if Waits(s, v) {
      WaitsNeeds(s, v);
    } else if !Guard(s, Write(v)) {
      OnlyInodeLock(s, v);
      HolderOfNext(s, v);
    }
  }
}
