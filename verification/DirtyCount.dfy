/** inode_dirty_count, which tells the flush threads when to start, counts what they can take or have taken. */
module DirtyCount {
  import opened Queues
  import opened BurstBuffer
  import opened BurstInvariant
  import opened BurstRuns
  import opened BurstTheorems

  /** The inode is in a dirty queue, about to be put there, or in a flush thread's hands and not yet marked SYNC. */
  predicate Counted(s: State, i: nat)
    requires i < |s.inodes|
  {
    match s.inodes[i].place
    case In(id) => id.Dirty? || id.Todo? || id.Done?
    case AtTryLock(_) => true
    case Filled(v) => v < |s.writers| && s.writers[v].pc == WPush
    case _ => false
  }

  function CountedSet(s: State): set<nat> {
    set i: nat | i < |s.inodes| && Counted(s, i)
  }

  predicate CountOk(s: State) {
    s.dirtyCount == |CountedSet(s)|
  }

  /** No inode but j changes place, and no writer comes to or leaves WPush. */
  predicate Elsewhere(s: State, t: State, j: int) {
    && |t.inodes| == |s.inodes| && |t.writers| == |s.writers|
    && (forall i: nat | i < |s.inodes| && i != j :: t.inodes[i].place == s.inodes[i].place)
    && (forall u: nat | u < |s.writers| :: t.writers[u].pc == WPush <==> s.writers[u].pc == WPush)
  }

  lemma SameCount(s: State, t: State, j: int)
    requires CountOk(s) && Elsewhere(s, t, j) && t.dirtyCount == s.dirtyCount
    requires 0 <= j < |s.inodes| ==> (Counted(t, j) <==> Counted(s, j))
    ensures CountOk(t)
  {
    assert CountedSet(t) == CountedSet(s);
  }

  // ------------------------------------------------------------------------------------------ writers

  lemma TakeCounts(s: State, v: nat)
    requires Inv(s) && CountOk(s) && v < |s.writers| && s.writers[v].pc == WTake && WriterGuard(s, v) && WriterSafe(s, v)
    ensures CountOk(StepTake(s, v))
  {
    var q := At(s, Free(s.writers[v].shard));
    assert BoxOk(s, Free(s.writers[v].shard)) && q[0] in q;
    SameCount(s, StepTake(s, v), q[0]);
  }

  lemma AttachCounts(s: State, v: nat)
    requires Inv(s) && CountOk(s) && v < |s.writers| && s.writers[v].pc == WAttach && WriterSafe(s, v)
    ensures CountOk(StepAttach(s, v))
  {
    assert WriterOk(s, v);
    SameCount(s, StepAttach(s, v), s.writers[v].i);
  }

  lemma MarkCounts(s: State, v: nat)
    requires Inv(s) && CountOk(s) && v < |s.writers| && s.writers[v].pc == WMark && WriterSafe(s, v)
    ensures CountOk(StepMark(s, v))
  {
    assert WriterOk(s, v) && InodeOk(s, s.writers[v].i);
    SameCount(s, StepMark(s, v), s.writers[v].i);
  }

  lemma SwapCounts(s: State, v: nat)
    requires Inv(s) && CountOk(s) && v < |s.writers| && s.writers[v].pc == WSwap && WriterSafe(s, v)
    ensures CountOk(StepSwap(s, v))
  {
    assert WriterOk(s, v) && InodeOk(s, s.writers[v].i);
    SameCount(s, StepSwap(s, v), s.writers[v].i);
  }

  /** A writer that has filled an inode has that one alone. */
  lemma FilledIs(s: State, v: nat, i: nat)
    requires Inv(s) && v < |s.writers| && i < |s.inodes| && s.inodes[i].place == Filled(v)
    ensures s.writers[v].i == i
  {
    assert InodeOk(s, i);
  }

  lemma RaisedOne(s: State, v: nat, i: nat)
    requires Inv(s) && v < |s.writers| && s.writers[v].pc == WCount && s.writers[v].was != DIRTY && i < |s.inodes|
    ensures Counted(StepRaise(s, v), i) <==> Counted(s, i) || i == s.writers[v].i
    ensures i == s.writers[v].i ==> !Counted(s, i)
  {
    assert WriterOk(s, v);
    if s.inodes[i].place == Filled(v) { FilledIs(s, v, i); }
  }

  lemma RaiseCounts(s: State, v: nat)
    requires Inv(s) && CountOk(s) && v < |s.writers| && s.writers[v].pc == WCount && s.writers[v].was != DIRTY
    ensures CountOk(StepRaise(s, v))
  {
    var t, j := StepRaise(s, v), s.writers[v].i;
    assert WriterOk(s, v);
    forall i: nat | i < |s.inodes| { RaisedOne(s, v, i); }
    assert CountedSet(t) == CountedSet(s) + {j} && j !in CountedSet(s);
  }

  lemma EnqueueCounts(s: State, v: nat)
    requires Inv(s) && CountOk(s) && v < |s.writers| && s.writers[v].pc == WPush && WriterSafe(s, v)
    ensures CountOk(StepEnqueue(s, v))
  {
    var t, j := StepEnqueue(s, v), s.writers[v].i;
    assert WriterOk(s, v);
    forall i: nat | i < |s.inodes| && s.inodes[i].place == Filled(v) ensures i == j { FilledIs(s, v, i); }
    assert CountedSet(t) == CountedSet(s);
  }

  lemma CountCounts(s: State, v: nat)
    requires Inv(s) && CountOk(s) && v < |s.writers| && s.writers[v].pc == WCount
    ensures CountOk(StepCount(s, v))
  {
    if s.writers[v].was == DIRTY { SameCount(s, StepCount(s, v), -1); } else { RaiseCounts(s, v); }
  }

  lemma SearchingCounts(s: State, v: nat)
    requires CountOk(s) && v < |s.writers| && WriterSafe(s, v)
    requires s.writers[v].pc == WSearch || s.writers[v].pc == WCheckFree || s.writers[v].pc == WClaim
          || s.writers[v].pc == WLockOld || s.writers[v].pc == WRecheck || s.writers[v].pc == WUnlockNode
    ensures CountOk(WriterStep(s, v))
  {
    match s.writers[v].pc
    case WSearch => SameCount(s, StepSearch(s, v), -1);
    case WCheckFree => SameCount(s, StepCheckFree(s, v), -1);
    case WClaim => SameCount(s, StepClaim(s, v), -1);
    case WLockOld => SameCount(s, StepLockOld(s, v), -1);
    case WRecheck => SameCount(s, StepRecheck(s, v), -1);
    case WUnlockNode => SameCount(s, StepUnlockNode(s, v), -1);
    case _ => assert false;
  }

  lemma HoldingCounts(s: State, v: nat)
    requires CountOk(s) && v < |s.writers| && WriterSafe(s, v)
    requires s.writers[v].pc == WTag || s.writers[v].pc == WDec || s.writers[v].pc == WLockNew || s.writers[v].pc == WLockInode
          || s.writers[v].pc == WCopy || s.writers[v].pc == WGive || s.writers[v].pc == WUnlockInode
    ensures CountOk(WriterStep(s, v))
  {
    match s.writers[v].pc
    case WTag => SameCount(s, StepTag(s, v), -1);
    case WDec => SameCount(s, StepDec(s, v), -1);
    case WLockNew => SameCount(s, StepLockNew(s, v), -1);
    case WLockInode => SameCount(s, StepLockInode(s, v), -1);
    case WCopy => SameCount(s, StepCopy(s, v), -1);
    case WGive => SameCount(s, StepGive(s, v), -1);
    case WUnlockInode => SameCount(s, StepUnlockInode(s, v), -1);
    case _ => assert false;
  }

  lemma WriterCounts(s: State, v: nat)
    requires Inv(s) && CountOk(s) && v < |s.writers| && WriterGuard(s, v) && WriterSafe(s, v)
    ensures CountOk(WriterStep(s, v))
  {
    match s.writers[v].pc
    case WIdle =>
    case WTake => TakeCounts(s, v);
    case WAttach => AttachCounts(s, v);
    case WMark => MarkCounts(s, v);
    case WSwap => SwapCounts(s, v);
    case WCount => CountCounts(s, v);
    case WPush => EnqueueCounts(s, v);
    case WTag => HoldingCounts(s, v);
    case WDec => HoldingCounts(s, v);
    case WLockNew => HoldingCounts(s, v);
    case WLockInode => HoldingCounts(s, v);
    case WCopy => HoldingCounts(s, v);
    case WGive => HoldingCounts(s, v);
    case WUnlockInode => HoldingCounts(s, v);
    case _ => SearchingCounts(s, v);
  }

  // ------------------------------------------------------------------------------------ flush threads

  lemma GrabCounts(s: State, f: nat)
    requires Inv(s) && CountOk(s) && f < |s.flushers| && s.flushers[f].pc == FCollect && FlusherGuard(s, f) && FlusherSafe(s, f)
    ensures CountOk(FlusherStep(s, f, false))
  {
    var w := s.flushers[f];
    if w.got < w.ws {
      var q := At(s, Dirty(w.vol));
      assert BoxOk(s, Dirty(w.vol)) && q[0] in q;
      SameCount(s, StepGrab(s, f), q[0]);
    } else {
      SameCount(s, FlusherStep(s, f, false), -1);
    }
  }

  lemma CollectCounts(s: State, f: nat, j: nat)
    requires CountOk(s) && f < |s.flushers| && j == s.flushers[f].cur && j < |s.inodes| && s.inodes[j].place == AtTryLock(f)
    ensures CountOk(StepCollect(s, f))
  {
    SameCount(s, StepCollect(s, f), j);
  }

  lemma ReturnCounts(s: State, f: nat, j: nat)
    requires CountOk(s) && f < |s.flushers| && j == s.flushers[f].cur && j < |s.inodes| && s.inodes[j].place == AtTryLock(f)
    ensures CountOk(StepReturn(s, f))
  {
    SameCount(s, StepReturn(s, f), j);
  }

  lemma TryCounts(s: State, f: nat)
    requires Inv(s) && CountOk(s) && f < |s.flushers| && s.flushers[f].pc == FTry && FlusherSafe(s, f)
    ensures CountOk(StepTryLock(s, f))
  {
    assert FlusherOk(s, f);
    if s.inodes[s.flushers[f].cur].lock == Nobody {
      CollectCounts(s, f, s.flushers[f].cur);
    } else {
      ReturnCounts(s, f, s.flushers[f].cur);
    }
  }

  lemma WriteBlockCounts(s: State, f: nat)
    requires Inv(s) && CountOk(s) && f < |s.flushers| && s.flushers[f].pc == FWrite && FlusherSafe(s, f) && At(s, Todo(f)) != []
    ensures CountOk(StepWriteBlock(s, f))
  {
    assert BoxOk(s, Todo(f)) && At(s, Todo(f))[0] in At(s, Todo(f));
    SameCount(s, StepWriteBlock(s, f), At(s, Todo(f))[0]);
  }

  lemma MarkedOne(s: State, f: nat, j: nat, i: nat)
    requires f < |s.flushers| && At(s, Done(f)) != [] && At(s, Done(f))[0] == j && j < |s.inodes| && s.inodes[j].place == In(Done(f))
    requires i < |s.inodes|
    ensures Counted(StepMarkSync(s, f), i) <==> Counted(s, i) && i != j
    ensures i == j ==> Counted(s, i)
  {
  }

  lemma MarkSyncCounts(s: State, f: nat)
    requires Inv(s) && CountOk(s) && f < |s.flushers| && s.flushers[f].pc == FWrite && FlusherSafe(s, f) && At(s, Done(f)) != []
    ensures CountOk(StepMarkSync(s, f))
  {
    var t, j := StepMarkSync(s, f), At(s, Done(f))[0];
    assert BoxOk(s, Done(f)) && j in At(s, Done(f));
    forall i: nat | i < |s.inodes| { MarkedOne(s, f, j, i); }
    assert CountedSet(s) == CountedSet(t) + {j} && j !in CountedSet(t);
  }

  lemma HandOffCounts(s: State, f: nat)
    requires Inv(s) && CountOk(s) && f < |s.flushers| && s.flushers[f].pc == FHand && FlusherSafe(s, f)
    ensures CountOk(StepHandOff(s, f))
  {
    assert FlusherOk(s, f);
    SameCount(s, StepHandOff(s, f), s.flushers[f].cur);
  }

  lemma WritingCounts(s: State, f: nat, write: bool)
    requires Inv(s) && CountOk(s) && f < |s.flushers| && s.flushers[f].pc == FWrite && FlusherSafe(s, f)
    ensures CountOk(FlusherStep(s, f, write))
  {
    if write && At(s, Todo(f)) != [] {
      WriteBlockCounts(s, f);
    } else if At(s, Done(f)) != [] {
      MarkSyncCounts(s, f);
    } else {
      SameCount(s, FlusherStep(s, f, write), -1);
    }
  }

  lemma LocalCounts(s: State, f: nat, w: Flusher, inuse: seq<nat>)
    requires CountOk(s) && f < |s.flushers|
    ensures CountOk(SetFlusher(s, f, w).(inuse := inuse))
  {
    SameCount(s, SetFlusher(s, f, w).(inuse := inuse), -1);
  }

  lemma FlusherCounts(s: State, f: nat, write: bool)
    requires Inv(s) && CountOk(s) && f < |s.flushers| && FlusherGuard(s, f) && FlusherSafe(s, f)
    ensures CountOk(FlusherStep(s, f, write))
  {
    var w := s.flushers[f];
    match w.pc
    case FIdle => LocalCounts(s, f, w.(pc := FWoken), s.inuse);
    case FWoken => LocalCounts(s, f, w.(pc := if s.inuse == [] then FIdle else FClaim), s.inuse);
    case FClaim => LocalCounts(s, f, w.(pc := FLook, vol := s.inuse[0]), s.inuse[1..]);
    case FLook => LocalCounts(s, f, w.(pc := if |At(s, Dirty(w.vol))| > 1 then FSnapshot else FPut), s.inuse);
    case FSnapshot => LocalCounts(s, f, StepSnapshot(s, f).flushers[f], s.inuse);
    case FCollect => GrabCounts(s, f);
    case FTry => TryCounts(s, f);
    case FHand => HandOffCounts(s, f);
    case FWrite => WritingCounts(s, f, write);
    case FPut => LocalCounts(s, f, w.(pc := FIdle), s.inuse + [w.vol]);
  }

  // -------------------------------------------------------------------------- sync and balloon threads

  lemma TakeSyncCounts(s: State, q: nat)
    requires Inv(s) && CountOk(s) && q < |s.syncers| && s.syncers[q].pc == SLoop && s.syncers[q].n > 0 && SyncerSafe(s, q)
    ensures CountOk(StepTakeSync(s, q))
  {
    var box := At(s, Sync(q));
    assert BoxOk(s, Sync(q)) && box[0] in box;
    SameCount(s, StepTakeSync(s, q), box[0]);
  }

  lemma CleanCounts(s: State, q: nat, j: nat)
    requires CountOk(s) && q < |s.syncers| && j == s.syncers[q].cur && j < |s.inodes| && s.inodes[j].place == AtSyncer(q)
    ensures CountOk(StepClean(s, q))
  {
    SameCount(s, StepClean(s, q), j);
  }

  lemma DoneCounts(s: State, q: nat)
    requires CountOk(s) && q < |s.syncers| && (s.syncers[q].pc == SPush || s.syncers[q].pc == SUnlock) && SyncerSafe(s, q)
    ensures CountOk(SyncerStep(s, q))
  {
    if s.syncers[q].pc == SPush { SameCount(s, StepPushClean(s, q), -1); } else { SameCount(s, StepUnlock(s, q), -1); }
  }

  lemma SyncerCounts(s: State, q: nat)
    requires Inv(s) && CountOk(s) && q < |s.syncers| && SyncerGuard(s, q) && SyncerSafe(s, q)
    ensures CountOk(SyncerStep(s, q))
  {
    var w := s.syncers[q];
    assert SyncerOk(s, q);
    match w.pc
    case SIdle => SameCount(s, SyncerStep(s, q), -1);
    case SSync => SameCount(s, StepCommit(s, q), -1);
    case SLoop => if w.n > 0 { TakeSyncCounts(s, q); } else { SameCount(s, SetSyncer(s, q, w.(pc := SIdle)), -1); }
    case SClean => CleanCounts(s, q, w.cur);
    case SPush => DoneCounts(s, q);
    case SUnlock => DoneCounts(s, q);
  }

  lemma BalloonCounts(s: State, b: nat)
    requires Inv(s) && CountOk(s) && b < |s.clean| && BalloonGuard(s, b) && BalloonSafe(s, b)
    ensures CountOk(BalloonStep(s, b))
  {
    var i := s.clean[b][0];
    assert InodeOk(s, i);
    BalloonCases(s, b);
    SameCount(s, BalloonStep(s, b), i);
  }

  /** Every step keeps the counter exact. */
  lemma StepCounts(s: State, a: Action)
    requires Inv(s) && CountOk(s) && Guard(s, a)
    ensures Safe(s, a) && CountOk(Do(s, a))
  {
    StepKeeps(s, a);
    match a
    case Begin(v, lbn, data) => SameCount(s, StepBegin(s, v, lbn, data), -1);
    case Write(v) => WriterCounts(s, v);
    case Tear(v, junk) => SameCount(s, Do(s, a), -1);
    case Flush(f, write) => FlusherCounts(s, f, write);
    case DoSync(q) => SyncerCounts(s, q);
    case Balloon(b) => BalloonCounts(s, b);
  }

  lemma {:induction false} RunCounts(s: State, run: seq<Action>)
    requires Inv(s) && CountOk(s) && ValidRun(s, run)
    ensures Inv(Exec(s, run)) && CountOk(Exec(s, run))
    decreases |run|
  {
    if run != [] {
      StepKeeps(s, run[0]);
      StepCounts(s, run[0]);
      RunCounts(Do(s, run[0]), run[1..]);
    }
  }

  lemma {:induction false} SubsetSize(n: nat, a: set<nat>)
    requires forall i | i in a :: i < n
    ensures |a| <= n
  {
    if n == 0 {
      assert a == {};
    } else {
      SubsetSize(n - 1, a - {n - 1});
    }
  }

  /**
   In every reachable state the counter is the number of inodes in dirty queues, about to be put there, or taken by a
   flush thread and not yet marked SYNC. So it never falls below zero, where it would wrap, and never exceeds the table.
   */
  lemma DirtyCountIsExact(s: State)
    requires Reachable(s)
    ensures s.dirtyCount == |CountedSet(s)| && 0 <= s.dirtyCount <= |s.inodes|
  {
    var inodeBlock, volumeBlock, owner, blocks, files, flushers, run :|
      && OwnersAgree(owner, inodeBlock, volumeBlock) && |blocks| == |owner|
      && ValidRun(Boot(inodeBlock, volumeBlock, owner, blocks, files, flushers), run)
      && s == Exec(Boot(inodeBlock, volumeBlock, owner, blocks, files, flushers), run);
    var boot := Boot(inodeBlock, volumeBlock, owner, blocks, files, flushers);
    BootInv(inodeBlock, volumeBlock, owner, blocks, files, flushers);
    assert CountedSet(boot) == {};
    RunCounts(boot, run);
    SubsetSize(|s.inodes|, CountedSet(s));
  }

  /** With no writer between marking an inode and counting it, the counter is the number of DIRTY inodes. */
  lemma QuietCountIsDirty(s: State)
    requires Reachable(s) && forall v: nat | v < |s.writers| :: !MidWrite(s.writers[v].pc) && s.writers[v].pc != WCount
    ensures s.dirtyCount == |set i: nat | i < |s.inodes| && s.inodes[i].state == DIRTY|
  {
    DirtyCountIsExact(s);
    ReachableInv(s);
    forall i: nat | i < |s.inodes| ensures Counted(s, i) <==> s.inodes[i].state == DIRTY { assert InodeOk(s, i); }
    assert CountedSet(s) == set i: nat | i < |s.inodes| && s.inodes[i].state == DIRTY;
  }
}
