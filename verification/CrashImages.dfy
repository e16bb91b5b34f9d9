/** What the steps do to what a crash can leave: only writes to files add to it, and only sync() takes away from it. */
module CrashImages {
  import opened BurstBuffer
  import opened BurstInvariant
  import opened BurstRuns
  import opened BurstTheorems
  import opened Recovery
  import opened WriteReturns

  predicate FilesRest(s: State, t: State) {
    t.cache == s.cache && t.stable == s.stable && t.pending == s.pending
  }

  /** The step is a flush thread's writing a block to a file. */
  predicate WritesOut(s: State, a: Action) {
    a.Flush? && a.write && a.f < |s.flushers| && s.flushers[a.f].pc == FWrite && At(s, Todo(a.f)) != []
  }

  /** The step is a sync thread's sync(). */
  predicate Commits(s: State, a: Action) {
    a.DoSync? && a.q < |s.syncers| && s.syncers[a.q].pc == SSync
  }

  // ------------------------------------------------------------------------- the steps that leave files alone

  lemma CollectFiles(s: State, f: nat)
    requires f < |s.flushers| && FlusherSafe(s, f) && (s.flushers[f].pc == FCollect || s.flushers[f].pc == FTry)
    ensures FilesRest(s, FlusherStep(s, f, false))
  {
    if s.flushers[f].pc == FTry {
      assert FilesRest(s, StepCollect(s, f)) && FilesRest(s, StepReturn(s, f));
    } else if s.flushers[f].got < s.flushers[f].ws {
      assert FilesRest(s, StepGrab(s, f));
    }
  }

  lemma HandFiles(s: State, f: nat, write: bool)
    requires f < |s.flushers| && FlusherSafe(s, f) && (s.flushers[f].pc == FWrite || s.flushers[f].pc == FHand)
    requires !WritesOut(s, Flush(f, write))
    ensures FilesRest(s, FlusherStep(s, f, write))
  {
    if s.flushers[f].pc == FHand {
      assert FilesRest(s, StepHandOff(s, f));
    } else if At(s, Done(f)) != [] {
      assert FilesRest(s, StepMarkSync(s, f));
    }
  }

  lemma TurnFiles(s: State, f: nat)
    requires f < |s.flushers| && FlusherSafe(s, f)
    requires s.flushers[f].pc == FClaim || s.flushers[f].pc == FPut || s.flushers[f].pc == FSnapshot
    ensures FilesRest(s, FlusherStep(s, f, false))
  {
    match s.flushers[f].pc
    case FClaim => assert FilesRest(s, StepTakeToken(s, f));
    case FPut => assert FilesRest(s, StepPutToken(s, f));
    case FSnapshot => assert FilesRest(s, StepSnapshot(s, f));
  }

  lemma FlusherFiles(s: State, f: nat, write: bool)
    requires f < |s.flushers| && FlusherSafe(s, f) && !WritesOut(s, Flush(f, write))
    ensures FilesRest(s, FlusherStep(s, f, write))
  {
    match s.flushers[f].pc
    case FIdle =>
    case FWoken =>
    case FLook =>
    case FCollect => CollectFiles(s, f);
    case FTry => CollectFiles(s, f);
    case FWrite => HandFiles(s, f, write);
    case FHand => HandFiles(s, f, write);
    case _ => TurnFiles(s, f);
  }

  lemma CleanFiles(s: State, q: nat)
    requires q < |s.syncers| && SyncerSafe(s, q) && (s.syncers[q].pc == SClean || s.syncers[q].pc == SPush)
    ensures FilesRest(s, SyncerStep(s, q))
  {
    if s.syncers[q].pc == SClean {
      assert FilesRest(s, StepClean(s, q));
    } else {
      assert FilesRest(s, StepPushClean(s, q));
    }
  }

  lemma RoundFiles(s: State, q: nat)
    requires q < |s.syncers| && SyncerSafe(s, q) && (s.syncers[q].pc == SLoop || s.syncers[q].pc == SUnlock)
    ensures FilesRest(s, SyncerStep(s, q))
  {
    if s.syncers[q].pc == SUnlock {
      assert FilesRest(s, StepUnlock(s, q));
    } else if s.syncers[q].n > 0 {
      assert FilesRest(s, StepTakeSync(s, q));
    }
  }

  lemma SyncerFiles(s: State, q: nat)
    requires q < |s.syncers| && SyncerSafe(s, q) && s.syncers[q].pc != SSync
    ensures FilesRest(s, SyncerStep(s, q))
  {
    match s.syncers[q].pc
    case SIdle =>
    case SClean => CleanFiles(s, q);
    case SPush => CleanFiles(s, q);
    case _ => RoundFiles(s, q);
  }

  lemma FreeFiles(s: State, b: nat)
    requires b < |s.clean| && s.clean[b] != [] && s.clean[b][0] < |s.inodes|
    ensures FilesRest(s, StepFree(s, b))
  {
  }

  lemma BalloonFiles(s: State, b: nat)
    requires b < |s.clean| && BalloonSafe(s, b)
    ensures FilesRest(s, BalloonStep(s, b))
  {
    BalloonCases(s, b);
    FreeFiles(s, b);
  }

  lemma OtherFiles(s: State, a: Action)
    requires Inv(s) && Guard(s, a) && Safe(s, a) && !WritesOut(s, a) && !Commits(s, a)
    ensures FilesRest(s, Do(s, a))
  {
    match a
    case Begin(v, lbn, data) => assert FilesRest(s, StepBegin(s, v, lbn, data));
    case Write(v) => WriterGoesOn(s, v);
    case Tear(v, junk) =>
    case Flush(f, write) => FlusherFiles(s, f, write);
    case DoSync(q) => SyncerFiles(s, q);
    case Balloon(b) => BalloonFiles(s, b);
  }

  // ------------------------------------------------------------------------------------- crash images

  /** The image without what has been written to k since the last sync(). */
  function Undone(s: State, disk: map<Key, Block>, k: Key): map<Key, Block> {
    if k in s.stable then disk[k := s.stable[k]] else disk - {k}
  }

  lemma PendingMore(s: State, t: State, k: Key, b: Block, disk: map<Key, Block>)
    requires t.stable == s.stable && t.pending == s.pending[k := PendingAt(s, k) + {b}]
    ensures CrashImage(t, disk) <==>
              CrashImage(s, disk) || (k in disk && disk[k] == b && CrashImage(s, Undone(s, disk, k)))
  {
    var u := Undone(s, disk, k);
    assert Lookup(u, k) == Lookup(s.stable, k);
    assert forall x: Key | x != k :: Lookup(u, x) == Lookup(disk, x) && (x in u <==> x in disk);
    if CrashImage(t, disk) {
      forall x: Key ensures Lookup(u, x) == Lookup(s.stable, x) || (x in s.pending && x in u && u[x] in s.pending[x]) {}
    }
  }

  /** Flush thread f is about to write block b to key k. */
  predicate Writing(s: State, f: nat, k: Key, b: Block) {
    && f < |s.flushers| && s.flushers[f].pc == FWrite && At(s, Todo(f)) != [] && At(s, Todo(f))[0] < |s.inodes|
    && var x := s.inodes[At(s, Todo(f))[0]];
       x.block < |s.blocks| && k == KeyOf(x) && b == s.blocks[x.block]
  }

  /** Block b has been written to key k: a crash can leave whatever it could have left before, with b at k or without. */
  ghost predicate Adds(s: State, t: State, k: Key, b: Block, disk: map<Key, Block>) {
    && (CrashImage(t, disk) <==> CrashImage(s, disk) || (k in disk && disk[k] == b && CrashImage(s, Undone(s, disk, k))))
    && forall x: Key :: Lookup(t.cache, x) == if x == k then Some(b) else Lookup(s.cache, x)
  }

  /** A crash can leave what has been written, and nothing else. */
  ghost predicate Settles(s: State, t: State, disk: map<Key, Block>) {
    t.cache == s.cache && (CrashImage(t, disk) <==> forall k: Key :: Lookup(disk, k) == Lookup(s.cache, k))
  }

  lemma WriteAdds(s: State, f: nat, k: Key, b: Block, disk: map<Key, Block>)
    requires Writing(s, f, k, b)
    ensures Adds(s, StepWriteBlock(s, f), k, b, disk)
  {
    var t := StepWriteBlock(s, f);
    assert t.stable == s.stable && t.pending == s.pending[k := PendingAt(s, k) + {b}] && t.cache == s.cache[k := b];
    PendingMore(s, t, k, b, disk);
  }

  lemma WriteIsStep(s: State, a: Action)
    requires WritesOut(s, a) && Guard(s, a) && Safe(s, a)
    ensures exists k: Key, b: Block :: Writing(s, a.f, k, b)
    ensures Do(s, a) == StepWriteBlock(s, a.f)
  {
    var x := s.inodes[At(s, Todo(a.f))[0]];
    assert Writing(s, a.f, KeyOf(x), s.blocks[x.block]);
  }

  lemma CommitSettles(s: State, q: nat, disk: map<Key, Block>)
    requires q < |s.syncers|
    ensures Settles(s, StepCommit(s, q), disk)
  {
  }

  /**
   A write to a file takes effect in the cache, and a crash can then leave whatever it could have left before, and each of
   these with the block written. After a sync() it can leave what has been written, and nothing else. No other step of any
   thread changes either.
   */
  lemma StepImages(s: State, a: Action, disk: map<Key, Block>)
    requires Inv(s) && Guard(s, a)
    ensures Safe(s, a)
    ensures WritesOut(s, a) ==> exists k: Key, b: Block :: Writing(s, a.f, k, b) && Adds(s, Do(s, a), k, b, disk)
    ensures Commits(s, a) ==> Settles(s, Do(s, a), disk)
    ensures !WritesOut(s, a) && !Commits(s, a) ==>
              Do(s, a).cache == s.cache && (CrashImage(Do(s, a), disk) <==> CrashImage(s, disk))
  {
    StepKeeps(s, a);
    if WritesOut(s, a) {
      WriteIsStep(s, a);
      var k: Key, b: Block :| Writing(s, a.f, k, b);
      WriteAdds(s, a.f, k, b, disk);
    } else if Commits(s, a) {
      CommitSettles(s, a.q, disk);
    } else {
      OtherFiles(s, a);
    }
  }
}
