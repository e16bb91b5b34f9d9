/** Every step of a sync thread keeps the invariant. */
module BurstSyncerSteps {
  import opened Queues
  import opened BurstBuffer
  import opened BurstInvariant
  import opened BurstFrames

  /** t is s with new values for q's locals and for inode j (if any), and with longer clean queues. */
  ghost predicate SyncTouches(s: State, t: State, q: nat, j: int) {
    && q < |s.syncers| && WritersRest(s, t, j)
    && t.syncers == s.syncers[q := t.syncers[q]]
    && t.spec == s.spec && t.cache == s.cache && t.stable == s.stable && t.pending == s.pending
    && t.flushers == s.flushers && t.inuse == s.inuse && t.dropped == s.dropped
    && (forall id: QueueId | id != Sync(q) :: At(t, id) == At(s, id))
    && (forall i: nat | i != j :: i in At(s, Sync(q)) <==> i in At(t, Sync(q)))
    && (forall b: nat, i: nat | b < |s.clean| && i in s.clean[b] :: i in t.clean[b])
    && (j >= 0 && (s.inodes[j].place.AtTryLock? || s.inodes[j].place.AtHandOff?) ==> t.inodes[j].place == s.inodes[j].place)
  }

  lemma SyncMoves(s: State, t: State, q: nat, j: int, key: Key)
    requires SyncTouches(s, t, q, j)
    ensures Moves(s, t, S(q), j, key) && CleanMoves(s, t, j) && Focused(s, t, j, key)
  {
  }

  lemma OtherFlusher(s: State, t: State, q: nat, j: int, g: nat)
    requires SyncTouches(s, t, q, j) && g < |s.flushers| && FlusherOk(s, g)
    ensures FlusherOk(t, g)
  {
  }

  lemma OtherSyncer(s: State, t: State, q: nat, j: int, p: nat)
    requires SyncTouches(s, t, q, j) && p < |s.syncers| && p != q && SyncerOk(s, p) && BoxOk(s, Sync(p))
    requires j >= 0 ==> s.inodes[j].place != AtSyncer(p) && s.inodes[j].lock != Cleaning(p)
    ensures SyncerOk(t, p)
  {
    var w := s.syncers[p];
    if w.pc != SIdle && w.pc != SSync {
      forall n | 0 <= n < w.n
        ensures At(t, Sync(p))[n] < |t.inodes| && KeyOf(t.inodes[At(t, Sync(p))[n]]) !in t.pending
      {
        assert At(t, Sync(p))[n] == At(s, Sync(p))[n];
      }
    }
  }

  /** Inode j is at the head of q's queue or in q's hands. */
  predicate SyncOwn(s: State, q: nat, j: int)
    requires q < |s.syncers| && j < |s.inodes|
  {
    && Hands(s, S(q), j)
    && (j >= 0 ==>
          || s.inodes[j].place == In(Sync(q)) || s.inodes[j].place == AtSyncer(q) || s.inodes[j].lock == Cleaning(q))
  }

  lemma SyncKeeps(s: State, t: State, q: nat, j: int)
    requires Inv(s) && SyncTouches(s, t, q, j) && SyncOwn(s, q, j)
    requires j >= 0 ==> InodeOk(t, j) && CleanOk(t, j)
    requires SyncerOk(t, q) && BoxesOk(t) && CleanEntriesOk(t)
    ensures Inv(t)
  {
    var key := if j >= 0 then KeyOf(s.inodes[j]) else Key(0, 0);
    SyncMoves(s, t, q, j, key);
    if j >= 0 { assert InodeOk(s, j); }
    forall i: nat | i < |t.inodes| ensures InodeOk(t, i) && CleanOk(t, i) {
      if i != j {
        assert InodeOk(s, i) && CleanOk(s, i);
        OtherInode(s, t, S(q), j, key, i);
        OtherClean(s, t, S(q), j, key, i);
      }
    }
    forall k ensures KeyOk(t, k) {
      assert KeyOk(s, k);
      SameKey(s, t, q, j, k);
    }
    forall u: nat | u < |t.writers| ensures WriterOk(t, u) {
      assert WriterOk(s, u);
      RestWriter(s, t, j, u);
    }
    forall g: nat | g < |t.flushers| ensures FlusherOk(t, g) {
      assert FlusherOk(s, g);
      OtherFlusher(s, t, q, j, g);
    }
    forall p: nat | p < |t.syncers| ensures SyncerOk(t, p) {
      if p != q {
        assert SyncerOk(s, p) && BoxOk(s, Sync(p));
        OtherSyncer(s, t, q, j, p);
      }
    }
  }

  lemma SameKey(s: State, t: State, q: nat, j: int, k: Key)
    requires SyncTouches(s, t, q, j) && KeyOk(s, k)
    ensures KeyOk(t, k)
  {
  }

  ghost predicate Ready(s: State, q: nat, pc: SyncerPc) {
    Shape(s) && q < |s.syncers| && s.syncers[q].pc == pc && SyncerOk(s, q) && BoxOk(s, Sync(q))
  }

  // ------------------------------------------------------------------------ steps without an inode

  lemma LocalKeeps(s: State, q: nat, w: Syncer)
    requires Inv(s) && q < |s.syncers|
    requires s.syncers[q].pc != SClean && s.syncers[q].pc != SPush && s.syncers[q].pc != SUnlock
    requires w.pc != SClean && w.pc != SPush && w.pc != SUnlock
    requires SyncerOk(SetSyncer(s, q, w), q)
    ensures Inv(SetSyncer(s, q, w)) && Quiet(s, SetSyncer(s, q, w))
  {
    var t := SetSyncer(s, q, w);
    forall id ensures BoxOk(t, id) { assert BoxOk(s, id); }
    SyncKeeps(s, t, q, -1);
  }

  /** sync() makes every file content the operating system serves stable. */
  lemma CommitInode(s: State, q: nat, i: nat)
    requires Shape(s) && q < |s.syncers| && s.syncers[q].pc == SSync && i < |s.inodes| && InodeOk(s, i)
    ensures InodeOk(StepCommit(s, q), i)
  {
  }

  lemma CommitRest(s: State, q: nat, k: Key, v: nat, f: nat, p: nat)
    requires Shape(s) && q < |s.syncers| && s.syncers[q].pc == SSync && p < |s.syncers| && SyncerOk(s, p)
    requires BoxOk(s, Sync(p))
    requires KeyOk(s, k)
    ensures KeyOk(StepCommit(s, q), k)
    ensures v < |s.writers| && WriterOk(s, v) ==> WriterOk(StepCommit(s, q), v)
    ensures f < |s.flushers| && FlusherOk(s, f) ==> FlusherOk(StepCommit(s, q), f)
    ensures SyncerOk(StepCommit(s, q), p)
  {
    var t := StepCommit(s, q);
    if s.syncers[p].pc != SIdle {
      forall n | 0 <= n < s.syncers[p].n
        ensures At(t, Sync(p))[n] < |t.inodes| && KeyOf(t.inodes[At(t, Sync(p))[n]]) !in t.pending
      {
        assert At(s, Sync(p))[n] in At(s, Sync(p));
      }
    }
  }

  lemma CommitKeeps(s: State, q: nat)
    requires Inv(s) && q < |s.syncers| && s.syncers[q].pc == SSync
    ensures Inv(StepCommit(s, q)) && Quiet(s, StepCommit(s, q))
  {
    var t := StepCommit(s, q);
    assert SyncerOk(s, q) && BoxOk(s, Sync(q)) && KeyOk(s, Key(0, 0));
    forall i: nat | i < |t.inodes| ensures InodeOk(t, i) && CleanOk(t, i) {
      assert InodeOk(s, i) && CleanOk(s, i);
      CommitInode(s, q, i);
    }
    forall k ensures KeyOk(t, k) { assert KeyOk(s, k); CommitRest(s, q, k, 0, 0, q); }
    forall v: nat | v < |t.writers| ensures WriterOk(t, v) { assert WriterOk(s, v); CommitRest(s, q, Key(0, 0), v, 0, q); }
    forall f: nat | f < |t.flushers| ensures FlusherOk(t, f) { assert FlusherOk(s, f); CommitRest(s, q, Key(0, 0), 0, f, q); }
    forall p: nat | p < |t.syncers| ensures SyncerOk(t, p) {
      assert SyncerOk(s, p) && BoxOk(s, Sync(p));
      CommitRest(s, q, Key(0, 0), 0, 0, p);
    }
    forall id ensures BoxOk(t, id) { assert BoxOk(s, id); }
  }

  // --------------------------------------------------------------------------- steps with an inode

  lemma TakeSyncMoves(s: State, q: nat, i: nat)
    requires Ready(s, q, SLoop) && s.syncers[q].n > 0 && BoxesOk(s) && i < |s.inodes| && InodeOk(s, i)
    requires At(s, Sync(q)) != [] && At(s, Sync(q))[0] == i
    ensures var t := StepTakeSync(s, q); SyncTouches(s, t, q, i) && BoxesOk(t)
  {
    PopBoxes(s, StepTakeSync(s, q), i, Sync(q));
  }

  lemma TakeSyncDone(s: State, q: nat, i: nat)
    requires Ready(s, q, SLoop) && s.syncers[q].n > 0 && i < |s.inodes| && InodeOk(s, i)
    requires At(s, Sync(q)) != [] && At(s, Sync(q))[0] == i && s.inodes[i].place == In(Sync(q))
    ensures var t := StepTakeSync(s, q); SyncOwn(s, q, i) && InodeOk(t, i) && CleanOk(t, i) && SyncerOk(t, q)
  {
    var t := StepTakeSync(s, q);
    PopFacts(At(s, Sync(q)));
    forall n | 0 <= n < t.syncers[q].n
      ensures At(t, Sync(q))[n] < |t.inodes| && KeyOf(t.inodes[At(t, Sync(q))[n]]) !in t.pending
    {
      assert At(t, Sync(q))[n] == At(s, Sync(q))[n + 1];
    }
  }

  lemma CleanDone(s: State, q: nat, i: nat)
    requires Ready(s, q, SClean) && i == s.syncers[q].cur && i < |s.inodes| && InodeOk(s, i)
    ensures var t := StepClean(s, q);
            && SyncTouches(s, t, q, i) && SyncOwn(s, q, i) && InodeOk(t, i) && CleanOk(t, i) && SyncerOk(t, q)
  {
    StillSettled(s, StepClean(s, q), q, i);
  }

  /** Changing inode i, which is not in q's queue, leaves the keys of that queue settled. */
  lemma StillSettled(s: State, t: State, q: nat, i: nat)
    requires Shape(s) && q < |s.syncers| && SyncerOk(s, q) && BoxOk(s, Sync(q)) && s.syncers[q].pc != SIdle
    requires s.syncers[q].pc != SSync
    requires i < |s.inodes| && |t.inodes| == |s.inodes| && t.inodes == s.inodes[i := t.inodes[i]]
    requires KeyOf(t.inodes[i]) == KeyOf(s.inodes[i]) && t.queues == s.queues && t.pending == s.pending
    ensures forall n | 0 <= n < s.syncers[q].n ::
              n < |At(t, Sync(q))| && At(t, Sync(q))[n] < |t.inodes| && KeyOf(t.inodes[At(t, Sync(q))[n]]) !in t.pending
  {
    assert At(t, Sync(q)) == At(s, Sync(q)) && s.syncers[q].n <= |At(s, Sync(q))|;
    forall n | 0 <= n < s.syncers[q].n
      ensures n < |At(t, Sync(q))| && At(t, Sync(q))[n] < |t.inodes| && KeyOf(t.inodes[At(t, Sync(q))[n]]) !in t.pending
    {
      assert At(t, Sync(q))[n] == At(s, Sync(q))[n];
    }
  }

  lemma PushCleanDone(s: State, q: nat, i: nat)
    requires Ready(s, q, SPush) && i == s.syncers[q].cur && i < |s.inodes| && InodeOk(s, i)
    ensures var t := StepPushClean(s, q);
            && SyncTouches(s, t, q, i) && SyncOwn(s, q, i) && InodeOk(t, i) && CleanOk(t, i) && SyncerOk(t, q)
  {
    var t := StepPushClean(s, q);
    StillSettled(s, t, q, i);
    var c := s.cleanIdx % NUM_BALLOON;
    assert i in t.clean[c];
  }

  lemma UnlockDone(s: State, q: nat, i: nat)
    requires Ready(s, q, SUnlock) && i == s.syncers[q].cur && i < |s.inodes| && InodeOk(s, i) && CleanOk(s, i)
    ensures var t := StepUnlock(s, q);
            && SyncTouches(s, t, q, i) && SyncOwn(s, q, i) && InodeOk(t, i) && CleanOk(t, i) && SyncerOk(t, q)
  {
    StillSettled(s, StepUnlock(s, q), q, i);
  }

  // -------------------------------------------------------------------------------------- all steps

  lemma TakeSyncKeeps(s: State, q: nat)
    requires Inv(s) && q < |s.syncers| && s.syncers[q].pc == SLoop && s.syncers[q].n > 0
    ensures SyncerSafe(s, q) && Inv(StepTakeSync(s, q)) && Quiet(s, StepTakeSync(s, q))
  {
    assert SyncerOk(s, q) && BoxOk(s, Sync(q));
    var i := At(s, Sync(q))[0];
    assert i in At(s, Sync(q));
    assert InodeOk(s, i);
    TakeSyncMoves(s, q, i);
    TakeSyncDone(s, q, i);
    SyncKeeps(s, StepTakeSync(s, q), q, i);
  }

  lemma CleanKeeps(s: State, q: nat)
    requires Inv(s) && q < |s.syncers| && s.syncers[q].pc == SClean
    ensures SyncerSafe(s, q) && Inv(StepClean(s, q)) && Quiet(s, StepClean(s, q))
  {
    assert SyncerOk(s, q) && BoxOk(s, Sync(q));
    var i := s.syncers[q].cur;
    assert InodeOk(s, i);
    CleanDone(s, q, i);
    forall id ensures BoxOk(StepClean(s, q), id) { assert BoxOk(s, id); }
    SyncKeeps(s, StepClean(s, q), q, i);
  }

  lemma PushCleanKeeps(s: State, q: nat)
    requires Inv(s) && q < |s.syncers| && s.syncers[q].pc == SPush
    ensures SyncerSafe(s, q) && Inv(StepPushClean(s, q)) && Quiet(s, StepPushClean(s, q))
  {
    assert SyncerOk(s, q) && BoxOk(s, Sync(q));
    var i := s.syncers[q].cur;
    assert InodeOk(s, i);
    PushCleanDone(s, q, i);
    forall id ensures BoxOk(StepPushClean(s, q), id) { assert BoxOk(s, id); }
    SyncKeeps(s, StepPushClean(s, q), q, i);
  }

  lemma UnlockKeeps(s: State, q: nat)
    requires Inv(s) && q < |s.syncers| && s.syncers[q].pc == SUnlock
    ensures SyncerSafe(s, q) && Inv(StepUnlock(s, q)) && Quiet(s, StepUnlock(s, q))
  {
    assert SyncerOk(s, q) && BoxOk(s, Sync(q));
    var i := s.syncers[q].cur;
    assert InodeOk(s, i) && CleanOk(s, i);
    UnlockDone(s, q, i);
    forall id ensures BoxOk(StepUnlock(s, q), id) { assert BoxOk(s, id); }
    SyncKeeps(s, StepUnlock(s, q), q, i);
  }

  lemma SyncerKeeps(s: State, q: nat)
    requires Inv(s) && q < |s.syncers| && SyncerGuard(s, q)
    ensures SyncerSafe(s, q) && Inv(SyncerStep(s, q)) && Quiet(s, SyncerStep(s, q))
  {
    assert SyncerOk(s, q);
    var w := s.syncers[q];
    match w.pc
    case SIdle => LocalKeeps(s, q, w.(pc := SSync, n := |At(s, Sync(q))|));
    case SSync => CommitKeeps(s, q);
    case SLoop => if w.n == 0 { LocalKeeps(s, q, w.(pc := SIdle)); } else { TakeSyncKeeps(s, q); }
    case SClean => CleanKeeps(s, q);
    case SPush => PushCleanKeeps(s, q);
    case SUnlock => UnlockKeeps(s, q);
  }
}
