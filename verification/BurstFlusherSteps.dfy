/** Every step of a flush thread keeps the invariant. */
module BurstFlusherSteps {
  import opened Queues
  import opened BurstBuffer
  import opened BurstInvariant
  import opened BurstFrames

  /** t is s with new values for f's locals, for inode j (if any), and for the file at `key`. */
  ghost predicate FlowTouches(s: State, t: State, f: nat, j: int, key: Key) {
    && f < |s.flushers| && |t.flushers| == |s.flushers| && WritersRest(s, t, j)
    && t.flushers == s.flushers[f := t.flushers[f]] && KeepsVolume(s, t, f)
    && t.spec == s.spec && t.stable == s.stable && t.clean == s.clean && t.syncers == s.syncers && t.dropped == s.dropped
    && (t.cache == s.cache || (key in t.cache && t.cache == s.cache[key := t.cache[key]]))
    && (t.pending == s.pending || (key in t.pending && t.pending == s.pending[key := t.pending[key]]))
    && (forall id: QueueId, i: nat | i != j :: i in At(s, id) <==> i in At(t, id))
  }

  /** Other threads' queues are as before, up to longer dirty and sync queues. */
  ghost predicate QueuesFor(s: State, t: State, f: nat)
    requires f < |s.flushers|
  {
    && (forall g: nat | g != f :: At(t, Todo(g)) == At(s, Todo(g)) && At(t, Done(g)) == At(s, Done(g)))
    && (forall v: nat | v != s.flushers[f].vol || !HasToken(s.flushers[f].pc) :: At(t, Dirty(v)) == At(s, Dirty(v)))
    && (forall q: nat :: At(s, Sync(q)) <= At(t, Sync(q)))
    && (forall r: nat :: At(t, Free(r)) == At(s, Free(r)))
  }

  lemma FlowMoves(s: State, t: State, f: nat, j: int, key: Key)
    requires FlowTouches(s, t, f, j, key)
    ensures Moves(s, t, F(f), j, key) && CleanMoves(s, t, j)
  {
  }

  lemma OtherFlusher(s: State, t: State, f: nat, j: int, key: Key, g: nat)
    requires FlowTouches(s, t, f, j, key) && QueuesFor(s, t, f) && TokensOk(s)
    requires g < |s.flushers| && g != f && FlusherOk(s, g)
    requires !HasToken(s.flushers[f].pc) || !HasToken(s.flushers[g].pc) || s.flushers[f].vol != s.flushers[g].vol
    requires j >= 0 ==> s.inodes[j].place != AtTryLock(g) && s.inodes[j].place != AtHandOff(g)
    ensures FlusherOk(t, g)
  {
  }

  lemma OtherSyncer(s: State, t: State, f: nat, j: int, key: Key, q: nat)
    requires FlowTouches(s, t, f, j, key) && QueuesFor(s, t, f)
    requires q < |s.syncers| && SyncerOk(s, q) && BoxOk(s, Sync(q))
    requires j >= 0 ==> s.inodes[j].place != AtSyncer(q) && s.inodes[j].place != In(Sync(q)) && !s.inodes[j].lock.Cleaning?
    requires t.pending == s.pending || forall i | i in At(s, Sync(q)) :: i < |s.inodes| && KeyOf(s.inodes[i]) != key
    ensures SyncerOk(t, q)
  {
    var w := s.syncers[q];
    if w.pc != SIdle && w.pc != SSync {
      forall n | 0 <= n < w.n
        ensures At(t, Sync(q))[n] < |t.inodes| && KeyOf(t.inodes[At(t, Sync(q))[n]]) !in t.pending
      {
        assert At(t, Sync(q))[n] == At(s, Sync(q))[n];
        assert At(s, Sync(q))[n] in At(s, Sync(q));
      }
    }
  }

  /** The step's inode, if any, is attached at `key`; otherwise the step leaves the files alone. */
  ghost predicate FlowOwn(s: State, t: State, f: nat, j: int, key: Key)
    requires f < |s.flushers| && j < |s.inodes|
  {
    && Hands(s, F(f), j)
    && (if j >= 0 then key == KeyOf(s.inodes[j]) else t.cache == s.cache && t.pending == s.pending)
    && (j >= 0 ==>
          && (s.inodes[j].place.In? || s.inodes[j].place == AtTryLock(f) || s.inodes[j].place == AtHandOff(f))
          && !(s.inodes[j].place.In? && s.inodes[j].place.id.Sync?)
          && !s.inodes[j].lock.Cleaning? && Attached(s.inodes[j]))
  }

  lemma FlowKeepsTables(s: State, t: State, f: nat, j: int, key: Key)
    requires Inv(s) && FlowTouches(s, t, f, j, key) && FlowOwn(s, t, f, j, key)
    requires j >= 0 ==> InodeOk(t, j) && CleanOk(t, j)
    requires KeyOk(t, key)
    ensures forall i: nat | i < |t.inodes| :: InodeOk(t, i) && CleanOk(t, i)
    ensures forall k: Key :: KeyOk(t, k)
  {
    FlowMoves(s, t, f, j, key);
    if j >= 0 { assert InodeOk(s, j); }
    forall i: nat | i < |t.inodes| ensures InodeOk(t, i) && CleanOk(t, i) {
      if i != j {
        assert InodeOk(s, i) && CleanOk(s, i);
        OtherInode(s, t, F(f), j, key, i);
        OtherClean(s, t, F(f), j, key, i);
      }
    }
    forall k ensures KeyOk(t, k) {
      assert KeyOk(s, k);
      if k != key { OtherKey(s, t, F(f), j, key, k); }
    }
  }

  lemma FlowKeepsThreads(s: State, t: State, f: nat, j: int, key: Key)
    requires Inv(s) && FlowTouches(s, t, f, j, key) && FlowOwn(s, t, f, j, key) && QueuesFor(s, t, f)
    requires FlusherOk(t, f)
    ensures forall u: nat | u < |t.writers| :: WriterOk(t, u)
    ensures forall g: nat | g < |t.flushers| :: FlusherOk(t, g)
    ensures forall q: nat | q < |t.syncers| :: SyncerOk(t, q)
  {
    forall u: nat | u < |t.writers| ensures WriterOk(t, u) {
      assert WriterOk(s, u);
      RestWriter(s, t, j, u);
    }
    forall g: nat | g < |t.flushers| ensures FlusherOk(t, g) {
      if g != f {
        assert FlusherOk(s, g);
        OtherFlusher(s, t, f, j, key, g);
      }
    }
    forall q: nat | q < |t.syncers| ensures SyncerOk(t, q) {
      assert SyncerOk(s, q) && BoxOk(s, Sync(q));
      if t.pending != s.pending {
        assert InodeOk(s, j);
        forall i | i in At(s, Sync(q)) ensures i < |s.inodes| && KeyOf(s.inodes[i]) != key {
          assert InodeOk(s, i);
        }
      }
      OtherSyncer(s, t, f, j, key, q);
    }
  }

  lemma FlowKeeps(s: State, t: State, f: nat, j: int, key: Key)
    requires Inv(s) && FlowTouches(s, t, f, j, key) && FlowOwn(s, t, f, j, key) && QueuesFor(s, t, f)
    requires j >= 0 ==> InodeOk(t, j) && CleanOk(t, j)
    requires KeyOk(t, key) && FlusherOk(t, f) && TokensOk(t) && BoxesOk(t)
    ensures Inv(t)
  {
    FlowKeepsTables(s, t, f, j, key);
    FlowKeepsThreads(s, t, f, j, key);
  }

  ghost predicate Ready(s: State, f: nat, pc: FlusherPc) {
    Shape(s) && f < |s.flushers| && s.flushers[f].pc == pc && FlusherOk(s, f)
  }

  // ------------------------------------------------------------------------ steps without an inode

  /** A step that changes only f's locals, but not its volume. */
  lemma LocalKeeps(s: State, f: nat, w: Flusher)
    requires Inv(s) && f < |s.flushers| && s.flushers[f].pc != FTry && s.flushers[f].pc != FHand
    requires w.vol == s.flushers[f].vol && w.pc != FTry && w.pc != FHand && (HasToken(w.pc) <==> HasToken(s.flushers[f].pc))
    requires FlusherOk(SetFlusher(s, f, w), f)
    ensures Inv(SetFlusher(s, f, w)) && Quiet(s, SetFlusher(s, f, w))
  {
    var t, key := SetFlusher(s, f, w), Key(0, 0);
    assert KeyOk(s, key);
    forall id ensures BoxOk(t, id) { assert BoxOk(s, id); }
    FlowKeeps(s, t, f, -1, key);
  }

  lemma TakeTokenKeeps(s: State, f: nat)
    requires Inv(s) && f < |s.flushers| && s.flushers[f].pc == FClaim && s.inuse != []
    ensures Inv(StepTakeToken(s, f)) && Quiet(s, StepTakeToken(s, f))
  {
    var t, key := StepTakeToken(s, f), Key(0, 0);
    assert KeyOk(s, key) && FlusherOk(s, f);
    forall id ensures BoxOk(t, id) { assert BoxOk(s, id); }
    PopFacts(s.inuse);
    FlowKeeps(s, t, f, -1, key);
  }

  lemma PutTokenTokens(s: State, f: nat)
    requires TokensOk(s) && f < |s.flushers| && s.flushers[f].pc == FPut && FlusherOk(s, f)
    ensures TokensOk(StepPutToken(s, f))
  {
    PushFacts(s.inuse, s.flushers[f].vol);
  }

  lemma PutTokenKeeps(s: State, f: nat)
    requires Inv(s) && f < |s.flushers| && s.flushers[f].pc == FPut
    ensures Inv(StepPutToken(s, f)) && Quiet(s, StepPutToken(s, f))
  {
    var t, key := StepPutToken(s, f), Key(0, 0);
    assert KeyOk(s, key) && FlusherOk(s, f);
    forall id ensures BoxOk(t, id) { assert BoxOk(s, id); }
    PutTokenTokens(s, f);
    FlowKeeps(s, t, f, -1, key);
  }

  // --------------------------------------------------------------------------- steps with an inode

  /** The step's effect on inode j and its key. */
  ghost predicate FlowDone(s: State, t: State, f: nat, j: nat)
    requires f < |s.flushers| && j < |s.inodes|
  {
    && FlowOwn(s, t, f, j, KeyOf(s.inodes[j])) && j < |t.inodes| && InodeOk(t, j) && CleanOk(t, j)
  }

  lemma GrabMoves(s: State, f: nat, i: nat)
    requires Ready(s, f, FCollect) && BoxesOk(s) && i < |s.inodes| && FormOk(s.inodes[i])
    requires At(s, Dirty(s.flushers[f].vol)) != [] && At(s, Dirty(s.flushers[f].vol))[0] == i
    ensures FlowTouches(s, StepGrab(s, f), f, i, KeyOf(s.inodes[i])) && QueuesFor(s, StepGrab(s, f), f)
    ensures BoxesOk(StepGrab(s, f))
  {
    assert BoxOk(s, Dirty(s.flushers[f].vol));
    PopBoxes(s, StepGrab(s, f), i, Dirty(s.flushers[f].vol));
  }

  lemma GrabDone(s: State, f: nat, i: nat)
    requires Ready(s, f, FCollect) && s.flushers[f].got < s.flushers[f].ws && i < |s.inodes| && InodeOk(s, i)
    requires At(s, Dirty(s.flushers[f].vol)) != [] && At(s, Dirty(s.flushers[f].vol))[0] == i
    requires s.inodes[i].place == In(Dirty(s.flushers[f].vol)) && KeyOk(s, KeyOf(s.inodes[i]))
    ensures var t := StepGrab(s, f); FlowDone(s, t, f, i) && KeyOk(t, KeyOf(s.inodes[i])) && FlusherOk(t, f)
  {
  }

  lemma CollectMoves(s: State, f: nat, i: nat)
    requires Ready(s, f, FTry) && BoxesOk(s) && i == s.flushers[f].cur && i < |s.inodes| && FormOk(s.inodes[i])
    requires s.inodes[i].place == AtTryLock(f) && s.inodes[i].lock == Nobody
    ensures FlowTouches(s, StepCollect(s, f), f, i, KeyOf(s.inodes[i])) && QueuesFor(s, StepCollect(s, f), f)
    ensures BoxesOk(StepCollect(s, f))
  {
    PushBoxes(s, StepCollect(s, f), i, Todo(f));
  }

  lemma CollectDone(s: State, f: nat, i: nat)
    requires Ready(s, f, FTry) && i == s.flushers[f].cur && i < |s.inodes| && InodeOk(s, i)
    requires s.inodes[i].lock == Nobody
    requires s.inodes[i].place == AtTryLock(f) && KeyOk(s, KeyOf(s.inodes[i]))
    ensures var t := StepCollect(s, f); FlowDone(s, t, f, i) && KeyOk(t, KeyOf(s.inodes[i])) && FlusherOk(t, f)
  {
  }

  lemma ReturnMoves(s: State, f: nat, i: nat)
    requires Ready(s, f, FTry) && BoxesOk(s) && i == s.flushers[f].cur && i < |s.inodes| && FormOk(s.inodes[i])
    requires s.inodes[i].place == AtTryLock(f)
    ensures FlowTouches(s, StepReturn(s, f), f, i, KeyOf(s.inodes[i])) && QueuesFor(s, StepReturn(s, f), f)
    ensures BoxesOk(StepReturn(s, f))
  {
    PushBoxes(s, StepReturn(s, f), i, Dirty(s.flushers[f].vol));
  }

  lemma ReturnDone(s: State, f: nat, i: nat)
    requires Ready(s, f, FTry) && i == s.flushers[f].cur && i < |s.inodes| && InodeOk(s, i)
    requires s.inodes[i].place == AtTryLock(f) && KeyOk(s, KeyOf(s.inodes[i]))
    ensures var t := StepReturn(s, f); FlowDone(s, t, f, i) && KeyOk(t, KeyOf(s.inodes[i])) && FlusherOk(t, f)
  {
  }

  lemma WriteBlockBoxes(s: State, f: nat, i: nat)
    requires Ready(s, f, FWrite) && BoxesOk(s) && i < |s.inodes| && s.inodes[i].block < |s.blocks|
    requires At(s, Todo(f)) != [] && At(s, Todo(f))[0] == i
    ensures BoxesOk(StepWriteBlock(s, f))
    ensures forall id: QueueId, k: nat | k != i :: k in At(s, id) <==> k in At(StepWriteBlock(s, f), id)
  {
    assert BoxOk(s, Todo(f));
    var mid := SetPlace(PopQ(s, Todo(f)), i, Resting);
    PopBoxes(s, mid, i, Todo(f));
    PushBoxes(mid, StepWriteBlock(s, f), i, Done(f));
  }

  lemma WriteBlockMoves(s: State, f: nat, i: nat)
    requires Ready(s, f, FWrite) && BoxesOk(s) && i < |s.inodes| && FormOk(s.inodes[i])
    requires s.inodes[i].block < |s.blocks|
    requires At(s, Todo(f)) != [] && At(s, Todo(f))[0] == i
    ensures FlowTouches(s, StepWriteBlock(s, f), f, i, KeyOf(s.inodes[i])) && QueuesFor(s, StepWriteBlock(s, f), f)
    ensures BoxesOk(StepWriteBlock(s, f))
  {
    assert BoxOk(s, Todo(f));
    assert i in At(s, Todo(f));
    WriteBlockBoxes(s, f, i);
  }

  lemma WriteBlockDone(s: State, f: nat, i: nat)
    requires Ready(s, f, FWrite) && i < |s.inodes| && InodeOk(s, i)
    requires At(s, Todo(f)) != [] && At(s, Todo(f))[0] == i
    requires s.inodes[i].place == In(Todo(f)) && KeyOk(s, KeyOf(s.inodes[i]))
    ensures var t := StepWriteBlock(s, f); FlowDone(s, t, f, i) && KeyOk(t, KeyOf(s.inodes[i])) && FlusherOk(t, f)
  {
  }

  lemma MarkSyncMoves(s: State, f: nat, i: nat)
    requires Ready(s, f, FWrite) && BoxesOk(s) && i < |s.inodes| && FormOk(s.inodes[i])
    requires At(s, Done(f)) != [] && At(s, Done(f))[0] == i
    ensures FlowTouches(s, StepMarkSync(s, f), f, i, KeyOf(s.inodes[i])) && QueuesFor(s, StepMarkSync(s, f), f)
    ensures BoxesOk(StepMarkSync(s, f))
  {
    assert BoxOk(s, Done(f));
    PopBoxes(s, StepMarkSync(s, f), i, Done(f));
  }

  lemma MarkSyncDone(s: State, f: nat, i: nat)
    requires Ready(s, f, FWrite) && i < |s.inodes| && InodeOk(s, i)
    requires At(s, Done(f)) != [] && At(s, Done(f))[0] == i
    requires s.inodes[i].place == In(Done(f)) && KeyOk(s, KeyOf(s.inodes[i]))
    ensures var t := StepMarkSync(s, f); FlowDone(s, t, f, i) && KeyOk(t, KeyOf(s.inodes[i])) && FlusherOk(t, f)
  {
  }

  lemma HandOffMoves(s: State, f: nat, i: nat)
    requires Ready(s, f, FHand) && BoxesOk(s) && i == s.flushers[f].cur && i < |s.inodes| && FormOk(s.inodes[i])
    requires s.inodes[i].place == AtHandOff(f)
    ensures FlowTouches(s, StepHandOff(s, f), f, i, KeyOf(s.inodes[i])) && QueuesFor(s, StepHandOff(s, f), f)
    ensures BoxesOk(StepHandOff(s, f))
  {
    PushBoxes(s, StepHandOff(s, f), i, Sync(s.syncIdx % NUM_SYNCER));
  }

  lemma HandOffDone(s: State, f: nat, i: nat)
    requires Ready(s, f, FHand) && i == s.flushers[f].cur && i < |s.inodes| && InodeOk(s, i)
    requires s.inodes[i].place == AtHandOff(f) && KeyOk(s, KeyOf(s.inodes[i]))
    ensures var t := StepHandOff(s, f); FlowDone(s, t, f, i) && KeyOk(t, KeyOf(s.inodes[i])) && FlusherOk(t, f)
  {
  }

  // -------------------------------------------------------------------------------------- all steps

  /** The inode at the head of a queue, with what the invariant says of it. */
  lemma HeadOf(s: State, id: QueueId)
    requires Inv(s) && At(s, id) != []
    ensures At(s, id)[0] < |s.inodes| && InodeOk(s, At(s, id)[0]) && s.inodes[At(s, id)[0]].place == In(id)
    ensures KeyOk(s, KeyOf(s.inodes[At(s, id)[0]]))
  {
    assert BoxOk(s, id);
    assert At(s, id)[0] in At(s, id);
  }

  lemma InHandOf(s: State, f: nat)
    requires Inv(s) && f < |s.flushers| && (s.flushers[f].pc == FTry || s.flushers[f].pc == FHand)
    ensures FlusherOk(s, f) && s.flushers[f].cur < |s.inodes|
    ensures InodeOk(s, s.flushers[f].cur) && KeyOk(s, KeyOf(s.inodes[s.flushers[f].cur]))
  {
    assert FlusherOk(s, f);
  }

  lemma GrabKeeps(s: State, f: nat)
    requires Inv(s) && f < |s.flushers| && s.flushers[f].pc == FCollect && s.flushers[f].got < s.flushers[f].ws
    requires FlusherSafe(s, f)
    ensures Inv(StepGrab(s, f)) && Quiet(s, StepGrab(s, f))
  {
    var id := Dirty(s.flushers[f].vol);
    HeadOf(s, id);
    assert FlusherOk(s, f);
    var i := At(s, id)[0];
    GrabMoves(s, f, i);
    GrabDone(s, f, i);
    FlowKeeps(s, StepGrab(s, f), f, i, KeyOf(s.inodes[i]));
  }

  lemma CollectKeeps(s: State, f: nat)
    requires Inv(s) && f < |s.flushers| && s.flushers[f].pc == FTry && FlusherSafe(s, f)
    requires s.inodes[s.flushers[f].cur].lock == Nobody
    ensures Inv(StepCollect(s, f)) && Quiet(s, StepCollect(s, f))
  {
    InHandOf(s, f);
    var i := s.flushers[f].cur;
    CollectMoves(s, f, i);
    CollectDone(s, f, i);
    FlowKeeps(s, StepCollect(s, f), f, i, KeyOf(s.inodes[i]));
  }

  lemma ReturnKeeps(s: State, f: nat)
    requires Inv(s) && f < |s.flushers| && s.flushers[f].pc == FTry && FlusherSafe(s, f)
    ensures Inv(StepReturn(s, f)) && Quiet(s, StepReturn(s, f))
  {
    InHandOf(s, f);
    var i := s.flushers[f].cur;
    ReturnMoves(s, f, i);
    ReturnDone(s, f, i);
    FlowKeeps(s, StepReturn(s, f), f, i, KeyOf(s.inodes[i]));
  }

  lemma WriteBlockKeeps(s: State, f: nat)
    requires Inv(s) && f < |s.flushers| && s.flushers[f].pc == FWrite && FlusherSafe(s, f) && At(s, Todo(f)) != []
    ensures Inv(StepWriteBlock(s, f)) && Quiet(s, StepWriteBlock(s, f))
  {
    HeadOf(s, Todo(f));
    assert FlusherOk(s, f);
    var i := At(s, Todo(f))[0];
    WriteBlockMoves(s, f, i);
    WriteBlockDone(s, f, i);
    FlowKeeps(s, StepWriteBlock(s, f), f, i, KeyOf(s.inodes[i]));
  }

  lemma MarkSyncKeeps(s: State, f: nat)
    requires Inv(s) && f < |s.flushers| && s.flushers[f].pc == FWrite && FlusherSafe(s, f) && At(s, Done(f)) != []
    ensures Inv(StepMarkSync(s, f)) && Quiet(s, StepMarkSync(s, f))
  {
    HeadOf(s, Done(f));
    assert FlusherOk(s, f);
    var i := At(s, Done(f))[0];
    MarkSyncMoves(s, f, i);
    MarkSyncDone(s, f, i);
    FlowKeeps(s, StepMarkSync(s, f), f, i, KeyOf(s.inodes[i]));
  }

  lemma HandOffKeeps(s: State, f: nat)
    requires Inv(s) && f < |s.flushers| && s.flushers[f].pc == FHand && FlusherSafe(s, f)
    ensures Inv(StepHandOff(s, f)) && Quiet(s, StepHandOff(s, f))
  {
    InHandOf(s, f);
    var i := s.flushers[f].cur;
    HandOffMoves(s, f, i);
    HandOffDone(s, f, i);
    FlowKeeps(s, StepHandOff(s, f), f, i, KeyOf(s.inodes[i]));
  }

  lemma FlusherIsSafe(s: State, f: nat)
    requires Inv(s) && f < |s.flushers| && FlusherGuard(s, f)
    ensures FlusherSafe(s, f)
  {
    assert FlusherOk(s, f);
    var w := s.flushers[f];
    if w.pc == FCollect && w.got < w.ws { HeadOf(s, Dirty(w.vol)); }
    if w.pc == FWrite && At(s, Todo(f)) != [] { HeadOf(s, Todo(f)); }
    if w.pc == FWrite && At(s, Done(f)) != [] { HeadOf(s, Done(f)); }
  }

  lemma WritingKeeps(s: State, f: nat, write: bool)
    requires Inv(s) && f < |s.flushers| && s.flushers[f].pc == FWrite && FlusherSafe(s, f)
    ensures Inv(FlusherStep(s, f, write)) && Quiet(s, FlusherStep(s, f, write))
  {
    if write && At(s, Todo(f)) != [] {
      WriteBlockKeeps(s, f);
    } else if At(s, Done(f)) != [] {
      MarkSyncKeeps(s, f);
    } else if At(s, Todo(f)) == [] {
      assert FlusherOk(s, f);
      LocalKeeps(s, f, s.flushers[f].(pc := FPut));
    }
  }

  /** The tests of flush_thread_func before it dequeues a volume. */
  lemma WakingKeeps(s: State, f: nat)
    requires Inv(s) && f < |s.flushers| && (s.flushers[f].pc == FIdle || s.flushers[f].pc == FWoken)
    ensures Inv(FlusherStep(s, f, false)) && Quiet(s, FlusherStep(s, f, false))
  {
    assert FlusherOk(s, f);
    LocalKeeps(s, f, FlusherStep(s, f, false).flushers[f]);
  }

  lemma PreparingKeeps(s: State, f: nat)
    requires Inv(s) && f < |s.flushers| && FlusherSafe(s, f)
    requires s.flushers[f].pc == FLook || s.flushers[f].pc == FSnapshot || s.flushers[f].pc == FCollect
    ensures Inv(FlusherStep(s, f, false)) && Quiet(s, FlusherStep(s, f, false))
  {
    assert FlusherOk(s, f);
    var w := s.flushers[f];
    match w.pc
    case FLook => LocalKeeps(s, f, w.(pc := if |At(s, Dirty(w.vol))| > 1 then FSnapshot else FPut));
    case FSnapshot => LocalKeeps(s, f, StepSnapshot(s, f).flushers[f]);
    case FCollect => if w.got < w.ws { GrabKeeps(s, f); } else { LocalKeeps(s, f, w.(pc := FWrite)); }
    case _ => assert false;
  }

  lemma FlusherKeeps(s: State, f: nat, write: bool)
    requires Inv(s) && f < |s.flushers| && FlusherGuard(s, f)
    ensures FlusherSafe(s, f) && Inv(FlusherStep(s, f, write)) && Quiet(s, FlusherStep(s, f, write))
  {
    FlusherIsSafe(s, f);
    match s.flushers[f].pc
    case FIdle => WakingKeeps(s, f);
    case FWoken => WakingKeeps(s, f);
    case FClaim => TakeTokenKeeps(s, f);
    case FTry => if s.inodes[s.flushers[f].cur].lock == Nobody { CollectKeeps(s, f); } else { ReturnKeeps(s, f); }
    case FWrite => WritingKeeps(s, f, write);
    case FHand => HandOffKeeps(s, f);
    case FPut => PutTokenKeeps(s, f);
    case _ => PreparingKeeps(s, f);
  }

  /** A collecting flush thread never waits: its volume's dirty queue has more inodes than it will still take. */
  lemma CollectNeverWaits(s: State, f: nat)
    requires Inv(s) && f < |s.flushers| && s.flushers[f].pc == FCollect
    ensures FlusherGuard(s, f)
  {
    assert FlusherOk(s, f);
  }
}
