/** Every step of a writer keeps the invariant. */
module BurstWriterSteps {
  import opened Queues
  import opened BurstBuffer
  import opened BurstInvariant
  import opened BurstFrames

  /** The part of the invariant that speaks of writer v, its key and its inode. */
  ghost predicate Ready(s: State, v: nat, pc: WriterPc) {
    && Shape(s) && v < |s.writers| && s.writers[v].pc == pc
    && WriterOk(s, v) && KeyOk(s, WKey(s, v))
    && (!EmptyHanded(pc) && s.writers[v].i < |s.inodes| ==> InodeOk(s, s.writers[v].i))
  }

  /** The part of it that speaks of writer v and its inode. */
  ghost predicate InodeReady(s: State, v: nat, pc: WriterPc) {
    && Shape(s) && v < |s.writers| && s.writers[v].pc == pc && WriterOk(s, v)
    && (s.writers[v].i < |s.inodes| ==> InodeOk(s, s.writers[v].i))
  }

  /** How a writer's step changes the free queues' counters and the writer's own dealings with them. */
  predicate FreeMoves(s: State, t: State, v: nat)
    requires v < |s.writers|
  {
    var pc := s.writers[v].pc;
    && |t.inodes| == |s.inodes| && |t.spare| == |s.spare|
    && |t.writers| == |s.writers| && t.writers == s.writers[v := t.writers[v]]
    && t.freeEnq == s.freeEnq
    && t.freeDeq == s.freeDeq + (if pc == WClaim then 1 else 0)
    && t.freeCount == s.freeCount - (if pc == WDec then 1 else 0)
    && (t.writers[v].pc == WTake <==> pc == WClaim)
    && (pc == WClaim ==> t.writers[v].shard == s.freeDeq % NUM_FREE)
    && (t.writers[v].pc == WTag || t.writers[v].pc == WDec <==> pc == WTake || pc == WTag)
  }

  /** Only the exchange of blocks changes the plain map, and no inode is dropped. */
  predicate Leaves(s: State, t: State, v: nat)
    requires v < |s.writers|
  {
    && t.spec == (if s.writers[v].pc == WSwap then s.spec[WKey(s, v) := s.writers[v].data] else s.spec)
    && t.dropped <= s.dropped
    && FreeMoves(s, t, v)
    && (forall r: nat | r < NUM_FREE ::
          if s.writers[v].pc == WTake && s.writers[v].shard == r then At(s, Free(r)) != [] && At(t, Free(r)) == At(s, Free(r))[1..]
          else At(t, Free(r)) == At(s, Free(r)))
  }

  /** t is s with new values for v's locals and spare block, for inode j (if any) and for the entries of v's key. */
  ghost predicate Touches(s: State, t: State, v: nat, j: int) {
    && Shape(s) && Shape(t) && v < |s.writers| && j < |s.inodes|
    && |t.inodes| == |s.inodes| && |t.writers| == |s.writers|
    && t.inodes == (if j < 0 then s.inodes else s.inodes[j := t.inodes[j]])
    && t.writers == s.writers[v := t.writers[v]]
    && t.spare == s.spare[v := t.spare[v]]
    && (t.nodes == s.nodes || (WKey(s, v) in t.nodes && t.nodes == s.nodes[WKey(s, v) := t.nodes[WKey(s, v)]]))
    && FreeMoves(s, t, v)
    && t.spec == (if s.writers[v].pc == WSwap then s.spec[WKey(s, v) := s.writers[v].data] else s.spec)
    && (forall b: nat | b < |s.owner| && (j >= 0 ==> s.owner[b] != OfInode(j)) && s.owner[b] != OfVolume(v)
          :: t.owner[b] == s.owner[b] && t.blocks[b] == s.blocks[b])
    && t.queues == s.queues && t.clean == s.clean && t.inuse == s.inuse
    && t.flushers == s.flushers && t.syncers == s.syncers
    && t.cache == s.cache && t.stable == s.stable && t.pending == s.pending
    && s.dropped - {j} <= t.dropped <= s.dropped
    && (j >= 0 ==> Gentle(s.inodes[j], t.inodes[j]) && (s.inodes[j].place.In? ==> t.inodes[j].place == s.inodes[j].place))
  }

  lemma TouchesMoves(s: State, t: State, v: nat, j: int)
    requires Touches(s, t, v, j)
    ensures Moves(s, t, W(v), j, WKey(s, v)) && CleanMoves(s, t, j)
  {
  }

  lemma TouchesRests(s: State, t: State, v: nat, j: int)
    requires Touches(s, t, v, j)
    ensures FlowRests(s, t) && BoxesRest(s, t)
  {
  }

  /** The step's inode is the writer's own, and the step is about that inode and the writer's key alone. */
  ghost predicate Own(s: State, t: State, v: nat, j: int)
    requires v < |s.writers| && j < |s.inodes|
  {
    && Focused(s, t, j, WKey(s, v)) && Hands(s, W(v), j) && KeepsPromise(s, t, W(v), j) && Homed(s, j, WKey(s, v))
    && (j >= 0 ==>
          || s.inodes[j].place == Carried(v)
          || (s.inodes[j].place.In? && s.inodes[j].place.id.Free?)
          || (Attached(s.inodes[j]) && s.inodes[j].vol == v))
  }

  lemma OwnKeeps(s: State, t: State, v: nat, j: int)
    requires Inv(s) && v < |s.writers| && j < |s.inodes|
    requires Moves(s, t, W(v), j, WKey(s, v)) && CleanMoves(s, t, j) && FlowRests(s, t) && Own(s, t, v, j)
    requires j >= 0 ==> InodeOk(t, j) && CleanOk(t, j)
    requires KeyOk(t, WKey(s, v)) && WriterOk(t, v)
    requires forall id: QueueId :: BoxOk(t, id)
    requires t.clean == s.clean
    ensures Inv(t)
  {
    var key := WKey(s, v);
    forall i: nat | i < |t.inodes| ensures InodeOk(t, i) && CleanOk(t, i) {
      if i != j {
        assert InodeOk(s, i) && CleanOk(s, i);
        OtherInode(s, t, W(v), j, key, i);
        OtherClean(s, t, W(v), j, key, i);
      }
    }
    forall k ensures KeyOk(t, k) {
      assert KeyOk(s, k);
      if k != key { OtherKey(s, t, W(v), j, key, k); }
    }
    forall u: nat | u < |t.writers| ensures WriterOk(t, u) {
      assert WriterOk(s, u) && KeyOk(s, WKey(s, u));
      if u != v {
        if j >= 0 { assert InodeOk(s, j); Separate(s, v, j, u); }
        OtherWriter(s, t, W(v), j, key, u);
      }
    }
    forall f: nat | f < |t.flushers| ensures FlusherOk(t, f) { assert FlusherOk(s, f); RestFlusher(s, t, f); }
    forall q: nat | q < |t.syncers| ensures SyncerOk(t, q) {
      assert SyncerOk(s, q) && BoxOk(s, Sync(q));
      RestSyncer(s, t, q);
    }
  }

  lemma TouchesKeeps(s: State, t: State, v: nat, j: int)
    requires Inv(s) && Touches(s, t, v, j) && Own(s, t, v, j)
    requires j >= 0 ==> InodeOk(t, j) && CleanOk(t, j)
    requires KeyOk(t, WKey(s, v)) && WriterOk(t, v) && s.writers[v].pc != WTake
    ensures Inv(t) && Leaves(s, t, v)
  {
    TouchesMoves(s, t, v, j);
    TouchesRests(s, t, v, j);
    forall id ensures BoxOk(t, id) { assert BoxOk(s, id); RestBox(s, t, id); }
    OwnKeeps(s, t, v, j);
  }

  lemma BeginDone(s: State, v: nat, lbn: nat, data: Block)
    requires Ready(s, v, WIdle) && Writable(lbn)
    ensures Touches(s, StepBegin(s, v, lbn, data), v, -1) && Own(s, StepBegin(s, v, lbn, data), v, -1)
    ensures KeyOk(StepBegin(s, v, lbn, data), WKey(s, v)) && WriterOk(StepBegin(s, v, lbn, data), v)
  {
  }

  lemma SearchDone(s: State, v: nat)
    requires Ready(s, v, WSearch)
    ensures Touches(s, StepSearch(s, v), v, -1) && Own(s, StepSearch(s, v), v, -1)
    ensures KeyOk(StepSearch(s, v), WKey(s, v)) && WriterOk(StepSearch(s, v), v)
  {
  }

  lemma CheckFreeDone(s: State, v: nat)
    requires Ready(s, v, WCheckFree)
    ensures Touches(s, StepCheckFree(s, v), v, -1) && Own(s, StepCheckFree(s, v), v, -1)
    ensures KeyOk(StepCheckFree(s, v), WKey(s, v)) && WriterOk(StepCheckFree(s, v), v)
  {
  }

  lemma ClaimDone(s: State, v: nat)
    requires Ready(s, v, WClaim)
    ensures Touches(s, StepClaim(s, v), v, -1) && Own(s, StepClaim(s, v), v, -1)
    ensures KeyOk(StepClaim(s, v), WKey(s, v)) && WriterOk(StepClaim(s, v), v)
  {
  }

  lemma LockOldDone(s: State, v: nat)
    requires Ready(s, v, WLockOld)
    ensures Touches(s, StepLockOld(s, v), v, -1) && Own(s, StepLockOld(s, v), v, -1)
    ensures KeyOk(StepLockOld(s, v), WKey(s, v)) && WriterOk(StepLockOld(s, v), v)
  {
  }

  lemma AcceptDone(s: State, v: nat)
    requires Ready(s, v, WRecheck) && ValidAt(s, WKey(s, v))
    ensures Touches(s, StepAccept(s, v), v, -1) && Own(s, StepAccept(s, v), v, -1)
    ensures KeyOk(StepAccept(s, v), WKey(s, v)) && WriterOk(StepAccept(s, v), v)
  {
  }

  lemma RejectDone(s: State, v: nat)
    requires Ready(s, v, WRecheck) && !ValidAt(s, WKey(s, v))
    ensures Touches(s, StepReject(s, v), v, -1) && Own(s, StepReject(s, v), v, -1)
    ensures KeyOk(StepReject(s, v), WKey(s, v)) && WriterOk(StepReject(s, v), v)
  {
  }

  lemma TagTouches(s: State, v: nat)
    requires Ready(s, v, WTag)
    ensures Touches(s, StepTag(s, v), v, s.writers[v].i) && Own(s, StepTag(s, v), v, s.writers[v].i)
  {
  }

  lemma TagDone(s: State, v: nat)
    requires Ready(s, v, WTag)
    ensures InodeOk(StepTag(s, v), s.writers[v].i) && CleanOk(StepTag(s, v), s.writers[v].i)
    ensures KeyOk(StepTag(s, v), WKey(s, v)) && WriterOk(StepTag(s, v), v)
  {
  }

  lemma DecTouches(s: State, v: nat)
    requires Ready(s, v, WDec)
    ensures Touches(s, StepDec(s, v), v, s.writers[v].i) && Own(s, StepDec(s, v), v, s.writers[v].i)
  {
  }

  lemma DecDone(s: State, v: nat)
    requires Ready(s, v, WDec)
    ensures InodeOk(StepDec(s, v), s.writers[v].i) && CleanOk(StepDec(s, v), s.writers[v].i)
    ensures KeyOk(StepDec(s, v), WKey(s, v)) && WriterOk(StepDec(s, v), v)
  {
  }

  lemma AttachTouches(s: State, v: nat)
    requires Ready(s, v, WAttach)
    ensures Touches(s, StepAttach(s, v), v, s.writers[v].i) && Own(s, StepAttach(s, v), v, s.writers[v].i)
  {
  }

  lemma AttachInode(s: State, v: nat)
    requires InodeReady(s, v, WAttach)
    ensures InodeOk(StepAttach(s, v), s.writers[v].i) && CleanOk(StepAttach(s, v), s.writers[v].i)
  {
  }

  lemma AttachDone(s: State, v: nat)
    requires Ready(s, v, WAttach)
    ensures KeyOk(StepAttach(s, v), WKey(s, v)) && WriterOk(StepAttach(s, v), v)
  {
  }

  lemma LockNewTouches(s: State, v: nat)
    requires Ready(s, v, WLockNew)
    ensures Touches(s, StepLockNew(s, v), v, s.writers[v].i) && Own(s, StepLockNew(s, v), v, s.writers[v].i)
  {
  }

  lemma LockNewDone(s: State, v: nat)
    requires Ready(s, v, WLockNew)
    ensures InodeOk(StepLockNew(s, v), s.writers[v].i) && CleanOk(StepLockNew(s, v), s.writers[v].i)
    ensures KeyOk(StepLockNew(s, v), WKey(s, v)) && WriterOk(StepLockNew(s, v), v)
  {
  }

  lemma LockInodeTouches(s: State, v: nat)
    requires Ready(s, v, WLockInode) && s.inodes[s.writers[v].i].lock == Nobody
    ensures Touches(s, StepLockInode(s, v), v, s.writers[v].i) && Own(s, StepLockInode(s, v), v, s.writers[v].i)
  {
  }

  lemma LockInodeInode(s: State, v: nat)
    requires InodeReady(s, v, WLockInode) && s.inodes[s.writers[v].i].lock == Nobody
    ensures InodeOk(StepLockInode(s, v), s.writers[v].i) && CleanOk(StepLockInode(s, v), s.writers[v].i)
  {
  }

  lemma LockInodeDone(s: State, v: nat)
    requires Ready(s, v, WLockInode) && s.inodes[s.writers[v].i].lock == Nobody
    ensures KeyOk(StepLockInode(s, v), WKey(s, v)) && WriterOk(StepLockInode(s, v), v)
  {
  }

  lemma MarkTouches(s: State, v: nat)
    requires Ready(s, v, WMark)
    ensures Touches(s, StepMark(s, v), v, s.writers[v].i) && Own(s, StepMark(s, v), v, s.writers[v].i)
  {
  }

  lemma MarkInode(s: State, v: nat)
    requires InodeReady(s, v, WMark)
    ensures InodeOk(StepMark(s, v), s.writers[v].i) && CleanOk(StepMark(s, v), s.writers[v].i)
  {
  }

  lemma MarkDone(s: State, v: nat)
    requires Ready(s, v, WMark)
    ensures KeyOk(StepMark(s, v), WKey(s, v)) && WriterOk(StepMark(s, v), v)
  {
  }

  lemma CopyTouches(s: State, v: nat)
    requires Ready(s, v, WCopy)
    ensures Touches(s, StepCopy(s, v), v, s.writers[v].i) && Own(s, StepCopy(s, v), v, s.writers[v].i)
  {
  }

  lemma CopyInode(s: State, v: nat)
    requires InodeReady(s, v, WCopy)
    ensures InodeOk(StepCopy(s, v), s.writers[v].i) && CleanOk(StepCopy(s, v), s.writers[v].i)
  {
  }

  lemma CopyDone(s: State, v: nat)
    requires Ready(s, v, WCopy)
    ensures KeyOk(StepCopy(s, v), WKey(s, v)) && WriterOk(StepCopy(s, v), v)
  {
  }

  lemma GiveTouches(s: State, v: nat)
    requires Ready(s, v, WGive)
    ensures Touches(s, StepGive(s, v), v, s.writers[v].i) && Own(s, StepGive(s, v), v, s.writers[v].i)
  {
  }

  lemma GiveDone(s: State, v: nat)
    requires Ready(s, v, WGive)
    ensures InodeOk(StepGive(s, v), s.writers[v].i) && CleanOk(StepGive(s, v), s.writers[v].i)
    ensures KeyOk(StepGive(s, v), WKey(s, v)) && WriterOk(StepGive(s, v), v)
  {
  }

  lemma SwapTouches(s: State, v: nat)
    requires Ready(s, v, WSwap)
    ensures Touches(s, StepSwap(s, v), v, s.writers[v].i) && Own(s, StepSwap(s, v), v, s.writers[v].i)
  {
  }

  lemma SwapData(s: State, v: nat)
    requires InodeReady(s, v, WSwap)
    ensures s.writers[v].i < |s.inodes| && DataOk(StepSwap(s, v), s.writers[v].i)
  {
  }

  lemma SwapInode(s: State, v: nat)
    requires InodeReady(s, v, WSwap)
    ensures InodeOk(StepSwap(s, v), s.writers[v].i) && CleanOk(StepSwap(s, v), s.writers[v].i)
  {
    SwapData(s, v);
  }

  lemma SwapDone(s: State, v: nat)
    requires Ready(s, v, WSwap)
    ensures KeyOk(StepSwap(s, v), WKey(s, v)) && WriterOk(StepSwap(s, v), v)
  {
  }

  /** An inode that was DIRTY is in its queue already, and is not counted again. */
  lemma NoRaiseTouches(s: State, v: nat)
    requires Ready(s, v, WCount) && s.writers[v].was == DIRTY
    ensures Touches(s, StepCount(s, v), v, s.writers[v].i) && Own(s, StepCount(s, v), v, s.writers[v].i)
  {
  }

  lemma NoRaiseDone(s: State, v: nat)
    requires Ready(s, v, WCount) && s.writers[v].was == DIRTY
    ensures InodeOk(StepCount(s, v), s.writers[v].i) && CleanOk(StepCount(s, v), s.writers[v].i)
    ensures KeyOk(StepCount(s, v), WKey(s, v)) && WriterOk(StepCount(s, v), v)
  {
  }

  lemma RaiseTouches(s: State, v: nat)
    requires Ready(s, v, WCount) && s.writers[v].was != DIRTY
    ensures Touches(s, StepRaise(s, v), v, s.writers[v].i)
  {
  }

  lemma RaiseOwn(s: State, v: nat)
    requires Ready(s, v, WCount) && s.writers[v].was != DIRTY
    ensures Own(s, StepRaise(s, v), v, s.writers[v].i)
  {
  }

  lemma RaiseInode(s: State, v: nat)
    requires InodeReady(s, v, WCount) && s.writers[v].was != DIRTY
    ensures InodeOk(StepRaise(s, v), s.writers[v].i) && CleanOk(StepRaise(s, v), s.writers[v].i)
  {
  }

  lemma RaiseDone(s: State, v: nat)
    requires Ready(s, v, WCount) && s.writers[v].was != DIRTY
    ensures KeyOk(StepRaise(s, v), WKey(s, v)) && WriterOk(StepRaise(s, v), v)
  {
  }

  lemma UnlockInodeTouches(s: State, v: nat)
    requires Shape(s) && v < |s.writers| && s.writers[v].pc == WUnlockInode && OnInode(s, v)
    ensures Touches(s, StepUnlockInode(s, v), v, s.writers[v].i) && Own(s, StepUnlockInode(s, v), v, s.writers[v].i)
  {
  }

  /** A writer that has pushed its inode leaves it in a dirty queue, or with a flush thread that tries its lock. */
  lemma PushedPlace(s: State, v: nat)
    requires InodeReady(s, v, WUnlockInode)
    ensures var x := s.inodes[s.writers[v].i]; (x.place.In? && x.place.id.Dirty?) || x.place.AtTryLock?
  {
  }

  lemma UnlockInodePlace(s: State, v: nat)
    requires InodeReady(s, v, WUnlockInode)
    ensures var t, i := StepUnlockInode(s, v), s.writers[v].i;
            i < |t.inodes| && FormOk(t.inodes[i]) && PlaceOk(t, i) && LockOk(t, i)
  {
    PushedPlace(s, v);
  }

  lemma UnlockInodeInode(s: State, v: nat)
    requires InodeReady(s, v, WUnlockInode)
    ensures InodeOk(StepUnlockInode(s, v), s.writers[v].i) && CleanOk(StepUnlockInode(s, v), s.writers[v].i)
  {
    UnlockInodePlace(s, v);
  }

  lemma UnlockInodeDone(s: State, v: nat)
    requires Ready(s, v, WUnlockInode)
    ensures KeyOk(StepUnlockInode(s, v), WKey(s, v)) && WriterOk(StepUnlockInode(s, v), v)
  {
  }

  lemma UnlockNodeTouches(s: State, v: nat)
    requires Shape(s) && v < |s.writers| && s.writers[v].pc == WUnlockNode && WKey(s, v) in s.nodes
    ensures Touches(s, StepUnlockNode(s, v), v, -1)
  {
  }

  lemma UnlockNodeOwn(s: State, v: nat)
    requires v < |s.writers| && s.writers[v].pc == WUnlockNode && WKey(s, v) in s.nodes
    ensures Own(s, StepUnlockNode(s, v), v, -1)
  {
  }

  lemma UnlockNodeDone(s: State, v: nat)
    requires Ready(s, v, WUnlockNode)
    ensures KeyOk(StepUnlockNode(s, v), WKey(s, v)) && WriterOk(StepUnlockNode(s, v), v)
  {
  }

  lemma TearTouches(s: State, v: nat, junk: Block)
    requires Ready(s, v, WCopy)
    ensures s.writers[v].ob < |s.blocks|
    ensures Touches(s, Do(s, Tear(v, junk)), v, s.writers[v].i) && Own(s, Do(s, Tear(v, junk)), v, s.writers[v].i)
  {
  }

  lemma TearDone(s: State, v: nat, junk: Block)
    requires Ready(s, v, WCopy)
    ensures InodeOk(Do(s, Tear(v, junk)), s.writers[v].i) && CleanOk(Do(s, Tear(v, junk)), s.writers[v].i)
    ensures KeyOk(Do(s, Tear(v, junk)), WKey(s, v)) && WriterOk(Do(s, Tear(v, junk)), v)
  {
  }

  // --------------------------------------------------------------- the two steps that move an inode

  lemma TakeMoves(s: State, v: nat, i: nat)
    requires Ready(s, v, WTake) && BoxesOk(s) && i < |s.inodes| && InodeOk(s, i)
    requires At(s, Free(s.writers[v].shard)) != [] && At(s, Free(s.writers[v].shard))[0] == i
    ensures var t := StepTake(s, v);
            && Moves(s, t, W(v), i, WKey(s, v)) && CleanMoves(s, t, i) && FlowRests(s, t) && BoxesOk(t)
  {
    var id := Free(s.writers[v].shard);
    var t := StepTake(s, v);
    assert BoxOk(s, id);
    PopBoxes(s, t, i, id);
  }

  lemma TakeDone(s: State, v: nat, i: nat)
    requires Ready(s, v, WTake) && BoxOk(s, Free(s.writers[v].shard)) && i < |s.inodes| && InodeOk(s, i)
    requires At(s, Free(s.writers[v].shard)) != [] && At(s, Free(s.writers[v].shard))[0] == i
    ensures var t := StepTake(s, v);
            && Own(s, t, v, i) && InodeOk(t, i) && CleanOk(t, i) && KeyOk(t, WKey(s, v)) && WriterOk(t, v)
  {
  }

  lemma EnqueueMoves(s: State, v: nat)
    requires Shape(s) && BoxesOk(s) && v < |s.writers| && s.writers[v].pc == WPush && WriterHas(s, v, Filled(v))
    requires !s.inodes[s.writers[v].i].lock.Cleaning?
    ensures var t := StepEnqueue(s, v);
            && Moves(s, t, W(v), s.writers[v].i, WKey(s, v)) && CleanMoves(s, t, s.writers[v].i)
            && FlowRests(s, t) && BoxesOk(t)
  {
    PushBoxes(s, StepEnqueue(s, v), s.writers[v].i, Dirty(v));
  }

  lemma EnqueueInode(s: State, v: nat)
    requires InodeReady(s, v, WPush)
    ensures InodeOk(StepEnqueue(s, v), s.writers[v].i) && CleanOk(StepEnqueue(s, v), s.writers[v].i)
  {
  }

  lemma EnqueueDone(s: State, v: nat)
    requires Ready(s, v, WPush)
    ensures var t := StepEnqueue(s, v); Own(s, t, v, s.writers[v].i) && KeyOk(t, WKey(s, v)) && WriterOk(t, v)
  {
  }

  // -------------------------------------------------------------------------------------- all steps

  lemma WriterIsReady(s: State, v: nat)
    requires Inv(s) && v < |s.writers|
    ensures Ready(s, v, s.writers[v].pc)
  {
    assert WriterOk(s, v) && KeyOk(s, WKey(s, v));
    if !EmptyHanded(s.writers[v].pc) && s.writers[v].i < |s.inodes| {
      assert InodeOk(s, s.writers[v].i);
    }
  }

  lemma WriterIsSafe(s: State, v: nat)
    requires Inv(s) && v < |s.writers| && WriterGuard(s, v)
    ensures WriterSafe(s, v)
  {
    WriterIsReady(s, v);
    if s.writers[v].pc == WTake {
      assert BoxOk(s, Free(s.writers[v].shard));
      assert At(s, Free(s.writers[v].shard))[0] in At(s, Free(s.writers[v].shard));
    }
  }

  lemma TakeLeaves(s: State, v: nat)
    requires v < |s.writers| && s.writers[v].pc == WTake && WriterSafe(s, v)
    ensures Leaves(s, StepTake(s, v), v)
  {
  }

  lemma EnqueueLeaves(s: State, v: nat)
    requires v < |s.writers| && s.writers[v].pc == WPush && s.writers[v].i < |s.inodes|
    ensures Leaves(s, StepEnqueue(s, v), v)
  {
  }

  lemma TakeKeeps(s: State, v: nat)
    requires Inv(s) && v < |s.writers| && s.writers[v].pc == WTake && WriterGuard(s, v) && WriterSafe(s, v)
    ensures Inv(StepTake(s, v))
  {
    WriterIsReady(s, v);
    var i := At(s, Free(s.writers[v].shard))[0];
    assert BoxOk(s, Free(s.writers[v].shard)) && InodeOk(s, i);
    TakeMoves(s, v, i);
    TakeDone(s, v, i);
    OwnKeeps(s, StepTake(s, v), v, i);
  }

  lemma EnqueueKeeps(s: State, v: nat)
    requires Inv(s) && v < |s.writers| && s.writers[v].pc == WPush && WriterSafe(s, v)
    ensures Inv(StepEnqueue(s, v))
  {
    WriterIsReady(s, v);
    EnqueueMoves(s, v);
    EnqueueInode(s, v);
    EnqueueDone(s, v);
    OwnKeeps(s, StepEnqueue(s, v), v, s.writers[v].i);
  }

  lemma CountKeeps(s: State, v: nat)
    requires Inv(s) && v < |s.writers| && s.writers[v].pc == WCount
    ensures Inv(StepCount(s, v)) && Leaves(s, StepCount(s, v), v)
  {
    WriterIsReady(s, v);
    if s.writers[v].was == DIRTY {
      NoRaiseTouches(s, v);
      NoRaiseDone(s, v);
      TouchesKeeps(s, StepCount(s, v), v, s.writers[v].i);
    } else {
      RaiseTouches(s, v);
      RaiseOwn(s, v);
      RaiseInode(s, v);
      RaiseDone(s, v);
      TouchesKeeps(s, StepRaise(s, v), v, s.writers[v].i);
    }
  }

  lemma TearKeeps(s: State, v: nat, junk: Block)
    requires Inv(s) && v < |s.writers| && s.writers[v].pc == WCopy
    ensures s.writers[v].ob < |s.blocks| && Inv(Do(s, Tear(v, junk))) && Quiet(s, Do(s, Tear(v, junk)))
  {
    WriterIsReady(s, v);
    TearTouches(s, v, junk);
    TearDone(s, v, junk);
    TouchesKeeps(s, Do(s, Tear(v, junk)), v, s.writers[v].i);
  }

  lemma BeginKeeps(s: State, v: nat, lbn: nat, data: Block)
    requires Inv(s) && v < |s.writers| && s.writers[v].pc == WIdle && Writable(lbn)
    ensures Inv(StepBegin(s, v, lbn, data)) && Leaves(s, StepBegin(s, v, lbn, data), v)
  {
    WriterIsReady(s, v);
    BeginDone(s, v, lbn, data);
    TouchesKeeps(s, StepBegin(s, v, lbn, data), v, -1);
  }

  /** Finding an inode: from the first look at the index to the lock on the node. */
  lemma SearchingKeeps(s: State, v: nat)
    requires Inv(s) && v < |s.writers| && WriterGuard(s, v) && WriterSafe(s, v)
    requires s.writers[v].pc == WSearch || s.writers[v].pc == WCheckFree || s.writers[v].pc == WClaim
          || s.writers[v].pc == WLockOld || s.writers[v].pc == WRecheck || s.writers[v].pc == WUnlockNode
    ensures Inv(WriterStep(s, v)) && Leaves(s, WriterStep(s, v), v)
  {
    WriterIsReady(s, v);
    match s.writers[v].pc
    case WSearch => SearchDone(s, v); TouchesKeeps(s, StepSearch(s, v), v, -1);
    case WCheckFree => CheckFreeDone(s, v); TouchesKeeps(s, StepCheckFree(s, v), v, -1);
    case WClaim => ClaimDone(s, v); TouchesKeeps(s, StepClaim(s, v), v, -1);
    case WLockOld => LockOldDone(s, v); TouchesKeeps(s, StepLockOld(s, v), v, -1);
    case WRecheck =>
      if ValidAt(s, WKey(s, v)) {
        AcceptDone(s, v); TouchesKeeps(s, StepAccept(s, v), v, -1);
      } else {
        RejectDone(s, v); TouchesKeeps(s, StepReject(s, v), v, -1);
      }
    case WUnlockNode =>
      UnlockNodeTouches(s, v); UnlockNodeOwn(s, v); UnlockNodeDone(s, v);
      TouchesKeeps(s, StepUnlockNode(s, v), v, -1);
    case _ => assert false;
  }

  /** Attaching a free inode. */
  lemma AttachingKeeps(s: State, v: nat)
    requires Inv(s) && v < |s.writers| && WriterGuard(s, v) && WriterSafe(s, v)
    requires s.writers[v].pc == WTag || s.writers[v].pc == WDec || s.writers[v].pc == WAttach || s.writers[v].pc == WLockNew
    ensures Inv(WriterStep(s, v)) && Leaves(s, WriterStep(s, v), v)
  {
    WriterIsReady(s, v);
    var i := s.writers[v].i;
    match s.writers[v].pc
    case WTag => TagTouches(s, v); TagDone(s, v); TouchesKeeps(s, StepTag(s, v), v, i);
    case WDec => DecTouches(s, v); DecDone(s, v); TouchesKeeps(s, StepDec(s, v), v, i);
    case WAttach => AttachTouches(s, v); AttachInode(s, v); AttachDone(s, v); TouchesKeeps(s, StepAttach(s, v), v, i);
    case WLockNew => LockNewTouches(s, v); LockNewDone(s, v); TouchesKeeps(s, StepLockNew(s, v), v, i);
    case _ => assert false;
  }

  /** Under the node lock: from the inode lock to its release. */
  lemma WritingKeeps(s: State, v: nat)
    requires Inv(s) && v < |s.writers| && WriterGuard(s, v) && WriterSafe(s, v)
    requires s.writers[v].pc == WLockInode || s.writers[v].pc == WMark || s.writers[v].pc == WCopy || s.writers[v].pc == WGive
          || s.writers[v].pc == WSwap || s.writers[v].pc == WUnlockInode
    ensures Inv(WriterStep(s, v)) && Leaves(s, WriterStep(s, v), v)
  {
    WriterIsReady(s, v);
    var i := s.writers[v].i;
    match s.writers[v].pc
    case WLockInode =>
      LockInodeTouches(s, v); LockInodeInode(s, v); LockInodeDone(s, v); TouchesKeeps(s, StepLockInode(s, v), v, i);
    case WMark => MarkTouches(s, v); MarkInode(s, v); MarkDone(s, v); TouchesKeeps(s, StepMark(s, v), v, i);
    case WCopy => CopyTouches(s, v); CopyInode(s, v); CopyDone(s, v); TouchesKeeps(s, StepCopy(s, v), v, i);
    case WGive => GiveTouches(s, v); GiveDone(s, v); TouchesKeeps(s, StepGive(s, v), v, i);
    case WSwap => SwapTouches(s, v); SwapInode(s, v); SwapDone(s, v); TouchesKeeps(s, StepSwap(s, v), v, i);
    case WUnlockInode =>
      UnlockInodeTouches(s, v); UnlockInodeInode(s, v); UnlockInodeDone(s, v);
      TouchesKeeps(s, StepUnlockInode(s, v), v, i);
    case _ => assert false;
  }

  lemma WriterKeeps(s: State, v: nat)
    requires Inv(s) && v < |s.writers| && WriterGuard(s, v)
    ensures WriterSafe(s, v) && Inv(WriterStep(s, v)) && Leaves(s, WriterStep(s, v), v)
  {
    WriterIsSafe(s, v);
    match s.writers[v].pc
    case WIdle =>
    case WTake =>
      TakeKeeps(s, v);
      TakeLeaves(s, v);
    case WTag => AttachingKeeps(s, v);
    case WDec => AttachingKeeps(s, v);
    case WAttach => AttachingKeeps(s, v);
    case WLockNew => AttachingKeeps(s, v);
    case WLockInode => WritingKeeps(s, v);
    case WMark => WritingKeeps(s, v);
    case WCopy => WritingKeeps(s, v);
    case WGive => WritingKeeps(s, v);
    case WSwap => WritingKeeps(s, v);
    case WCount => CountKeeps(s, v);
    case WUnlockInode => WritingKeeps(s, v);
    case WPush =>
      EnqueueKeeps(s, v);
      EnqueueLeaves(s, v);
    case _ => SearchingKeeps(s, v);
  }
}
