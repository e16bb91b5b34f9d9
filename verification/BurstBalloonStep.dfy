/** A pass of a balloon thread keeps the invariant. */
module BurstBalloonStep {
  import opened Queues
  import opened BurstBuffer
  import opened BurstInvariant
  import opened BurstFrames

  // ----------------------------------------------------------------------------- nothing but a dequeue

  ghost predicate Dequeues(s: State, t: State, b: nat) {
    && Shape(s) && b < |s.clean| && s.clean[b] != []
    && t == s.(clean := s.clean[b := s.clean[b][1..]], dropped := t.dropped) && s.dropped <= t.dropped
  }

  lemma DequeuesClean(s: State, t: State, b: nat)
    requires Dequeues(s, t, b)
    ensures CleanMoves(s, t, s.clean[b][0])
  {
    forall i: nat, c: nat | i != s.clean[b][0] && c < |s.clean| && i in s.clean[c] ensures i in t.clean[c] {
      assert s.clean[b] == [s.clean[b][0]] + s.clean[b][1..];
    }
  }

  lemma DequeuesInode(s: State, t: State, b: nat, i: nat)
    requires Dequeues(s, t, b) && i < |s.inodes| && InodeOk(s, i)
    ensures InodeOk(t, i)
  {
  }

  lemma DequeuesCleanOk(s: State, t: State, b: nat, i: nat)
    requires Dequeues(s, t, b) && i < |s.inodes| && CleanOk(s, i) && i != s.clean[b][0]
    ensures CleanOk(t, i)
  {
    DequeuesClean(s, t, b);
    if exists c | 0 <= c < |s.clean| :: i in s.clean[c] {
      var c: nat :| c < |s.clean| && i in s.clean[c];
      assert i in t.clean[c];
    }
  }

  lemma DequeuesRest(s: State, t: State, b: nat, k: Key, v: nat, f: nat, q: nat)
    requires Dequeues(s, t, b)
    ensures KeyOk(s, k) ==> KeyOk(t, k)
    ensures v < |s.writers| && WriterOk(s, v) ==> WriterOk(t, v)
    ensures f < |s.flushers| && FlusherOk(s, f) ==> FlusherOk(t, f)
    ensures q < |s.syncers| && SyncerOk(s, q) ==> SyncerOk(t, q)
  {
  }

  lemma DequeuesKeeps(s: State, t: State, b: nat)
    requires Inv(s) && Dequeues(s, t, b) && s.clean[b][0] < |s.inodes| && CleanOk(t, s.clean[b][0])
    ensures Inv(t)
  {
    forall i: nat | i < |t.inodes| ensures InodeOk(t, i) && CleanOk(t, i) {
      assert InodeOk(s, i) && CleanOk(s, i);
      DequeuesInode(s, t, b, i);
      if i != s.clean[b][0] { DequeuesCleanOk(s, t, b, i); }
    }
    forall k ensures KeyOk(t, k) { assert KeyOk(s, k); DequeuesRest(s, t, b, k, 0, 0, 0); }
    forall v: nat | v < |t.writers| ensures WriterOk(t, v) { assert WriterOk(s, v); DequeuesRest(s, t, b, Key(0, 0), v, 0, 0); }
    forall f: nat | f < |t.flushers| ensures FlusherOk(t, f) { assert FlusherOk(s, f); DequeuesRest(s, t, b, Key(0, 0), 0, f, 0); }
    forall q: nat | q < |t.syncers| ensures SyncerOk(t, q) { assert SyncerOk(s, q); DequeuesRest(s, t, b, Key(0, 0), 0, 0, q); }
    forall id ensures BoxOk(t, id) { assert BoxOk(s, id); }
  }

  /** The holder of a CLEAN inode's node is about to dirty it, or has only the node left to unlock. */
  lemma HolderOfClean(s: State, i: nat)
    requires Shape(s) && i < |s.inodes| && InodeOk(s, i) && s.inodes[i].state == CLEAN
    requires KeyOk(s, KeyOf(s.inodes[i])) && s.inodes[i].vol < |s.writers| && WriterOk(s, s.inodes[i].vol)
    requires KeyOf(s.inodes[i]) in s.nodes && s.nodes[KeyOf(s.inodes[i])].lock
    ensures var w := s.writers[s.inodes[i].vol]; w.lbn == s.inodes[i].lbn && (WillDirty(w.pc) || w.pc == WUnlockNode)
  {
  }

  // ------------------------------------------------------------------------------------- an inode freed

  ghost predicate Freeable(s: State, b: nat, i: nat) {
    && Shape(s) && b < |s.clean| && s.clean[b] != [] && s.clean[b][0] == i && i < |s.inodes| && InodeOk(s, i)
    && s.inodes[i].state == CLEAN
    && KeyOk(s, KeyOf(s.inodes[i])) && KeyOf(s.inodes[i]) in s.nodes && !s.nodes[KeyOf(s.inodes[i])].lock
  }

  lemma FreeMoves(s: State, b: nat, i: nat)
    requires Freeable(s, b, i) && BoxesOk(s)
    ensures var t := StepFree(s, b);
            && Moves(s, t, B, i, KeyOf(s.inodes[i])) && BoxesOk(t) && FlowRests(s, t)
  {
    PushBoxes(s, StepFree(s, b), i, Free(s.freeEnq % NUM_FREE));
  }

  lemma FreeClean(s: State, b: nat, i: nat)
    requires Freeable(s, b, i)
    ensures CleanMoves(s, StepFree(s, b), i)
  {
    DequeuesClean(s, StepSkip(s, b), b);
  }

  lemma FreeDone(s: State, b: nat, i: nat)
    requires Freeable(s, b, i)
    ensures var t := StepFree(s, b); InodeOk(t, i) && CleanOk(t, i) && KeyOk(t, KeyOf(s.inodes[i]))
    ensures Focused(s, StepFree(s, b), i, KeyOf(s.inodes[i]))
  {
  }

  lemma FreeWriter(s: State, b: nat, i: nat, u: nat)
    requires Freeable(s, b, i) && u < |s.writers| && WriterOk(s, u)
    requires (s.writers[u].i < |s.inodes| ==> InodeOk(s, s.writers[u].i))
    ensures WriterOk(StepFree(s, b), u)
  {
  }

  lemma FreeKeeps(s: State, b: nat)
    requires Inv(s) && b < |s.clean| && s.clean[b] != [] && s.clean[b][0] < |s.inodes|
    requires Freeable(s, b, s.clean[b][0])
    ensures Inv(StepFree(s, b))
  {
    var i, t := s.clean[b][0], StepFree(s, b);
    var key := KeyOf(s.inodes[i]);
    FreeMoves(s, b, i);
    FreeClean(s, b, i);
    FreeDone(s, b, i);
    forall k: nat | k < |t.inodes| ensures InodeOk(t, k) && CleanOk(t, k) {
      if k != i {
        assert InodeOk(s, k) && CleanOk(s, k);
        OtherInode(s, t, B, i, key, k);
        OtherClean(s, t, B, i, key, k);
      }
    }
    forall k ensures KeyOk(t, k) {
      assert KeyOk(s, k);
      if k != key { OtherKey(s, t, B, i, key, k); }
    }
    FreeKeepsThreads(s, b);
  }

  lemma FreeKeepsThreads(s: State, b: nat)
    requires Inv(s) && b < |s.clean| && s.clean[b] != [] && s.clean[b][0] < |s.inodes|
    requires Freeable(s, b, s.clean[b][0])
    ensures var t := StepFree(s, b);
            && (forall u: nat | u < |t.writers| :: WriterOk(t, u))
            && (forall f: nat | f < |t.flushers| :: FlusherOk(t, f))
            && (forall q: nat | q < |t.syncers| :: SyncerOk(t, q))
  {
    var i, t := s.clean[b][0], StepFree(s, b);
    FreeMoves(s, b, i);
    forall u: nat | u < |t.writers| ensures WriterOk(t, u) {
      assert WriterOk(s, u);
      if s.writers[u].i < |s.inodes| { assert InodeOk(s, s.writers[u].i); }
      FreeWriter(s, b, i, u);
    }
    forall f: nat | f < |t.flushers| ensures FlusherOk(t, f) { assert FlusherOk(s, f); RestFlusher(s, t, f); }
    forall q: nat | q < |t.syncers| ensures SyncerOk(t, q) {
      assert SyncerOk(s, q) && BoxOk(s, Sync(q));
      RestSyncer(s, t, q);
    }
  }

  lemma BalloonKeeps(s: State, b: nat)
    requires Inv(s) && b < |s.clean| && BalloonGuard(s, b)
    ensures BalloonSafe(s, b) && Inv(BalloonStep(s, b))
  {
    var i := s.clean[b][0];
    assert InodeOk(s, i);
    var k := KeyOf(s.inodes[i]);
    assert KeyOk(s, k);
    if s.inodes[i].state != CLEAN {
      DequeuesKeeps(s, StepSkip(s, b), b);
    } else if s.nodes[k].lock {
      assert WriterOk(s, k.vol);
      HolderOfClean(s, i);
      DequeuesKeeps(s, BalloonStep(s, b), b);
    } else {
      FreeKeeps(s, b);
    }
  }
}
