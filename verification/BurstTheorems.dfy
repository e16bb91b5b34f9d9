/** What the invariant means for users of the burst buffer. */
module BurstTheorems {
  import opened Queues
  import opened BurstBuffer
  import opened BurstInvariant
  import opened BurstRuns
  import Writers = BurstWriterSteps
  import Flushers = BurstFlusherSteps
  import Syncers = BurstSyncerSteps

  // ------------------------------------------------------------------- the buffer refines a plain map

  /** A newly attached inode that has not received its block: its key still means what the file holds. */
  predicate HasBlock(s: State, i: nat)
    requires i < |s.inodes|
  {
    var x := s.inodes[i];
    && x.state != FREE
    && !(x.vol < |s.writers| && s.writers[x.vol].lbn == x.lbn && s.writers[x.vol].i == i
         && MidWrite(s.writers[x.vol].pc) && s.writers[x.vol].was == FREE)
  }

  /** What the system stores for key k: the buffered block if there is one, and stable storage otherwise. */
  function Logical(s: State, k: Key): Option<Block> {
    if ValidAt(s, k) && s.nodes[k].inode.Some? && s.nodes[k].inode.value < |s.inodes|
       && HasBlock(s, s.nodes[k].inode.value) && s.inodes[s.nodes[k].inode.value].block < |s.blocks|
    then Some(s.blocks[s.inodes[s.nodes[k].inode.value].block])
    else Lookup(s.stable, k)
  }

  lemma HasBlockIsNotFresh(s: State, i: nat)
    requires Inv(s) && i < |s.inodes| && Attached(s.inodes[i])
    ensures HasBlock(s, i) <==> !Fresh(s.inodes[i])
  {
    assert InodeOk(s, i);
    var x := s.inodes[i];
    if x.vol < |s.writers| && s.writers[x.vol].i == i && MidWrite(s.writers[x.vol].pc) {
      assert WriterOk(s, x.vol);
    }
  }

  lemma LogicalIsSpec(s: State, k: Key)
    requires Inv(s)
    ensures Logical(s, k) == Lookup(s.spec, k)
  {
    assert KeyOk(s, k);
    if ValidAt(s, k) {
      var i := s.nodes[k].inode.value;
      assert InodeOk(s, i);
      HasBlockIsNotFresh(s, i);
    }
  }

  /** The step at which a write takes effect, and on which key. */
  predicate Lands(s: State, a: Action, k: Key) {
    a.Write? && a.v < |s.writers| && s.writers[a.v].pc == WSwap && k == WKey(s, a.v)
  }

  lemma BalloonCases(s: State, b: nat)
    requires b < |s.clean| && BalloonSafe(s, b)
    ensures BalloonStep(s, b) == StepSkip(s, b) || BalloonStep(s, b) == StepDrop(s, b) || BalloonStep(s, b) == StepFree(s, b)
  {
  }

  lemma FreeLeaves(s: State, b: nat)
    requires b < |s.clean| && s.clean[b] != [] && s.clean[b][0] < |s.inodes|
    ensures StepFree(s, b).spec == s.spec && StepFree(s, b).dropped <= s.dropped
  {
  }

  lemma BalloonLeaves(s: State, b: nat)
    requires b < |s.clean| && BalloonSafe(s, b)
    ensures BalloonStep(s, b).spec == s.spec
    ensures BalloonStep(s, b) == StepDrop(s, b) || BalloonStep(s, b).dropped <= s.dropped
  {
    BalloonCases(s, b);
    FreeLeaves(s, b);
  }

  lemma SpecOfStep(s: State, a: Action, k: Key)
    requires Inv(s) && Guard(s, a) && Safe(s, a)
    ensures Lookup(Do(s, a).spec, k) == if Lands(s, a, k) then Some(s.writers[a.v].data) else Lookup(s.spec, k)
  {
    match a
    case Begin(v, lbn, data) => Writers.BeginKeeps(s, v, lbn, data);
    case Write(v) => Writers.WriterKeeps(s, v);
    case Tear(v, junk) => Writers.TearKeeps(s, v, junk);
    case Flush(f, write) => Flushers.FlusherKeeps(s, f, write);
    case DoSync(q) => Syncers.SyncerKeeps(s, q);
    case Balloon(b) => BalloonLeaves(s, b);
  }

  /**
   In every interleaving, one step of a write gives its key the new block, and no other step of any thread changes
   what any key means.
   */
  lemma StepRefinesMap(s: State, a: Action, k: Key)
    requires Inv(s) && Guard(s, a)
    ensures Safe(s, a)
    ensures Logical(Do(s, a), k) == if Lands(s, a, k) then Some(s.writers[a.v].data) else Logical(s, k)
  {
    StepKeeps(s, a);
    LogicalIsSpec(s, k);
    LogicalIsSpec(Do(s, a), k);
    SpecOfStep(s, a, k);
  }

  /** The plain map after a run: the last landed write of each key. */
  function Replay(s: State, run: seq<Action>, m: map<Key, Block>): map<Key, Block>
    requires ValidRun(s, run)
    decreases |run|
  {
    if run == [] then m
    else
      var a := run[0];
      var m1 := if a.Write? && s.writers[a.v].pc == WSwap then m[WKey(s, a.v) := s.writers[a.v].data] else m;
      Replay(Do(s, a), run[1..], m1)
  }

  lemma {:induction false} RunRefinesMap(s: State, run: seq<Action>, m: map<Key, Block>)
    requires Inv(s) && ValidRun(s, run) && forall k :: Logical(s, k) == Lookup(m, k)
    ensures forall k :: Logical(Exec(s, run), k) == Lookup(Replay(s, run, m), k)
    decreases |run|
  {
    if run != [] {
      var a := run[0];
      StepKeeps(s, a);
      var m1 := if a.Write? && s.writers[a.v].pc == WSwap then m[WKey(s, a.v) := s.writers[a.v].data] else m;
      forall k ensures Logical(Do(s, a), k) == Lookup(m1, k) { StepRefinesMap(s, a, k); }
      RunRefinesMap(Do(s, a), run[1..], m1);
    }
  }

  /** From its last lock release on, a call of nvm_durable_write has given its key the caller's block. */
  lemma WriteTookEffect(s: State, v: nat)
    requires Inv(s) && v < |s.writers|
    requires BeforePush(s.writers[v].pc) || s.writers[v].pc == WUnlockInode || s.writers[v].pc == WUnlockNode
    ensures Logical(s, WKey(s, v)) == Some(s.writers[v].data)
  {
    assert WriterOk(s, v);
    LogicalIsSpec(s, WKey(s, v));
  }

  // ------------------------------------------------------------------------------ CLEAN means durable

  /**
   A CLEAN inode's block is on stable storage, no later write to it is in flight, and it is what its key means.
   */
  lemma CleanIsDurable(s: State, i: nat)
    requires Inv(s) && i < |s.inodes| && s.inodes[i].state == CLEAN
    ensures KeyOf(s.inodes[i]) !in s.pending && s.inodes[i].block < |s.blocks|
    ensures Lookup(s.stable, KeyOf(s.inodes[i])) == Some(s.blocks[s.inodes[i].block]) == Logical(s, KeyOf(s.inodes[i]))
  {
    assert InodeOk(s, i) && KeyOk(s, KeyOf(s.inodes[i]));
    LogicalIsSpec(s, KeyOf(s.inodes[i]));
  }

  /** Sync thread q will still mark inode i CLEAN in this round: i is left of its snapshot or in its hands. */
  predicate Awaits(s: State, q: nat, i: nat)
    requires q < |s.syncers|
  {
    var w := s.syncers[q];
    && w.pc != SIdle && w.pc != SSync && w.n <= |At(s, Sync(q))|
    && (i in At(s, Sync(q))[..w.n] || (w.pc == SClean && w.cur == i))
  }

  /** The inodes that a sync thread will still mark CLEAN in this round were durable when its sync() returned. */
  lemma SnapshotIsDurable(s: State, q: nat, i: nat)
    requires Inv(s) && q < |s.syncers| && Awaits(s, q, i)
    ensures i < |s.inodes| && s.inodes[i].block < |s.blocks|
    ensures var x := s.inodes[i];
            && x.state == SYNC && x.lock == Flushing && KeyOf(x) !in s.pending
            && Lookup(s.stable, KeyOf(x)) == Some(s.blocks[x.block]) == Logical(s, KeyOf(x))
  {
    assert SyncerOk(s, q) && BoxOk(s, Sync(q));
    if s.syncers[q].pc != SClean || s.syncers[q].cur != i {
      var j: nat :| j < s.syncers[q].n && At(s, Sync(q))[j] == i;
      assert i in At(s, Sync(q));
    }
    assert InodeOk(s, i) && KeyOk(s, KeyOf(s.inodes[i]));
    LogicalIsSpec(s, KeyOf(s.inodes[i]));
  }

  // ---------------------------------------------------------------------------- conservation of inodes

  /** Place p has inode i, read off the queues and the threads' program counters and locals alone. */
  predicate Has(s: State, p: Place, i: nat)
    requires i < |s.inodes|
  {
    match p
    case In(id) => i in At(s, id)
    case Carried(v) =>
      v < |s.writers| && s.writers[v].i == i && (s.writers[v].pc == WTag || s.writers[v].pc == WDec || s.writers[v].pc == WAttach)
    case Bound(v) =>
      && v < |s.writers| && s.writers[v].i == i
      && (s.writers[v].pc == WLockNew
          || ((s.writers[v].pc == WLockInode || s.writers[v].pc == WMark) && s.inodes[i].state == FREE))
    case Filling(v) =>
      v < |s.writers| && s.writers[v].i == i && MidWrite(s.writers[v].pc) && s.writers[v].was == FREE
    case Filled(v) =>
      && v < |s.writers| && s.writers[v].i == i
      && ((MidWrite(s.writers[v].pc) && s.writers[v].was == CLEAN) || (BeforePush(s.writers[v].pc) && s.writers[v].was != DIRTY))
    case AtTryLock(f) => f < |s.flushers| && s.flushers[f].pc == FTry && s.flushers[f].cur == i
    case AtHandOff(f) => f < |s.flushers| && s.flushers[f].pc == FHand && s.flushers[f].cur == i
    case AtSyncer(q) => q < |s.syncers| && s.syncers[q].pc == SClean && s.syncers[q].cur == i
    case Resting => s.inodes[i].state == CLEAN
  }

  lemma WriterHasIsPlace(s: State, v: nat, i: nat)
    requires i < |s.inodes| && InodeOk(s, i) && v < |s.writers| && WriterOk(s, v)
    ensures Has(s, Carried(v), i) <==> s.inodes[i].place == Carried(v)
    ensures Has(s, Bound(v), i) <==> s.inodes[i].place == Bound(v)
    ensures Has(s, Filling(v), i) <==> s.inodes[i].place == Filling(v)
    ensures Has(s, Filled(v), i) <==> s.inodes[i].place == Filled(v)
  {
  }

  lemma HasIsPlace(s: State, p: Place, i: nat)
    requires Inv(s) && i < |s.inodes|
    ensures Has(s, p, i) <==> s.inodes[i].place == p
  {
    assert InodeOk(s, i);
    if p.In? {
      assert BoxOk(s, p.id);
    } else if p.AtTryLock? || p.AtHandOff? {
      if p.f < |s.flushers| { assert FlusherOk(s, p.f); }
    } else if p.AtSyncer? {
      if p.q < |s.syncers| { assert SyncerOk(s, p.q); }
    } else if !p.Resting? && p.v < |s.writers| {
      assert WriterOk(s, p.v);
      WriterHasIsPlace(s, p.v, i);
    }
  }

  /**
   Inode conservation: every inode is in exactly one place, at most once in a queue, and the place agrees with its
   state, its volume and its lock.
   */
  lemma OnePlace(s: State, i: nat) returns (p: Place)
    requires Inv(s) && i < |s.inodes|
    ensures forall other: Place :: Has(s, other, i) <==> other == p
    ensures s.inodes[i].state == StateOf(p)
    ensures p.In? ==> NoDup(At(s, p.id)) && (p.id.Dirty? ==> p.id.v == s.inodes[i].vol)
    ensures s.inodes[i].state == SYNC ==> s.inodes[i].lock == Flushing
  {
    p := s.inodes[i].place;
    assert InodeOk(s, i);
    if p.In? { assert BoxOk(s, p.id); }
    forall other: Place ensures Has(s, other, i) <==> other == p { HasIsPlace(s, other, i); }
  }

  /** A writer that holds an inode's lock finds it FREE, DIRTY or CLEAN. */
  lemma WriterNeverSeesSync(s: State, v: nat)
    requires Inv(s) && v < |s.writers| && s.writers[v].pc == WMark
    ensures s.writers[v].i < |s.inodes| && s.inodes[s.writers[v].i].state != SYNC
  {
    assert WriterOk(s, v);
    assert InodeOk(s, s.writers[v].i);
  }

  /** Some balloon thread will look at inode i, or a writer is about to dirty it. */
  predicate Findable(s: State, i: nat)
    requires i < |s.inodes|
  {
    var x := s.inodes[i];
    || (exists b | 0 <= b < |s.clean| :: i in s.clean[b])
    || (exists q | 0 <= q < |s.syncers| :: s.syncers[q].pc == SPush && s.syncers[q].cur == i)
    || (x.vol < |s.writers| && s.writers[x.vol].lbn == x.lbn && WillDirty(s.writers[x.vol].pc))
  }

  lemma CleanIsFindable(s: State, i: nat)
    requires Inv(s) && i < |s.inodes| && s.inodes[i].state == CLEAN && i !in s.dropped
    ensures Findable(s, i)
  {
    assert CleanOk(s, i) && InodeOk(s, i);
  }

  /** A balloon thread gives up on a CLEAN inode while the writer that holds its node has only the node left to unlock. */
  predicate Drops(s: State, a: Action) {
    && a.Balloon? && a.b < |s.clean| && s.clean[a.b] != [] && s.clean[a.b][0] < |s.inodes|
    && var x := s.inodes[s.clean[a.b][0]];
    && x.state == CLEAN && x.vol < |s.writers| && s.writers[x.vol].pc == WUnlockNode && s.writers[x.vol].lbn == x.lbn
  }

  lemma DroppedOnlyByDrops(s: State, a: Action)
    requires Inv(s) && Guard(s, a)
    ensures Safe(s, a) && (!Drops(s, a) ==> Do(s, a).dropped <= s.dropped)
  {
    StepKeeps(s, a);
    match a
    case Begin(v, lbn, data) => Writers.BeginKeeps(s, v, lbn, data);
    case Write(v) => Writers.WriterKeeps(s, v);
    case Tear(v, junk) => Writers.TearKeeps(s, v, junk);
    case Flush(f, write) => Flushers.FlusherKeeps(s, f, write);
    case DoSync(q) => Syncers.SyncerKeeps(s, q);
    case Balloon(b) => BalloonDrops(s, b);
  }

  lemma BalloonDrops(s: State, b: nat)
    requires Inv(s) && b < |s.clean| && BalloonGuard(s, b) && BalloonSafe(s, b)
    ensures Drops(s, Balloon(b)) || BalloonStep(s, b).dropped <= s.dropped
  {
    var i := s.clean[b][0];
    assert InodeOk(s, i) && KeyOk(s, KeyOf(s.inodes[i]));
    BalloonLeaves(s, b);
  }

  /** What is left of a dropped inode's place in the clean flow: another copy of its index. */
  predicate HasCopy(s: State, i: nat) {
    || (exists b | 0 <= b < |s.clean| :: i in s.clean[b])
    || (exists q | 0 <= q < |s.syncers| :: s.syncers[q].pc == SPush && s.syncers[q].cur == i)
  }

  /** A drop does lose its inode: it stays CLEAN, and is still findable if and only if its index has another copy. */
  lemma DropLoses(s: State, b: nat)
    requires Inv(s) && Guard(s, Balloon(b)) && Drops(s, Balloon(b))
    ensures Safe(s, Balloon(b)) && s.clean[b][0] < |Do(s, Balloon(b)).inodes|
    ensures var t, i := Do(s, Balloon(b)), s.clean[b][0];
            t.inodes[i].state == CLEAN && (Findable(t, i) <==> HasCopy(t, i))
  {
    StepKeeps(s, Balloon(b));
    var i := s.clean[b][0];
    DropIsStep(s, b);
    assert StepDrop(s, b).inodes == s.inodes && StepDrop(s, b).writers == s.writers;
    FindableByCopy(StepDrop(s, b), i);
  }

  lemma DropIsStep(s: State, b: nat)
    requires Inv(s) && Drops(s, Balloon(b)) && BalloonSafe(s, b)
    ensures BalloonStep(s, b) == StepDrop(s, b)
  {
    var i := s.clean[b][0];
    assert InodeOk(s, i) && WriterOk(s, s.inodes[i].vol);
  }

  lemma FindableByCopy(s: State, i: nat)
    requires i < |s.inodes| && s.inodes[i].vol < |s.writers| && s.writers[s.inodes[i].vol].pc == WUnlockNode
    ensures Findable(s, i) <==> HasCopy(s, i)
  {
  }

  ghost predicate NeverDrops(s: State, run: seq<Action>)
    requires ValidRun(s, run)
    decreases |run|
  {
    run == [] || (!Drops(s, run[0]) && NeverDrops(Do(s, run[0]), run[1..]))
  }

  /** If no balloon pass falls between a writer's two unlocks, no CLEAN inode is ever lost to the balloon threads. */
  lemma {:induction false} NothingLost(s: State, run: seq<Action>, i: nat)
    requires Inv(s) && ValidRun(s, run) && NeverDrops(s, run) && s.dropped == {}
    requires i < |Exec(s, run).inodes| && Exec(s, run).inodes[i].state == CLEAN
    ensures Findable(Exec(s, run), i)
    decreases |run|
  {
    if run == [] {
      CleanIsFindable(s, i);
    } else {
      StepKeeps(s, run[0]);
      DroppedOnlyByDrops(s, run[0]);
      NothingLost(Do(s, run[0]), run[1..], i);
    }
  }

  // ------------------------------------------------------------------------------------ index agreement

  /** Every non-FREE inode is the one its own key's valid node points to, so no key has two. */
  lemma IndexAgrees(s: State, i: nat)
    requires Inv(s) && i < |s.inodes| && s.inodes[i].state != FREE
    ensures ValidAt(s, KeyOf(s.inodes[i])) && s.nodes[KeyOf(s.inodes[i])].inode == Some(i)
    ensures forall k: Key | ValidAt(s, k) && s.nodes[k].inode == Some(i) :: k == KeyOf(s.inodes[i])
    ensures forall j: nat | j < |s.inodes| && s.inodes[j].state != FREE && KeyOf(s.inodes[j]) == KeyOf(s.inodes[i]) :: j == i
  {
    assert InodeOk(s, i);
    forall k: Key | ValidAt(s, k) && s.nodes[k].inode == Some(i) ensures k == KeyOf(s.inodes[i]) {
      assert KeyOk(s, k);
    }
    forall j: nat | j < |s.inodes| && s.inodes[j].state != FREE && KeyOf(s.inodes[j]) == KeyOf(s.inodes[i])
      ensures j == i
    {
      assert InodeOk(s, j);
    }
  }

  /** Distinct valid nodes point to distinct inodes, each carrying its node's key. */
  lemma ValidNodesAreDistinct(s: State, k: Key, l: Key)
    requires Inv(s) && ValidAt(s, k) && ValidAt(s, l)
    ensures s.nodes[k].inode.Some? && s.nodes[k].inode.value < |s.inodes|
    ensures KeyOf(s.inodes[s.nodes[k].inode.value]) == k
    ensures s.nodes[k].inode == s.nodes[l].inode ==> k == l
  {
    assert KeyOk(s, k) && KeyOk(s, l);
  }

  // ------------------------------------------------------------------------- block ownership is a bijection

  predicate Owns(s: State, o: Owner, b: nat) {
    match o
    case OfInode(i) => i < |s.inodes| && s.inodes[i].block == b
    case OfVolume(v) => v < |s.spare| && s.spare[v] == b
  }

  ghost predicate Owned(s: State, b: nat) {
    exists o: Owner :: Owns(s, o, b)
  }

  /** Every block has one owner, and every index of an owner is a block. */
  ghost predicate Bijection(s: State) {
    && (forall o: Owner, b: nat | Owns(s, o, b) :: b < |s.blocks|)
    && (forall b: nat | b < |s.blocks| :: Owned(s, b))
    && (forall o: Owner, p: Owner, b: nat | Owns(s, o, b) && Owns(s, p, b) :: o == p)
  }

  predicate Exchanging(s: State) {
    exists v: nat | v < |s.writers| :: s.writers[v].pc == WSwap
  }

  lemma OwnerOf(s: State, o: Owner, b: nat)
    requires Inv(s) && !Exchanging(s) && Owns(s, o, b)
    ensures b < |s.owner| && s.owner[b] == o
  {
    match o
    case OfInode(i) => assert InodeOk(s, i);
    case OfVolume(v) => assert WriterOk(s, v);
  }

  /** The blocks of the inodes, then the spare blocks of the volumes. */
  function OwnedBlocks(s: State): seq<nat> {
    seq(|s.inodes| + |s.spare|, k requires 0 <= k < |s.inodes| + |s.spare| =>
      if k < |s.inodes| then s.inodes[k].block else s.spare[k - |s.inodes|])
  }

  function OwnerAt(s: State, k: nat): Owner {
    if k < |s.inodes| then OfInode(k) else OfVolume(k - |s.inodes|)
  }

  lemma OwnedBlocksAreDistinct(s: State)
    requires Inv(s) && !Exchanging(s)
    ensures NoDup(OwnedBlocks(s)) && forall b | b in OwnedBlocks(s) :: b < |s.blocks|
  {
    var q := OwnedBlocks(s);
    forall k: nat | k < |q| ensures q[k] < |s.owner| && s.owner[q[k]] == OwnerAt(s, k) {
      OwnerOf(s, OwnerAt(s, k), q[k]);
    }
  }

  /**
   Block ownership is a bijection between blocks and inodes and volumes together, except exactly while some writer
   is between the two stores that exchange its inode's block with its volume's.
   */
  lemma BijectionUnlessExchanging(s: State)
    requires Inv(s)
    ensures Bijection(s) <==> !Exchanging(s)
  {
    if Exchanging(s) {
      var v: nat :| v < |s.writers| && s.writers[v].pc == WSwap;
      assert WriterOk(s, v);
      assert Owns(s, OfVolume(v), s.spare[v]) && Owns(s, OfInode(s.writers[v].i), s.spare[v]);
    } else {
      OwnedBlocksAreDistinct(s);
      Pigeonhole(OwnedBlocks(s), |s.blocks|);
      forall b: nat | b < |s.blocks| ensures Owned(s, b) {
        assert b in OwnedBlocks(s);
        var k :| 0 <= k < |OwnedBlocks(s)| && OwnedBlocks(s)[k] == b;
        assert Owns(s, OwnerAt(s, k), b);
      }
      forall o: Owner, b: nat | Owns(s, o, b) ensures b < |s.blocks| && s.owner[b] == o { OwnerOf(s, o, b); }
    }
  }
}
