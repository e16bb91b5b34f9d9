/** Crash, recovery_start and reboot. */
module Recovery {
  import opened Queues
  import opened BurstBuffer
  import opened BurstInvariant
  import opened BurstRuns
  import opened BurstTheorems

  predicate NeedsRecovery(x: Inode) {
    x.state == DIRTY || x.state == SYNC
  }

  /** lseek(fd, nvm->block_size * inode->lbn, SEEK_SET): the product of two uint32_t values, so it wraps. */
  function Target(x: Inode): Key {
    Key(x.vol, BLOCK_SIZE * x.lbn % UINT32 / BLOCK_SIZE)
  }

  predicate Fits(x: Inode) { x.lbn * BLOCK_SIZE < UINT32 }

  /** recovery_start writes an inode's block to the inode's own place exactly when its byte offset fits 32 bits. */
  lemma TargetIsOwnPlace(x: Inode)
    ensures Target(x) == KeyOf(x) <==> Fits(x)
  {
    if Fits(x) {
      assert Target(x).lbn == x.lbn;
    } else {
      assert Target(x).lbn * BLOCK_SIZE <= BLOCK_SIZE * x.lbn % UINT32 < UINT32;
    }
  }

  /** The wrapped offset is that of the block number modulo 2^18. */
  lemma TargetIsModulo(x: Inode)
    ensures Target(x) == Key(x.vol, x.lbn % 0x4_0000)
  {
    var q, r := x.lbn / 0x4_0000, x.lbn % 0x4_0000;
    assert BLOCK_SIZE * x.lbn == UINT32 * q + BLOCK_SIZE * r;
  }

  /** The files after the first loop of recovery_start has seen the first n inodes. */
  function Rewrite(inodes: seq<Inode>, blocks: seq<Block>, n: nat, files: map<Key, Block>): map<Key, Block>
    requires n <= |inodes| && forall i: nat | i < |inodes| :: inodes[i].block < |blocks|
  {
    if n == 0 then files
    else
      var before := Rewrite(inodes, blocks, n - 1, files);
      var x := inodes[n - 1];
      if NeedsRecovery(x) then before[Target(x) := blocks[x.block]] else before
  }

  function Recovered(x: Inode): Inode {
    if NeedsRecovery(x) then x.(state := CLEAN) else x
  }

  /** The table when the second loop of recovery_start has seen the first n inodes. */
  function PartlyRecovered(inodes: seq<Inode>, n: nat): (r: seq<Inode>)
    ensures |r| == |inodes|
  {
    seq(|inodes|, i requires 0 <= i < |inodes| => if i < n then Recovered(inodes[i]) else inodes[i])
  }

  /** y is x but for the state, which is CLEAN where it was DIRTY or SYNC. */
  predicate CleanedOnly(x: Inode, y: Inode) {
    && y.lbn == x.lbn && y.vol == x.vol && y.block == x.block && y.lock == x.lock && y.place == x.place
    && y.state == (match x.state
                   case DIRTY => CLEAN
                   case SYNC => CLEAN
                   case other => other)
  }

  /**
   The two loops of recovery_start over the inode table: the files are rewritten, and every inode keeps its block number,
   volume, block and lock, and its state unless that was DIRTY or SYNC.
   */
  method RecoveryStart(inodes: array<Inode>, blocks: array<Block>, disk: map<Key, Block>) returns (files: map<Key, Block>)
    requires forall i: nat | i < inodes.Length :: inodes[i].block < blocks.Length
    modifies inodes
    ensures files == Rewrite(old(inodes[..]), blocks[..], inodes.Length, disk)
    ensures inodes[..] == PartlyRecovered(old(inodes[..]), inodes.Length)
    ensures forall i: nat | i < inodes.Length :: CleanedOnly(old(inodes[i]), inodes[i])
  {
    files := disk;
    var idx := 0;
    while idx < inodes.Length
      invariant idx <= inodes.Length
      invariant inodes[..] == old(inodes[..])
      invariant files == Rewrite(old(inodes[..]), blocks[..], idx, disk)
    {
      var x := inodes[idx];
      if x.state == DIRTY || x.state == SYNC {
        files := files[Target(x) := blocks[x.block]];
      }
      idx := idx + 1;
    }
    idx := 0;
    while idx < inodes.Length
      invariant idx <= inodes.Length
      invariant inodes[..] == PartlyRecovered(old(inodes[..]), idx)
    {
      if inodes[idx].state == DIRTY || inodes[idx].state == SYNC {
        inodes[idx] := inodes[idx].(state := CLEAN);
      }
      idx := idx + 1;
    }
  }

  // ------------------------------------------------------------------------------------------ crash

  /** What a crash may leave on the device: of each key's writes since the last sync(), any one or none. */
  ghost predicate CrashImage(s: State, disk: map<Key, Block>) {
    forall k: Key :: Lookup(disk, k) == Lookup(s.stable, k)
                  || (k in s.pending && k in disk && disk[k] in s.pending[k])
  }

  /** No write is between marking a newly taken inode DIRTY and giving it its block. */
  predicate NoHalfMarked(s: State) {
    forall v: nat | v < |s.writers| :: !(MidWrite(s.writers[v].pc) && s.writers[v].was == FREE)
  }

  predicate OffsetsFit(s: State) {
    forall i: nat | i < |s.inodes| && NeedsRecovery(s.inodes[i]) :: Fits(s.inodes[i])
  }

  lemma BlocksExist(s: State)
    requires Inv(s)
    ensures forall i: nat | i < |s.inodes| :: s.inodes[i].block < |s.blocks|
  {
    forall i: nat | i < |s.inodes| ensures s.inodes[i].block < |s.blocks| { assert InodeOk(s, i); }
  }

  function AfterRecovery(s: State, disk: map<Key, Block>): map<Key, Block>
    requires forall i: nat | i < |s.inodes| :: s.inodes[i].block < |s.blocks|
  {
    Rewrite(s.inodes, s.blocks, |s.inodes|, disk)
  }

  /** The last of the first n inodes whose block recovery writes to k's place, or -1. */
  function LastTo(inodes: seq<Inode>, n: nat, k: Key): (j: int)
    requires n <= |inodes|
    ensures j < n && (j >= 0 ==> NeedsRecovery(inodes[j]) && Target(inodes[j]) == k)
    ensures forall i: nat | j < i < n && NeedsRecovery(inodes[i]) :: Target(inodes[i]) != k
  {
    if n == 0 then -1
    else if NeedsRecovery(inodes[n - 1]) && Target(inodes[n - 1]) == k then n - 1
    else LastTo(inodes, n - 1, k)
  }

  lemma {:induction false} RewriteIs(inodes: seq<Inode>, blocks: seq<Block>, n: nat, files: map<Key, Block>, k: Key)
    requires n <= |inodes| && forall i: nat | i < |inodes| :: inodes[i].block < |blocks|
    ensures var j := LastTo(inodes, n, k);
            Lookup(Rewrite(inodes, blocks, n, files), k) == if j < 0 then Lookup(files, k) else Some(blocks[inodes[j].block])
  {
    if n > 0 { RewriteIs(inodes, blocks, n - 1, files, k); }
  }

  // ------------------------------------------------------------------------------ which keys are restored

  /** Inode i needs recovery and has its block. */
  predicate Buffered(s: State, i: nat)
    requires i < |s.inodes|
  {
    NeedsRecovery(s.inodes[i]) && HasBlock(s, i)
  }

  /**
   The inode that buffers k, if there is one, has an offset that fits, and comes behind every other inode whose block
   recovery writes to k's place; if no inode buffers k, recovery writes nothing there.
   */
  predicate Spared(s: State, k: Key) {
    forall j: nat | j < |s.inodes| && NeedsRecovery(s.inodes[j]) ::
      if KeyOf(s.inodes[j]) == k && HasBlock(s, j) then Fits(s.inodes[j])
      else Target(s.inodes[j]) == k ==> exists i: nat | j < i < |s.inodes| :: Buffered(s, i) && KeyOf(s.inodes[i]) == k
  }

  predicate Unbuffered(s: State, k: Key) {
    forall i: nat | i < |s.inodes| && Buffered(s, i) :: KeyOf(s.inodes[i]) != k
  }

  /** A spared key is one whose place the inode that buffers it is the last to be written to. */
  lemma SparedLast(s: State, k: Key)
    requires Inv(s)
    ensures var j := LastTo(s.inodes, |s.inodes|, k);
            Spared(s, k) <==> if j >= 0 then KeyOf(s.inodes[j]) == k && HasBlock(s, j) else Unbuffered(s, k)
  {
    var j := LastTo(s.inodes, |s.inodes|, k);
    forall i: nat | i < |s.inodes| && NeedsRecovery(s.inodes[i]) && KeyOf(s.inodes[i]) == k
      ensures Fits(s.inodes[i]) <==> Target(s.inodes[i]) == k
      ensures forall l: nat | l < |s.inodes| && NeedsRecovery(s.inodes[l]) && KeyOf(s.inodes[l]) == k :: l == i
    {
      TargetIsOwnPlace(s.inodes[i]);
      IndexAgrees(s, i);
    }
  }

  /** t is s up to the contents of blocks whose inodes need recovery. */
  ghost predicate SameButBuffered(s: State, t: State) {
    && |t.blocks| == |s.blocks| && t == s.(blocks := t.blocks)
    && (forall b: nat | b < |s.blocks| && (forall i: nat | i < |s.inodes| && NeedsRecovery(s.inodes[i]) :: s.inodes[i].block != b)
          :: t.blocks[b] == s.blocks[b])
  }

  lemma BufferedLogical(s: State, t: State, i: nat)
    requires Inv(s) && SameButBuffered(s, t) && i < |s.inodes| && Buffered(s, i)
    ensures s.inodes[i].block < |s.blocks| && Logical(t, KeyOf(s.inodes[i])) == Some(t.blocks[s.inodes[i].block])
  {
    assert InodeOk(s, i);
    IndexAgrees(s, i);
  }

  lemma OtherLogical(s: State, t: State, k: Key)
    requires Inv(s) && SameButBuffered(s, t) && Unbuffered(s, k)
    ensures Logical(t, k) == Logical(s, k)
  {
    assert KeyOk(s, k);
    if ValidAt(s, k) {
      var x := s.nodes[k].inode.value;
      assert InodeOk(s, x);
      forall i: nat | i < |s.inodes| && NeedsRecovery(s.inodes[i]) && i != x ensures s.inodes[i].block != s.inodes[x].block {
        assert InodeOk(s, i);
      }
    }
  }

  /** A key that no inode buffers is on the device already. */
  lemma UnbufferedOnDisk(s: State, disk: map<Key, Block>, k: Key)
    requires Inv(s) && CrashImage(s, disk) && Unbuffered(s, k)
    ensures Lookup(disk, k) == Logical(s, k)
  {
    assert KeyOk(s, k);
    LogicalIsSpec(s, k);
    if ValidAt(s, k) {
      assert InodeOk(s, s.nodes[k].inode.value);
      HasBlockIsNotFresh(s, s.nodes[k].inode.value);
    }
  }

  lemma RestoredKey(s: State, t: State, disk: map<Key, Block>, k: Key)
    requires Inv(s) && SameButBuffered(s, t) && CrashImage(t, disk) && Spared(s, k)
    ensures forall j: nat | j < |t.inodes| :: t.inodes[j].block < |t.blocks|
    ensures Lookup(AfterRecovery(t, disk), k) == Logical(t, k)
  {
    BlocksExist(s);
    SparedLast(s, k);
    var j := LastTo(s.inodes, |s.inodes|, k);
    RewriteIs(t.inodes, t.blocks, |t.inodes|, disk, k);
    if j >= 0 {
      BufferedLogical(s, t, j);
    } else {
      assert CrashImage(s, disk);
      UnbufferedOnDisk(s, disk, k);
      OtherLogical(s, t, k);
    }
  }

  /**
   Crash and recovery lose nothing of a spared key: whatever subset of the unsynced writes reached the device,
   recovery_start leaves in the file what the key meant when the crash came. A write in flight counts as done from its
   exchange of blocks on, so an overwritten block is wholly the old or wholly the new one.
   */
  lemma CrashLosesNothing(s: State, disk: map<Key, Block>, k: Key)
    requires Inv(s) && CrashImage(s, disk) && Spared(s, k)
    ensures forall j: nat | j < |s.inodes| :: s.inodes[j].block < |s.blocks|
    ensures Lookup(AfterRecovery(s, disk), k) == Logical(s, k)
  {
    RestoredKey(s, s, disk, k);
  }

  /**
   A crash in the first loop of recovery_start, with any of its writes kept, whole or torn, earlier or later, changes
   nothing of what recovery leaves in the end: where recovery writes, `again` is free.
   */
  lemma RecoveryRestarts(s: State, disk: map<Key, Block>, again: map<Key, Block>, k: Key)
    requires forall i: nat | i < |s.inodes| :: s.inodes[i].block < |s.blocks|
    requires LastTo(s.inodes, |s.inodes|, k) >= 0 || Lookup(again, k) == Lookup(disk, k)
    ensures Lookup(AfterRecovery(s, again), k) == Lookup(AfterRecovery(s, disk), k)
  {
    RewriteIs(s.inodes, s.blocks, |s.inodes|, disk, k);
    RewriteIs(s.inodes, s.blocks, |s.inodes|, again, k);
  }

  /** An inode that is CLEAN already is not written again, and hides none that comes later. */
  lemma {:induction false} LastToPartly(inodes: seq<Inode>, n: nat, m: nat, k: Key)
    requires m <= |inodes|
    ensures var j := LastTo(inodes, m, k); LastTo(PartlyRecovered(inodes, n), m, k) == if j < n then -1 else j
  {
    if m > 0 { LastToPartly(inodes, n, m - 1, k); }
  }

  /**
   A crash in the second loop, when all that recovery writes is on the device and the first n inodes are CLEAN, changes
   nothing either: recovery from that table leaves every file as it is.
   */
  lemma RecoveryEnds(s: State, disk: map<Key, Block>, n: nat, k: Key)
    requires forall i: nat | i < |s.inodes| :: s.inodes[i].block < |s.blocks|
    ensures var t, files := s.(inodes := PartlyRecovered(s.inodes, n)), AfterRecovery(s, disk);
            && (forall i: nat | i < |t.inodes| :: t.inodes[i].block < |t.blocks|)
            && Lookup(AfterRecovery(t, files), k) == Lookup(files, k)
  {
    var t := s.(inodes := PartlyRecovered(s.inodes, n));
    LastToPartly(s.inodes, n, |s.inodes|, k);
    RewriteIs(s.inodes, s.blocks, |s.inodes|, disk, k);
    RewriteIs(t.inodes, t.blocks, |t.inodes|, AfterRecovery(s, disk), k);
  }

  // ----------------------------------------------------------------------- when recovery is not exact

  ghost predicate KeyExact(t: State, k: Key) {
    && (forall i: nat | i < |t.inodes| :: t.inodes[i].block < |t.blocks|)
    && (forall disk: map<Key, Block> | CrashImage(t, disk) :: Lookup(AfterRecovery(t, disk), k) == Logical(t, k))
  }

  ghost predicate RecoveryExact(s: State) {
    forall k: Key :: KeyExact(s, k)
  }

  lemma SparedIsExact(s: State, t: State, k: Key)
    requires Inv(s) && SameButBuffered(s, t) && Spared(s, k)
    ensures KeyExact(t, k)
  {
    BlocksExist(s);
    forall disk: map<Key, Block> | CrashImage(t, disk) ensures Lookup(AfterRecovery(t, disk), k) == Logical(t, k) {
      RestoredKey(s, t, disk, k);
    }
  }

  /** Some contents of inode i's block, alone, differ from a given value. */
  lemma Refilled(s: State, i: nat, b: Option<Block>) returns (t: State)
    requires Inv(s) && i < |s.inodes| && NeedsRecovery(s.inodes[i])
    ensures SameButBuffered(s, t) && s.inodes[i].block < |s.blocks| && Some(t.blocks[s.inodes[i].block]) != b
    ensures forall c: nat | c < |s.blocks| && c != s.inodes[i].block :: t.blocks[c] == s.blocks[c]
  {
    assert InodeOk(s, i);
    t := s.(blocks := s.blocks[s.inodes[i].block := if b == Some(0) then 1 else 0]);
  }

  /** A crash may leave none of the unsynced writes, and then recovery leaves the last block written to k's place. */
  lemma ExactMeans(t: State, k: Key)
    requires KeyExact(t, k)
    ensures var j := LastTo(t.inodes, |t.inodes|, k);
            Logical(t, k) == if j < 0 then Lookup(t.stable, k) else Some(t.blocks[t.inodes[j].block])
  {
    assert CrashImage(t, t.stable);
    RewriteIs(t.inodes, t.blocks, |t.inodes|, t.stable, k);
  }

  /** What is buffered for k is lost: another inode's block is written over it, or its own block is written elsewhere. */
  lemma BlockIsLost(s: State, k: Key, i: nat) returns (t: State)
    requires Inv(s) && !Spared(s, k) && i < |s.inodes| && Buffered(s, i) && KeyOf(s.inodes[i]) == k
    ensures SameButBuffered(s, t) && !KeyExact(t, k)
  {
    BlocksExist(s);
    SparedLast(s, k);
    IndexAgrees(s, i);
    var j := LastTo(s.inodes, |s.inodes|, k);
    assert InodeOk(s, i);
    if j >= 0 { assert InodeOk(s, j); }
    t := Refilled(s, i, if j < 0 then Lookup(s.stable, k) else Some(s.blocks[s.inodes[j].block]));
    BufferedLogical(s, t, i);
    if KeyExact(t, k) { ExactMeans(t, k); }
  }

  /** What the file holds under k is written over, by a wrapped offset's block or a half-marked inode's left-overs. */
  lemma FileIsLost(s: State, k: Key) returns (t: State)
    requires Inv(s) && !Spared(s, k) && Unbuffered(s, k)
    ensures SameButBuffered(s, t) && !KeyExact(t, k)
  {
    BlocksExist(s);
    SparedLast(s, k);
    var j := LastTo(s.inodes, |s.inodes|, k);
    t := Refilled(s, j, Logical(s, k));
    OtherLogical(s, t, k);
    if KeyExact(t, k) { ExactMeans(t, k); }
  }

  lemma NotSparedIsInexact(s: State, k: Key) returns (t: State)
    requires Inv(s) && !Spared(s, k)
    ensures SameButBuffered(s, t) && !KeyExact(t, k)
  {
    if i: nat :| i < |s.inodes| && Buffered(s, i) && KeyOf(s.inodes[i]) == k {
      t := BlockIsLost(s, k, i);
    } else {
      t := FileIsLost(s, k);
    }
  }

  /**
   Recovery leaves in the file what k means, for all contents of the blocks it writes and all crash images, if and only
   if k is spared.
   */
  lemma KeyExactIffSpared(s: State, k: Key)
    requires Inv(s)
    ensures Spared(s, k) <==> forall t: State | SameButBuffered(s, t) :: KeyExact(t, k)
  {
    if Spared(s, k) {
      forall t: State | SameButBuffered(s, t) ensures KeyExact(t, k) { SparedIsExact(s, t, k); }
    } else {
      var t := NotSparedIsInexact(s, k);
    }
  }

  lemma ExactIffAllSpared(s: State)
    requires Inv(s)
    ensures (forall k: Key :: Spared(s, k)) <==> forall t: State | SameButBuffered(s, t) :: RecoveryExact(t)
  {
    if forall k: Key :: Spared(s, k) {
      forall t: State, k: Key | SameButBuffered(s, t) ensures KeyExact(t, k) { SparedIsExact(s, t, k); }
    } else {
      var k: Key :| !Spared(s, k);
      var t := NotSparedIsInexact(s, k);
      assert !RecoveryExact(t);
    }
  }

  lemma NoHalfMarkedMeans(s: State)
    requires Inv(s)
    ensures NoHalfMarked(s) <==> forall i: nat | i < |s.inodes| && NeedsRecovery(s.inodes[i]) :: HasBlock(s, i)
  {
    forall v: nat | v < |s.writers| && MidWrite(s.writers[v].pc) && s.writers[v].was == FREE
      ensures var i := s.writers[v].i; i < |s.inodes| && NeedsRecovery(s.inodes[i]) && !HasBlock(s, i)
    {
      assert WriterOk(s, v);
      assert InodeOk(s, s.writers[v].i);
    }
  }

  lemma AllSparedIf(s: State)
    requires Inv(s) && NoHalfMarked(s) && OffsetsFit(s)
    ensures forall k: Key :: Spared(s, k)
  {
    NoHalfMarkedMeans(s);
    forall j: nat | j < |s.inodes| && NeedsRecovery(s.inodes[j])
      ensures Fits(s.inodes[j]) && HasBlock(s, j) && Target(s.inodes[j]) == KeyOf(s.inodes[j])
    {
      TargetIsOwnPlace(s.inodes[j]);
    }
  }

  /** With no write half marked, recovery is exact if and only if the byte offset of every inode that needs it fits 32 bits. */
  lemma ExactIffOffsetsFit(s: State)
    requires Inv(s) && NoHalfMarked(s)
    ensures OffsetsFit(s) <==> forall t: State | SameButBuffered(s, t) :: RecoveryExact(t)
  {
    ExactIffAllSpared(s);
    NoHalfMarkedMeans(s);
    if OffsetsFit(s) {
      AllSparedIf(s);
    } else {
      var i: nat :| i < |s.inodes| && NeedsRecovery(s.inodes[i]) && !Fits(s.inodes[i]);
      assert !Spared(s, KeyOf(s.inodes[i]));
    }
  }

  predicate HalfMarked(s: State, i: nat) {
    exists v: nat | v < |s.writers| :: s.writers[v].i == i && MidWrite(s.writers[v].pc) && s.writers[v].was == FREE
  }

  /** t is s up to what half-marked inodes' blocks happen to contain: left-overs of other keys. */
  ghost predicate SameButLeftovers(s: State, t: State) {
    && |t.blocks| == |s.blocks| && t == s.(blocks := t.blocks)
    && (forall b: nat | b < |s.blocks| && (forall i: nat | i < |s.inodes| && HalfMarked(s, i) :: s.inodes[i].block != b)
          :: t.blocks[b] == s.blocks[b])
  }

  lemma HalfMarkedKey(s: State, v: nat)
    requires Inv(s) && v < |s.writers| && MidWrite(s.writers[v].pc) && s.writers[v].was == FREE
    ensures var i := s.writers[v].i;
            i < |s.inodes| && NeedsRecovery(s.inodes[i]) && KeyOf(s.inodes[i]) == WKey(s, v) && HalfMarked(s, i) && !HasBlock(s, i)
    ensures Unbuffered(s, WKey(s, v)) && Logical(s, WKey(s, v)) == Lookup(s.stable, WKey(s, v))
  {
    assert WriterOk(s, v);
    var i := s.writers[v].i;
    assert InodeOk(s, i) && KeyOk(s, WKey(s, v));
    IndexAgrees(s, i);
  }

  /** With a half-marked inode, left-overs that differ from the file are written over the file. */
  lemma InexactIfHalfMarked(s: State, v: nat) returns (t: State)
    requires Inv(s) && OffsetsFit(s) && v < |s.writers| && MidWrite(s.writers[v].pc) && s.writers[v].was == FREE
    ensures SameButLeftovers(s, t) && SameButBuffered(s, t) && !RecoveryExact(t)
  {
    var i, k := s.writers[v].i, WKey(s, v);
    HalfMarkedKey(s, v);
    t := Refilled(s, i, Lookup(s.stable, k));
    OtherLogical(s, t, k);
    TargetIsOwnPlace(s.inodes[i]);
    var j := LastTo(s.inodes, |s.inodes|, k);
    TargetIsOwnPlace(s.inodes[j]);
    IndexAgrees(s, i);
    if KeyExact(t, k) { ExactMeans(t, k); }
  }

  /**
   With offsets that fit, recovery is exact, for all contents of the recycled blocks and all crash images, if and only if
   no write is between marking a newly taken inode DIRTY and giving it its block.
   */
  lemma ExactIffNotHalfMarked(s: State)
    requires Inv(s) && OffsetsFit(s)
    ensures NoHalfMarked(s) <==> forall t: State | SameButLeftovers(s, t) :: RecoveryExact(t)
  {
    if NoHalfMarked(s) {
      AllSparedIf(s);
      forall t: State, k: Key | SameButLeftovers(s, t) ensures KeyExact(t, k) {
        assert t.blocks == s.blocks;
        SparedIsExact(s, s, k);
      }
    } else {
      var v: nat :| v < |s.writers| && MidWrite(s.writers[v].pc) && s.writers[v].was == FREE;
      var t := InexactIfHalfMarked(s, v);
    }
  }

  /** A block whose byte offset does not fit 32 bits is not restored: its own place keeps what the crash left there. */
  lemma WrappedOffsetIsLost(s: State, disk: map<Key, Block>, i: nat)
    requires Inv(s) && i < |s.inodes| && NeedsRecovery(s.inodes[i]) && !Fits(s.inodes[i])
    ensures forall j: nat | j < |s.inodes| :: s.inodes[j].block < |s.blocks|
    ensures Lookup(AfterRecovery(s, disk), KeyOf(s.inodes[i])) == Lookup(disk, KeyOf(s.inodes[i]))
  {
    BlocksExist(s);
    RewriteIs(s.inodes, s.blocks, |s.inodes|, disk, KeyOf(s.inodes[i]));
  }

  /** It is written over another key of the volume instead, unless a later inode's block is written there. */
  lemma WrappedOffsetHits(s: State, disk: map<Key, Block>, i: nat)
    requires Inv(s) && i < |s.inodes| && NeedsRecovery(s.inodes[i]) && !Fits(s.inodes[i])
    ensures Target(s.inodes[i]).vol == s.inodes[i].vol && Target(s.inodes[i]).lbn < s.inodes[i].lbn
    ensures forall j: nat | j < |s.inodes| :: s.inodes[j].block < |s.blocks|
    ensures (forall j: nat | i < j < |s.inodes| && NeedsRecovery(s.inodes[j]) :: Target(s.inodes[j]) != Target(s.inodes[i])) ==>
              Lookup(AfterRecovery(s, disk), Target(s.inodes[i])) == Some(s.blocks[s.inodes[i].block])
  {
    BlocksExist(s);
    RewriteIs(s.inodes, s.blocks, |s.inodes|, disk, Target(s.inodes[i]));
  }

  // ----------------------------------------------------------------------------------------- reboot

  /** The block indices that nvm_system_init finds in a table. */
  function BlocksIn(inodes: seq<Inode>): seq<nat> {
    seq(|inodes|, i requires 0 <= i < |inodes| => inodes[i].block)
  }

  /** The table that recovery_start leaves. */
  function RecoveredTable(s: State): (r: seq<Inode>)
    ensures |r| == |s.inodes|
  {
    PartlyRecovered(s.inodes, |s.inodes|)
  }

  lemma OwnersStand(s: State)
    requires Inv(s) && !Exchanging(s)
    ensures OwnersAgree(s.owner, BlocksIn(RecoveredTable(s)), s.spare)
  {
    forall i: nat | i < |s.inodes| ensures s.inodes[i].block < |s.owner| && s.owner[s.inodes[i].block] == OfInode(i) {
      assert InodeOk(s, i);
    }
    forall v: nat | v < |s.spare| ensures s.spare[v] < |s.owner| && s.owner[s.spare[v]] == OfVolume(v) {
      OwnerOf(s, OfVolume(v), s.spare[v]);
    }
  }

  /**
   After a crash outside the exchange of blocks, nvm_system_init, which boots from the table and the files that recovery
   leaves, leads to a state from which every theorem about runs applies again, and in which every spared key means what
   it meant before.
   */
  lemma RebootContinues(s: State, disk: map<Key, Block>, flushers: nat)
    requires Inv(s) && CrashImage(s, disk) && !Exchanging(s)
    ensures forall j: nat | j < |s.inodes| :: s.inodes[j].block < |s.blocks|
    ensures OwnersAgree(s.owner, BlocksIn(RecoveredTable(s)), s.spare)
    ensures var t := Boot(BlocksIn(RecoveredTable(s)), s.spare, s.owner, s.blocks, AfterRecovery(s, disk), flushers);
            Reachable(t) && Inv(t) && forall k: Key | Spared(s, k) :: Logical(t, k) == Logical(s, k)
  {
    BlocksExist(s);
    OwnersStand(s);
    BootInv(BlocksIn(RecoveredTable(s)), s.spare, s.owner, s.blocks, AfterRecovery(s, disk), flushers);
    forall k: Key | Spared(s, k) ensures Lookup(AfterRecovery(s, disk), k) == Logical(s, k) { CrashLosesNothing(s, disk, k); }
    var t := Boot(BlocksIn(RecoveredTable(s)), s.spare, s.owner, s.blocks, AfterRecovery(s, disk), flushers);
    assert ValidRun(t, []) && Exec(t, []) == t;
  }

  /** A crash between the two stores that exchange blocks leaves a table in which two owners share a block. */
  lemma RebootNeedsBijection(s: State)
    requires Inv(s)
    ensures (exists owner :: OwnersAgree(owner, BlocksIn(RecoveredTable(s)), s.spare)) <==> !Exchanging(s)
  {
    if Exchanging(s) {
      var v: nat :| v < |s.writers| && s.writers[v].pc == WSwap;
      assert WriterOk(s, v);
      var i := s.writers[v].i;
      assert BlocksIn(RecoveredTable(s))[i] == s.spare[v];
    } else {
      OwnersStand(s);
    }
  }
}
