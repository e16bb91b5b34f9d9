/** What holds in every reachable state of the burst buffer. */
module BurstInvariant {
  import opened Queues
  import opened BurstBuffer

  // ------------------------------------------------------------------------------- regions of the writer

  predicate MidWrite(pc: WriterPc) {
    pc == WCopy || pc == WGive || pc == WSwap
  }

  /** The block is in, and the inode not yet in its dirty queue. */
  predicate BeforePush(pc: WriterPc) {
    pc == WCount || pc == WPush
  }

  predicate WillDirty(pc: WriterPc) {
    pc == WRecheck || pc == WLockInode || pc == WMark
  }

  predicate HoldsInode(pc: WriterPc) {
    pc == WMark || MidWrite(pc) || pc == WCount || pc == WPush || pc == WUnlockInode
  }

  predicate HoldsNode(pc: WriterPc) {
    pc == WRecheck || pc == WLockInode || HoldsInode(pc) || pc == WUnlockNode
  }

  // ------------------------------------------------------------------------------------------ inodes

  function StateOf(p: Place): InodeState {
    match p
    case In(Free(_)) => FREE
    case Carried(_) => FREE
    case Bound(_) => FREE
    case In(Sync(_)) => SYNC
    case AtHandOff(_) => SYNC
    case AtSyncer(_) => SYNC
    case Resting => CLEAN
    case _ => DIRTY
  }

  /** From a flush thread's trylock to the sync thread's hands. */
  predicate Staged(p: Place) {
    (p.In? && (p.id.Todo? || p.id.Done? || p.id.Sync?)) || p.AtHandOff? || p.AtSyncer?
  }

  /** The flush thread has written this inode's block and nobody has changed it since. */
  predicate Written(p: Place) {
    (p.In? && (p.id.Done? || p.id.Sync?)) || p.AtHandOff? || p.AtSyncer? || p.Resting?
  }

  /** The hash index points to the inode: always, unless it is FREE and not yet attached by a writer. */
  predicate Attached(x: Inode) {
    x.state != FREE || x.place.Bound?
  }

  /** The inode was taken from a free queue and has not received its block yet. */
  predicate Fresh(x: Inode) {
    x.place.Bound? || x.place.Filling?
  }

  predicate FormOk(x: Inode) {
    && x.state == StateOf(x.place) && Writable(x.lbn)
    && (x.lock == Flushing <==> Staged(x.place))
    && (x.lock.Cleaning? ==> x.state == CLEAN || x.state == FREE)
  }

  /** The thread or queue named by the inode's place has it. */
  predicate PlaceOk(s: State, i: nat)
    requires i < |s.inodes|
  {
    var x := s.inodes[i];
    match x.place
    case In(id) =>
      && i in At(s, id)
      && (match id
          case Free(r) => r < NUM_FREE
          case Dirty(v) => v < |s.writers| && x.vol == v
          case Todo(f) => f < |s.flushers| && x.vol == s.flushers[f].vol
          case Done(f) => f < |s.flushers| && x.vol == s.flushers[f].vol
          case Sync(q) => q < |s.syncers|)
    case Carried(v) =>
      v < |s.writers| && s.writers[v].i == i && var pc := s.writers[v].pc; pc == WTag || pc == WDec || pc == WAttach
    case Bound(v) =>
      && v < |s.writers| && s.writers[v].i == i && KeyOf(x) == WKey(s, v)
      && var pc := s.writers[v].pc; pc == WLockNew || pc == WLockInode || pc == WMark
    case Filling(v) =>
      && v < |s.writers| && s.writers[v].i == i && KeyOf(x) == WKey(s, v)
      && MidWrite(s.writers[v].pc) && s.writers[v].was == FREE
    case Filled(v) =>
      && v < |s.writers| && s.writers[v].i == i && KeyOf(x) == WKey(s, v)
      && ((MidWrite(s.writers[v].pc) && s.writers[v].was == CLEAN)
          || (BeforePush(s.writers[v].pc) && s.writers[v].was != DIRTY))
    case AtTryLock(f) =>
      f < |s.flushers| && s.flushers[f].pc == FTry && s.flushers[f].cur == i && x.vol == s.flushers[f].vol
    case AtHandOff(f) => f < |s.flushers| && s.flushers[f].pc == FHand && s.flushers[f].cur == i
    case AtSyncer(q) => q < |s.syncers| && s.syncers[q].pc == SClean && s.syncers[q].cur == i
    case Resting => true
  }

  predicate LockOk(s: State, i: nat)
    requires i < |s.inodes|
  {
    match s.inodes[i].lock
    case Writing(v) => v < |s.writers| && s.writers[v].i == i && HoldsInode(s.writers[v].pc)
    case Cleaning(q) =>
      q < |s.syncers| && s.syncers[q].cur == i && (s.syncers[q].pc == SPush || s.syncers[q].pc == SUnlock)
    case _ => true
  }

  predicate IndexOk(s: State, i: nat)
    requires i < |s.inodes|
  {
    var k := KeyOf(s.inodes[i]);
    Attached(s.inodes[i]) ==>
      k in s.nodes && s.nodes[k].valid && s.nodes[k].inode == Some(i) && k.vol < |s.writers|
  }

  predicate DataOk(s: State, i: nat)
    requires i < |s.inodes|
  {
    var x := s.inodes[i];
    var k := KeyOf(x);
    && x.block < |s.blocks| && x.block < |s.owner| && s.owner[x.block] == OfInode(i)
    && (x.state != FREE && !Fresh(x) ==> Lookup(s.spec, k) == Some(s.blocks[x.block]))
    && (Written(x.place) ==> Lookup(s.cache, k) == Some(s.blocks[x.block]))
    && (x.place.AtSyncer? || x.place.Resting? ==> k !in s.pending)
  }

  predicate InodeOk(s: State, i: nat)
    requires i < |s.inodes|
  {
    FormOk(s.inodes[i]) && PlaceOk(s, i) && LockOk(s, i) && IndexOk(s, i) && DataOk(s, i)
  }

  /** A CLEAN inode will be found by a balloon thread or rewritten, unless a balloon thread gave up on it. */
  predicate CleanOk(s: State, i: nat)
    requires i < |s.inodes|
  {
    var x := s.inodes[i];
    x.state == CLEAN ==>
      || (exists b | 0 <= b < |s.clean| :: i in s.clean[b])
      || (x.lock.Cleaning? && x.lock.q < |s.syncers| && s.syncers[x.lock.q].pc == SPush)
      || (x.vol < |s.writers| && s.writers[x.vol].lbn == x.lbn && WillDirty(s.writers[x.vol].pc))
      || i in s.dropped
  }

  // ------------------------------------------------------------------------------------------ queues

  ghost predicate BoxOk(s: State, id: QueueId) {
    && NoDup(At(s, id))
    && forall i | i in At(s, id) :: i < |s.inodes| && s.inodes[i].place == In(id)
  }

  predicate CleanEntriesOk(s: State) {
    forall b, j | 0 <= b < |s.clean| && 0 <= j < |s.clean[b]| :: s.clean[b][j] < |s.inodes|
  }

  // ------------------------------------------------------------------------------------------- keys

  /** No write to k is at risk, and the file holds what the plain map says. */
  predicate Settled(s: State, k: Key) {
    k !in s.pending && Lookup(s.cache, k) == Lookup(s.spec, k)
  }

  predicate NodeOk(s: State, k: Key)
    requires k in s.nodes
  {
    var d := s.nodes[k];
    && k.vol < |s.writers|
    && (d.lock ==> HoldsNode(s.writers[k.vol].pc) && s.writers[k.vol].lbn == k.lbn)
    && (d.valid ==>
          && d.inode.Some? && d.inode.value < |s.inodes|
          && KeyOf(s.inodes[d.inode.value]) == k && Attached(s.inodes[d.inode.value]))
  }

  predicate KeyOk(s: State, k: Key) {
    && (k in s.nodes ==> NodeOk(s, k))
    && (!ValidAt(s, k) || (s.nodes[k].inode.Some? && s.nodes[k].inode.value < |s.inodes| && Fresh(s.inodes[s.nodes[k].inode.value]))
        ==> Settled(s, k))
    && (k !in s.pending ==> Lookup(s.cache, k) == Lookup(s.stable, k))
  }

  // ----------------------------------------------------------------------------------------- threads

  predicate WriterHas(s: State, v: nat, p: Place)
    requires v < |s.writers|
  {
    s.writers[v].i < |s.inodes| && s.inodes[s.writers[v].i].place == p
  }

  predicate NodeLocked(s: State, v: nat)
    requires v < |s.writers|
  {
    WKey(s, v) in s.nodes && s.nodes[WKey(s, v)].lock
  }

  /** The writer holds its node, the node is valid, and `i` is the node's inode. */
  predicate OnNode(s: State, v: nat)
    requires v < |s.writers|
  {
    var k, i := WKey(s, v), s.writers[v].i;
    && NodeLocked(s, v) && s.nodes[k].valid && s.nodes[k].inode == Some(i)
    && i < |s.inodes| && KeyOf(s.inodes[i]) == k && Attached(s.inodes[i])
  }

  predicate OnInode(s: State, v: nat)
    requires v < |s.writers|
  {
    OnNode(s, v) && s.inodes[s.writers[v].i].lock == Writing(v)
  }

  /** The inode is DIRTY and, unless it was so before, in the writer's hands. */
  predicate Claimed(s: State, v: nat, hand: Place)
    requires v < |s.writers| && s.writers[v].i < |s.inodes|
  {
    var x := s.inodes[s.writers[v].i];
    match s.writers[v].was
    case FREE => x.place == hand
    case CLEAN => x.place == Filled(v)
    case DIRTY => x.state == DIRTY && !Fresh(x)
    case SYNC => false
  }

  /** The plain map holds what the writer was asked to write. */
  predicate Landed(s: State, v: nat)
    requires v < |s.writers|
  {
    Lookup(s.spec, WKey(s, v)) == Some(s.writers[v].data)
  }

  predicate WriterOk(s: State, v: nat)
    requires v < |s.writers|
  {
    var w, k := s.writers[v], WKey(s, v);
    && SpareOk(s, v) && Writable(w.lbn)
    && match w.pc
       case WIdle => true
       case WSearch => true
       case WCheckFree => !ValidAt(s, k)
       case WClaim => !ValidAt(s, k)
       case WTake => !ValidAt(s, k) && w.shard < NUM_FREE
       case WTag => !ValidAt(s, k) && WriterHas(s, v, Carried(v))
       case WDec => !ValidAt(s, k) && WriterHas(s, v, Carried(v)) && KeyOf(s.inodes[w.i]) == k
       case WAttach => !ValidAt(s, k) && WriterHas(s, v, Carried(v)) && KeyOf(s.inodes[w.i]) == k
       case WLockNew => WriterHas(s, v, Bound(v))
       case WLockOld => k in s.nodes
       case WRecheck => NodeLocked(s, v)
       case WLockInode => OnNode(s, v)
       case WMark => OnInode(s, v)
       case WCopy => OnInode(s, v) && Claimed(s, v, Filling(v)) && w.ob == s.spare[v]
       case WGive => OnInode(s, v) && Claimed(s, v, Filling(v)) && w.ob == s.spare[v]
                     && w.ob < |s.blocks| && s.blocks[w.ob] == w.data
       case WSwap => OnInode(s, v) && Claimed(s, v, Filling(v)) && s.spare[v] == s.inodes[w.i].block
                     && w.ob < |s.blocks| && s.blocks[w.ob] == w.data
       case WCount => OnInode(s, v) && Claimed(s, v, Filled(v)) && Landed(s, v)
       case WPush => OnInode(s, v) && Claimed(s, v, Filled(v)) && Landed(s, v) && w.was != DIRTY
       case WUnlockInode => OnInode(s, v) && s.inodes[w.i].state == DIRTY && Landed(s, v)
       case WUnlockNode => NodeLocked(s, v) && Landed(s, v)
  }

  /** The block that volume v owns: its spare, except between the two stores that exchange blocks. */
  predicate SpareOk(s: State, v: nat)
    requires v < |s.writers|
  {
    v < |s.spare| &&
    var b := if s.writers[v].pc == WSwap then s.writers[v].ob else s.spare[v];
    b < |s.owner| && s.owner[b] == OfVolume(v)
  }

  /** The flush thread has taken a volume's token. */
  predicate HasToken(pc: FlusherPc) {
    pc != FIdle && pc != FWoken && pc != FClaim
  }

  function Min(a: int, b: int): int { if a < b then a else b }

  predicate FlusherOk(s: State, f: nat)
    requires f < |s.flushers|
  {
    var w := s.flushers[f];
    && (HasToken(w.pc) ==> w.vol < |s.writers|)
    && (w.pc == FTry ==> w.cur < |s.inodes| && s.inodes[w.cur].place == AtTryLock(f) && s.inodes[w.cur].vol == w.vol)
    && (w.pc == FHand ==> w.cur < |s.inodes| && s.inodes[w.cur].place == AtHandOff(f))
    && (w.pc == FSnapshot ==> |At(s, Dirty(w.vol))| > 1)
    && (w.pc == FCollect || w.pc == FTry ==> w.ws == Min(FLUSH_BATCH_SIZE, w.num) && w.got == |At(s, Todo(f))|)
    && (w.pc == FCollect ==> w.got <= w.ws && |At(s, Dirty(w.vol))| > w.num - w.got)
    && (w.pc == FTry ==> w.got < w.ws && |At(s, Dirty(w.vol))| >= w.num - w.got)
    && (!HasToken(w.pc) || w.pc == FLook || w.pc == FSnapshot || w.pc == FPut ==> At(s, Todo(f)) == [])
    && (w.pc != FWrite && w.pc != FHand ==> At(s, Done(f)) == [])
  }

  predicate SyncerOk(s: State, q: nat)
    requires q < |s.syncers|
  {
    var w := s.syncers[q];
    && (w.pc == SClean ==> w.cur < |s.inodes| && s.inodes[w.cur].place == AtSyncer(q))
    && (w.pc == SPush || w.pc == SUnlock ==> w.cur < |s.inodes| && s.inodes[w.cur].lock == Cleaning(q))
    && (w.pc != SIdle ==> w.n <= |At(s, Sync(q))|)
    && (w.pc != SIdle && w.pc != SSync ==>
          forall j | 0 <= j < w.n :: At(s, Sync(q))[j] < |s.inodes| && KeyOf(s.inodes[At(s, Sync(q))[j]]) !in s.pending)
  }

  /** A volume's token is in the in-use queue or with one flush thread. */
  ghost predicate TokensOk(s: State) {
    && NoDup(s.inuse)
    && (forall v | v in s.inuse :: v < |s.writers|)
    && (forall f | 0 <= f < |s.flushers| && HasToken(s.flushers[f].pc) :: s.flushers[f].vol !in s.inuse)
    && (forall f, g | 0 <= f < |s.flushers| && 0 <= g < |s.flushers| && f != g
                      && HasToken(s.flushers[f].pc) && HasToken(s.flushers[g].pc)
          :: s.flushers[f].vol != s.flushers[g].vol)
  }

  predicate Shape(s: State) {
    && |s.spare| == |s.writers|
    && |s.blocks| == |s.owner| == |s.inodes| + |s.writers|
    && |s.syncers| == NUM_SYNCER
    && |s.clean| == NUM_BALLOON
  }

  ghost predicate Inv(s: State) {
    && Shape(s)
    && (forall i: nat | i < |s.inodes| :: InodeOk(s, i))
    && (forall i: nat | i < |s.inodes| :: CleanOk(s, i))
    && (forall id: QueueId :: BoxOk(s, id))
    && CleanEntriesOk(s)
    && (forall k: Key :: KeyOk(s, k))
    && (forall v: nat | v < |s.writers| :: WriterOk(s, v))
    && (forall f: nat | f < |s.flushers| :: FlusherOk(s, f))
    && (forall q: nat | q < |s.syncers| :: SyncerOk(s, q))
    && TokensOk(s)
  }
}
