/**
 The life cycle of an inode in the burst buffer, as an interleaved step machine.

 Writers (one per volume), flush threads, sync threads and balloon threads share the inode table, the block
 table, one hash index per volume and the queues of inode indices. Each action below is one thread taking one
 step: a queue operation, a lock operation, or a store that another thread or a crash can observe.

 Three fields of the state are history: `owner` and `Inode.place` record where a block or an inode currently
 belongs, `spec` is the plain map (volume, lbn) -> block that the buffer must agree with, and `dropped` collects
 the CLEAN inodes that a balloon thread gave up on. No action is enabled or disabled by them.
 */
module BurstBuffer {
  import opened Queues

  const NUM_FREE := 2
  const NUM_SYNCER := 2
  const NUM_BALLOON := 8
  const FREE_MIN_COUNT := 100
  const FLUSH_BATCH_SIZE := 1024
  const BLOCK_SIZE := 0x4000
  const UINT32 := 0x1_0000_0000
  const LBN_LIMIT := UINT32

  /** The contents of one block; only equality of contents matters. */
  type Block = int

  datatype InodeState = FREE | DIRTY | SYNC | CLEAN

  /** Who holds the inode lock. The code only ever tests whether somebody does. */
  datatype Holder = Nobody | Writing(v: nat) | Flushing | Cleaning(q: nat)

  /** The queues that hold an inode index at most once. Todo and Done are the flush thread's own index array. */
  datatype QueueId = Free(r: nat) | Dirty(v: nat) | Todo(f: nat) | Done(f: nat) | Sync(q: nat)

  /**
   Where an inode is: in a queue, in one thread's hands, or resting (CLEAN, mentioned only by clean queues).
   A writer carries an inode taken from a free queue, binds it to its hash node, is filling it once it is marked
   DIRTY, and has filled it when the new block is in; an inode that was CLEAN is in the writer's hands as Filled.
   */
  datatype Place =
    | In(id: QueueId)
    | Carried(v: nat) | Bound(v: nat) | Filling(v: nat) | Filled(v: nat)
    | AtTryLock(f: nat) | AtHandOff(f: nat)
    | AtSyncer(q: nat)
    | Resting

  datatype Owner = OfInode(i: nat) | OfVolume(v: nat)

  datatype Key = Key(vol: nat, lbn: nat)

  datatype Inode = Inode(lbn: nat, vol: nat, state: InodeState, block: nat, lock: Holder, place: Place)

  datatype Option<T> = None | Some(value: T)

  /** A hash node; `inode` is None where the code stores a null pointer. */
  datatype Node = Node(inode: Option<nat>, valid: bool, lock: bool)

  datatype WriterPc =
    | WIdle | WSearch | WCheckFree | WClaim | WTake | WTag | WDec | WAttach | WLockNew
    | WLockOld | WRecheck | WLockInode | WMark | WCopy | WGive | WSwap | WCount | WPush | WUnlockInode | WUnlockNode

  /** Locals of nvm_durable_write: `i` is idx, `was` is old_state, `ob` is ownerless_block_index, `shard` the free queue. */
  datatype Writer = Writer(pc: WriterPc, lbn: nat, data: Block, i: nat, was: InodeState, ob: nat, shard: nat)

  datatype FlusherPc = FIdle | FWoken | FClaim | FLook | FSnapshot | FCollect | FTry | FWrite | FHand | FPut

  /** Locals of nvm_flush: `num` is num_dirty_inodes, `ws` is write_size, `got` is i, `cur` the inode in hand. */
  datatype Flusher = Flusher(pc: FlusherPc, vol: nat, num: int, ws: int, got: int, cur: nat)

  datatype SyncerPc = SIdle | SSync | SLoop | SClean | SPush | SUnlock

  /** Locals of nvm_sync: `n` is how many inodes of the snapshot are left, `cur` the inode in hand. */
  datatype Syncer = Syncer(pc: SyncerPc, n: nat, cur: nat)

  datatype State = State(
    inodes: seq<Inode>,
    spare: seq<nat>,               // volume_entry::block_index
    blocks: seq<Block>,
    nodes: map<Key, Node>,
    queues: map<QueueId, seq<nat>>,
    clean: seq<seq<nat>>,
    inuse: seq<nat>,
    freeEnq: nat, freeDeq: nat, freeCount: int, dirtyCount: int, syncIdx: nat, cleanIdx: nat,
    writers: seq<Writer>, flushers: seq<Flusher>, syncers: seq<Syncer>,
    cache: map<Key, Block>,        // file contents as the operating system serves them
    stable: map<Key, Block>,       // file contents known to be on the device
    pending: map<Key, set<Block>>, // blocks written since the last sync(), any of which may have reached the device
    owner: seq<Owner>,
    spec: map<Key, Block>,
    dropped: set<nat>)

  function KeyOf(x: Inode): Key { Key(x.vol, x.lbn) }

  function Lookup(m: map<Key, Block>, k: Key): Option<Block> {
    if k in m then Some(m[k]) else None
  }

  function At(s: State, id: QueueId): seq<nat> {
    if id in s.queues then s.queues[id] else []
  }

  function PushQ(s: State, id: QueueId, i: nat): State {
    s.(queues := s.queues[id := At(s, id) + [i]])
  }

  function PopQ(s: State, id: QueueId): State
    requires At(s, id) != []
  {
    s.(queues := s.queues[id := At(s, id)[1..]])
  }

  function SetInode(s: State, i: nat, x: Inode): State
    requires i < |s.inodes|
  {
    s.(inodes := s.inodes[i := x])
  }

  function SetPlace(s: State, i: nat, p: Place): State
    requires i < |s.inodes|
  {
    SetInode(s, i, s.inodes[i].(place := p))
  }

  function SetWriter(s: State, v: nat, w: Writer): State
    requires v < |s.writers|
  {
    s.(writers := s.writers[v := w])
  }

  function SetFlusher(s: State, f: nat, w: Flusher): State
    requires f < |s.flushers|
  {
    s.(flushers := s.flushers[f := w])
  }

  function SetSyncer(s: State, q: nat, w: Syncer): State
    requires q < |s.syncers|
  {
    s.(syncers := s.syncers[q := w])
  }

  function SetNode(s: State, k: Key, x: Node): State {
    s.(nodes := s.nodes[k := x])
  }

  /** isValidNode(search_hash_node(...)) */
  predicate ValidAt(s: State, k: Key) {
    k in s.nodes && s.nodes[k].valid
  }

  // ------------------------------------------------------------------------------------------ writer

  function WKey(s: State, v: nat): Key
    requires v < |s.writers|
  {
    Key(v, s.writers[v].lbn)
  }

  /** What the writer waits for. */
  predicate WriterGuard(s: State, v: nat)
    requires v < |s.writers|
  {
    var w, k := s.writers[v], WKey(s, v);
    match w.pc
    case WIdle => false
    case WTake => At(s, Free(w.shard)) != []
    case WLockNew => k in s.nodes ==> !s.nodes[k].lock
    case WLockOld => k in s.nodes ==> !s.nodes[k].lock
    case WLockInode => w.i < |s.inodes| ==> s.inodes[w.i].lock == Nobody
    case _ => true
  }

  /** What the writer's next step assumes of its pointers and indices. */
  predicate WriterSafe(s: State, v: nat)
    requires v < |s.writers|
  {
    var w, k := s.writers[v], WKey(s, v);
    match w.pc
    case WTake => At(s, Free(w.shard)) != [] && At(s, Free(w.shard))[0] < |s.inodes|
    case WTag => w.i < |s.inodes|
    case WAttach => w.i < |s.inodes|
    case WLockNew => k in s.nodes && s.nodes[k].inode.Some?
    case WLockOld => k in s.nodes
    case WRecheck => k in s.nodes && (s.nodes[k].valid ==> s.nodes[k].inode.Some?)
    case WLockInode => w.i < |s.inodes|
    case WMark => w.i < |s.inodes| && v < |s.spare|
    case WCopy => w.ob < |s.blocks|
    case WGive => w.i < |s.inodes| && v < |s.spare|
    case WSwap => w.i < |s.inodes| && w.ob < |s.owner| && s.inodes[w.i].block < |s.owner|
    case WPush => w.i < |s.inodes|
    case WUnlockInode => w.i < |s.inodes|
    case WUnlockNode => k in s.nodes
    case _ => true
  }

  function WriterStep(s: State, v: nat): State
    requires v < |s.writers| && WriterSafe(s, v)
  {
    match s.writers[v].pc
    case WIdle => s
    case WSearch => StepSearch(s, v)
    case WCheckFree => StepCheckFree(s, v)
    case WClaim => StepClaim(s, v)
    case WTake => StepTake(s, v)
    case WTag => StepTag(s, v)
    case WDec => StepDec(s, v)
    case WAttach => StepAttach(s, v)
    case WLockNew => StepLockNew(s, v)
    case WLockOld => StepLockOld(s, v)
    case WRecheck => StepRecheck(s, v)
    case WLockInode => StepLockInode(s, v)
    case WMark => StepMark(s, v)
    case WCopy => StepCopy(s, v)
    case WGive => StepGive(s, v)
    case WSwap => StepSwap(s, v)
    case WCount => StepCount(s, v)
    case WPush => StepEnqueue(s, v)
    case WUnlockInode => StepUnlockInode(s, v)
    case WUnlockNode => StepUnlockNode(s, v)
  }

  function StepBegin(s: State, v: nat, lbn: nat, data: Block): State
    requires v < |s.writers|
  {
    SetWriter(s, v, s.writers[v].(pc := WSearch, lbn := lbn, data := data))
  }

  function StepSearch(s: State, v: nat): State
    requires v < |s.writers|
  {
    SetWriter(s, v, s.writers[v].(pc := if ValidAt(s, WKey(s, v)) then WLockOld else WCheckFree))
  }

  function StepCheckFree(s: State, v: nat): State
    requires v < |s.writers|
  {
    SetWriter(s, v, s.writers[v].(pc := if s.freeCount >= FREE_MIN_COUNT then WClaim else WSearch))
  }

  function StepClaim(s: State, v: nat): State
    requires v < |s.writers|
  {
    SetWriter(s, v, s.writers[v].(pc := WTake, shard := s.freeDeq % NUM_FREE)).(freeDeq := s.freeDeq + 1)
  }

  function StepTake(s: State, v: nat): State
    requires v < |s.writers| && var q := At(s, Free(s.writers[v].shard)); q != [] && q[0] < |s.inodes|
  {
    var id := Free(s.writers[v].shard);
    var i := At(s, id)[0];
    SetWriter(SetPlace(PopQ(s, id), i, Carried(v)), v, s.writers[v].(pc := WTag, i := i))
  }

  /** inode->lbn = lbn; inode->volume = ve; */
  function StepTag(s: State, v: nat): State
    requires v < |s.writers| && s.writers[v].i < |s.inodes|
  {
    var w := s.writers[v];
    SetWriter(SetInode(s, w.i, s.inodes[w.i].(lbn := w.lbn, vol := v)), v, w.(pc := WDec))
  }

  function StepDec(s: State, v: nat): State
    requires v < |s.writers|
  {
    SetWriter(s, v, s.writers[v].(pc := WAttach)).(freeCount := s.freeCount - 1)
  }

  /** insert_hash_node(new_hash_node(inode)) or validate_hash_node(node, inode); a new node's mutex is unlocked. */
  function StepAttach(s: State, v: nat): State
    requires v < |s.writers| && s.writers[v].i < |s.inodes|
  {
    var w, k := s.writers[v], WKey(s, v);
    SetWriter(SetPlace(SetNode(s, k, Node(Some(w.i), true, k in s.nodes && s.nodes[k].lock)), w.i, Bound(v)),
              v, w.(pc := WLockNew))
  }

  function StepLockNew(s: State, v: nat): State
    requires v < |s.writers| && WKey(s, v) in s.nodes && s.nodes[WKey(s, v)].inode.Some?
  {
    var d := s.nodes[WKey(s, v)];
    SetWriter(SetNode(s, WKey(s, v), d.(lock := true)), v, s.writers[v].(pc := WLockInode, i := d.inode.value))
  }

  function StepLockOld(s: State, v: nat): State
    requires v < |s.writers| && WKey(s, v) in s.nodes
  {
    SetWriter(SetNode(s, WKey(s, v), s.nodes[WKey(s, v)].(lock := true)), v, s.writers[v].(pc := WRecheck))
  }

  /** A balloon thread may have invalidated the node before it was locked. */
  function StepRecheck(s: State, v: nat): State
    requires v < |s.writers| && WKey(s, v) in s.nodes
    requires s.nodes[WKey(s, v)].valid ==> s.nodes[WKey(s, v)].inode.Some?
  {
    if s.nodes[WKey(s, v)].valid then StepAccept(s, v) else StepReject(s, v)
  }

  function StepAccept(s: State, v: nat): State
    requires v < |s.writers| && WKey(s, v) in s.nodes && s.nodes[WKey(s, v)].inode.Some?
  {
    SetWriter(s, v, s.writers[v].(pc := WLockInode, i := s.nodes[WKey(s, v)].inode.value))
  }

  function StepReject(s: State, v: nat): State
    requires v < |s.writers| && WKey(s, v) in s.nodes
  {
    SetWriter(SetNode(s, WKey(s, v), s.nodes[WKey(s, v)].(lock := false)), v, s.writers[v].(pc := WSearch))
  }

  function StepLockInode(s: State, v: nat): State
    requires v < |s.writers| && s.writers[v].i < |s.inodes|
  {
    var w := s.writers[v];
    SetWriter(SetInode(s, w.i, s.inodes[w.i].(lock := Writing(v))), v, w.(pc := WMark))
  }

  /** old_state = inode->state; inode->state = DIRTY; and the read of volume->block_index. */
  function StepMark(s: State, v: nat): State
    requires v < |s.writers| && s.writers[v].i < |s.inodes| && v < |s.spare|
  {
    var w := s.writers[v];
    var x := s.inodes[w.i];
    var place := if x.state == FREE then Filling(v) else if x.state == CLEAN then Filled(v) else x.place;
    SetWriter(SetInode(s, w.i, x.(state := DIRTY, place := place)), v,
              w.(pc := WCopy, was := x.state, ob := s.spare[v])).(dropped := s.dropped - {w.i})
  }

  function StepCopy(s: State, v: nat): State
    requires v < |s.writers| && s.writers[v].ob < |s.blocks|
  {
    var w := s.writers[v];
    SetWriter(s.(blocks := s.blocks[w.ob := w.data]), v, w.(pc := WGive))
  }

  /** inode->volume->block_index = inode->block_index; */
  function StepGive(s: State, v: nat): State
    requires v < |s.writers| && s.writers[v].i < |s.inodes| && v < |s.spare|
  {
    var w := s.writers[v];
    SetWriter(s.(spare := s.spare[v := s.inodes[w.i].block]), v, w.(pc := WSwap))
  }

  /** inode->block_index = ownerless_block_index: the step at which the new contents take effect. */
  function StepSwap(s: State, v: nat): State
    requires v < |s.writers| && s.writers[v].i < |s.inodes|
    requires s.writers[v].ob < |s.owner| && s.inodes[s.writers[v].i].block < |s.owner|
  {
    var w := s.writers[v];
    var x := s.inodes[w.i];
    var place := if w.was == FREE then Filled(v) else x.place;
    SetWriter(SetInode(s, w.i, x.(block := w.ob, place := place)), v, w.(pc := WCount))
    .(spec := s.spec[WKey(s, v) := w.data], owner := s.owner[x.block := OfVolume(v)][w.ob := OfInode(w.i)])
  }

  /** if (old_state != INODE_STATE_DIRTY) inode_dirty_count++; */
  function StepCount(s: State, v: nat): State
    requires v < |s.writers|
  {
    if s.writers[v].was == DIRTY then SetWriter(s, v, s.writers[v].(pc := WUnlockInode)) else StepRaise(s, v)
  }

  function StepRaise(s: State, v: nat): State
    requires v < |s.writers|
  {
    SetWriter(s, v, s.writers[v].(pc := WPush)).(dirtyCount := s.dirtyCount + 1)
  }

  function StepEnqueue(s: State, v: nat): State
    requires v < |s.writers| && s.writers[v].i < |s.inodes|
  {
    var w := s.writers[v];
    SetWriter(SetPlace(PushQ(s, Dirty(v), w.i), w.i, In(Dirty(v))), v, w.(pc := WUnlockInode))
  }

  function StepUnlockInode(s: State, v: nat): State
    requires v < |s.writers| && s.writers[v].i < |s.inodes|
  {
    var w := s.writers[v];
    SetWriter(SetInode(s, w.i, s.inodes[w.i].(lock := Nobody)), v, w.(pc := WUnlockNode))
  }

  function StepUnlockNode(s: State, v: nat): State
    requires v < |s.writers| && WKey(s, v) in s.nodes
  {
    SetWriter(SetNode(s, WKey(s, v), s.nodes[WKey(s, v)].(lock := false)), v, s.writers[v].(pc := WIdle))
  }

  // ------------------------------------------------------------------------------------- flush thread

  /** kFlushLwm = nvm->max_inode_entry * 0.1, cut to an integer. */
  function FlushLwm(s: State): nat { |s.inodes| / 10 }

  predicate FlusherGuard(s: State, f: nat)
    requires f < |s.flushers|
  {
    var w := s.flushers[f];
    match w.pc
    case FIdle => s.dirtyCount >= FlushLwm(s)
    case FClaim => s.inuse != []
    case FCollect => w.got < w.ws ==> At(s, Dirty(w.vol)) != []
    case _ => true
  }

  predicate FlusherSafe(s: State, f: nat)
    requires f < |s.flushers|
  {
    var w := s.flushers[f];
    match w.pc
    case FClaim => s.inuse != []
    case FCollect => w.got < w.ws ==> At(s, Dirty(w.vol)) != [] && At(s, Dirty(w.vol))[0] < |s.inodes|
    case FTry => w.cur < |s.inodes|
    case FWrite =>
      && (At(s, Todo(f)) != [] ==> At(s, Todo(f))[0] < |s.inodes| && s.inodes[At(s, Todo(f))[0]].block < |s.blocks|)
      && (At(s, Done(f)) != [] ==> At(s, Done(f))[0] < |s.inodes|)
    case FHand => w.cur < |s.inodes|
    case _ => true
  }

  /**
   One step of a flush thread. In the writing phase it either writes its next collected block (when `write`) or
   hands its next written inode to a sync thread: every order in which each hand-off follows its write, of which
   the batch-by-batch order of nvm_flush is one (FlushRuns.WriteOutIsRun).
   */
  function FlusherStep(s: State, f: nat, write: bool): State
    requires f < |s.flushers| && FlusherSafe(s, f)
  {
    var w := s.flushers[f];
    match w.pc
    case FIdle => SetFlusher(s, f, w.(pc := FWoken))
    case FWoken => SetFlusher(s, f, w.(pc := if s.inuse == [] then FIdle else FClaim))
    case FClaim => StepTakeToken(s, f)
    case FLook => SetFlusher(s, f, w.(pc := if |At(s, Dirty(w.vol))| > 1 then FSnapshot else FPut))
    case FSnapshot => StepSnapshot(s, f)
    case FCollect => if w.got < w.ws then StepGrab(s, f) else SetFlusher(s, f, w.(pc := FWrite))
    case FTry => StepTryLock(s, f)
    case FWrite =>
      if write && At(s, Todo(f)) != [] then StepWriteBlock(s, f)
      else if At(s, Done(f)) != [] then StepMarkSync(s, f)
      else if At(s, Todo(f)) == [] then SetFlusher(s, f, w.(pc := FPut))
      else s
    case FHand => StepHandOff(s, f)
    case FPut => StepPutToken(s, f)
  }

  function StepTakeToken(s: State, f: nat): State
    requires f < |s.flushers| && s.inuse != []
  {
    SetFlusher(s, f, s.flushers[f].(pc := FLook, vol := s.inuse[0])).(inuse := s.inuse[1..])
  }

  function StepPutToken(s: State, f: nat): State
    requires f < |s.flushers|
  {
    SetFlusher(s, f, s.flushers[f].(pc := FIdle)).(inuse := s.inuse + [s.flushers[f].vol])
  }

  function StepSnapshot(s: State, f: nat): State
    requires f < |s.flushers|
  {
    var w := s.flushers[f];
    var num := |At(s, Dirty(w.vol))| - 1;
    SetFlusher(s, f, w.(pc := FCollect, num := num, got := 0,
                        ws := if num >= FLUSH_BATCH_SIZE then FLUSH_BATCH_SIZE else num))
  }

  function StepGrab(s: State, f: nat): State
    requires f < |s.flushers| && var q := At(s, Dirty(s.flushers[f].vol)); q != [] && q[0] < |s.inodes|
  {
    var id := Dirty(s.flushers[f].vol);
    var i := At(s, id)[0];
    SetFlusher(SetPlace(PopQ(s, id), i, AtTryLock(f)), f, s.flushers[f].(pc := FTry, cur := i))
  }

  /** inode_sync_lfqueue[sync_queue_idx++ % DEFAULT_NUM_SYNCER]->enqueue(i_idx) */
  function StepHandOff(s: State, f: nat): State
    requires f < |s.flushers| && s.flushers[f].cur < |s.inodes|
  {
    var w := s.flushers[f];
    var id := Sync(s.syncIdx % NUM_SYNCER);
    SetFlusher(SetPlace(PushQ(s, id, w.cur), w.cur, In(id)), f, w.(pc := FWrite)).(syncIdx := s.syncIdx + 1)
  }

  /** pthread_mutex_trylock(&inode->lock) */
  function StepTryLock(s: State, f: nat): State
    requires f < |s.flushers| && s.flushers[f].cur < |s.inodes|
  {
    if s.inodes[s.flushers[f].cur].lock == Nobody then StepCollect(s, f) else StepReturn(s, f)
  }

  function StepCollect(s: State, f: nat): State
    requires f < |s.flushers| && s.flushers[f].cur < |s.inodes|
  {
    var w := s.flushers[f];
    var x := s.inodes[w.cur];
    SetFlusher(SetInode(PushQ(s, Todo(f), w.cur), w.cur, x.(lock := Flushing, place := In(Todo(f)))), f,
               w.(pc := FCollect, got := w.got + 1))
  }

  /** The lock is taken: back into the dirty queue, and one inode fewer to collect. */
  function StepReturn(s: State, f: nat): State
    requires f < |s.flushers| && s.flushers[f].cur < |s.inodes|
  {
    var w := s.flushers[f];
    SetFlusher(SetPlace(PushQ(s, Dirty(w.vol), w.cur), w.cur, In(Dirty(w.vol))), f,
               w.(pc := FCollect, num := w.num - 1, ws := if w.num - 1 < FLUSH_BATCH_SIZE then w.ws - 1 else w.ws))
  }

  function PendingAt(s: State, k: Key): set<Block> {
    if k in s.pending then s.pending[k] else {}
  }

  /** The part of a pwritev that carries one inode's block. */
  function StepWriteBlock(s: State, f: nat): State
    requires f < |s.flushers| && At(s, Todo(f)) != [] && At(s, Todo(f))[0] < |s.inodes|
    requires s.inodes[At(s, Todo(f))[0]].block < |s.blocks|
  {
    var i := At(s, Todo(f))[0];
    var x := s.inodes[i];
    var b := s.blocks[x.block];
    SetPlace(PushQ(PopQ(s, Todo(f)), Done(f), i), i, In(Done(f)))
    .(cache := s.cache[KeyOf(x) := b], pending := s.pending[KeyOf(x) := PendingAt(s, KeyOf(x)) + {b}])
  }

  /** inode_dirty_count--; inode->state = INODE_STATE_SYNC; */
  function StepMarkSync(s: State, f: nat): State
    requires f < |s.flushers| && At(s, Done(f)) != [] && At(s, Done(f))[0] < |s.inodes|
  {
    var i := At(s, Done(f))[0];
    SetFlusher(SetInode(PopQ(s, Done(f)), i, s.inodes[i].(state := SYNC, place := AtHandOff(f))), f,
               s.flushers[f].(pc := FHand, cur := i)).(dirtyCount := s.dirtyCount - 1)
  }

  // -------------------------------------------------------------------------------------- sync thread

  predicate SyncerGuard(s: State, q: nat)
    requires q < |s.syncers|
  {
    var w := s.syncers[q];
    match w.pc
    case SIdle => |At(s, Sync(q))| >= 1
    case SLoop => w.n > 0 ==> At(s, Sync(q)) != []
    case _ => true
  }

  predicate SyncerSafe(s: State, q: nat)
    requires q < |s.syncers|
  {
    var w := s.syncers[q];
    match w.pc
    case SLoop => w.n > 0 ==> At(s, Sync(q)) != [] && At(s, Sync(q))[0] < |s.inodes|
    case SClean => w.cur < |s.inodes|
    case SPush => s.cleanIdx % NUM_BALLOON < |s.clean|
    case SUnlock => w.cur < |s.inodes|
    case _ => true
  }

  function SyncerStep(s: State, q: nat): State
    requires q < |s.syncers| && SyncerSafe(s, q)
  {
    var w := s.syncers[q];
    match w.pc
    case SIdle => SetSyncer(s, q, w.(pc := SSync, n := |At(s, Sync(q))|))
    case SSync => StepCommit(s, q)
    case SLoop =>
      if w.n == 0 then SetSyncer(s, q, w.(pc := SIdle)) else StepTakeSync(s, q)
    case SClean => StepClean(s, q)
    case SPush => StepPushClean(s, q)
    case SUnlock => StepUnlock(s, q)
  }

  /** sync() */
  function StepCommit(s: State, q: nat): State
    requires q < |s.syncers|
  {
    SetSyncer(s, q, s.syncers[q].(pc := SLoop)).(stable := s.cache, pending := map[])
  }

  function StepTakeSync(s: State, q: nat): State
    requires q < |s.syncers| && s.syncers[q].n > 0 && At(s, Sync(q)) != [] && At(s, Sync(q))[0] < |s.inodes|
  {
    var w := s.syncers[q];
    var i := At(s, Sync(q))[0];
    SetSyncer(SetPlace(PopQ(s, Sync(q)), i, AtSyncer(q)), q, w.(pc := SClean, n := w.n - 1, cur := i))
  }

  function StepClean(s: State, q: nat): State
    requires q < |s.syncers| && s.syncers[q].cur < |s.inodes|
  {
    var w := s.syncers[q];
    SetSyncer(SetInode(s, w.cur, s.inodes[w.cur].(state := CLEAN, place := Resting, lock := Cleaning(q))), q,
              w.(pc := SPush))
  }

  function StepPushClean(s: State, q: nat): State
    requires q < |s.syncers| && s.cleanIdx % NUM_BALLOON < |s.clean|
  {
    var w := s.syncers[q];
    var c := s.cleanIdx % NUM_BALLOON;
    SetSyncer(s, q, w.(pc := SUnlock)).(clean := s.clean[c := s.clean[c] + [w.cur]], cleanIdx := s.cleanIdx + 1)
  }

  function StepUnlock(s: State, q: nat): State
    requires q < |s.syncers| && s.syncers[q].cur < |s.inodes|
  {
    var w := s.syncers[q];
    SetSyncer(SetInode(s, w.cur, s.inodes[w.cur].(lock := Nobody)), q, w.(pc := SLoop))
  }

  // ------------------------------------------------------------------------------------ balloon thread

  predicate BalloonGuard(s: State, b: nat)
    requires b < |s.clean|
  {
    s.clean[b] != []
  }

  predicate BalloonSafe(s: State, b: nat)
    requires b < |s.clean|
  {
    && s.clean[b] != []
    && s.clean[b][0] < |s.inodes|
    && var x := s.inodes[s.clean[b][0]];
    && (x.state == CLEAN ==>
          && KeyOf(x) in s.nodes
          && (!s.nodes[KeyOf(x)].lock ==>
                && s.nodes[KeyOf(x)].inode.Some?
                && s.nodes[KeyOf(x)].inode.value < |s.inodes|))
  }

  /** One pass of the loop in fill_free_inodes. */
  function BalloonStep(s: State, b: nat): State
    requires b < |s.clean| && BalloonSafe(s, b)
  {
    var i := s.clean[b][0];
    var x := s.inodes[i];
    var k := KeyOf(x);
    if x.state != CLEAN then StepSkip(s, b)
    else if s.nodes[k].lock then
      if k.vol < |s.writers| && s.writers[k.vol].pc == WUnlockNode then StepDrop(s, b) else StepSkip(s, b)
    else if s.inodes[s.nodes[k].inode.value].state != CLEAN then StepSkip(s, b)
    else StepFree(s, b)
  }

  /** The index is dequeued and forgotten. */
  function StepSkip(s: State, b: nat): State
    requires b < |s.clean| && s.clean[b] != []
  {
    s.(clean := s.clean[b := s.clean[b][1..]])
  }

  /** The same, when the inode is CLEAN and the holder of its node will not dirty it any more. */
  function StepDrop(s: State, b: nat): State
    requires b < |s.clean| && s.clean[b] != []
  {
    StepSkip(s, b).(dropped := s.dropped + {s.clean[b][0]})
  }

  /** logical_delete_hash_node and the hand-over to a free queue, under the node's lock. */
  function StepFree(s: State, b: nat): State
    requires b < |s.clean| && s.clean[b] != [] && s.clean[b][0] < |s.inodes|
  {
    var i := s.clean[b][0];
    var id := Free(s.freeEnq % NUM_FREE);
    SetInode(SetNode(PushQ(StepSkip(s, b), id, i), KeyOf(s.inodes[i]), Node(None, false, false)),
             i, s.inodes[i].(state := FREE, place := In(id)))
    .(freeEnq := s.freeEnq + 1, freeCount := s.freeCount + 1, dropped := s.dropped - {i})
  }

  // ------------------------------------------------------------------------------------------- actions

  datatype Action =
    | Begin(v: nat, lbn: nat, data: Block)  // a call of nvm_durable_write on one aligned block
    | Write(v: nat)
    | Tear(v: nat, junk: Block)             // part of the memcpy into the spare block
    | Flush(f: nat, write: bool)
    | DoSync(q: nat)
    | Balloon(b: nat)

  /** lbn is a uint32_t, and not the last one: a call that ends there never leaves its loop (ThreadBodies.LoopEnds). */
  predicate Writable(lbn: nat) { lbn < LBN_LIMIT - 1 }

  /** The thread exists and is not waiting. */
  predicate Guard(s: State, a: Action) {
    match a
    case Begin(v, lbn, _) => v < |s.writers| && s.writers[v].pc == WIdle && Writable(lbn)
    case Write(v) => v < |s.writers| && WriterGuard(s, v)
    case Tear(v, _) => v < |s.writers| && s.writers[v].pc == WCopy
    case Flush(f, _) => f < |s.flushers| && FlusherGuard(s, f)
    case DoSync(q) => q < |s.syncers| && SyncerGuard(s, q)
    case Balloon(b) => b < |s.clean| && BalloonGuard(s, b)
  }

  /** The step touches only table entries that exist and dereferences no null pointer. */
  predicate Safe(s: State, a: Action)
    requires Guard(s, a)
  {
    match a
    case Begin(_, _, _) => true
    case Write(v) => WriterSafe(s, v)
    case Tear(v, _) => s.writers[v].ob < |s.blocks|
    case Flush(f, _) => FlusherSafe(s, f)
    case DoSync(q) => SyncerSafe(s, q)
    case Balloon(b) => BalloonSafe(s, b)
  }

  function Do(s: State, a: Action): State
    requires Guard(s, a) && Safe(s, a)
  {
    match a
    case Begin(v, lbn, data) => StepBegin(s, v, lbn, data)
    case Write(v) => WriterStep(s, v)
    case Tear(v, junk) => s.(blocks := s.blocks[s.writers[v].ob := junk])
    case Flush(f, write) => FlusherStep(s, f, write)
    case DoSync(q) => SyncerStep(s, q)
    case Balloon(b) => BalloonStep(s, b)
  }

  /** A schedule: every action in it is enabled and safe when its turn comes. */
  predicate ValidRun(s: State, run: seq<Action>)
    decreases |run|
  {
    run == [] || (Guard(s, run[0]) && Safe(s, run[0]) && ValidRun(Do(s, run[0]), run[1..]))
  }

  function Exec(s: State, run: seq<Action>): State
    requires ValidRun(s, run)
    decreases |run|
  {
    if run == [] then s else Exec(Do(s, run[0]), run[1..])
  }
}
