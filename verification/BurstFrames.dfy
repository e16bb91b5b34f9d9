/**
 What a step leaves alone. Each step is one actor's, changes at most one inode `j` and one key `key`, and keeps
 the invariant of every other inode, key and thread; that is proved here once for all steps.
 */
module BurstFrames {
  import opened Queues
  import opened BurstBuffer
  import opened BurstInvariant

  datatype Actor = W(v: nat) | F(f: nat) | S(q: nat) | B

  /** A flush thread changes its volume only with nothing in hand. */
  predicate KeepsVolume(s: State, t: State, f: nat)
    requires f < |s.flushers| == |t.flushers|
  {
    t.flushers[f].vol == s.flushers[f].vol || At(s, Todo(f)) == At(s, Done(f)) == []
  }

  /** t follows s by a step of `a` that touches only inode j (none if negative), the entries of `key` and a's locals. */
  ghost predicate Moves(s: State, t: State, a: Actor, j: int, key: Key) {
    && Shape(s) && Shape(t)
    && |t.inodes| == |s.inodes| && |t.writers| == |s.writers| && |t.flushers| == |s.flushers|
    && (forall i: nat | i < |s.inodes| && i != j :: t.inodes[i] == s.inodes[i])
    && (forall u: nat | u < |s.writers| && a != W(u) :: t.writers[u] == s.writers[u] && t.spare[u] == s.spare[u])
    && (forall f: nat | f < |s.flushers| && a != F(f) :: t.flushers[f] == s.flushers[f])
    && (forall q: nat | q < |s.syncers| && a != S(q) :: t.syncers[q] == s.syncers[q])
    && (a.F? && a.f < |s.flushers| ==> KeepsVolume(s, t, a.f))
    && (forall b: nat | b < |s.owner| && (j >= 0 ==> s.owner[b] != OfInode(j)) && (a.W? ==> s.owner[b] != OfVolume(a.v))
          :: t.owner[b] == s.owner[b] && t.blocks[b] == s.blocks[b])
    && (forall k: Key | k != key :: SameAt(s, t, k))
    && (forall id: QueueId, i: nat | i != j :: i in At(s, id) <==> i in At(t, id))
  }

  /** The free queues, their counters and the writers that use them stay as they are. */
  predicate FreeRests(s: State, t: State) {
    && t.freeEnq == s.freeEnq && t.freeDeq == s.freeDeq && t.freeCount == s.freeCount
    && At(t, Free(0)) == At(s, Free(0)) && At(t, Free(1)) == At(s, Free(1))
  }

  /** The plain map stays as it is, no inode is dropped, and the free queues rest. */
  predicate Quiet(s: State, t: State) {
    && t.spec == s.spec && t.dropped <= s.dropped && FreeRests(s, t) && t.writers == s.writers
    && |t.inodes| == |s.inodes| && |t.spare| == |s.spare|
  }

  /** The entries of k in the index, the files and the plain map are as before. */
  predicate SameAt(s: State, t: State, k: Key) {
    && (k in s.nodes <==> k in t.nodes) && (k in s.nodes ==> t.nodes[k] == s.nodes[k])
    && SameFiles(s, t, k)
  }

  predicate SameFiles(s: State, t: State, k: Key) {
    && Lookup(t.spec, k) == Lookup(s.spec, k)
    && Lookup(t.cache, k) == Lookup(s.cache, k)
    && Lookup(t.stable, k) == Lookup(s.stable, k)
    && (k in t.pending <==> k in s.pending)
  }

  /** A step on `key` either concerns inode j alone or changes no more than the node's lock. */
  predicate Focused(s: State, t: State, j: int, key: Key) {
    || !ValidAt(s, key)
    || (s.nodes[key].inode.Some? && s.nodes[key].inode.value == j)
    || (key in t.nodes && t.nodes[key].valid && t.nodes[key].inode == s.nodes[key].inode && SameFiles(s, t, key))
  }

  predicate EmptyHanded(pc: WriterPc) {
    pc == WIdle || pc == WSearch || pc == WCheckFree || pc == WClaim || pc == WTake || pc == WLockOld || pc == WRecheck
    || pc == WUnlockNode
  }

  /** j is the only inode the actor can have in hand. */
  predicate Hands(s: State, a: Actor, j: int) {
    match a
    case W(v) => v < |s.writers| ==> s.writers[v].i == j || EmptyHanded(s.writers[v].pc)
    case F(f) => f < |s.flushers| ==> s.flushers[f].cur == j || (s.flushers[f].pc != FTry && s.flushers[f].pc != FHand)
    case S(q) => q < |s.syncers| ==>
      s.syncers[q].cur == j || (s.syncers[q].pc != SClean && s.syncers[q].pc != SPush && s.syncers[q].pc != SUnlock)
    case B => true
  }

  lemma OtherPlace(s: State, t: State, a: Actor, j: int, key: Key, i: nat)
    requires Moves(s, t, a, j, key) && Hands(s, a, j)
    requires i < |s.inodes| && i != j && PlaceOk(s, i) && LockOk(s, i)
    ensures PlaceOk(t, i) && LockOk(t, i)
  {
  }

  lemma OtherData(s: State, t: State, a: Actor, j: int, key: Key, i: nat)
    requires Moves(s, t, a, j, key) && Focused(s, t, j, key)
    requires i < |s.inodes| && i != j && FormOk(s.inodes[i]) && IndexOk(s, i) && DataOk(s, i)
    ensures IndexOk(t, i) && DataOk(t, i)
  {
    assert SameAt(s, t, KeyOf(s.inodes[i])) || KeyOf(s.inodes[i]) == key;
  }

  lemma OtherInode(s: State, t: State, a: Actor, j: int, key: Key, i: nat)
    requires Moves(s, t, a, j, key) && Focused(s, t, j, key) && Hands(s, a, j)
    requires i < |s.inodes| && i != j && InodeOk(s, i)
    ensures InodeOk(t, i)
  {
    assert PlaceOk(t, i) && LockOk(t, i) by { OtherPlace(s, t, a, j, key, i); }
    assert IndexOk(t, i) && DataOk(t, i) by { OtherData(s, t, a, j, key, i); }
  }

  /** What a step may do to the clean queues and to the threads that CleanOk counts on. */
  ghost predicate CleanMoves(s: State, t: State, j: int) {
    && |t.clean| == |s.clean|
    && (forall i: nat, b: nat | i != j && b < |s.clean| && i in s.clean[b] :: i in t.clean[b])
    && (forall i: nat | i != j && i in s.dropped :: i in t.dropped)
  }

  /** A writer about to dirty an inode either stays so or is marking inode j. */
  predicate KeepsPromise(s: State, t: State, a: Actor, j: int) {
    a.W? && a.v < |s.writers| && a.v < |t.writers| && WillDirty(s.writers[a.v].pc) ==>
      || (WillDirty(t.writers[a.v].pc) && t.writers[a.v].lbn == s.writers[a.v].lbn)
      || (ValidAt(s, WKey(s, a.v)) && s.nodes[WKey(s, a.v)].inode.Some? && s.nodes[WKey(s, a.v)].inode.value == j)
      || !ValidAt(s, WKey(s, a.v))
  }

  lemma OtherClean(s: State, t: State, a: Actor, j: int, key: Key, i: nat)
    requires Moves(s, t, a, j, key) && CleanMoves(s, t, j) && Hands(s, a, j) && KeepsPromise(s, t, a, j)
    requires i < |s.inodes| && i != j && FormOk(s.inodes[i]) && LockOk(s, i) && IndexOk(s, i) && CleanOk(s, i)
    ensures CleanOk(t, i)
  {
    if s.inodes[i].state == CLEAN && exists b | 0 <= b < |s.clean| :: i in s.clean[b] {
      var b: nat :| b < |s.clean| && i in s.clean[b];
      assert i in t.clean[b];
    }
  }

  /** Inode j is attached, if at all, at `key`, before and after. */
  predicate Homed(s: State, j: int, key: Key) {
    0 <= j < |s.inodes| && Attached(s.inodes[j]) ==> KeyOf(s.inodes[j]) == key
  }

  lemma OtherKey(s: State, t: State, a: Actor, j: int, key: Key, k: Key)
    requires Moves(s, t, a, j, key) && Homed(s, j, key) && KeyOk(s, k) && k != key
    requires a.W? && a.v < |s.writers| && HoldsNode(s.writers[a.v].pc) ==> key == WKey(s, a.v)
    ensures KeyOk(t, k)
  {
    assert SameAt(s, t, k);
  }

  /** The local variable of writer u does not denote inode j. */
  predicate NotHers(s: State, j: int, u: nat)
    requires u < |s.writers|
  {
    s.writers[u].i != j || EmptyHanded(s.writers[u].pc)
  }

  lemma OtherWriter(s: State, t: State, a: Actor, j: int, key: Key, u: nat)
    requires Moves(s, t, a, j, key) && u < |s.writers| && a != W(u) && key.vol != u && NotHers(s, j, u)
    requires WriterOk(s, u)
    ensures WriterOk(t, u)
  {
    assert SameAt(s, t, WKey(s, u));
  }

  /** A writer's inode j is no other writer's, because both would have to be its volume's. */
  lemma Separate(s: State, v: nat, j: nat, u: nat)
    requires u < |s.writers| && u != v && WriterOk(s, u) && KeyOk(s, WKey(s, u))
    requires j < |s.inodes| && InodeOk(s, j)
    requires s.inodes[j].place.In? || s.inodes[j].place == Carried(v) || (Attached(s.inodes[j]) && s.inodes[j].vol == v)
    requires s.inodes[j].place.In? && Attached(s.inodes[j]) ==> s.inodes[j].vol == v
    ensures NotHers(s, j, u)
  {
  }

  // ------------------------------------------------------------------------- queues and their threads

  /** An inode in the flow from a dirty queue to a clean one stays where it is. */
  predicate Gentle(x: Inode, y: Inode) {
    && ((x.place.In? && !x.place.id.Free?) || x.place.AtTryLock? || x.place.AtHandOff? || x.place.AtSyncer? ==>
          y.place == x.place && KeyOf(y) == KeyOf(x))
    && (x.lock.Cleaning? ==> y.lock == x.lock)
  }

  /** Flush and sync threads notice nothing but longer dirty queues. */
  ghost predicate FlowRests(s: State, t: State) {
    && t.inuse == s.inuse && t.flushers == s.flushers && t.syncers == s.syncers && t.pending == s.pending
    && |t.inodes| == |s.inodes| && |t.writers| == |s.writers|
    && (forall id: QueueId | id.Todo? || id.Done? || id.Sync? :: At(t, id) == At(s, id))
    && (forall v: nat :: |At(t, Dirty(v))| >= |At(s, Dirty(v))|)
    && (forall i: nat | i < |s.inodes| :: Gentle(s.inodes[i], t.inodes[i]))
  }

  /** No inode enters or leaves a queue. */
  ghost predicate BoxesRest(s: State, t: State) {
    && t.queues == s.queues && |t.inodes| == |s.inodes|
    && (forall i: nat | i < |s.inodes| && s.inodes[i].place.In? :: t.inodes[i].place == s.inodes[i].place)
  }

  lemma RestBox(s: State, t: State, id: QueueId)
    requires BoxesRest(s, t) && BoxOk(s, id)
    ensures BoxOk(t, id)
  {
  }

  lemma RestFlusher(s: State, t: State, f: nat)
    requires FlowRests(s, t) && f < |s.flushers| && FlusherOk(s, f)
    ensures FlusherOk(t, f)
  {
    var w := s.flushers[f];
    assert w.cur < |s.inodes| ==> Gentle(s.inodes[w.cur], t.inodes[w.cur]);
    assert |At(t, Dirty(w.vol))| >= |At(s, Dirty(w.vol))|;
  }

  lemma RestSyncer(s: State, t: State, q: nat)
    requires FlowRests(s, t) && q < |s.syncers| && SyncerOk(s, q) && BoxOk(s, Sync(q))
    ensures SyncerOk(t, q)
  {
    var w := s.syncers[q];
    assert w.cur < |s.inodes| ==> Gentle(s.inodes[w.cur], t.inodes[w.cur]);
    if w.pc != SIdle && w.pc != SSync {
      forall j | 0 <= j < w.n
        ensures At(t, Sync(q))[j] < |t.inodes| && KeyOf(t.inodes[At(t, Sync(q))[j]]) !in t.pending
      {
        var i := At(s, Sync(q))[j];
        assert Gentle(s.inodes[i], t.inodes[i]);
      }
    }
  }

  // ------------------------------------------------------------------------------ moves between queues

  ghost predicate BoxesOk(s: State) {
    forall id: QueueId :: BoxOk(s, id)
  }

  /** Inode i is the only one whose place may change, and t's queues differ from s's at `id` alone. */
  ghost predicate OneQueue(s: State, t: State, i: nat, id: QueueId) {
    && i < |s.inodes| && |t.inodes| == |s.inodes|
    && (forall k: nat | k < |s.inodes| && k != i :: t.inodes[k].place == s.inodes[k].place)
    && (forall other: QueueId | other != id :: At(t, other) == At(s, other))
  }

  lemma PopBoxes(s: State, t: State, i: nat, id: QueueId)
    requires BoxesOk(s) && OneQueue(s, t, i, id)
    requires At(s, id) != [] && At(s, id)[0] == i && At(t, id) == At(s, id)[1..]
    ensures BoxesOk(t)
    ensures forall other: QueueId, k: nat | k != i :: k in At(s, other) <==> k in At(t, other)
  {
    assert BoxOk(s, id);
    PopFacts(At(s, id));
    forall other ensures BoxOk(t, other) {
      assert BoxOk(s, other);
    }
  }

  lemma PushBoxes(s: State, t: State, i: nat, id: QueueId)
    requires BoxesOk(s) && OneQueue(s, t, i, id)
    requires !s.inodes[i].place.In? && t.inodes[i].place == In(id) && At(t, id) == At(s, id) + [i]
    ensures BoxesOk(t)
    ensures forall other: QueueId, k: nat | k != i :: k in At(s, other) <==> k in At(t, other)
  {
    assert BoxOk(s, id);
    PushFacts(At(s, id), i);
    forall other ensures BoxOk(t, other) {
      assert BoxOk(s, other);
    }
  }

  // --------------------------------------------------------------------- what flush and sync threads keep

  /** A flush or sync thread changes neither identity nor contents of an inode, and nothing a writer counts on. */
  predicate Calm(x: Inode, y: Inode) {
    && KeyOf(y) == KeyOf(x) && y.block == x.block
    && (Attached(x) <==> Attached(y)) && (Fresh(x) <==> Fresh(y))
    && (x.lock.Writing? ==> y.lock == x.lock && y.state == x.state)
    && (x.place.Carried? || x.place.Bound? || x.place.Filling? || x.place.Filled? ==> y.place == x.place)
  }

  /** What writers see is as before, except for inode j. */
  ghost predicate WritersRest(s: State, t: State, j: int) {
    && Shape(s) && Shape(t) && j < |s.inodes| && |t.inodes| == |s.inodes|
    && t.inodes == (if j < 0 then s.inodes else s.inodes[j := t.inodes[j]])
    && t.writers == s.writers && t.spare == s.spare && t.blocks == s.blocks && t.owner == s.owner && t.nodes == s.nodes
    && t.spec == s.spec && t.freeEnq == s.freeEnq && t.freeDeq == s.freeDeq && t.freeCount == s.freeCount
    && (j >= 0 ==> Calm(s.inodes[j], t.inodes[j]))
  }

  lemma RestWriter(s: State, t: State, j: int, u: nat)
    requires WritersRest(s, t, j) && u < |s.writers| && WriterOk(s, u)
    ensures WriterOk(t, u)
  {
  }
}
