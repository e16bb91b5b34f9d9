/**
 Runs that end badly, each from the first boot of a system with one flush thread, in which only volume 0 is written.

 In the longest one a CLEAN inode is lost: written, marked DIRTY again by a second write that has released the inode
 but not yet its node, flushed, cleaned, and then forgotten by the balloon thread that cannot lock the node. A flush
 starts only with a tenth of the inodes DIRTY, and a writer takes a new inode only while 100 are free; so there are 111
 inodes, and twelve keys are written first. Their block numbers are not consecutive: each is a batch of its own.
 */
module BadRuns {
  import opened BurstBuffer
  import opened BurstInvariant
  import opened BurstRuns
  import opened BurstTheorems
  import opened TableLayout
  import opened ThreadBodies
  import opened Recovery
  import LostForGood

  const INODES := 111

  /** How many keys are written before the flush. */
  const KEYS := 12

  /** What the flush takes: all but one of them. */
  const TAKEN := KEYS - 1

  /** What the tables, queues and counters hold; the clean queues are empty. */
  datatype Memory = Memory(
    inodes: seq<Entry>, spare: seq<nat>, blocks: seq<Block>, nodes: map<Key, Node>, queues: map<QueueId, seq<nat>>,
    counters: Counters)

  /** One flush thread, and nothing has been flushed yet. */
  predicate Idle(s: State) {
    && |s.owner| == INODES + |s.spare| && |s.flushers| == 1 && s.flushers[0].pc == FIdle && s.inuse != [] && s.inuse[0] == 0
    && |s.syncers| == NUM_SYNCER && s.syncers[0].pc == s.syncers[1].pc == SIdle && s.syncIdx == 0
  }

  /** The first writer of so many, the others of which are idle. */
  function Solo(w: Writer, volumes: nat): seq<Writer> { seq(volumes, v => if v == 0 then w else IDLE_WRITER) }

  /** The memory is m, the writer of volume 0 stands at w, and the other threads have done nothing. */
  ghost predicate Stands(s: State, w: Writer, m: Memory) {
    && Holds(s, m.inodes, m.spare, m.blocks, seq(NUM_BALLOON, _ => []), m.nodes, m.queues, m.counters)
    && s.writers == Solo(w, |m.spare|) && |m.spare| > 0 && Idle(s)
  }

  predicate Sized(m: Memory) {
    && |m.inodes| == INODES && |m.spare| > 0 && |m.blocks| == INODES + |m.spare| && m.spare[0] < |m.blocks|
    && forall i | 0 <= i < INODES :: m.inodes[i].block < |m.blocks|
  }

  function Queue(m: Memory, id: QueueId): seq<nat> {
    if id in m.queues then m.queues[id] else []
  }

  /** The free queue whose turn it is. */
  function Turn(m: Memory): QueueId { Free(m.counters.freeDeq % NUM_FREE) }

  /** Inode i is the next to be taken. */
  predicate InTurn(m: Memory, i: nat) {
    i < INODES && Queue(m, Turn(m)) != [] && Queue(m, Turn(m))[0] == i
  }

  // --------------------------------------------------------------------------- the segments of a write

  lemma Asking(s: State, w: Writer, m: Memory, lbn: nat, data: Block) returns (t: State)
    requires Stands(s, w, m) && Sized(m) && w.pc == WIdle && Writable(lbn)
    requires Key(0, lbn) !in m.nodes && m.counters.freeCount >= FREE_MIN_COUNT
    ensures Leads(s, t) && Stands(t, w.(pc := WClaim, lbn := lbn, data := data), m)
  {
    var s1 := StepBegin(s, 0, lbn, data);
    Stay(s);
    Go(s, s, Action.Begin(0, lbn, data), s1);
    AskRun(s1, 0);
    t := Asked(s1, 0);
    LeadsOn(s, s1, t);
  }

  function AfterTake(m: Memory, lbn: nat, i: nat): Memory
    requires Sized(m) && InTurn(m, i)
  {
    m.(inodes := m.inodes[i := m.inodes[i].(lbn := lbn, vol := 0)],
       queues := m.queues[Turn(m) := Queue(m, Turn(m))[1..]], counters := OneTaken(m.counters))
  }

  lemma Taking(s: State, w: Writer, m: Memory, i: nat) returns (t: State)
    requires Stands(s, w, m) && Sized(m) && w.pc == WClaim && InTurn(m, i)
    ensures Leads(s, t)
    ensures Stands(t, w.(pc := WAttach, shard := m.counters.freeDeq % NUM_FREE, i := i), AfterTake(m, w.lbn, i))
  {
    assert |Table(s.inodes)| == |s.inodes| && Table(s.inodes)[i] == EntryOf(s.inodes[i]);
    t := Taken(s, 0, i);
    Stay(s);
    TakeRun(s, s, 0, i);
    TakenFields(s, 0, i);
  }

  lemma Attaching(s: State, w: Writer, m: Memory) returns (t: State)
    requires Stands(s, w, m) && Sized(m) && w.pc == WAttach && w.i < INODES && Key(0, w.lbn) !in m.nodes
    ensures Leads(s, t)
    ensures Stands(t, w.(pc := WLockInode), m.(nodes := m.nodes[Key(0, w.lbn) := Node(Some(w.i), true, true)]))
  {
    assert |Table(s.inodes)| == |s.inodes|;
    t := NodeSet(s, 0);
    Stay(s);
    NodeSetRun(s, s, 0);
    NodeSetFields(s, 0);
  }

  function AfterEnter(m: Memory, i: nat): Memory
    requires Sized(m) && i < INODES
  {
    m.(inodes := m.inodes[i := m.inodes[i].(lock := Writing(0), state := DIRTY)])
  }

  lemma Entering(s: State, w: Writer, m: Memory) returns (t: State)
    requires Stands(s, w, m) && Sized(m) && w.pc == WLockInode && w.i < INODES && m.inodes[w.i].lock == Nobody
    ensures Leads(s, t)
    ensures Stands(t, w.(pc := WCopy, was := m.inodes[w.i].state, ob := m.spare[0]), AfterEnter(m, w.i))
  {
    assert |Table(s.inodes)| == |s.inodes| && Table(s.inodes)[w.i] == EntryOf(s.inodes[w.i]);
    t := Entered(s, 0);
    EnterRun(s, 0);
    EnteredFields(s, 0);
  }

  function AfterCopy(m: Memory, data: Block, i: nat): Memory
    requires Sized(m) && i < INODES
  {
    m.(inodes := m.inodes[i := m.inodes[i].(block := m.spare[0])], spare := m.spare[0 := m.inodes[i].block],
       blocks := m.blocks[m.spare[0] := data])
  }

  lemma Copying(s: State, w: Writer, m: Memory) returns (t: State)
    requires Stands(s, w, m) && Sized(m) && w.pc == WCopy && w.i < INODES && w.ob == m.spare[0]
    ensures Leads(s, t) && Stands(t, w.(pc := WCount), AfterCopy(m, w.data, w.i))
  {
    assert |Table(s.inodes)| == |s.inodes| && Table(s.inodes)[w.i] == EntryOf(s.inodes[w.i]);
    t := Copied(s, 0, w.i, w.data);
    Stay(s);
    CopyRun(s, s, 0, w.i, w.data);
    CopiedFields(s, 0, w.i, w.data);
    assert |t.owner| == |s.owner|;
  }

  function AfterPush(m: Memory, i: nat): Memory {
    m.(queues := m.queues[Dirty(0) := Queue(m, Dirty(0)) + [i]], counters := OneDirtied(m.counters))
  }

  lemma Pushing(s: State, w: Writer, m: Memory) returns (t: State)
    requires Stands(s, w, m) && Sized(m) && w.pc == WCount && w.i < INODES && w.was != DIRTY && Key(0, w.lbn) in m.nodes
    ensures Leads(s, t) && Stands(t, w.(pc := WUnlockInode), AfterPush(m, w.i))
  {
    assert |Table(s.inodes)| == |s.inodes|;
    t := Pushed(s, 0);
    PushRun(s, 0);
    PushedHolds(s, 0);
  }

  function AfterUnlock(m: Memory, lbn: nat, i: nat): Memory
    requires Sized(m) && i < INODES && Key(0, lbn) in m.nodes
  {
    m.(inodes := m.inodes[i := m.inodes[i].(lock := Nobody)],
       nodes := m.nodes[Key(0, lbn) := m.nodes[Key(0, lbn)].(lock := false)])
  }

  lemma Unlocking(s: State, w: Writer, m: Memory) returns (t: State)
    requires Stands(s, w, m) && Sized(m) && w.pc == WUnlockInode && w.i < INODES && Key(0, w.lbn) in m.nodes
    ensures Leads(s, t) && Stands(t, w.(pc := WIdle), AfterUnlock(m, w.lbn, w.i))
  {
    assert |Table(s.inodes)| == |s.inodes| && Table(s.inodes)[w.i] == EntryOf(s.inodes[w.i]);
    t := Unlocked(s, 0);
    Stay(s);
    UnlockRun(s, s, 0);
    UnlockedHolds(s, 0);
  }

  // ------------------------------------------------------------------------------- the write of a new key

  /** A new key can be written, and goes to inode i. */
  predicate Open(m: Memory, lbn: nat, i: nat) {
    && Sized(m) && Writable(lbn) && Key(0, lbn) !in m.nodes && m.counters.freeCount >= FREE_MIN_COUNT && InTurn(m, i)
    && m.inodes[i].state == FREE && m.inodes[i].lock == Nobody
  }

  /** The new inode is taken and tagged, and its node valid and locked. */
  function Chosen(m: Memory, lbn: nat, i: nat): Memory
    requires Open(m, lbn, i)
  {
    m.(inodes := m.inodes[i := m.inodes[i].(lbn := lbn, vol := 0)],
       nodes := m.nodes[Key(0, lbn) := Node(Some(i), true, true)],
       queues := m.queues[Turn(m) := Queue(m, Turn(m))[1..]], counters := OneTaken(m.counters))
  }

  lemma Choose(s: State, w: Writer, m: Memory, lbn: nat, data: Block, i: nat) returns (t: State, x: Writer)
    requires Stands(s, w, m) && w.pc == WIdle && Open(m, lbn, i)
    ensures Leads(s, t) && Stands(t, x, Chosen(m, lbn, i))
    ensures x.pc == WLockInode && x.i == i && x.lbn == lbn && x.data == data
  {
    var s1 := Asking(s, w, m, lbn, data);
    var w1 := w.(pc := WClaim, lbn := lbn, data := data);
    var s2 := Taking(s1, w1, m, i);
    var w2, m2 := w1.(pc := WAttach, shard := m.counters.freeDeq % NUM_FREE, i := i), AfterTake(m, lbn, i);
    t := Attaching(s2, w2, m2);
    x := w2.(pc := WLockInode);
    LeadsOn(s, s1, s2);
    LeadsOn(s, s2, t);
  }

  /** The new inode is DIRTY and has not received its block. */
  function HalfWritten(m: Memory, lbn: nat, i: nat): Memory
    requires Open(m, lbn, i)
  {
    AfterEnter(Chosen(m, lbn, i), i)
  }

  lemma HalfWrite(s: State, w: Writer, m: Memory, lbn: nat, data: Block, i: nat) returns (t: State, x: Writer)
    requires Stands(s, w, m) && w.pc == WIdle && Open(m, lbn, i)
    ensures Leads(s, t) && Stands(t, x, HalfWritten(m, lbn, i))
    ensures x.pc == WCopy && x.was == FREE && x.i == i && x.ob == m.spare[0] && x.lbn == lbn && x.data == data
  {
    var s1, w1 := Choose(s, w, m, lbn, data, i);
    t := Entering(s1, w1, Chosen(m, lbn, i));
    x := w1.(pc := WCopy, was := FREE, ob := m.spare[0]);
    LeadsOn(s, s1, t);
  }

  /** The memory after a whole write of a new key. */
  function Written(m: Memory, lbn: nat, data: Block, i: nat): Memory
    requires Open(m, lbn, i)
  {
    var queues := m.queues[Turn(m) := Queue(m, Turn(m))[1..]];
    Memory(m.inodes[i := Entry(lbn, 0, DIRTY, m.spare[0], Nobody)], m.spare[0 := m.inodes[i].block], m.blocks[m.spare[0] := data],
           m.nodes[Key(0, lbn) := Node(Some(i), true, false)], queues[Dirty(0) := Queue(m, Dirty(0)) + [i]],
           OneDirtied(OneTaken(m.counters)))
  }

  lemma NewWrite(s: State, w: Writer, m: Memory, lbn: nat, data: Block, i: nat) returns (t: State, x: Writer)
    requires Stands(s, w, m) && w.pc == WIdle && Open(m, lbn, i)
    ensures Leads(s, t) && Stands(t, x, Written(m, lbn, data, i)) && x.pc == WIdle
  {
    var s1, w1 := HalfWrite(s, w, m, lbn, data, i);
    var m1 := HalfWritten(m, lbn, i);
    var s2 := Copying(s1, w1, m1);
    var m2 := AfterCopy(m1, data, i);
    var s3 := Pushing(s2, w1.(pc := WCount), m2);
    var m3 := AfterPush(m2, i);
    t := Unlocking(s3, w1.(pc := WUnlockInode), m3);
    x := w1.(pc := WIdle);
    WrittenAfterAll(m, m1, m2, m3, lbn, data, i);
    LeadsOn(s, s1, s2);
    LeadsOn(s, s2, s3);
    LeadsOn(s, s3, t);
  }

  lemma WrittenAfterAll(m: Memory, m1: Memory, m2: Memory, m3: Memory, lbn: nat, data: Block, i: nat)
    requires Open(m, lbn, i) && m1 == HalfWritten(m, lbn, i) && Sized(m1) && m2 == AfterCopy(m1, data, i) && m3 == AfterPush(m2, i)
    ensures Sized(m3) && Key(0, lbn) in m3.nodes && AfterUnlock(m3, lbn, i) == Written(m, lbn, data, i)
  {
    var k := Key(0, lbn);
    assert m.nodes[k := Node(Some(i), true, true)][k := Node(Some(i), true, false)] == m.nodes[k := Node(Some(i), true, false)];
    assert Queue(m2, Dirty(0)) == Queue(m, Dirty(0));
  }

  // ------------------------------------------------------------------------------- the writes of the keys

  /** The first boot of a system with so many volumes. */
  function Opening(volumes: nat): State {
    Boot(seq(INODES, i => i), seq(volumes, v => v + INODES), FirstOwners(INODES, volumes), seq(INODES + volumes, _ => 0), map[], 1)
  }

  lemma OpeningReachable(volumes: nat)
    ensures Reachable(Opening(volumes))
  {
    FirstBoot(INODES, volumes, seq(INODES + volumes, _ => 0), map[], 1);
  }

  function Start(volumes: nat): Memory {
    Memory(seq(INODES, i requires 0 <= i < INODES => Entry(0, 0, FREE, i, Nobody)), seq(volumes, v => v + INODES),
           seq(INODES + volumes, _ => 0), map[],
           map[Free(0) := FreeList(INODES, 0), Free(1) := FreeList(INODES, 1)], Counters(0, 0, INODES, 0, 0))
  }

  lemma OpeningStands(volumes: nat)
    requires volumes > 0
    ensures Stands(Opening(volumes), IDLE_WRITER, Start(volumes))
  {
    var s := Opening(volumes);
    assert Table(s.inodes) == Start(volumes).inodes;
    assert s.writers == Solo(IDLE_WRITER, volumes) && s.inuse[0] == 0;
  }

  /** How many of the first k inodes, taken in turn, come from queue r. */
  function Given(k: nat, r: nat): nat
    requires r < NUM_FREE
  {
    (k + 1 - r) / 2
  }

  lemma GivenNext(k: nat, r: nat)
    requires r < NUM_FREE
    ensures if k % NUM_FREE == r then Given(k + 1, r) == Given(k, r) + 1 && NUM_FREE * Given(k, r) + r == k
            else Given(k + 1, r) == Given(k, r)
  {
  }

  lemma GivenLess(k: nat, n: nat, r: nat)
    requires r < NUM_FREE && k <= n
    ensures Given(k, r) <= Given(n, r)
  {
  }

  lemma {:induction false} FreeListIs(n: nat, r: nat)
    requires r < NUM_FREE
    ensures |FreeList(n, r)| == Given(n, r) && forall j: nat | j < Given(n, r) :: FreeList(n, r)[j] == NUM_FREE * j + r
  {
    if n > 0 {
      FreeListIs(n - 1, r);
      GivenNext(n - 1, r);
    }
  }

  /** q is free queue r when inodes 0 to k - 1 have been taken. */
  predicate Remaining(q: seq<nat>, k: nat, r: nat)
    requires r < NUM_FREE
  {
    && |q| == Given(INODES, r) - Given(k, r)
    && forall j: nat | j < |q| :: q[j] == NUM_FREE * (Given(k, r) + j) + r
  }

  lemma RemainingOne(q: seq<nat>, k: nat, r: nat)
    requires k < INODES && r == k % NUM_FREE && Remaining(q, k, r)
    ensures q != [] && q[0] == k && Remaining(q[1..], k + 1, r)
  {
    GivenNext(k, r);
    GivenLess(k + 1, INODES, r);
  }

  lemma RemainingOther(q: seq<nat>, k: nat, r: nat)
    requires r < NUM_FREE && r != k % NUM_FREE && Remaining(q, k, r)
    ensures Remaining(q, k + 1, r)
  {
    GivenNext(k, r);
  }

  function UpTo(n: nat): seq<nat> { seq(n, i => i) }

  lemma UpToMore(k: nat)
    ensures UpTo(k) + [k] == UpTo(k + 1)
  {
  }

  lemma UpToTail(k: nat, n: nat)
    requires k < n
    ensures UpTo(n)[k..] != [] && UpTo(n)[k..][0] == k && UpTo(n)[k..][1..] == UpTo(n)[k + 1..]
  {
  }

  /** The queues when k inodes have been taken and enqueued. */
  predicate QueuesAt(m: Memory, k: nat) {
    && k <= KEYS && m.counters == Counters(0, k, INODES - k, k, 0)
    && Remaining(Queue(m, Free(0)), k, 0) && Remaining(Queue(m, Free(1)), k, 1)
    && Queue(m, Dirty(0)) == UpTo(k) && Queue(m, Todo(0)) == Queue(m, Done(0)) == Queue(m, Sync(0)) == []
  }

  predicate InodesAt(m: Memory, k: nat) {
    && Sized(m) && (forall i | 0 <= i < INODES :: m.inodes[i].lock == Nobody)
    && (forall i | k <= i < INODES :: m.inodes[i].state == FREE)
    && (k > 0 ==> m.inodes[0].state == DIRTY && m.inodes[0].lbn == m.inodes[0].vol == 0)
  }

  ghost predicate KeysAt(m: Memory, k: nat) {
    && (forall x | x in m.nodes :: x.vol == 0 && x.lbn < 2 * k)
    && (k > 0 ==> Key(0, 0) in m.nodes && m.nodes[Key(0, 0)] == Node(Some(0), true, false))
  }

  /** The memory after the writes of keys 0, 2, ..., 2 * (k - 1), which went to inodes 0, 1, ..., k - 1. */
  ghost predicate Dirtied(m: Memory, k: nat) {
    QueuesAt(m, k) && InodesAt(m, k) && KeysAt(m, k)
  }

  lemma NextInTurn(m: Memory, k: nat)
    requires Dirtied(m, k) && k < KEYS
    ensures Open(m, 2 * k, k)
  {
    if k % NUM_FREE == 0 { RemainingOne(Queue(m, Free(0)), k, 0); } else { RemainingOne(Queue(m, Free(1)), k, 1); }
    assert Turn(m) == Free(k % NUM_FREE);
  }

  /** Queues that are as k keys left them, but for the next inode's move. */
  lemma QueuesOne(m: Memory, m': Memory, k: nat, r: nat)
    requires QueuesAt(m, k) && k < KEYS && r == k % NUM_FREE && m'.counters == Counters(0, k + 1, INODES - k - 1, k + 1, 0)
    requires m'.queues == m.queues[Free(r) := Queue(m, Free(r))[1..]][Dirty(0) := Queue(m, Dirty(0)) + [k]]
    ensures QueuesAt(m', k + 1)
  {
    UpToMore(k);
    var from, other := Queue(m, Free(r)), Queue(m, Free(1 - r));
    RemainingOne(from, k, r);
    RemainingOther(other, k, 1 - r);
    QueuesMoved(m, m', Free(r), Free(1 - r), k);
  }

  lemma QueuesMoved(m: Memory, m': Memory, from: QueueId, other: QueueId, k: nat)
    requires from.Free? && other.Free? && from != other && Queue(m, from) != []
    requires m'.queues == m.queues[from := Queue(m, from)[1..]][Dirty(0) := Queue(m, Dirty(0)) + [k]]
    ensures Queue(m', from) == Queue(m, from)[1..] && Queue(m', other) == Queue(m, other)
    ensures Queue(m', Dirty(0)) == Queue(m, Dirty(0)) + [k] && Queue(m', Todo(0)) == Queue(m, Todo(0))
    ensures Queue(m', Done(0)) == Queue(m, Done(0)) && Queue(m', Sync(0)) == Queue(m, Sync(0))
  {
  }

  lemma InodesOne(m: Memory, k: nat, data: Block)
    requires InodesAt(m, k) && k < KEYS && Open(m, 2 * k, k)
    ensures InodesAt(Written(m, 2 * k, data, k), k + 1)
  {
  }

  lemma KeysOne(m: Memory, k: nat, data: Block)
    requires KeysAt(m, k) && Open(m, 2 * k, k)
    ensures KeysAt(Written(m, 2 * k, data, k), k + 1)
  {
  }

  lemma QueuesWritten(m: Memory, k: nat, data: Block)
    requires QueuesAt(m, k) && k < KEYS && Open(m, 2 * k, k)
    ensures QueuesAt(Written(m, 2 * k, data, k), k + 1)
  {
    QueuesOne(m, Written(m, 2 * k, data, k), k, k % NUM_FREE);
  }

  lemma DirtiedOne(m: Memory, k: nat, data: Block)
    requires Dirtied(m, k) && k < KEYS && Open(m, 2 * k, k)
    ensures Dirtied(Written(m, 2 * k, data, k), k + 1)
  {
    QueuesWritten(m, k, data);
    InodesOne(m, k, data);
    KeysOne(m, k, data);
  }

  lemma StartRemaining(q: seq<nat>, k: nat, r: nat)
    requires r < NUM_FREE && k == 0 && |q| == Given(INODES, r) && forall j: nat | j < |q| :: q[j] == NUM_FREE * j + r
    ensures Remaining(q, k, r)
  {
  }

  lemma StartIsDirtied(volumes: nat, k: nat)
    requires volumes > 0 && k == 0
    ensures Dirtied(Start(volumes), k)
  {
    FreeListIs(INODES, 0);
    FreeListIs(INODES, 1);
    StartRemaining(FreeList(INODES, 0), k, 0);
    StartRemaining(FreeList(INODES, 1), k, 1);
  }

  lemma WriteKey(s: State, w: Writer, m: Memory, k: nat) returns (t: State, x: Writer, m': Memory)
    requires Stands(s, w, m) && Dirtied(m, k) && w.pc == WIdle && k < KEYS
    ensures Leads(s, t) && Stands(t, x, m') && x.pc == WIdle && Dirtied(m', k + 1)
    ensures Open(m, 2 * k, k) && m' == Written(m, 2 * k, 7, k)
  {
    NextInTurn(m, k);
    t, x := NewWrite(s, w, m, 2 * k, 7, k);
    m' := Written(m, 2 * k, 7, k);
    DirtiedOne(m, k, 7);
  }

  lemma {:induction false} WriteOn(s0: State, s: State, w: Writer, m: Memory, k: nat) returns (t: State, x: Writer, m': Memory)
    requires Leads(s0, s) && Stands(s, w, m) && Dirtied(m, k) && w.pc == WIdle
    ensures Leads(s0, t) && Stands(t, x, m') && Dirtied(m', KEYS) && x.pc == WIdle && |m'.spare| == |m.spare|
    decreases KEYS - k
  {
    if k == KEYS {
      t, x, m' := s, w, m;
    } else {
      var s1, w1, m1 := WriteKey(s, w, m, k);
      LeadsOn(s0, s, s1);
      t, x, m' := WriteOn(s0, s1, w1, m1, k + 1);
    }
  }

  lemma WriteKeys(volumes: nat) returns (s: State, w: Writer, m: Memory)
    requires volumes > 0
    ensures Leads(Opening(volumes), s) && Stands(s, w, m) && w.pc == WIdle && Dirtied(m, KEYS) && |m.spare| == volumes
  {
    Stay(Opening(volumes));
    OpeningStands(volumes);
    StartIsDirtied(volumes, 0);
    s, w, m := WriteOn(Opening(volumes), Opening(volumes), IDLE_WRITER, Start(volumes), 0);
  }

  // ---------------------------------------------------------------------------------- the second write

  /** All keys are written. */
  ghost predicate Filled(s: State, w: Writer, m: Memory) {
    Stands(s, w, m) && QueuesAt(m, KEYS) && InodesAt(m, KEYS)
  }

  /** The second write of key 0 has released its inode, 0, and is about to unlock the node. */
  ghost predicate Poised(s: State, w: Writer, m: Memory) {
    && Filled(s, w, m) && w.pc == WUnlockNode && w.lbn == 0
    && Key(0, 0) in m.nodes && m.nodes[Key(0, 0)].lock
  }

  lemma Reusing(s: State, w: Writer, m: Memory, data: Block) returns (t: State)
    requires Stands(s, w, m) && Sized(m) && w.pc == WIdle
    requires Key(0, 0) in m.nodes && m.nodes[Key(0, 0)] == Node(Some(0), true, false)
    ensures Leads(s, t)
    ensures Stands(t, w.(pc := WLockInode, lbn := 0, data := data, i := 0), m.(nodes := m.nodes[Key(0, 0) := Node(Some(0), true, true)]))
  {
    var s1 := StepBegin(s, 0, 0, data);
    Stay(s);
    Go(s, s, Action.Begin(0, 0, data), s1);
    ReuseRun(s1, 0);
    ReusedHolds(s1, 0);
    t := Reused(s1, 0);
    LeadsOn(s, s1, t);
  }

  /** An inode that was DIRTY is neither counted nor enqueued again; its lock is released. */
  lemma Releasing(s: State, w: Writer, m: Memory) returns (t: State)
    requires Stands(s, w, m) && Sized(m) && w.pc == WCount && w.i < INODES && w.was == DIRTY && Key(0, w.lbn) in m.nodes
    ensures Leads(s, t)
    ensures Stands(t, w.(pc := WUnlockNode), m.(inodes := m.inodes[w.i := m.inodes[w.i].(lock := Nobody)]))
  {
    assert |Table(s.inodes)| == |s.inodes| && Table(s.inodes)[w.i] == EntryOf(s.inodes[w.i]);
    var s1 := StepCount(s, 0);
    t := StepUnlockInode(s1, 0);
    Stay(s);
    Go(s, s, Write(0), s1);
    Go(s, s1, Write(0), t);
    TableUpdate(s.inodes, w.i, t.inodes[w.i]);
  }

  /** The memory after a write of key 0 to inode 0, up to the release of the inode. */
  function Rewritten(m: Memory, data: Block): Memory
    requires Sized(m)
  {
    m.(inodes := m.inodes[0 := m.inodes[0].(lock := Nobody, state := DIRTY, block := m.spare[0])], spare := m.spare[0 := m.inodes[0].block],
       blocks := m.blocks[m.spare[0] := data], nodes := m.nodes[Key(0, 0) := Node(Some(0), true, true)])
  }

  function Reentered(m: Memory): Memory
    requires Sized(m)
  {
    AfterEnter(m.(nodes := m.nodes[Key(0, 0) := Node(Some(0), true, true)]), 0)
  }

  lemma Reentering(s: State, w: Writer, m: Memory, data: Block) returns (t: State, x: Writer)
    requires Stands(s, w, m) && Sized(m) && w.pc == WIdle && m.inodes[0].state == DIRTY && m.inodes[0].lock == Nobody
    requires Key(0, 0) in m.nodes && m.nodes[Key(0, 0)] == Node(Some(0), true, false)
    ensures Leads(s, t) && Stands(t, x, Reentered(m)) && Sized(Reentered(m))
    ensures x.pc == WCopy && x.was == DIRTY && x.i == x.lbn == 0 && x.data == data && x.ob == m.spare[0]
  {
    var s1 := Reusing(s, w, m, data);
    var w1, m1 := w.(pc := WLockInode, lbn := 0, data := data, i := 0), m.(nodes := m.nodes[Key(0, 0) := Node(Some(0), true, true)]);
    t := Entering(s1, w1, m1);
    x := w1.(pc := WCopy, was := DIRTY, ob := m.spare[0]);
    LeadsOn(s, s1, t);
  }

  lemma RewrittenAfterAll(m: Memory, m1: Memory, m2: Memory, data: Block)
    requires Sized(m) && m1 == Reentered(m) && Sized(m1) && m2 == AfterCopy(m1, data, 0)
    ensures Sized(m2) && Key(0, 0) in m2.nodes && m2.(inodes := m2.inodes[0 := m2.inodes[0].(lock := Nobody)]) == Rewritten(m, data)
  {
  }

  lemma Rewriting(s: State, w: Writer, m: Memory, data: Block) returns (t: State, x: Writer)
    requires Stands(s, w, m) && Sized(m) && w.pc == WIdle && m.inodes[0].state == DIRTY && m.inodes[0].lock == Nobody
    requires Key(0, 0) in m.nodes && m.nodes[Key(0, 0)] == Node(Some(0), true, false)
    ensures Leads(s, t) && Stands(t, x, Rewritten(m, data)) && x.pc == WUnlockNode && x.lbn == 0
  {
    var s1, w1 := Reentering(s, w, m, data);
    var m1 := Reentered(m);
    var s2 := Copying(s1, w1, m1);
    var m2 := AfterCopy(m1, data, 0);
    RewrittenAfterAll(m, m1, m2, data);
    t := Releasing(s2, w1.(pc := WCount), m2);
    x := w1.(pc := WUnlockNode);
    LeadsOn(s, s1, s2);
    LeadsOn(s, s2, t);
  }

  lemma SecondWrite(s: State, w: Writer, m: Memory, data: Block) returns (t: State, x: Writer)
    requires Stands(s, w, m) && Dirtied(m, KEYS) && w.pc == WIdle
    ensures Leads(s, t) && Poised(t, x, Rewritten(m, data))
  {
    t, x := Rewriting(s, w, m, data);
    RewrittenFields(m, data);
  }

  lemma RewrittenFields(m: Memory, data: Block)
    requires Dirtied(m, KEYS)
    ensures QueuesAt(Rewritten(m, data), KEYS) && InodesAt(Rewritten(m, data), KEYS)
  {
  }

  // --------------------------------------------------------------------------- flush, sync and balloon

  /** Nothing has changed for the writers. */
  predicate Apart(s0: State, s: State) {
    && s.writers == s0.writers && s.nodes == s0.nodes
    && s.freeEnq == s0.freeEnq && s.freeDeq == s0.freeDeq && s.freeCount == s0.freeCount
  }

  /** Since s0 the writers have rested, and inode 0, with key 0, has come to state x and lock l. */
  predicate Behind(s0: State, s: State, x: InodeState, l: Holder) {
    && |s.inodes| == INODES && Apart(s0, s)
    && s.inodes[0].state == x && s.inodes[0].lock == l && s.inodes[0].lbn == 0 && s.inodes[0].vol == 0
    && |s.syncers| == NUM_SYNCER && s.syncers[1].pc == SIdle && s.clean == seq(NUM_BALLOON, _ => []) && s.cleanIdx == 0
  }

  /** The flush thread has collected k inodes. */
  predicate Gathered(s0: State, s: State, k: nat) {
    && k <= TAKEN && Behind(s0, s, DIRTY, if k == 0 then Nobody else Flushing)
    && (forall i | 0 <= i < INODES :: s.inodes[i].block < |s.blocks|)
    && |s.flushers| == 1 && s.flushers[0] == Flusher(FCollect, 0, TAKEN, TAKEN, k, s.flushers[0].cur)
    && (forall i | k <= i < INODES :: s.inodes[i].lock == Nobody)
    && At(s, Dirty(0)) == UpTo(KEYS)[k..] && At(s, Todo(0)) == UpTo(k) && At(s, Done(0)) == At(s, Sync(0)) == []
    && s.syncIdx == 0 && s.syncers[0].pc == SIdle
  }

  /** It has found enough DIRTY inodes, and taken the volume's token. */
  lemma Woken(s: State) returns (t: State)
    requires |s.flushers| == 1 && s.flushers[0].pc == FIdle && s.inuse != [] && s.inuse[0] == 0 && s.dirtyCount >= FlushLwm(s)
    ensures Leads(s, t) && t == s.(flushers := [s.flushers[0].(pc := FLook, vol := 0)], inuse := s.inuse[1..])
  {
    var s1 := SetFlusher(s, 0, s.flushers[0].(pc := FWoken));
    var s2 := SetFlusher(s1, 0, s.flushers[0].(pc := FClaim));
    t := StepTakeToken(s2, 0);
    Stay(s);
    Go(s, s, Flush(0, false), s1);
    Go(s, s1, Flush(0, false), s2);
    Go(s, s2, Flush(0, false), t);
    assert t.flushers == [s.flushers[0].(pc := FLook, vol := 0)];
  }

  lemma Looked(s: State) returns (t: State)
    requires |s.flushers| == 1 && s.flushers[0].pc == FLook && s.flushers[0].vol == 0 && |At(s, Dirty(0))| == KEYS
    ensures Leads(s, t) && t == s.(flushers := [s.flushers[0].(pc := FCollect, num := TAKEN, got := 0, ws := TAKEN)])
  {
    var s1 := SetFlusher(s, 0, s.flushers[0].(pc := FSnapshot));
    t := StepSnapshot(s1, 0);
    Stay(s);
    Go(s, s, Flush(0, false), s1);
    Go(s, s1, Flush(0, false), t);
  }

  lemma Snapshotted(s: State, w: Writer, m: Memory) returns (t: State)
    requires Filled(s, w, m)
    ensures Leads(s, t) && Gathered(s, t, 0)
  {
    assert |Table(s.inodes)| == |s.inodes|;
    var s1 := Woken(s);
    assert At(s, Dirty(0)) == Queue(m, Dirty(0)) == UpTo(KEYS);
    t := Looked(s1);
    LeadsOn(s, s1, t);
    assert t.flushers == [Flusher(FCollect, 0, TAKEN, TAKEN, 0, s.flushers[0].cur)];
    GatheredNone(s, w, m, t);
  }

  lemma GatheredNone(s: State, w: Writer, m: Memory, t: State)
    requires Filled(s, w, m)
    requires t == s.(flushers := [Flusher(FCollect, 0, TAKEN, TAKEN, 0, s.flushers[0].cur)], inuse := s.inuse[1..])
    ensures Gathered(s, t, 0)
  {
    assert |Table(s.inodes)| == |s.inodes| && |Table(s.inodes)| == |m.inodes|;
    forall i | 0 <= i < INODES ensures EntryOf(s.inodes[i]) == m.inodes[i] { assert Table(s.inodes)[i] == m.inodes[i]; }
    assert At(t, Dirty(0)) == Queue(m, Dirty(0)) && At(t, Todo(0)) == Queue(m, Todo(0)) && At(t, Done(0)) == Queue(m, Done(0))
        && At(t, Sync(0)) == Queue(m, Sync(0));
    assert EntryOf(s.inodes[0]) == m.inodes[0];
  }

  /** It has dequeued inode k as well, and is about to try its lock. */
  predicate Trying(s0: State, s: State, k: nat) {
    && k < TAKEN && Behind(s0, s, DIRTY, if k == 0 then Nobody else Flushing)
    && (forall i | 0 <= i < INODES :: s.inodes[i].block < |s.blocks|)
    && |s.flushers| == 1 && s.flushers[0] == Flusher(FTry, 0, TAKEN, TAKEN, k, k)
    && (forall i | k <= i < INODES :: s.inodes[i].lock == Nobody)
    && At(s, Dirty(0)) == UpTo(KEYS)[k + 1..] && At(s, Todo(0)) == UpTo(k) && At(s, Done(0)) == At(s, Sync(0)) == []
    && s.syncIdx == 0 && s.syncers[0].pc == SIdle
  }

  lemma Grabbed(s0: State, s: State, k: nat)
    requires Gathered(s0, s, k) && k < TAKEN && At(s, Dirty(0)) != [] && At(s, Dirty(0))[0] == k
    requires At(s, Dirty(0))[1..] == UpTo(KEYS)[k + 1..]
    ensures Trying(s0, StepGrab(s, 0), k)
  {
  }

  lemma GrabOne(s0: State, s: State, k: nat) returns (t: State)
    requires Gathered(s0, s, k) && k < TAKEN
    ensures Leads(s, t) && Trying(s0, t, k)
  {
    UpToTail(k, KEYS);
    t := StepGrab(s, 0);
    Stay(s);
    Go(s, s, Flush(0, false), t);
    Grabbed(s0, s, k);
  }

  lemma LockedOne(s0: State, s: State, k: nat)
    requires Trying(s0, s, k)
    ensures Gathered(s0, StepCollect(s, 0), k + 1)
  {
    UpToMore(k);
  }

  /** It dequeues the next inode and locks it. */
  lemma GatherOne(s0: State, s: State, k: nat) returns (t: State)
    requires Gathered(s0, s, k) && k < TAKEN
    ensures Leads(s, t) && Gathered(s0, t, k + 1)
  {
    var s1 := GrabOne(s0, s, k);
    t := StepCollect(s1, 0);
    Go(s, s1, Flush(0, false), t);
    LockedOne(s0, s1, k);
  }

  lemma {:induction false} GatherAll(s0: State, s: State, k: nat) returns (t: State)
    requires Gathered(s0, s, k)
    ensures Leads(s, t) && Gathered(s0, t, TAKEN)
    decreases TAKEN - k
  {
    if k == TAKEN {
      Stay(s);
      t := s;
    } else {
      var s1 := GatherOne(s0, s, k);
      t := GatherAll(s0, s1, k + 1);
      LeadsOn(s, s1, t);
    }
  }

  /** It is writing, and has written the first inode's block, a batch of its own. */
  predicate OneOut(s0: State, s: State) {
    && Behind(s0, s, DIRTY, Flushing) && |s.flushers| == 1 && s.flushers[0].pc == FWrite && s.syncers[0].pc == SIdle
    && At(s, Done(0)) == [0] && At(s, Sync(0)) == [] && s.syncIdx == 0 && FlusherSafe(s, 0)
  }

  lemma WroteFirst(s0: State, s: State) returns (t: State)
    requires Gathered(s0, s, TAKEN)
    ensures Leads(s, t) && OneOut(s0, t)
  {
    assert At(s, Todo(0))[0] == 0 && At(s, Todo(0))[1] == 1;
    var s1 := SetFlusher(s, 0, s.flushers[0].(pc := FWrite));
    t := StepWriteBlock(s1, 0);
    Stay(s);
    Go(s, s, Flush(0, false), s1);
    Go(s, s1, Flush(0, true), t);
    FirstOut(s0, s1);
  }

  lemma FirstOut(s0: State, s: State)
    requires Behind(s0, s, DIRTY, Flushing) && |s.flushers| == 1 && s.flushers[0].pc == FWrite && s.syncers[0].pc == SIdle
    requires |At(s, Todo(0))| > 1 && At(s, Todo(0))[0] == 0 && s.inodes[0].block < |s.blocks|
    requires var i := At(s, Todo(0))[1]; 0 < i < INODES && s.inodes[i].block < |s.blocks|
    requires At(s, Done(0)) == At(s, Sync(0)) == [] && s.syncIdx == 0
    ensures OneOut(s0, StepWriteBlock(s, 0))
  {
  }

  lemma MarkedFirst(s0: State, s: State) returns (t: State)
    requires OneOut(s0, s)
    ensures Leads(s, t) && Behind(s0, t, SYNC, Flushing) && |t.flushers| == 1 && t.flushers[0].pc == FHand && t.flushers[0].cur == 0
    ensures At(t, Sync(0)) == [] && t.syncIdx == 0 && t.syncers[0].pc == SIdle
  {
    t := StepMarkSync(s, 0);
    Stay(s);
    Go(s, s, Flush(0, false), t);
  }

  /** It has handed that inode to sync thread 0. */
  lemma Handed(s0: State, s: State) returns (t: State)
    requires OneOut(s0, s)
    ensures Leads(s, t) && Behind(s0, t, SYNC, Flushing) && At(t, Sync(0)) == [0] && t.syncers[0].pc == SIdle
  {
    var s1 := MarkedFirst(s0, s);
    t := StepHandOff(s1, 0);
    Go(s, s1, Flush(0, false), t);
  }

  /** Sync thread 0 has cleaned inode 0, unlocked it and put it into clean queue 0. */
  predicate Cleaned(s0: State, s: State) {
    && |s.inodes| == INODES && Apart(s0, s)
    && s.inodes[0].state == CLEAN && s.inodes[0].lbn == 0 && s.inodes[0].vol == 0
    && |s.syncers| == NUM_SYNCER && s.syncers[0].pc == SLoop && s.syncers[1].pc == SIdle
    && |s.clean| == NUM_BALLOON && s.clean[0] == [0] && forall b | 0 < b < NUM_BALLOON :: s.clean[b] == []
  }

  lemma CleanedInode(s0: State, s: State) returns (t: State)
    requires Behind(s0, s, SYNC, Flushing) && At(s, Sync(0)) == [0] && s.syncers[0].pc == SIdle
    ensures Leads(s, t) && Cleaned(s0, t)
  {
    SyncStartRun(s, 0);
    var s1 := s.(syncers := s.syncers[0 := Syncer(SLoop, |At(s, Sync(0))|, s.syncers[0].cur)], stable := s.cache, pending := map[]);
    assert s1.syncers[0].n == 1 && At(s1, Sync(0)) == [0];
    t := Synced(s1, 0, 0);
    SyncRun(s1, 0, 0);
    LeadsOn(s, s1, t);
    SyncedFields(s1, 0, 0);
    CleanedScene(s0, s1, t);
  }

  lemma CleanedScene(s0: State, s: State, t: State)
    requires Behind(s0, s, SYNC, Flushing) && s.syncers[0].pc == SLoop && At(s, Sync(0)) != []
    requires Holds(t, Table(s.inodes)[0 := EntryOf(s.inodes[0]).(state := CLEAN, lock := Nobody)], s.spare, s.blocks,
                   s.clean[0 := s.clean[0] + [0]], s.nodes, s.queues[Sync(0) := At(s, Sync(0))[1..]], OneCleaned(CountersOf(s)))
    requires |t.syncers| == |s.syncers| && t.syncers[0].pc == SLoop && t.syncers[1] == s.syncers[1]
    requires t.writers == s.writers
    ensures Cleaned(s0, t)
  {
    assert |Table(t.inodes)| == |t.inodes|;
    assert Table(t.inodes)[0] == EntryOf(t.inodes[0]);
  }

  /** The writer of volume 0 has only its node to unlock, that of key 0. */
  predicate Unlocks(s: State) {
    && s.writers != [] && s.writers[0].pc == WUnlockNode && s.writers[0].lbn == 0
    && Key(0, 0) in s.nodes && s.nodes[Key(0, 0)].lock
  }

  lemma DroppedInode(s0: State, s: State)
    requires Inv(s) && Cleaned(s0, s) && Unlocks(s0)
    ensures Guard(s, Balloon(0)) && Safe(s, Balloon(0))
    ensures var t := Do(s, Balloon(0)); Leads(s, t) && LostForGood.Lost(t, 0)
  {
    DropLoses(s, 0);
    DropIsStep(s, 0);
    var t := Do(s, Balloon(0));
    Stay(s);
    Go(s, s, Balloon(0), t);
    NoCopyLeft(s0, s);
  }

  lemma NoCopyLeft(s0: State, s: State)
    requires Cleaned(s0, s)
    ensures !HasCopy(StepDrop(s, 0), 0)
  {
    var t := StepDrop(s, 0);
    assert t.syncers == s.syncers && |s.syncers| == 2;
    assert t.clean[0] == [] && forall b | 0 < b < NUM_BALLOON :: t.clean[b] == s.clean[b];
  }

  /** From the state in which all keys are written to the one in which inode 0 is CLEAN. */
  lemma CleanFirst(s: State, w: Writer, m: Memory) returns (t: State)
    requires Filled(s, w, m)
    ensures Leads(s, t) && Cleaned(s, t)
  {
    var s1 := Snapshotted(s, w, m);
    var s2 := GatherAll(s, s1, 0);
    var s3 := WroteFirst(s, s2);
    var s4 := Handed(s, s3);
    t := CleanedInode(s, s4);
    LeadsOn(s, s1, s2);
    LeadsOn(s, s2, s3);
    LeadsOn(s, s3, s4);
    LeadsOn(s, s4, t);
  }

  /** There is a reachable state with a CLEAN inode that no balloon thread will look at and no call is about to dirty. */
  lemma LostInodeExists() returns (s: State)
    ensures Reachable(s)
    ensures LostForGood.Lost(s, 0) && !Findable(s, 0)
  {
    var s0 := Opening(1);
    OpeningReachable(1);
    ReachableInv(s0);
    var s1, w1, m1 := WriteKeys(1);
    var s2, w2 := SecondWrite(s1, w1, m1, 9);
    var s3 := CleanFirst(s2, w2, Rewritten(m1, 9));
    LeadsOn(s0, s1, s2);
    LeadsOn(s0, s2, s3);
    LeadsKeeps(s0, s3);
    DroppedInode(s2, s3);
    s := Do(s3, Balloon(0));
    LostForGood.LostIsUnfindable(s, 0);
    LeadsOn(s0, s3, s);
    LeadsReachable(s0, s);
  }

  // --------------------------------------------------------------------------------------- bad crashes

  lemma EntryAt(s: State, w: Writer, m: Memory, i: nat)
    requires Stands(s, w, m) && Sized(m) && i < INODES
    ensures |s.inodes| == INODES && EntryOf(s.inodes[i]) == m.inodes[i]
  {
    assert |Table(s.inodes)| == |s.inodes| && Table(s.inodes)[i] == EntryOf(s.inodes[i]);
  }

  /** The first boot's writer is filling inode 0. */
  lemma FirstHalf() returns (s: State, w: Writer)
    ensures Leads(Opening(1), s) && Open(Start(1), 0, 0) && Stands(s, w, HalfWritten(Start(1), 0, 0))
    ensures w.pc == WCopy && w.was == FREE && w.i == w.lbn == 0 && w.ob == INODES
  {
    OpeningStands(1);
    StartIsDirtied(1, 0);
    NextInTurn(Start(1), 0);
    s, w := HalfWrite(Opening(1), IDLE_WRITER, Start(1), 0, 7, 0);
  }

  lemma StartsAtZero(s: State, w: Writer, m: Memory)
    requires Stands(s, w, m) && Sized(m) && forall i | 0 <= i < INODES :: m.inodes[i].lbn == 0
    ensures OffsetsFit(s)
  {
    forall i: nat | i < |s.inodes| && NeedsRecovery(s.inodes[i]) ensures Fits(s.inodes[i]) {
      assert |Table(s.inodes)| == |s.inodes|;
      EntryAt(s, w, m, i);
    }
  }

  /** A crash can find a new inode DIRTY without its block. */
  lemma HalfMarkedExists() returns (s: State)
    ensures Reachable(s) && OffsetsFit(s) && !NoHalfMarked(s)
  {
    var w;
    s, w := FirstHalf();
    OpeningReachable(1);
    LeadsReachable(Opening(1), s);
    StartsAtZero(s, w, HalfWritten(Start(1), 0, 0));
    assert MidWrite(s.writers[0].pc) && s.writers[0].was == FREE;
  }

  /** A crash can fall between the two stores that exchange blocks. */
  lemma ExchangingExists() returns (s: State)
    ensures Reachable(s) && Exchanging(s)
  {
    var s1, w := FirstHalf();
    EntryAt(s1, w, HalfWritten(Start(1), 0, 0), 0);
    var s2 := StepCopy(s1, 0);
    s := StepGive(s2, 0);
    Go(Opening(1), s1, Write(0), s2);
    Go(Opening(1), s2, Write(0), s);
    OpeningReachable(1);
    LeadsReachable(Opening(1), s);
    assert s.writers[0].pc == WSwap;
  }

  /** The first block number whose byte offset wraps, and wraps to 0. */
  const WRAPS := UINT32 / BLOCK_SIZE

  /** What two whole writes leave, of block number 0 and of the one whose offset wraps to 0. */
  ghost predicate TwoWritten(s: State) {
    && Reachable(s) && Inv(s) && NoHalfMarked(s) && |s.inodes| == INODES
    && s.inodes[0].state == s.inodes[1].state == DIRTY && KeyOf(s.inodes[0]) == Key(0, 0) && KeyOf(s.inodes[1]) == Key(0, WRAPS)
    && (forall i | 1 < i < INODES :: s.inodes[i].state == FREE)
    && s.inodes[0].block < |s.blocks| && s.blocks[s.inodes[0].block] == 7
    && s.inodes[1].block < |s.blocks| && s.blocks[s.inodes[1].block] == 8
    && ValidAt(s, Key(0, 0)) && s.nodes[Key(0, 0)].inode == Some(0) && |s.writers| == 1 && s.writers[0].pc == WIdle
  }

  predicate HoldsTwo(m: Memory) {
    && Sized(m) && |m.spare| == 1 && m.inodes[0] == Entry(0, 0, DIRTY, INODES, Nobody) && m.inodes[1] == Entry(WRAPS, 0, DIRTY, 0, Nobody)
    && (forall i | 1 < i < INODES :: m.inodes[i].state == FREE) && m.blocks[INODES] == 7 && m.blocks[0] == 8
    && Key(0, 0) in m.nodes && m.nodes[Key(0, 0)] == Node(Some(0), true, false)
  }

  lemma WrittenTwo(m: Memory)
    requires Dirtied(m, 1) && Open(m, WRAPS, 1) && HoldsOne(m)
    ensures HoldsTwo(Written(m, WRAPS, 8, 1))
  {
  }

  lemma StandsTwo(s: State, w: Writer, m: Memory)
    requires Stands(s, w, m) && HoldsTwo(m) && w.pc == WIdle && Reachable(s) && Inv(s)
    ensures TwoWritten(s)
  {
    forall i: nat | i < INODES ensures |s.inodes| == INODES && EntryOf(s.inodes[i]) == m.inodes[i] { EntryAt(s, w, m, i); }
    assert EntryOf(s.inodes[0]) == m.inodes[0] && EntryOf(s.inodes[1]) == m.inodes[1];
  }

  /** Inode 0 holds block number 0, and the first volume's spare block is 0. */
  predicate HoldsOne(m: Memory) {
    && Sized(m) && m.inodes[0] == Entry(0, 0, DIRTY, INODES, Nobody) && m.inodes[1].block == 1 && m.spare == [0]
    && m.blocks[INODES] == 7
  }

  lemma WriteOne(s: State, w: Writer, m: Memory, k: nat) returns (t: State, x: Writer, m': Memory)
    requires Stands(s, w, m) && k == 0 && Dirtied(m, k) && w.pc == WIdle
    requires m.spare == [INODES] && m.inodes[0].block == 0 && m.inodes[1].block == 1
    ensures Leads(s, t) && Stands(t, x, m') && x.pc == WIdle && Dirtied(m', k + 1) && HoldsOne(m')
  {
    t, x, m' := WriteKey(s, w, m, k);
    WrittenOne(m, m', k);
  }

  lemma WrittenOne(m: Memory, m': Memory, k: nat)
    requires k == 0 && Open(m, 2 * k, k) && m' == Written(m, 2 * k, 7, k) && Sized(m')
    requires m.spare == [INODES] && m.inodes[0].block == 0 && m.inodes[1].block == 1
    ensures HoldsOne(m')
  {
  }

  lemma WriteFirst() returns (s: State, w: Writer, m: Memory)
    ensures Leads(Opening(1), s) && Stands(s, w, m) && w.pc == WIdle && Dirtied(m, 1) && HoldsOne(m)
  {
    OpeningStands(1);
    StartIsDirtied(1, 0);
    assert Start(1).spare == [INODES];
    s, w, m := WriteOne(Opening(1), IDLE_WRITER, Start(1), 0);
  }

  lemma WriteTwo() returns (s: State)
    ensures TwoWritten(s)
  {
    var s1, w1, m1 := WriteFirst();
    NextInTurn(m1, 1);
    var w2;
    s, w2 := NewWrite(s1, w1, m1, WRAPS, 8, 1);
    LeadsOn(Opening(1), s1, s);
    OpeningReachable(1);
    LeadsReachable(Opening(1), s);
    ReachableInv(s);
    WrittenTwo(m1);
    StandsTwo(s, w2, Written(m1, WRAPS, 8, 1));
  }

  lemma WrapsToZero(x: Inode)
    requires KeyOf(x) == Key(0, WRAPS) && x.state == DIRTY
    ensures NeedsRecovery(x) && Target(x) == Key(0, 0) && KeyOf(x) != Key(0, 0)
  {
  }

  lemma NotSpared(s: State)
    requires TwoWritten(s)
    ensures !Spared(s, Key(0, 0)) && Logical(s, Key(0, 0)) == Some(7)
  {
    WrapsToZero(s.inodes[1]);
  }

  lemma LastIsOne(s: State)
    requires |s.inodes| == INODES && KeyOf(s.inodes[1]) == Key(0, WRAPS) && s.inodes[1].state == DIRTY
    requires forall i: nat | 1 < i < INODES :: s.inodes[i].state == FREE
    ensures LastTo(s.inodes, |s.inodes|, Key(0, 0)) == 1
  {
    WrapsToZero(s.inodes[1]);
  }

  lemma Overwritten(s: State, disk: map<Key, Block>)
    requires TwoWritten(s) && forall i: nat | i < |s.inodes| :: s.inodes[i].block < |s.blocks|
    ensures Lookup(AfterRecovery(s, disk), Key(0, 0)) == Some(8)
  {
    LastIsOne(s);
    RewriteIs(s.inodes, s.blocks, |s.inodes|, disk, Key(0, 0));
  }

  /**
   A block that fits can be lost as well: whatever the crash leaves, recovery writes the block of the later inode over
   the one that was buffered for block number 0.
   */
  lemma VictimExists() returns (s: State)
    ensures Reachable(s) && NoHalfMarked(s) && |s.inodes| == INODES
    ensures s.inodes[0].state == DIRTY && KeyOf(s.inodes[0]) == Key(0, 0) && Fits(s.inodes[0]) && !Spared(s, Key(0, 0))
    ensures Logical(s, Key(0, 0)) == Some(7) && forall i: nat | i < |s.inodes| :: s.inodes[i].block < |s.blocks|
    ensures forall disk: map<Key, Block> :: Lookup(AfterRecovery(s, disk), Key(0, 0)) == Some(8)
  {
    s := WriteTwo();
    BlocksExist(s);
    NotSpared(s);
    forall disk: map<Key, Block> ensures Lookup(AfterRecovery(s, disk), Key(0, 0)) == Some(8) { Overwritten(s, disk); }
  }
}
