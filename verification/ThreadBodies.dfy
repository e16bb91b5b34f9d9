/**
 The bodies of the writer, sync and balloon threads on the tables and queues they change in place.

 Each method is one call with nobody in between. `state` follows it through the steps of the life cycle, so that what
 is proved of every interleaving holds of these bodies; what a call does on its own is said beside it.
 */
module ThreadBodies {
  import opened BurstBuffer
  import opened BurstInvariant
  import opened BurstRuns
  import opened BurstTheorems

  /** An inode as the table holds it: without the history of where it is. */
  datatype Entry = Entry(lbn: nat, vol: nat, state: InodeState, block: nat, lock: Holder)

  function EntryOf(x: Inode): Entry { Entry(x.lbn, x.vol, x.state, x.block, x.lock) }

  function Table(inodes: seq<Inode>): seq<Entry> {
    seq(|inodes|, i requires 0 <= i < |inodes| => EntryOf(inodes[i]))
  }

  lemma TableUpdate(inodes: seq<Inode>, i: nat, x: Inode)
    requires i < |inodes|
    ensures Table(inodes[i := x]) == Table(inodes)[i := EntryOf(x)]
  {
  }

  /** Some schedule leads from s to t. */
  ghost predicate Leads(s: State, t: State) {
    exists run :: Executes(s, run, t)
  }

  predicate Executes(s: State, run: seq<Action>, t: State) {
    ValidRun(s, run) && Exec(s, run) == t
  }

  lemma {:induction false} OneMore(s: State, run: seq<Action>, t: State, a: Action)
    requires Executes(s, run, t) && Guard(t, a) && Safe(t, a)
    ensures Executes(s, run + [a], Do(t, a))
    decreases |run|
  {
    if run == [] {
      assert [a][1..] == [];
    } else {
      OneMore(Do(s, run[0]), run[1..], t, a);
      assert (run + [a])[1..] == run[1..] + [a];
    }
  }

  lemma Stay(s: State)
    ensures Leads(s, s)
  {
    assert Executes(s, [], s);
  }

  lemma Go(s: State, t: State, a: Action, u: State)
    requires Leads(s, t) && Guard(t, a) && Safe(t, a) && u == Do(t, a)
    ensures Leads(s, u)
  {
    var run :| Executes(s, run, t);
    OneMore(s, run, t, a);
  }

  lemma {:induction false} RunOn(s: State, first: seq<Action>, t: State, then': seq<Action>, u: State)
    requires Executes(s, first, t) && Executes(t, then', u)
    ensures Executes(s, first + then', u)
    decreases |first|
  {
    if first == [] {
      assert first + then' == then';
    } else {
      var s1, rest := Do(s, first[0]), first[1..];
      RunOn(s1, rest, t, then', u);
      assert (first + then')[0] == first[0] && (first + then')[1..] == rest + then';
      assert ValidRun(s1, rest + then') && Exec(s1, rest + then') == u;
    }
  }

  lemma LeadsOn(s: State, t: State, u: State)
    requires Leads(s, t) && Leads(t, u)
    ensures Leads(s, u)
  {
    var first, then' :| Executes(s, first, t) && Executes(t, then', u);
    RunOn(s, first, t, then', u);
  }

  datatype Counters = Counters(freeEnq: nat, freeDeq: nat, freeCount: int, dirtyCount: int, cleanIdx: nat)

  function CountersOf(s: State): Counters { Counters(s.freeEnq, s.freeDeq, s.freeCount, s.dirtyCount, s.cleanIdx) }

  /** The components that the tables and queues hold. */
  ghost predicate Holds(
    s: State, inodes: seq<Entry>, spare: seq<nat>, blocks: seq<Block>, clean: seq<seq<nat>>, nodes: map<Key, Node>,
    queues: map<QueueId, seq<nat>>, counters: Counters)
  {
    && Table(s.inodes) == inodes && s.spare == spare && s.blocks == blocks && s.clean == clean && s.nodes == nodes
    && s.queues == queues && CountersOf(s) == counters
  }

  /** A free inode has been taken. */
  function OneTaken(c: Counters): Counters { c.(freeDeq := c.freeDeq + 1, freeCount := c.freeCount - 1) }

  function OneFreed(c: Counters): Counters { c.(freeEnq := c.freeEnq + 1, freeCount := c.freeCount + 1) }

  function OneDirtied(c: Counters): Counters { c.(dirtyCount := c.dirtyCount + 1) }

  function OneCleaned(c: Counters): Counters { c.(cleanIdx := c.cleanIdx + 1) }

  /** The other threads stay where they are. */
  predicate ThreadsRest(s: State, t: State) {
    && t.flushers == s.flushers && t.syncers == s.syncers && t.inuse == s.inuse && t.syncIdx == s.syncIdx
    && |t.writers| == |s.writers|
  }

  // ------------------------------------------------------------------------- the segments of a write

  /** The inode that getFreeInodeFromFreeLFQueue is going to return. */
  predicate CanTake(s: State, v: nat, i: nat) {
    && v < |s.writers| && s.writers[v].pc == WClaim && i < |s.inodes|
    && var q := At(s, Free(s.freeDeq % NUM_FREE)); q != [] && q[0] == i
  }

  function Taken(s: State, v: nat, i: nat): State
    requires CanTake(s, v, i)
  {
    StepDec(StepTag(StepTake(StepClaim(s, v), v), v), v)
  }

  lemma TakeRun(s0: State, s: State, v: nat, i: nat)
    requires Leads(s0, s) && CanTake(s, v, i)
    ensures Leads(s0, Taken(s, v, i))
  {
    var s1 := StepClaim(s, v);
    var s2 := StepTake(s1, v);
    var s3 := StepTag(s2, v);
    Go(s0, s, Write(v), s1);
    Go(s0, s1, Write(v), s2);
    Go(s0, s2, Write(v), s3);
    Go(s0, s3, Write(v), StepDec(s3, v));
  }

  lemma TakenFields(s: State, v: nat, i: nat)
    requires CanTake(s, v, i)
    ensures var t, id, w := Taken(s, v, i), Free(s.freeDeq % NUM_FREE), s.writers[v];
            && Holds(t, Table(s.inodes)[i := EntryOf(s.inodes[i]).(lbn := w.lbn, vol := v)], s.spare, s.blocks, s.clean, s.nodes,
                     s.queues[id := At(s, id)[1..]], OneTaken(CountersOf(s)))
            && t.writers == s.writers[v := w.(pc := WAttach, shard := s.freeDeq % NUM_FREE, i := i)]
            && |t.owner| == |s.owner| && ThreadsRest(s, t)
  {
    TableUpdate(s.inodes, i, Taken(s, v, i).inodes[i]);
  }

  /** Writer v is about to copy its data to the spare block. */
  predicate CanCopy(s: State, v: nat, i: nat, data: Block) {
    && v < |s.writers| && v < |s.spare| && i < |s.inodes|
    && s.spare[v] < |s.blocks| == |s.owner| && s.inodes[i].block < |s.blocks|
    && var w := s.writers[v]; w.pc == WCopy && w.i == i && w.ob == s.spare[v] && w.data == data
  }

  /** The copy and the two stores that exchange the blocks. */
  function Copied(s: State, v: nat, i: nat, data: Block): State
    requires CanCopy(s, v, i, data)
  {
    StepSwap(StepGive(StepCopy(s, v), v), v)
  }

  lemma CopyRun(s0: State, s: State, v: nat, i: nat, data: Block)
    requires Leads(s0, s) && CanCopy(s, v, i, data)
    ensures Leads(s0, Copied(s, v, i, data))
  {
    var s1 := StepCopy(s, v);
    var s2 := StepGive(s1, v);
    Go(s0, s, Write(v), s1);
    Go(s0, s1, Write(v), s2);
    Go(s0, s2, Write(v), StepSwap(s2, v));
  }

  lemma CopiedFields(s: State, v: nat, i: nat, data: Block)
    requires CanCopy(s, v, i, data)
    ensures var t := Copied(s, v, i, data);
            && Holds(t, Table(s.inodes)[i := EntryOf(s.inodes[i]).(block := s.spare[v])], s.spare[v := s.inodes[i].block],
                     s.blocks[s.spare[v] := data], s.clean, s.nodes, s.queues, CountersOf(s))
            && t.writers == s.writers[v := s.writers[v].(pc := WCount)] && ThreadsRest(s, t)
  {
    TableUpdate(s.inodes, i, Copied(s, v, i, data).inodes[i]);
  }

  /** Writer v has found no valid node for its key, and free inodes enough. */
  predicate CanAsk(s: State, v: nat) {
    v < |s.writers| && s.writers[v].pc == WSearch && !ValidAt(s, WKey(s, v)) && s.freeCount >= FREE_MIN_COUNT
  }

  function Asked(s: State, v: nat): State
    requires CanAsk(s, v)
  {
    StepCheckFree(StepSearch(s, v), v)
  }

  lemma AskRun(s: State, v: nat)
    requires CanAsk(s, v)
    ensures Leads(s, Asked(s, v))
    ensures Asked(s, v).writers == s.writers[v := s.writers[v].(pc := WClaim)]
  {
    var s1 := StepSearch(s, v);
    Stay(s);
    Go(s, s, Write(v), s1);
    Go(s, s1, Write(v), StepCheckFree(s1, v));
  }

  /** Inserting or validating the node, and locking it. */
  predicate CanAttach(s: State, v: nat) {
    && v < |s.writers| && s.writers[v].pc == WAttach && s.writers[v].i < |s.inodes|
    && (WKey(s, v) in s.nodes ==> !s.nodes[WKey(s, v)].lock)
  }

  function NodeSet(s: State, v: nat): State
    requires CanAttach(s, v)
  {
    StepLockNew(StepAttach(s, v), v)
  }

  lemma NodeSetRun(s0: State, s: State, v: nat)
    requires Leads(s0, s) && CanAttach(s, v)
    ensures Leads(s0, NodeSet(s, v))
  {
    var s1 := StepAttach(s, v);
    Go(s0, s, Write(v), s1);
    Go(s0, s1, Write(v), StepLockNew(s1, v));
  }

  lemma NodeSetFields(s: State, v: nat)
    requires CanAttach(s, v)
    ensures var t, w := NodeSet(s, v), s.writers[v];
            && Holds(t, Table(s.inodes), s.spare, s.blocks, s.clean, s.nodes[WKey(s, v) := Node(Some(w.i), true, true)], s.queues,
                     CountersOf(s))
            && t.writers == s.writers[v := w.(pc := WLockInode)] && |t.owner| == |s.owner| && ThreadsRest(s, t)
  {
    TableUpdate(s.inodes, s.writers[v].i, NodeSet(s, v).inodes[s.writers[v].i]);
    assert Table(s.inodes)[s.writers[v].i := EntryOf(s.inodes[s.writers[v].i])] == Table(s.inodes);
  }

  /** Locking the valid node that the search has found. */
  predicate CanReuse(s: State, v: nat) {
    && v < |s.writers| && s.writers[v].pc == WSearch && ValidAt(s, WKey(s, v))
    && s.nodes[WKey(s, v)].inode.Some? && !s.nodes[WKey(s, v)].lock
  }

  function Reused(s: State, v: nat): State
    requires CanReuse(s, v)
  {
    StepAccept(StepLockOld(StepSearch(s, v), v), v)
  }

  lemma ReuseRun(s: State, v: nat)
    requires CanReuse(s, v)
    ensures Leads(s, Reused(s, v))
  {
    var s1 := StepSearch(s, v);
    var s2 := StepLockOld(s1, v);
    Stay(s);
    Go(s, s, Write(v), s1);
    Go(s, s1, Write(v), s2);
    Go(s, s2, Write(v), StepAccept(s2, v));
  }

  lemma ReusedHolds(s: State, v: nat)
    requires CanReuse(s, v)
    ensures var t, d := Reused(s, v), s.nodes[WKey(s, v)];
            && Holds(t, Table(s.inodes), s.spare, s.blocks, s.clean, s.nodes[WKey(s, v) := d.(lock := true)], s.queues,
                     CountersOf(s))
            && t.writers == s.writers[v := s.writers[v].(pc := WLockInode, i := d.inode.value)] && |t.owner| == |s.owner|
            && ThreadsRest(s, t)
  {
  }

  /** Locking the inode and marking it DIRTY. */
  predicate CanEnter(s: State, v: nat) {
    && v < |s.writers| && v < |s.spare| && s.writers[v].pc == WLockInode
    && s.writers[v].i < |s.inodes| && s.inodes[s.writers[v].i].lock == Nobody
  }

  function Entered(s: State, v: nat): State
    requires CanEnter(s, v)
  {
    StepMark(StepLockInode(s, v), v)
  }

  lemma EnterRun(s: State, v: nat)
    requires CanEnter(s, v)
    ensures Leads(s, Entered(s, v))
  {
    var s1 := StepLockInode(s, v);
    Stay(s);
    Go(s, s, Write(v), s1);
    Go(s, s1, Write(v), StepMark(s1, v));
  }

  lemma EnteredFields(s: State, v: nat)
    requires CanEnter(s, v)
    ensures var t, w := Entered(s, v), s.writers[v];
            var x := EntryOf(s.inodes[w.i]);
            && Holds(t, Table(s.inodes)[w.i := x.(lock := Writing(v), state := DIRTY)], s.spare, s.blocks, s.clean, s.nodes,
                     s.queues, CountersOf(s))
            && t.writers == s.writers[v := w.(pc := WCopy, was := x.state, ob := s.spare[v])] && |t.owner| == |s.owner|
            && ThreadsRest(s, t)
  {
    TableUpdate(s.inodes, s.writers[v].i, Entered(s, v).inodes[s.writers[v].i]);
  }

  /** Counting and enqueuing the inode unless it was DIRTY, and unlocking both locks. */
  predicate CanLeave(s: State, v: nat) {
    && v < |s.writers| && s.writers[v].pc == WCount && s.writers[v].i < |s.inodes| && WKey(s, v) in s.nodes
  }

  function Pushed(s: State, v: nat): State
    requires CanLeave(s, v)
  {
    if s.writers[v].was == DIRTY then StepCount(s, v) else StepEnqueue(StepCount(s, v), v)
  }

  lemma PushRun(s: State, v: nat)
    requires CanLeave(s, v)
    ensures Leads(s, Pushed(s, v))
  {
    var s1 := StepCount(s, v);
    Stay(s);
    Go(s, s, Write(v), s1);
    if s.writers[v].was != DIRTY { Go(s, s1, Write(v), StepEnqueue(s1, v)); }
  }

  lemma UnlockRun(s0: State, s: State, v: nat)
    requires Leads(s0, s) && v < |s.writers| && s.writers[v].pc == WUnlockInode && s.writers[v].i < |s.inodes|
    requires WKey(s, v) in s.nodes
    ensures Leads(s0, Unlocked(s, v))
  {
    var s1 := StepUnlockInode(s, v);
    Go(s0, s, Write(v), s1);
    Go(s0, s1, Write(v), StepUnlockNode(s1, v));
  }

  function Unlocked(s: State, v: nat): State
    requires v < |s.writers| && s.writers[v].i < |s.inodes| && WKey(s, v) in s.nodes
  {
    StepUnlockNode(StepUnlockInode(s, v), v)
  }

  lemma PushedHolds(s: State, v: nat)
    requires CanLeave(s, v)
    ensures var t, w := Pushed(s, v), s.writers[v];
            && Holds(t, Table(s.inodes), s.spare, s.blocks, s.clean, s.nodes,
                     if w.was == DIRTY then s.queues else s.queues[Dirty(v) := At(s, Dirty(v)) + [w.i]],
                     if w.was == DIRTY then CountersOf(s) else OneDirtied(CountersOf(s)))
            && t.writers == s.writers[v := w.(pc := WUnlockInode)] && ThreadsRest(s, t) && |t.owner| == |s.owner|
  {
    if s.writers[v].was != DIRTY { EnqueuedHolds(s, v); }
  }

  lemma EnqueuedHolds(s: State, v: nat)
    requires CanLeave(s, v)
    ensures var t, w := StepEnqueue(StepRaise(s, v), v), s.writers[v];
            && Holds(t, Table(s.inodes), s.spare, s.blocks, s.clean, s.nodes, s.queues[Dirty(v) := At(s, Dirty(v)) + [w.i]],
                     OneDirtied(CountersOf(s)))
            && t.writers == s.writers[v := w.(pc := WUnlockInode)] && ThreadsRest(s, t) && |t.owner| == |s.owner|
  {
    var i := s.writers[v].i;
    TableUpdate(s.inodes, i, s.inodes[i].(place := In(Dirty(v))));
    assert Table(s.inodes)[i := EntryOf(s.inodes[i])] == Table(s.inodes);
  }

  lemma UnlockedHolds(s: State, v: nat)
    requires v < |s.writers| && s.writers[v].i < |s.inodes| && WKey(s, v) in s.nodes
    ensures var t, w, k := Unlocked(s, v), s.writers[v], WKey(s, v);
            && Holds(t, Table(s.inodes)[w.i := EntryOf(s.inodes[w.i]).(lock := Nobody)], s.spare, s.blocks, s.clean,
                     s.nodes[k := s.nodes[k].(lock := false)], s.queues, CountersOf(s))
            && t.writers == s.writers[v := w.(pc := WIdle)] && ThreadsRest(s, t) && |t.owner| == |s.owner|
  {
    TableUpdate(s.inodes, s.writers[v].i, Unlocked(s, v).inodes[s.writers[v].i]);
  }

  /** Writer v has come to w, and the tables are as large as before. */
  predicate Moved(s: State, t: State, v: nat, w: Writer) {
    |t.writers| == |s.writers| && |t.owner| == |s.owner| && v < |t.writers| && t.writers[v] == w
  }

  /** Writer v has its node locked and is about to lock inode i; w is where it was when it called. */
  predicate Locked(s: State, v: nat, i: nat, w: Writer, owners: nat) {
    && v < |s.writers| && |s.owner| == owners
    && var x := s.writers[v]; x.pc == WLockInode && x.i == i && x.lbn == w.lbn && x.data == w.data
  }

  // ------------------------------------------------------------------------------ one pass of a balloon

  /** The pass frees the inode at the front of its clean queue. */
  predicate Frees(s: State, b: nat)
    requires b < |s.clean| && BalloonSafe(s, b)
  {
    var x := s.inodes[s.clean[b][0]];
    x.state == CLEAN && !s.nodes[KeyOf(x)].lock && s.inodes[s.nodes[KeyOf(x)].inode.value].state == CLEAN
  }

  lemma BalloonFields(s: State, b: nat)
    requires b < |s.clean| && BalloonSafe(s, b)
    ensures var t, i := BalloonStep(s, b), s.clean[b][0];
            var id, clean := Free(s.freeEnq % NUM_FREE), s.clean[b := s.clean[b][1..]];
            if Frees(s, b) then
              Holds(t, Table(s.inodes)[i := EntryOf(s.inodes[i]).(state := FREE)], s.spare, s.blocks, clean,
                    s.nodes[KeyOf(s.inodes[i]) := Node(None, false, false)], s.queues[id := At(s, id) + [i]],
                    OneFreed(CountersOf(s)))
            else
              Holds(t, Table(s.inodes), s.spare, s.blocks, clean, s.nodes, s.queues, CountersOf(s))
  {
    if Frees(s, b) { FreeFields(s, b); } else { SkipFields(s, b); }
  }

  lemma SkipFields(s: State, b: nat)
    requires b < |s.clean| && BalloonSafe(s, b) && !Frees(s, b)
    ensures Holds(BalloonStep(s, b), Table(s.inodes), s.spare, s.blocks, s.clean[b := s.clean[b][1..]], s.nodes, s.queues,
                  CountersOf(s))
  {
    BalloonCases(s, b);
  }

  lemma BalloonRun(s: State, b: nat)
    requires Inv(s) && b < |s.clean| && s.clean[b] != []
    ensures BalloonSafe(s, b) && Inv(BalloonStep(s, b)) && Leads(s, BalloonStep(s, b))
  {
    StepKeeps(s, Action.Balloon(b));
    Stay(s);
    Go(s, s, Action.Balloon(b), BalloonStep(s, b));
  }

  lemma FreeFields(s: State, b: nat)
    requires b < |s.clean| && s.clean[b] != [] && s.clean[b][0] < |s.inodes|
    ensures var t, i, id := StepFree(s, b), s.clean[b][0], Free(s.freeEnq % NUM_FREE);
            Holds(t, Table(s.inodes)[i := EntryOf(s.inodes[i]).(state := FREE)], s.spare, s.blocks,
                  s.clean[b := s.clean[b][1..]], s.nodes[KeyOf(s.inodes[i]) := Node(None, false, false)],
                  s.queues[id := At(s, id) + [i]], OneFreed(CountersOf(s)))
  {
    var i := s.clean[b][0];
    TableUpdate(s.inodes, i, StepFree(s, b).inodes[i]);
  }

  // ------------------------------------------------------------------------------- one inode synced

  predicate CanSync(s: State, q: nat, i: nat) {
    && q < |s.syncers| && s.syncers[q].pc == SLoop && s.syncers[q].n > 0 && i < |s.inodes| && |s.clean| == NUM_BALLOON
    && At(s, Sync(q)) != [] && At(s, Sync(q))[0] == i
  }

  function Synced(s: State, q: nat, i: nat): State
    requires CanSync(s, q, i)
  {
    StepUnlock(StepPushClean(StepClean(StepTakeSync(s, q), q), q), q)
  }

  lemma SyncRun(s: State, q: nat, i: nat)
    requires CanSync(s, q, i)
    ensures Leads(s, Synced(s, q, i))
  {
    var s1 := StepTakeSync(s, q);
    var s2 := StepClean(s1, q);
    var s3 := StepPushClean(s2, q);
    Stay(s);
    Go(s, s, DoSync(q), s1);
    Go(s, s1, DoSync(q), s2);
    Go(s, s2, DoSync(q), s3);
    Go(s, s3, DoSync(q), StepUnlock(s3, q));
  }

  lemma SyncedFields(s: State, q: nat, i: nat)
    requires CanSync(s, q, i)
    ensures var t, c := Synced(s, q, i), s.cleanIdx % NUM_BALLOON;
            && Holds(t, Table(s.inodes)[i := EntryOf(s.inodes[i]).(state := CLEAN, lock := Nobody)], s.spare, s.blocks,
                     s.clean[c := s.clean[c] + [i]], s.nodes, s.queues[Sync(q) := At(s, Sync(q))[1..]],
                     OneCleaned(CountersOf(s)))
            && |t.syncers| == |s.syncers| && t.syncers[q] == Syncer(SLoop, s.syncers[q].n - 1, i) && t.stable == s.stable
            && t.writers == s.writers && forall p | 0 <= p < |s.syncers| && p != q :: t.syncers[p] == s.syncers[p]
  {
    TableUpdate(s.inodes, i, Synced(s, q, i).inodes[i]);
  }

  /** The table with some inodes CLEAN and unlocked. */
  function AllClean(table: seq<Entry>, idxs: seq<nat>): (r: seq<Entry>)
    requires forall k | 0 <= k < |idxs| :: idxs[k] < |table|
    ensures |r| == |table|
  {
    if idxs == [] then table
    else
      var rest, i := AllClean(table, idxs[..|idxs| - 1]), idxs[|idxs| - 1];
      rest[i := rest[i].(state := CLEAN, lock := Nobody)]
  }

  /** The clean queues after inodes are dealt to them in turn, the first one to queue start % NUM_BALLOON. */
  function CleanDealt(clean: seq<seq<nat>>, idxs: seq<nat>, start: nat): (r: seq<seq<nat>>)
    requires |clean| == NUM_BALLOON
    ensures |r| == NUM_BALLOON
  {
    if idxs == [] then clean
    else
      var n := |idxs| - 1;
      var rest, c := CleanDealt(clean, idxs[..n], start), (start + n) % NUM_BALLOON;
      rest[c := rest[c] + [idxs[n]]]
  }

  /** The inodes dealt out are CLEAN and unlocked and otherwise as they were, and so are all others. */
  lemma {:induction false} AllCleanIs(table: seq<Entry>, idxs: seq<nat>, i: nat)
    requires i < |table| && forall k | 0 <= k < |idxs| :: idxs[k] < |table|
    ensures var x, y := table[i], AllClean(table, idxs)[i];
            && y.lbn == x.lbn && y.vol == x.vol && y.block == x.block
            && y.state == (if i in idxs then CLEAN else x.state) && y.lock == (if i in idxs then Nobody else x.lock)
  {
    if idxs != [] {
      var n := |idxs| - 1;
      AllCleanIs(table, idxs[..n], i);
      assert idxs == idxs[..n] + [idxs[n]];
    }
  }

  /** Each inode goes to the queue in turn, behind what is there. */
  lemma {:induction false} CleanDealtInTurn(clean: seq<seq<nat>>, idxs: seq<nat>, start: nat, k: nat)
    requires |clean| == NUM_BALLOON && k < |idxs|
    ensures var c := (start + k) % NUM_BALLOON;
            CleanDealt(clean, idxs[..k], start)[c] + [idxs[k]] <= CleanDealt(clean, idxs, start)[c]
    ensures forall c | 0 <= c < NUM_BALLOON :: CleanDealt(clean, idxs[..k], start)[c] <= CleanDealt(clean, idxs, start)[c]
  {
    var n := |idxs| - 1;
    if k < n {
      CleanDealtInTurn(clean, idxs[..n], start, k);
      assert idxs[..n][..k] == idxs[..k];
    } else {
      assert idxs[..n] == idxs[..k];
    }
  }

  /** Counting to n, one more in each round falls to c: in the rounds that reach it. */
  lemma OneMoreRound(start: nat, n: nat, c: nat)
    requires c < NUM_BALLOON
    ensures var waits := (c - start) % NUM_BALLOON;
            (n + NUM_BALLOON - waits) / NUM_BALLOON
              == (n + NUM_BALLOON - 1 - waits) / NUM_BALLOON + (if (start + n) % NUM_BALLOON == c then 1 else 0)
  {
    var waits, q := (c - start) % NUM_BALLOON, (c - start) / NUM_BALLOON;
    var p, d := (n - waits) / NUM_BALLOON, (n - waits) % NUM_BALLOON;
    assert start + n == c + d + NUM_BALLOON * (p - q);
    assert n + NUM_BALLOON - waits == NUM_BALLOON * (p + 1) + d;
  }

  /** How many inodes each queue gets: one in each round that reaches it. */
  lemma {:induction false} CleanDealtEvenly(clean: seq<seq<nat>>, idxs: seq<nat>, start: nat, c: nat)
    requires |clean| == NUM_BALLOON && c < NUM_BALLOON
    ensures var waits := (c - start) % NUM_BALLOON;
            |CleanDealt(clean, idxs, start)[c]| == |clean[c]| + (|idxs| + NUM_BALLOON - 1 - waits) / NUM_BALLOON
  {
    if idxs != [] {
      CleanDealtEvenly(clean, idxs[..|idxs| - 1], start, c);
      OneMoreRound(start, |idxs| - 1, c);
    }
  }

  lemma LeadsKeeps(s: State, t: State)
    requires Inv(s) && Leads(s, t)
    ensures Inv(t)
  {
    var run :| Executes(s, run, t);
    RunKeeps(s, run);
  }

  lemma LeadsReachable(s: State, t: State)
    requires Reachable(s) && Leads(s, t)
    ensures Reachable(t)
  {
    var inodeBlock, volumeBlock, owner, blocks, files, flushers, first :|
      && OwnersAgree(owner, inodeBlock, volumeBlock) && |blocks| == |owner|
      && ValidRun(Boot(inodeBlock, volumeBlock, owner, blocks, files, flushers), first)
      && s == Exec(Boot(inodeBlock, volumeBlock, owner, blocks, files, flushers), first);
    var then' :| Executes(s, then', t);
    RunOn(Boot(inodeBlock, volumeBlock, owner, blocks, files, flushers), first, s, then', t);
  }

  /** After a lone write its key means the caller's block, in every state that the system can be in then. */
  lemma LoneWriteTookEffect(s: State, t: State, v: nat, lbn: nat, i: nat, data: Block)
    requires Inv(s) && Leads(s, t) && v < |t.writers| && t.writers[v].pc == WIdle && i < |t.inodes|
    requires Key(v, lbn) in t.nodes && t.nodes[Key(v, lbn)] == Node(Some(i), true, false)
    requires t.inodes[i].state == DIRTY && t.inodes[i].block < |t.blocks| && t.blocks[t.inodes[i].block] == data
    ensures Inv(t) && Logical(t, Key(v, lbn)) == Some(data)
  {
    LeadsKeeps(s, t);
    assert KeyOk(t, Key(v, lbn));
  }

  function BlocksOf(table: seq<Entry>): seq<nat> {
    seq(|table|, i requires 0 <= i < |table| => table[i].block)
  }

  /**
   The exchange of blocks that a lone write leaves keeps every block's number of owners, whatever that is: once a block
   has two owners and another none, writes pass them on but never mend them.
   */
  lemma LoneWriteKeepsOwners(table: seq<Entry>, spare: seq<nat>, v: nat, i: nat, x: Entry)
    requires i < |table| && v < |spare| && x.block == spare[v]
    ensures multiset(BlocksOf(table[i := x])) + multiset(spare[v := table[i].block]) == multiset(BlocksOf(table)) + multiset(spare)
  {
    assert BlocksOf(table[i := x]) == BlocksOf(table)[i := x.block];
  }

  /** sync(), between the snapshot of the queue's size and the loop. */
  lemma SyncStartRun(s: State, q: nat)
    requires q < |s.syncers| && s.syncers[q].pc == SIdle && At(s, Sync(q)) != []
    ensures var t := s.(syncers := s.syncers[q := Syncer(SLoop, |At(s, Sync(q))|, s.syncers[q].cur)], stable := s.cache, pending := map[]);
            Leads(s, t)
  {
    var s1 := SyncerStep(s, q);
    var s2 := StepCommit(s1, q);
    Stay(s);
    Go(s, s, DoSync(q), s1);
    Go(s, s1, DoSync(q), s2);
    assert s1.syncers[q := s2.syncers[q]] == s.syncers[q := s2.syncers[q]];
  }

  lemma SyncEndRun(s: State, q: nat)
    requires q < |s.syncers| && s.syncers[q].pc == SLoop && s.syncers[q].n == 0
    ensures Leads(s, SetSyncer(s, q, s.syncers[q].(pc := SIdle)))
  {
    Stay(s);
    Go(s, s, DoSync(q), SyncerStep(s, q));
  }

  /** Where the loop of nvm_sync stands after i turns. */
  ghost predicate Syncing(
    queue: seq<nat>, inodes0: seq<Entry>, clean0: seq<seq<nat>>, start: nat, i: nat,
    left: seq<nat>, inodes: seq<Entry>, clean: seq<seq<nat>>, cleanIdx: nat)
  {
    && i <= |queue| && |clean0| == NUM_BALLOON && (forall k | 0 <= k < |queue| :: queue[k] < |inodes0|)
    && left == queue[i..] && cleanIdx == start + i
    && inodes == AllClean(inodes0, queue[..i]) && clean == CleanDealt(clean0, queue[..i], start)
  }

  lemma SyncingOne(
    queue: seq<nat>, inodes0: seq<Entry>, clean0: seq<seq<nat>>, start: nat, i: nat,
    left: seq<nat>, inodes: seq<Entry>, clean: seq<seq<nat>>, cleanIdx: nat)
    requires Syncing(queue, inodes0, clean0, start, i, left, inodes, clean, cleanIdx) && i < |queue|
    ensures var idx, c := queue[i], cleanIdx % NUM_BALLOON;
            Syncing(queue, inodes0, clean0, start, i + 1, left[1..], inodes[idx := inodes[idx].(state := CLEAN, lock := Nobody)],
                    clean[c := clean[c] + [idx]], cleanIdx + 1)
  {
    assert queue[..i + 1][..i] == queue[..i];
  }

  /** The test after `turns` turns of nvm_durable_write's loop, on uint32_t block numbers, ends it. */
  predicate LeavesAfter(start: nat, end: nat, turns: nat) {
    turns > 0 && (start + turns) % LBN_LIMIT > end
  }

  /** The loop over the blocks start to end visits just these if and only if the last one is not 2^32 - 1, and never ends otherwise. */
  lemma LoopEnds(start: nat, end: nat)
    requires start <= end < LBN_LIMIT
    ensures Writable(end) <==> exists turns: nat :: LeavesAfter(start, end, turns)
    ensures Writable(end) ==> LeavesAfter(start, end, end + 1 - start)
    ensures forall turns: nat | turns <= end - start :: !LeavesAfter(start, end, turns)
  {
    if Writable(end) { assert LeavesAfter(start, end, end + 1 - start); }
  }

  class Nvm {
    const inodes: array<Entry>
    const spare: array<nat>
    const blocks: array<Block>
    const clean: array<seq<nat>>
    var nodes: map<Key, Node>
    var queues: map<QueueId, seq<nat>>
    var freeEnq: nat
    var freeDeq: nat
    var freeCount: int
    var dirtyCount: int
    var cleanIdx: nat
    ghost var state: State

    function Counts(): Counters
      reads this
    {
      Counters(freeEnq, freeDeq, freeCount, dirtyCount, cleanIdx)
    }

    ghost predicate Mirrors()
      reads this, inodes, spare, blocks, clean
    {
      Holds(state, inodes[..], spare[..], blocks[..], clean[..], nodes, queues, Counts())
    }

    function Queue(id: QueueId): seq<nat>
      reads this
    {
      if id in queues then queues[id] else []
    }

    function WithoutFront(id: QueueId): map<QueueId, seq<nat>>
      reads this
      requires Queue(id) != []
    {
      queues[id := Queue(id)[1..]]
    }

    function WithBack(id: QueueId, i: nat): map<QueueId, seq<nat>>
      reads this
    {
      queues[id := Queue(id) + [i]]
    }

    method Dequeue(id: QueueId) returns (i: nat)
      requires Queue(id) != []
      modifies this`queues
      ensures i == old(Queue(id))[0] && queues == old(WithoutFront(id))
    {
      i := Queue(id)[0];
      queues := queues[id := Queue(id)[1..]];
    }

    method Enqueue(id: QueueId, i: nat)
      modifies this`queues
      ensures queues == old(WithBack(id, i))
    {
      queues := queues[id := Queue(id) + [i]];
    }

    /** getFreeInodeFromFreeLFQueue */
    method GetFreeInode(v: nat, lbn: nat) returns (i: nat)
      requires Mirrors() && Queue(Free(freeDeq % NUM_FREE)) != [] && Queue(Free(freeDeq % NUM_FREE))[0] < inodes.Length
      requires v < |state.writers| && state.writers[v].pc == WClaim && state.writers[v].lbn == lbn
      modifies this`state, this`freeDeq, this`queues, this`freeCount, inodes
      ensures Mirrors() && Leads(old(state), state) && i == old(Queue(Free(freeDeq % NUM_FREE)))[0]
      ensures Moved(old(state), state, v, old(state).writers[v].(pc := WAttach, i := i, shard := old(freeDeq) % NUM_FREE))
      ensures inodes[..] == old(inodes[..])[i := old(inodes[i]).(lbn := lbn, vol := v)]
      ensures queues == old(WithoutFront(Free(freeDeq % NUM_FREE))) && Counts() == OneTaken(old(Counts()))
    {
      ghost var s := state;
      i := TakeFront(v, lbn);
      Stay(s);
      TakeRun(s, s, v, i);
      TakenFields(s, v, i);
      state := Taken(s, v, i);
    }

    method TakeFront(v: nat, lbn: nat) returns (i: nat)
      requires Queue(Free(freeDeq % NUM_FREE)) != [] && Queue(Free(freeDeq % NUM_FREE))[0] < inodes.Length
      modifies this`freeDeq, this`queues, this`freeCount, inodes
      ensures i == old(Queue(Free(freeDeq % NUM_FREE)))[0]
      ensures inodes[..] == old(inodes[..])[i := old(inodes[i]).(lbn := lbn, vol := v)]
      ensures queues == old(WithoutFront(Free(freeDeq % NUM_FREE))) && Counts() == OneTaken(old(Counts()))
    {
      var id := Free(freeDeq % NUM_FREE);
      freeDeq := freeDeq + 1;
      i := Dequeue(id);
      inodes[i] := inodes[i].(lbn := lbn, vol := v);
      freeCount := freeCount - 1;
    }

    /** writeDataToNvmBlock, after the state has been set to DIRTY. */
    method WriteDataToNvmBlock(v: nat, i: nat, data: Block)
      requires Mirrors() && i < inodes.Length && v < spare.Length && spare[v] < blocks.Length
      requires CanCopy(state, v, i, data)
      modifies this`state, spare, blocks, inodes
      ensures Mirrors() && Leads(old(state), state)
      ensures Moved(old(state), state, v, old(state).writers[v].(pc := WCount))
      ensures blocks[..] == old(blocks[..])[old(spare[v]) := data]
      ensures spare[..] == old(spare[..])[v := old(inodes[i].block)]
      ensures inodes[..] == old(inodes[..])[i := old(inodes[i]).(block := old(spare[v]))]
    {
      ghost var s := state;
      var ownerlessBlock := spare[v];
      blocks[ownerlessBlock] := data;
      spare[v] := inodes[i].block;
      inodes[i] := inodes[i].(block := ownerlessBlock);
      Stay(s);
      CopyRun(s, s, v, i, data);
      CopiedFields(s, v, i, data);
      state := Copied(s, v, i, data);
    }

    /** The branch of get_hash_node_with_lock for a key without a valid node. */
    method NewHashNode(v: nat, lbn: nat) returns (i: nat)
      requires Mirrors() && CanAsk(state, v) && state.writers[v].lbn == lbn
      requires Key(v, lbn) in nodes ==> !nodes[Key(v, lbn)].lock
      requires Queue(Free(freeDeq % NUM_FREE)) != [] && Queue(Free(freeDeq % NUM_FREE))[0] < inodes.Length
      modifies this, inodes
      ensures Mirrors() && Leads(old(state), state) && i == old(Queue(Free(freeDeq % NUM_FREE)))[0] < inodes.Length
      ensures Moved(old(state), state, v, old(state).writers[v].(pc := WLockInode, i := i, shard := old(freeDeq) % NUM_FREE))
      ensures nodes == old(nodes)[Key(v, lbn) := Node(Some(i), true, true)]
      ensures inodes[..] == old(inodes[..])[i := old(inodes[..])[i].(lbn := lbn, vol := v)]
      ensures queues == old(WithoutFront(Free(freeDeq % NUM_FREE))) && Counts() == OneTaken(old(Counts()))
    {
      ghost var s := state;
      i := AskAndTake(v, lbn);
      ghost var t := state;
      AttachNode(v, lbn, i);
      LeadsOn(s, t, state);
    }

    /** isFreeLFQueueEnough says yes, and a free inode is taken. */
    method AskAndTake(v: nat, lbn: nat) returns (i: nat)
      requires Mirrors() && CanAsk(state, v) && state.writers[v].lbn == lbn
      requires Queue(Free(freeDeq % NUM_FREE)) != [] && Queue(Free(freeDeq % NUM_FREE))[0] < inodes.Length
      modifies this`state, this`freeDeq, this`queues, this`freeCount, inodes
      ensures Mirrors() && Leads(old(state), state) && i == old(Queue(Free(freeDeq % NUM_FREE)))[0] < inodes.Length
      ensures Moved(old(state), state, v, old(state).writers[v].(pc := WAttach, i := i, shard := old(freeDeq) % NUM_FREE))
      ensures inodes[..] == old(inodes[..])[i := old(inodes[..])[i].(lbn := lbn, vol := v)]
      ensures queues == old(WithoutFront(Free(freeDeq % NUM_FREE))) && Counts() == OneTaken(old(Counts()))
    {
      ghost var s := state;
      Ask(v);
      ghost var t := state;
      i := GetFreeInode(v, lbn);
      LeadsOn(s, t, state);
    }

    /** isFreeLFQueueEnough says yes. */
    ghost method Ask(v: nat)
      requires Mirrors() && CanAsk(state, v)
      modifies this`state
      ensures Mirrors() && Leads(old(state), state)
      ensures Moved(old(state), state, v, old(state).writers[v].(pc := WClaim))
    {
      AskRun(state, v);
      state := Asked(state, v);
    }

    /** insert_hash_node of a new node or validate_hash_node of the old one, and its lock. */
    method AttachNode(v: nat, lbn: nat, i: nat)
      requires Mirrors() && CanAttach(state, v) && state.writers[v].lbn == lbn && state.writers[v].i == i
      modifies this`state, this`nodes
      ensures Mirrors() && Leads(old(state), state)
      ensures Moved(old(state), state, v, old(state).writers[v].(pc := WLockInode))
      ensures nodes == old(nodes)[Key(v, lbn) := Node(Some(i), true, true)]
    {
      var key := Key(v, lbn);
      Stay(state);
      NodeSetRun(state, state, v);
      NodeSetFields(state, v);
      state := NodeSet(state, v);
      nodes := nodes[key := Node(Some(i), true, key in nodes && nodes[key].lock)];
      nodes := nodes[key := nodes[key].(lock := true)];
    }

    /** The branch for a key with a valid node. */
    method OldHashNode(v: nat, lbn: nat) returns (i: nat)
      requires Mirrors() && CanReuse(state, v) && state.writers[v].lbn == lbn
      modifies this`state, this`nodes
      ensures Mirrors() && Leads(old(state), state) && i == old(nodes)[Key(v, lbn)].inode.value
      ensures Moved(old(state), state, v, old(state).writers[v].(pc := WLockInode, i := i))
      ensures nodes == old(nodes)[Key(v, lbn) := old(nodes)[Key(v, lbn)].(lock := true)]
    {
      ReuseRun(state, v);
      state := Reused(state, v);
      var key := Key(v, lbn);
      nodes := nodes[key := nodes[key].(lock := true)];
      i := nodes[key].inode.value;
    }

    /** Locking the node's inode, and marking it DIRTY. */
    method Enter(v: nat, i: nat)
      requires Mirrors() && CanEnter(state, v) && state.writers[v].i == i < inodes.Length
      modifies this`state, inodes
      ensures Mirrors() && Leads(old(state), state)
      ensures Moved(old(state), state, v, old(state).writers[v].(pc := WCopy, was := old(inodes[i].state), ob := spare[v]))
      ensures v < spare.Length
      ensures inodes[..] == old(inodes[..])[i := old(inodes[i]).(lock := Writing(v), state := DIRTY)]
    {
      EnterRun(state, v);
      EnteredFields(state, v);
      state := Entered(state, v);
      inodes[i] := inodes[i].(lock := Writing(v));
      inodes[i] := inodes[i].(state := DIRTY);
    }

    /** Counting and enqueuing the inode unless it was DIRTY before. */
    method Push(v: nat, i: nat, oldState: InodeState)
      requires Mirrors() && CanLeave(state, v) && i < inodes.Length
      requires state.writers[v].i == i && state.writers[v].was == oldState
      modifies this`state, this`queues, this`dirtyCount
      ensures Mirrors() && Leads(old(state), state) && state.nodes == old(state).nodes
      ensures Moved(old(state), state, v, old(state).writers[v].(pc := WUnlockInode))
      ensures queues == if oldState == DIRTY then old(queues) else old(WithBack(Dirty(v), i))
      ensures Counts() == if oldState == DIRTY then old(Counts()) else OneDirtied(old(Counts()))
    {
      PushRun(state, v);
      PushedHolds(state, v);
      state := Pushed(state, v);
      if oldState != DIRTY {
        dirtyCount := dirtyCount + 1;
        Enqueue(Dirty(v), i);
      }
    }

    method Unlock(v: nat, lbn: nat, i: nat)
      requires Mirrors() && v < |state.writers| && i < inodes.Length && Key(v, lbn) in nodes
      requires var w := state.writers[v]; w.pc == WUnlockInode && w.i == i && w.lbn == lbn
      modifies this`state, this`nodes, inodes
      ensures Mirrors() && Leads(old(state), state)
      ensures Moved(old(state), state, v, old(state).writers[v].(pc := WIdle))
      ensures inodes[..] == old(inodes[..])[i := old(inodes[i]).(lock := Nobody)]
      ensures nodes == old(nodes)[Key(v, lbn) := old(nodes)[Key(v, lbn)].(lock := false)]
    {
      Stay(state);
      UnlockRun(state, state, v);
      UnlockedHolds(state, v);
      state := Unlocked(state, v);
      inodes[i] := inodes[i].(lock := Nobody);
      nodes := nodes[Key(v, lbn) := nodes[Key(v, lbn)].(lock := false)];
    }

    /** Pushing the inode, and unlocking it and the node. */
    method Leave(v: nat, lbn: nat, i: nat, oldState: InodeState)
      requires Mirrors() && CanLeave(state, v) && i < inodes.Length
      requires var w := state.writers[v]; w.i == i && w.was == oldState && w.lbn == lbn
      modifies this`state, this`queues, this`nodes, this`dirtyCount, inodes
      ensures Mirrors() && Leads(old(state), state)
      ensures Moved(old(state), state, v, old(state).writers[v].(pc := WIdle))
      ensures inodes[..] == old(inodes[..])[i := old(inodes[i]).(lock := Nobody)]
      ensures Key(v, lbn) in nodes && nodes == old(nodes)[Key(v, lbn) := old(nodes)[Key(v, lbn)].(lock := false)]
      ensures queues == if oldState == DIRTY then old(queues) else old(WithBack(Dirty(v), i))
      ensures Counts() == if oldState == DIRTY then old(Counts()) else OneDirtied(old(Counts()))
    {
      ghost var s := state;
      Push(v, i, oldState);
      ghost var t := state;
      Unlock(v, lbn, i);
      LeadsOn(s, t, state);
    }

    predicate HasValid(v: nat, lbn: nat)
      reads this
    {
      Key(v, lbn) in nodes && nodes[Key(v, lbn)].valid
    }

    /** A lone write finds an unlocked node, or none and free inodes enough, and goes to inode i. */
    predicate Ready(v: nat, lbn: nat, i: nat)
      reads this, inodes, spare
    {
      && v < spare.Length && spare[v] < blocks.Length && Writable(lbn)
      && i < inodes.Length && inodes[i].lock == Nobody && inodes[i].block < blocks.Length
      && (Key(v, lbn) in nodes ==> !nodes[Key(v, lbn)].lock)
      && if HasValid(v, lbn) then nodes[Key(v, lbn)].inode == Some(i)
         else freeCount >= FREE_MIN_COUNT && Queue(Free(freeDeq % NUM_FREE)) != [] && Queue(Free(freeDeq % NUM_FREE))[0] == i
    }

    /** The queues once a node is found: unless it was there, a free queue is one shorter. */
    function AfterFinding(v: nat, lbn: nat): map<QueueId, seq<nat>>
      reads this
      requires HasValid(v, lbn) || Queue(Free(freeDeq % NUM_FREE)) != []
    {
      if HasValid(v, lbn) then queues else WithoutFront(Free(freeDeq % NUM_FREE))
    }

    /** get_hash_node_with_lock: one turn of its loop is enough for a lone caller. */
    method GetHashNodeWithLock(v: nat, lbn: nat, ghost i: nat) returns (idx: nat)
      requires Mirrors() && Ready(v, lbn, i)
      requires v < |state.writers| && state.writers[v].pc == WSearch && state.writers[v].lbn == lbn
      modifies this, inodes
      ensures Mirrors() && Leads(old(state), state) && idx == i
      ensures Locked(state, v, i, old(state).writers[v], |old(state).owner|)
      ensures nodes == old(nodes)[Key(v, lbn) := Node(Some(i), true, true)]
      ensures queues == old(AfterFinding(v, lbn)) && Counts() == if old(HasValid(v, lbn)) then old(Counts()) else OneTaken(old(Counts()))
      ensures inodes[..] == old(inodes[..])[i := if old(HasValid(v, lbn)) then old(inodes[i]) else old(inodes[i]).(lbn := lbn, vol := v)]
    {
      if Key(v, lbn) in nodes && nodes[Key(v, lbn)].valid {
        idx := OldHashNode(v, lbn);
      } else {
        idx := NewHashNode(v, lbn);
      }
    }

    /** From the inode's lock to the unlocks, in nvm_durable_write. */
    method WriteAndUnlock(v: nat, lbn: nat, data: Block, i: nat)
      requires Mirrors() && v < spare.Length && i < inodes.Length && Key(v, lbn) in nodes
      requires spare[v] < blocks.Length == |state.owner| && inodes[i].block < blocks.Length && inodes[i].lock == Nobody
      requires v < |state.writers|
      requires var w := state.writers[v]; w.pc == WLockInode && w.i == i && w.lbn == lbn && w.data == data
      modifies this, inodes, spare, blocks
      ensures Mirrors() && Leads(old(state), state) && v < |state.writers| && state.writers[v].pc == WIdle
      ensures nodes == old(nodes)[Key(v, lbn) := old(nodes)[Key(v, lbn)].(lock := false)]
      ensures blocks[..] == old(blocks[..])[old(spare[v]) := data]
      ensures spare[..] == old(spare[..])[v := old(inodes[i].block)]
      ensures inodes[..] == old(inodes[..])[i := old(inodes[i]).(state := DIRTY, block := old(spare[v]))]
      ensures queues == if old(inodes[i].state) == DIRTY then old(queues) else old(WithBack(Dirty(v), i))
      ensures Counts() == if old(inodes[i].state) == DIRTY then old(Counts()) else OneDirtied(old(Counts()))
    {
      ghost var s := state;
      var oldState := EnterAndWrite(v, data, i);
      ghost var t := state;
      Leave(v, lbn, i, oldState);
      LeadsOn(s, t, state);
    }

    method EnterAndWrite(v: nat, data: Block, i: nat) returns (oldState: InodeState)
      requires Mirrors() && v < spare.Length && i < inodes.Length
      requires spare[v] < blocks.Length == |state.owner| && inodes[i].block < blocks.Length && inodes[i].lock == Nobody
      requires v < |state.writers| && var w := state.writers[v]; w.pc == WLockInode && w.i == i && w.data == data
      modifies this`state, inodes, spare, blocks
      ensures Mirrors() && Leads(old(state), state) && oldState == old(inodes[i].state)
      ensures Moved(old(state), state, v, old(state).writers[v].(pc := WCount, was := oldState, ob := old(spare[v])))
      ensures blocks[..] == old(blocks[..])[old(spare[v]) := data]
      ensures spare[..] == old(spare[..])[v := old(inodes[i].block)]
      ensures inodes[..] == old(inodes[..])[i := old(inodes[i]).(lock := Writing(v), state := DIRTY, block := old(spare[v]))]
    {
      ghost var s := state;
      oldState := inodes[i].state;
      Enter(v, i);
      ghost var t := state;
      assert inodes[..][i] == Table(state.inodes)[i];
      WriteDataToNvmBlock(v, i, data);
      LeadsOn(s, t, state);
    }

    /** nvm_durable_write of one aligned block, by a lone caller. */
    method NvmDurableWrite(v: nat, lbn: nat, data: Block, ghost i: nat)
      requires Mirrors() && Ready(v, lbn, i) && |state.owner| == blocks.Length
      requires v < |state.writers| && state.writers[v].pc == WIdle
      modifies this, inodes, spare, blocks
      ensures Mirrors() && Leads(old(state), state) && v < |state.writers| && state.writers[v].pc == WIdle
      ensures nodes == old(nodes)[Key(v, lbn) := Node(Some(i), true, false)]
      ensures blocks[..] == old(blocks[..])[old(spare[v]) := data]
      ensures spare[..] == old(spare[..])[v := old(inodes[i].block)]
      ensures var x := if old(HasValid(v, lbn)) then old(inodes[i]) else old(inodes[i]).(lbn := lbn, vol := v);
              inodes[..] == old(inodes[..])[i := x.(state := DIRTY, block := old(spare[v]))]
      ensures var q := old(AfterFinding(v, lbn));
              queues == if old(inodes[i].state) == DIRTY then q else q[Dirty(v) := old(Queue(Dirty(v))) + [i]]
      ensures var c := if old(HasValid(v, lbn)) then old(Counts()) else OneTaken(old(Counts()));
              Counts() == if old(inodes[i].state) == DIRTY then c else OneDirtied(c)
      ensures clean[..] == old(clean[..])
    {
      ghost var s := state;
      var idx := BeginWrite(v, lbn, data, i);
      ghost var t := state;
      WriteAndUnlock(v, lbn, data, idx);
      LeadsOn(s, t, state);
    }

    method BeginWrite(v: nat, lbn: nat, data: Block, ghost i: nat) returns (idx: nat)
      requires Mirrors() && Ready(v, lbn, i) && |state.owner| == blocks.Length
      requires v < |state.writers| && state.writers[v].pc == WIdle
      modifies this, inodes
      ensures Mirrors() && Leads(old(state), state) && idx == i
      ensures Locked(state, v, i, old(state).writers[v].(lbn := lbn, data := data), blocks.Length)
      ensures nodes == old(nodes)[Key(v, lbn) := Node(Some(i), true, true)]
      ensures queues == old(AfterFinding(v, lbn)) && Counts() == if old(HasValid(v, lbn)) then old(Counts()) else OneTaken(old(Counts()))
      ensures inodes[..] == old(inodes[..])[i := if old(HasValid(v, lbn)) then old(inodes[i]) else old(inodes[i]).(lbn := lbn, vol := v)]
    {
      ghost var s := state;
      Begin(v, lbn, data);
      ghost var t := state;
      idx := GetHashNodeWithLock(v, lbn, i);
      LeadsOn(s, t, state);
    }

    /** The call begins. */
    ghost method Begin(v: nat, lbn: nat, data: Block)
      requires Mirrors() && v < |state.writers| && state.writers[v].pc == WIdle && Writable(lbn)
      requires |state.owner| == |state.blocks|
      modifies this`state
      ensures Mirrors() && Leads(old(state), state)
      ensures Moved(old(state), state, v, old(state).writers[v].(pc := WSearch, lbn := lbn, data := data))
    {
      Stay(state);
      Go(state, state, Action.Begin(v, lbn, data), StepBegin(state, v, lbn, data));
      state := StepBegin(state, v, lbn, data);
    }

    /** Marks an inode CLEAN, deals it to a clean queue and unlocks it. */
    method MarkClean(idx: nat)
      requires idx < inodes.Length && clean.Length == NUM_BALLOON
      modifies this`cleanIdx, inodes, clean
      ensures inodes[..] == old(inodes[..])[idx := old(inodes[idx]).(state := CLEAN, lock := Nobody)]
      ensures Counts() == OneCleaned(old(Counts()))
      ensures var c := old(cleanIdx) % NUM_BALLOON; clean[..] == old(clean[..])[c := old(clean[..])[c] + [idx]]
    {
      inodes[idx] := inodes[idx].(state := CLEAN);
      var c := cleanIdx % NUM_BALLOON;
      cleanIdx := cleanIdx + 1;
      clean[c] := clean[c] + [idx];
      inodes[idx] := inodes[idx].(lock := Nobody);
    }

    /** One turn of the loop of nvm_sync. */
    method SyncOne(q: nat) returns (idx: nat)
      requires Mirrors() && Queue(Sync(q)) != [] && CanSync(state, q, Queue(Sync(q))[0])
      modifies this`state, this`queues, this`cleanIdx, inodes, clean
      ensures Mirrors() && Leads(old(state), state) && idx == old(Queue(Sync(q)))[0] < inodes.Length
      ensures |state.syncers| == |old(state).syncers|
      ensures state.syncers[q] == Syncer(SLoop, old(state).syncers[q].n - 1, idx)
      ensures state.stable == old(state).stable
      ensures queues == old(WithoutFront(Sync(q))) && Counts() == OneCleaned(old(Counts()))
      ensures inodes[..] == old(inodes[..])[idx := old(inodes[..])[idx].(state := CLEAN, lock := Nobody)]
      ensures var c := old(cleanIdx) % NUM_BALLOON;
              c < clean.Length && clean[..] == old(clean[..])[c := old(clean[..])[c] + [idx]]
    {
      ghost var s := state;
      idx := Dequeue(Sync(q));
      SyncRun(s, q, idx);
      SyncedFields(s, q, idx);
      MarkClean(idx);
      state := Synced(s, q, idx);
    }

    ghost method SyncStart(q: nat)
      requires Mirrors() && q < |state.syncers| && state.syncers[q].pc == SIdle && Queue(Sync(q)) != []
      modifies this`state
      ensures Mirrors() && Leads(old(state), state) && state.stable == old(state).cache
      ensures |state.syncers| == |old(state).syncers|
      ensures state.syncers[q].pc == SLoop && state.syncers[q].n == |Queue(Sync(q))|
    {
      SyncStartRun(state, q);
      state := state.(syncers := state.syncers[q := Syncer(SLoop, |At(state, Sync(q))|, state.syncers[q].cur)],
                      stable := state.cache, pending := map[]);
    }

    ghost method SyncEnd(q: nat)
      requires Mirrors() && q < |state.syncers| && state.syncers[q].pc == SLoop && state.syncers[q].n == 0
      modifies this`state
      ensures Mirrors() && Leads(old(state), state) && state.stable == old(state).stable
      ensures q < |state.syncers| && state.syncers[q].pc == SIdle
    {
      SyncEndRun(state, q);
      state := SetSyncer(state, q, state.syncers[q].(pc := SIdle));
    }

    /** nvm_sync: commits the files, then cleans, deals out and unlocks every inode that was queued, in queue order. */
    method NvmSync(q: nat)
      requires Mirrors() && q < |state.syncers| && state.syncers[q].pc == SIdle && Queue(Sync(q)) != []
      requires clean.Length == NUM_BALLOON && forall k | 0 <= k < |Queue(Sync(q))| :: Queue(Sync(q))[k] < inodes.Length
      modifies this`state, this`queues, this`cleanIdx, inodes, clean
      ensures Mirrors() && Leads(old(state), state) && q < |state.syncers| && state.syncers[q].pc == SIdle
      ensures state.stable == old(state).cache && Queue(Sync(q)) == []
      ensures inodes[..] == AllClean(old(inodes[..]), old(Queue(Sync(q))))
      ensures clean[..] == CleanDealt(old(clean[..]), old(Queue(Sync(q))), old(cleanIdx))
    {
      ghost var s, queue, inodes0, clean0, start := state, Queue(Sync(q)), inodes[..], clean[..], cleanIdx;
      var n := |Queue(Sync(q))|;
      SyncStart(q);
      var i := 0;
      while i < n
        invariant 0 <= i <= n && Mirrors() && Leads(s, state) && state.stable == s.cache
        invariant q < |state.syncers| && state.syncers[q].pc == SLoop && state.syncers[q].n == n - i
        invariant Syncing(queue, inodes0, clean0, start, i, Queue(Sync(q)), inodes[..], clean[..], cleanIdx)
      {
        ghost var t := state;
        SyncingOne(queue, inodes0, clean0, start, i, Queue(Sync(q)), inodes[..], clean[..], cleanIdx);
        var idx := SyncOne(q);
        LeadsOn(s, t, state);
        i := i + 1;
      }
      ghost var t := state;
      SyncEnd(q);
      LeadsOn(s, t, state);
      assert queue[..n] == queue;
    }

    /** The inode is CLEAN, its node unlocked, and the inode that the node points to CLEAN. */
    predicate CanFree(idx: nat)
      reads this, inodes
    {
      && idx < inodes.Length && inodes[idx].state == CLEAN
      && var k := Key(inodes[idx].vol, inodes[idx].lbn);
      && k in nodes && !nodes[k].lock && nodes[k].inode.Some? && nodes[k].inode.value < inodes.Length
      && inodes[nodes[k].inode.value].state == CLEAN
    }

    /** logical_delete_hash_node, and the inode's way into a free queue. */
    method HandBack(idx: nat, key: Key)
      requires idx < inodes.Length
      modifies this`nodes, this`freeCount, this`freeEnq, this`queues, inodes
      ensures inodes[..] == old(inodes[..])[idx := old(inodes[idx]).(state := FREE)]
      ensures nodes == old(nodes)[key := Node(None, false, false)]
      ensures queues == old(WithBack(Free(freeEnq % NUM_FREE), idx)) && Counts() == OneFreed(old(Counts()))
    {
      nodes := nodes[key := Node(None, false, false)];
      inodes[idx] := inodes[idx].(state := FREE);
      freeCount := freeCount + 1;
      var id := Free(freeEnq % NUM_FREE);
      freeEnq := freeEnq + 1;
      Enqueue(id, idx);
    }

    /** One turn of the loop of fill_free_inodes. */
    method FillOne(b: nat)
      requires Mirrors() && Inv(state) && b < clean.Length && clean[b] != []
      modifies this, inodes, clean
      ensures Mirrors() && Inv(state) && Leads(old(state), state)
      ensures BalloonSafe(old(state), b) && state == BalloonStep(old(state), b)
      ensures clean[..] == old(clean[..])[b := old(clean[b])[1..]] && old(clean[b][0] < inodes.Length)
      ensures var i := old(clean[b][0]);
              if old(CanFree(clean[b][0])) then
                && inodes[..] == old(inodes[..])[i := old(inodes[clean[b][0]]).(state := FREE)]
                && nodes == old(nodes)[old(Key(inodes[clean[b][0]].vol, inodes[clean[b][0]].lbn)) := Node(None, false, false)]
                && queues == old(WithBack(Free(freeEnq % NUM_FREE), clean[b][0])) && Counts() == OneFreed(old(Counts()))
              else
                inodes[..] == old(inodes[..]) && nodes == old(nodes) && queues == old(queues) && Counts() == old(Counts())
    {
      BalloonRun(state, b);
      var idx := clean[b][0];
      clean[b] := clean[b][1..];
      BalloonFields(state, b);
      state := BalloonStep(state, b);
      var x := inodes[idx];
      var key := Key(x.vol, x.lbn);
      if x.state == CLEAN && !nodes[key].lock {
        if inodes[nodes[key].inode.value].state == CLEAN {
          HandBack(idx, key);
        }
      }
    }

    /** fill_free_inodes: turns until the clean queue is empty. */
    method FillFreeInodes(b: nat)
      requires Mirrors() && Inv(state) && b < clean.Length
      modifies this, inodes, clean
      ensures Mirrors() && Inv(state) && Leads(old(state), state)
      ensures clean[..] == old(clean[..])[b := []]
    {
      ghost var s := state;
      Stay(s);
      while clean[b] != []
        invariant Mirrors() && Inv(state) && Leads(s, state)
        invariant clean[..] == old(clean[..])[b := clean[b]]
        decreases |clean[b]|
      {
        ghost var t := state;
        FillOne(b);
        LeadsOn(s, t, state);
      }
    }
  }
}
