/**
 The collecting half of nvm_flush in the life cycle. Whatever all other threads do meanwhile, what a flush thread has
 collected when it turns to writing is what FlushSpec says: `busy` are the outcomes of its trylocks and `added` is what
 the volume's writer has enqueued before each, both read off the run.
 */
module FlushCollect {
  import opened BurstBuffer
  import opened BurstInvariant
  import opened BurstRuns
  import opened FlushSpec

  /** The queue at the snapshot, the trylocks so far, what was enqueued before each of them, and what since the last. */
  datatype Log = Log(queue: seq<nat>, busy: seq<bool>, added: seq<seq<nat>>, now: seq<nat>)

  function Busy(log: Log): nat -> bool { (k: nat) => k < |log.busy| && log.busy[k] }

  function Added(log: Log): nat -> seq<nat> { (k: nat) => if k < |log.added| then log.added[k] else [] }

  predicate Collects(pc: FlusherPc) { pc == FCollect || pc == FTry }

  function OneTried(log: Log, busy: bool): Log {
    log.(busy := log.busy + [busy], added := log.added + [log.now], now := [])
  }

  /** What the action adds to the log of flush thread f. */
  function Logged(s: State, a: Action, f: nat, log: Log): Log
    requires f < |s.flushers| && Guard(s, a) && Safe(s, a)
  {
    var w := s.flushers[f];
    match a
    case Flush(g, _) =>
      if g == f && w.pc == FTry then
        OneTried(log, s.inodes[w.cur].lock != Nobody)
      else log
    case Write(v) => if v == w.vol && s.writers[v].pc == WPush then log.(now := log.now + [s.writers[v].i]) else log
    case _ => log
  }

  // ------------------------------------------------------------------------------- the other threads

  /** The flush thread's own data and index array stay, and its volume's dirty queue may have grown. */
  predicate Spares(s: State, t: State, f: nat, pushed: seq<nat>) {
    && f < |s.flushers| == |t.flushers| && t.flushers[f] == s.flushers[f]
    && At(t, Todo(f)) == At(s, Todo(f)) && At(t, Done(f)) == At(s, Done(f))
    && At(t, Dirty(s.flushers[f].vol)) == At(s, Dirty(s.flushers[f].vol)) + pushed
  }

  lemma SameQueuesSpare(s: State, t: State, f: nat)
    requires f < |s.flushers| && t.flushers == s.flushers && t.queues == s.queues
    ensures Spares(s, t, f, [])
  {
  }

  lemma EnqueueSpares(s: State, v: nat, f: nat)
    requires f < |s.flushers| && v < |s.writers| && s.writers[v].i < |s.inodes|
    ensures Spares(s, StepEnqueue(s, v), f, if v == s.flushers[f].vol then [s.writers[v].i] else [])
  {
  }

  lemma SearchSpares(s: State, v: nat, f: nat)
    requires f < |s.flushers| && v < |s.writers| && WriterSafe(s, v)
    requires s.writers[v].pc == WSearch || s.writers[v].pc == WCheckFree || s.writers[v].pc == WClaim || s.writers[v].pc == WTake
          || s.writers[v].pc == WTag || s.writers[v].pc == WDec || s.writers[v].pc == WAttach || s.writers[v].pc == WLockNew
    ensures Spares(s, WriterStep(s, v), f, [])
  {
    match s.writers[v].pc
    case WSearch => SameQueuesSpare(s, StepSearch(s, v), f);
    case WCheckFree => SameQueuesSpare(s, StepCheckFree(s, v), f);
    case WClaim => SameQueuesSpare(s, StepClaim(s, v), f);
    case WTake => assert Spares(s, StepTake(s, v), f, []);
    case WTag => SameQueuesSpare(s, StepTag(s, v), f);
    case WDec => SameQueuesSpare(s, StepDec(s, v), f);
    case WAttach => SameQueuesSpare(s, StepAttach(s, v), f);
    case WLockNew => SameQueuesSpare(s, StepLockNew(s, v), f);
    case _ => assert false;
  }

  lemma FillSpares(s: State, v: nat, f: nat)
    requires f < |s.flushers| && v < |s.writers| && WriterSafe(s, v)
    requires s.writers[v].pc == WLockOld || s.writers[v].pc == WRecheck || s.writers[v].pc == WLockInode
          || s.writers[v].pc == WMark || MidWrite(s.writers[v].pc)
    ensures Spares(s, WriterStep(s, v), f, [])
  {
    match s.writers[v].pc
    case WLockOld => SameQueuesSpare(s, StepLockOld(s, v), f);
    case WRecheck => SameQueuesSpare(s, StepRecheck(s, v), f);
    case WLockInode => SameQueuesSpare(s, StepLockInode(s, v), f);
    case WMark => SameQueuesSpare(s, StepMark(s, v), f);
    case WCopy => SameQueuesSpare(s, StepCopy(s, v), f);
    case WGive => SameQueuesSpare(s, StepGive(s, v), f);
    case WSwap => SameQueuesSpare(s, StepSwap(s, v), f);
    case _ => assert false;
  }

  lemma LeaveSpares(s: State, v: nat, f: nat)
    requires f < |s.flushers| && v < |s.writers| && WriterSafe(s, v)
    requires s.writers[v].pc == WIdle || s.writers[v].pc == WCount || s.writers[v].pc == WUnlockInode || s.writers[v].pc == WUnlockNode
    ensures Spares(s, WriterStep(s, v), f, [])
  {
    match s.writers[v].pc
    case WIdle => SameQueuesSpare(s, s, f);
    case WCount => SameQueuesSpare(s, StepCount(s, v), f);
    case WUnlockInode => SameQueuesSpare(s, StepUnlockInode(s, v), f);
    case WUnlockNode => SameQueuesSpare(s, StepUnlockNode(s, v), f);
    case _ => assert false;
  }

  lemma WriterSpares(s: State, v: nat, f: nat)
    requires f < |s.flushers| && v < |s.writers| && WriterSafe(s, v)
    ensures Spares(s, WriterStep(s, v), f, if v == s.flushers[f].vol && s.writers[v].pc == WPush then [s.writers[v].i] else [])
  {
    match s.writers[v].pc
    case WPush => EnqueueSpares(s, v, f);
    case WIdle => LeaveSpares(s, v, f);
    case WCount => LeaveSpares(s, v, f);
    case WUnlockInode => LeaveSpares(s, v, f);
    case WUnlockNode => LeaveSpares(s, v, f);
    case WLockOld => FillSpares(s, v, f);
    case WRecheck => FillSpares(s, v, f);
    case WLockInode => FillSpares(s, v, f);
    case WMark => FillSpares(s, v, f);
    case WCopy => FillSpares(s, v, f);
    case WGive => FillSpares(s, v, f);
    case WSwap => FillSpares(s, v, f);
    case _ => SearchSpares(s, v, f);
  }

  lemma GrabSpares(s: State, g: nat, f: nat)
    requires f < |s.flushers| && g < |s.flushers| && g != f && s.flushers[g].vol != s.flushers[f].vol
    requires var q := At(s, Dirty(s.flushers[g].vol)); q != [] && q[0] < |s.inodes|
    ensures Spares(s, StepGrab(s, g), f, [])
  {
  }

  lemma CollectSpares(s: State, g: nat, f: nat)
    requires f < |s.flushers| && g < |s.flushers| && g != f && s.flushers[g].cur < |s.inodes|
    ensures Spares(s, StepCollect(s, g), f, [])
  {
  }

  lemma ReturnSpares(s: State, g: nat, f: nat)
    requires f < |s.flushers| && g < |s.flushers| && g != f && s.flushers[g].vol != s.flushers[f].vol && s.flushers[g].cur < |s.inodes|
    ensures Spares(s, StepReturn(s, g), f, [])
  {
  }

  lemma WriteBlockSpares(s: State, g: nat, f: nat)
    requires f < |s.flushers| && g < |s.flushers| && g != f && At(s, Todo(g)) != [] && At(s, Todo(g))[0] < |s.inodes|
    requires s.inodes[At(s, Todo(g))[0]].block < |s.blocks|
    ensures Spares(s, StepWriteBlock(s, g), f, [])
  {
  }

  lemma MarkSyncSpares(s: State, g: nat, f: nat)
    requires f < |s.flushers| && g < |s.flushers| && g != f && At(s, Done(g)) != [] && At(s, Done(g))[0] < |s.inodes|
    ensures Spares(s, StepMarkSync(s, g), f, [])
  {
  }

  lemma HandOffSpares(s: State, g: nat, f: nat)
    requires f < |s.flushers| && g < |s.flushers| && g != f && s.flushers[g].cur < |s.inodes|
    ensures Spares(s, StepHandOff(s, g), f, [])
  {
  }

  /** Another flush thread works on another volume. */
  lemma OtherCollectSpares(s: State, g: nat, f: nat)
    requires f < |s.flushers| && g < |s.flushers| && g != f && FlusherSafe(s, g) && s.flushers[g].vol != s.flushers[f].vol
    requires Collects(s.flushers[g].pc)
    ensures Spares(s, FlusherStep(s, g, false), f, [])
  {
    var w := s.flushers[g];
    if w.pc == FTry {
      if s.inodes[w.cur].lock == Nobody { CollectSpares(s, g, f); } else { ReturnSpares(s, g, f); }
    } else if w.got < w.ws {
      GrabSpares(s, g, f);
    } else {
      OtherLocalSpares(s, g, w.(pc := FWrite), s.inuse, f);
    }
  }

  lemma OtherOutSpares(s: State, g: nat, write: bool, f: nat)
    requires f < |s.flushers| && g < |s.flushers| && g != f && FlusherSafe(s, g) && s.flushers[g].pc == FWrite
    ensures Spares(s, FlusherStep(s, g, write), f, [])
  {
    if write && At(s, Todo(g)) != [] {
      WriteBlockSpares(s, g, f);
    } else if At(s, Done(g)) != [] {
      MarkSyncSpares(s, g, f);
    } else if At(s, Todo(g)) == [] {
      OtherLocalSpares(s, g, s.flushers[g].(pc := FPut), s.inuse, f);
    } else {
      SameQueuesSpare(s, s, f);
    }
  }

  lemma OtherLocalSpares(s: State, g: nat, w: Flusher, inuse: seq<nat>, f: nat)
    requires f < |s.flushers| && g < |s.flushers| && g != f
    ensures Spares(s, SetFlusher(s, g, w).(inuse := inuse), f, [])
  {
  }

  lemma OtherWakeSpares(s: State, g: nat, f: nat)
    requires f < |s.flushers| && g < |s.flushers| && g != f && FlusherSafe(s, g)
    requires s.flushers[g].pc == FIdle || s.flushers[g].pc == FWoken || s.flushers[g].pc == FClaim
          || s.flushers[g].pc == FLook || s.flushers[g].pc == FSnapshot || s.flushers[g].pc == FPut
    ensures Spares(s, FlusherStep(s, g, false), f, [])
  {
    var w := s.flushers[g];
    match w.pc
    case FIdle => OtherLocalSpares(s, g, w.(pc := FWoken), s.inuse, f);
    case FWoken => OtherLocalSpares(s, g, w.(pc := if s.inuse == [] then FIdle else FClaim), s.inuse, f);
    case FClaim => OtherLocalSpares(s, g, w.(pc := FLook, vol := s.inuse[0]), s.inuse[1..], f);
    case FLook => OtherLocalSpares(s, g, w.(pc := if |At(s, Dirty(w.vol))| > 1 then FSnapshot else FPut), s.inuse, f);
    case FSnapshot => OtherLocalSpares(s, g, StepSnapshot(s, g).flushers[g], s.inuse, f);
    case FPut => OtherLocalSpares(s, g, w.(pc := FIdle), s.inuse + [w.vol], f);
    case _ => assert false;
  }

  lemma OtherFlusherSpares(s: State, g: nat, write: bool, f: nat)
    requires TokensOk(s) && f < |s.flushers| && g < |s.flushers| && g != f && FlusherSafe(s, g) && HasToken(s.flushers[f].pc)
    ensures Spares(s, FlusherStep(s, g, write), f, [])
  {
    match s.flushers[g].pc
    case FCollect => OtherCollectSpares(s, g, f);
    case FTry => OtherCollectSpares(s, g, f);
    case FWrite => OtherOutSpares(s, g, write, f);
    case FHand => HandOffSpares(s, g, f);
    case _ => OtherWakeSpares(s, g, f);
  }

  lemma TakeSyncSpares(s: State, q: nat, f: nat)
    requires f < |s.flushers| && q < |s.syncers| && s.syncers[q].n > 0 && At(s, Sync(q)) != [] && At(s, Sync(q))[0] < |s.inodes|
    ensures Spares(s, StepTakeSync(s, q), f, [])
  {
  }

  lemma CleaningSpares(s: State, q: nat, f: nat)
    requires f < |s.flushers| && q < |s.syncers| && SyncerSafe(s, q)
    requires s.syncers[q].pc == SClean || s.syncers[q].pc == SPush || s.syncers[q].pc == SUnlock
    ensures Spares(s, SyncerStep(s, q), f, [])
  {
    match s.syncers[q].pc
    case SClean => SameQueuesSpare(s, StepClean(s, q), f);
    case SPush => SameQueuesSpare(s, StepPushClean(s, q), f);
    case SUnlock => SameQueuesSpare(s, StepUnlock(s, q), f);
    case _ => assert false;
  }

  lemma SyncerSpares(s: State, q: nat, f: nat)
    requires f < |s.flushers| && q < |s.syncers| && SyncerSafe(s, q)
    ensures Spares(s, SyncerStep(s, q), f, [])
  {
    var w := s.syncers[q];
    match w.pc
    case SIdle => SameQueuesSpare(s, SetSyncer(s, q, w.(pc := SSync, n := |At(s, Sync(q))|)), f);
    case SSync => SameQueuesSpare(s, StepCommit(s, q), f);
    case SLoop => if w.n > 0 { TakeSyncSpares(s, q, f); } else { SameQueuesSpare(s, SetSyncer(s, q, w.(pc := SIdle)), f); }
    case _ => CleaningSpares(s, q, f);
  }

  lemma FreeSpares(s: State, b: nat, f: nat)
    requires f < |s.flushers| && b < |s.clean| && s.clean[b] != [] && s.clean[b][0] < |s.inodes|
    ensures Spares(s, StepFree(s, b), f, [])
  {
  }

  lemma BalloonSpares(s: State, b: nat, f: nat)
    requires f < |s.flushers| && b < |s.clean| && BalloonSafe(s, b)
    ensures Spares(s, BalloonStep(s, b), f, [])
  {
    FreeSpares(s, b, f);
    SameQueuesSpare(s, StepSkip(s, b), f);
    SameQueuesSpare(s, StepDrop(s, b), f);
  }

  /** Any step but the thread's own: its queue grows by what the log says. */
  lemma OthersSpare(s: State, a: Action, f: nat, log: Log)
    requires Inv(s) && Guard(s, a) && Safe(s, a) && f < |s.flushers| && HasToken(s.flushers[f].pc)
    requires !(a.Flush? && a.f == f)
    ensures Spares(s, Do(s, a), f, Logged(s, a, f, log).now[|log.now|..])
    ensures Logged(s, a, f, log) == log.(now := log.now + Logged(s, a, f, log).now[|log.now|..])
  {
    match a
    case Begin(v, lbn, data) => SameQueuesSpare(s, StepBegin(s, v, lbn, data), f);
    case Write(v) => WriterSpares(s, v, f);
    case Tear(v, junk) => SameQueuesSpare(s, Do(s, a), f);
    case Flush(g, write) => OtherFlusherSpares(s, g, write, f);
    case DoSync(q) => SyncerSpares(s, q, f);
    case Balloon(b) => BalloonSpares(s, b, f);
  }

  // --------------------------------------------------------------------------------- the thread itself

  lemma {:induction false} TakenBefore(queue: seq<nat>, log: Log, more: Log, n: nat)
    requires n <= |queue| && n <= |log.busy| <= |more.busy| && more.busy[..|log.busy|] == log.busy
    requires n <= |log.added| <= |more.added| && more.added[..|log.added|] == log.added
    ensures Taken(queue, Busy(more), n) == Taken(queue, Busy(log), n)
    ensures Behind(queue, Busy(more), Added(more), n) == Behind(queue, Busy(log), Added(log), n)
  {
    if n > 0 {
      TakenBefore(queue, log, more, n - 1);
      assert more.busy[n - 1] == more.busy[..|log.busy|][n - 1] && more.added[n - 1] == more.added[..|log.added|][n - 1];
    }
  }

  /** After as many trylocks as the log has, the thread has collected the ones that succeeded. */
  predicate Counts(s: State, f: nat, log: Log) {
    && f < |s.flushers| && Collects(s.flushers[f].pc) && |log.added| == |log.busy| < |log.queue|
    && At(s, Todo(f)) == Taken(log.queue, Busy(log), |log.busy|)
    && s.flushers[f].num == |log.queue| - 1 - (|log.busy| - s.flushers[f].got)
    && (|log.busy| > 0 ==> |Taken(log.queue, Busy(log), |log.busy| - 1)| < FlushSpec.FLUSH_BATCH_SIZE)
  }

  /** What is left of the queue, and what is behind it. */
  function Rest(log: Log, k: nat): seq<nat>
    requires |log.busy| <= |log.queue| && k <= |log.queue|
  {
    log.queue[k..] + Behind(log.queue, Busy(log), Added(log), |log.busy|) + log.now
  }

  predicate Tracks(s: State, f: nat, log: Log) {
    && Counts(s, f, log)
    && var w, k := s.flushers[f], |log.busy|;
    && (w.pc == FCollect ==> At(s, Dirty(w.vol)) == Rest(log, k))
    && (w.pc == FTry ==> k + 1 < |log.queue| && w.cur == log.queue[k] && w.got < FlushSpec.FLUSH_BATCH_SIZE
                         && At(s, Dirty(w.vol)) == Rest(log, k + 1))
  }

  /** What FlushSpec says of the collection, when it is over. */
  predicate Collected(s: State, f: nat, log: Log) {
    && f < |s.flushers| && |log.added| == |log.busy| && StopsAt(log.queue, Busy(log), |log.busy|)
    && At(s, Todo(f)) == Taken(log.queue, Busy(log), |log.busy|)
    && At(s, Dirty(s.flushers[f].vol)) == Rest(log, |log.busy|)
  }

  lemma RestGrows(log: Log, pushed: seq<nat>, k: nat)
    requires |log.busy| <= |log.queue| && k <= |log.queue| && |log.added| == |log.busy|
    ensures Rest(log.(now := log.now + pushed), k) == Rest(log, k) + pushed
    ensures Taken(log.queue, Busy(log.(now := log.now + pushed)), |log.busy|) == Taken(log.queue, Busy(log), |log.busy|)
    ensures |log.busy| > 0 ==> Taken(log.queue, Busy(log.(now := log.now + pushed)), |log.busy| - 1) ==
                               Taken(log.queue, Busy(log), |log.busy| - 1)
  {
    var more := log.(now := log.now + pushed);
    TakenBefore(log.queue, log, more, |log.busy|);
    if |log.busy| > 0 { TakenBefore(log.queue, log, more, |log.busy| - 1); }
  }

  lemma OthersTrack(s: State, t: State, f: nat, log: Log, pushed: seq<nat>)
    requires Tracks(s, f, log) && Spares(s, t, f, pushed)
    ensures Tracks(t, f, log.(now := log.now + pushed))
  {
    var k := |log.busy|;
    RestGrows(log, pushed, k);
    if s.flushers[f].pc == FTry { RestGrows(log, pushed, k + 1); }
  }

  lemma RestFront(log: Log, k: nat)
    requires |log.busy| <= |log.queue| && k < |log.queue|
    ensures Rest(log, k) != [] && Rest(log, k)[0] == log.queue[k] && Rest(log, k)[1..] == Rest(log, k + 1)
  {
    var behind := Behind(log.queue, Busy(log), Added(log), |log.busy|) + log.now;
    assert Rest(log, k) == log.queue[k..] + behind && Rest(log, k + 1) == log.queue[k + 1..] + behind;
  }

  lemma GrabQueues(s: State, f: nat)
    requires f < |s.flushers| && var q := At(s, Dirty(s.flushers[f].vol)); q != [] && q[0] < |s.inodes|
    ensures var t, w := StepGrab(s, f), s.flushers[f];
            && |t.flushers| == |s.flushers| && t.flushers[f] == w.(pc := FTry, cur := At(s, Dirty(w.vol))[0])
            && At(t, Todo(f)) == At(s, Todo(f)) && At(t, Dirty(w.vol)) == At(s, Dirty(w.vol))[1..]
  {
  }

  lemma Grabbed(s: State, t: State, f: nat, log: Log)
    requires Tracks(s, f, log) && FlusherOk(s, f) && s.flushers[f].pc == FCollect && s.flushers[f].got < s.flushers[f].ws
    requires f < |t.flushers| && t.flushers[f] == s.flushers[f].(pc := FTry, cur := log.queue[|log.busy|])
    requires At(t, Todo(f)) == At(s, Todo(f)) && At(t, Dirty(s.flushers[f].vol)) == Rest(log, |log.busy| + 1)
    ensures Tracks(t, f, log)
  {
  }

  lemma GrabTracks(s: State, f: nat, log: Log)
    requires Tracks(s, f, log) && FlusherOk(s, f) && s.flushers[f].pc == FCollect && s.flushers[f].got < s.flushers[f].ws
    requires FlusherSafe(s, f)
    ensures Tracks(StepGrab(s, f), f, log)
  {
    RestFront(log, |log.busy|);
    GrabQueues(s, f);
    Grabbed(s, StepGrab(s, f), f, log);
  }

  lemma Assoc(a: seq<nat>, b: seq<nat>, c: seq<nat>, d: seq<nat>)
    ensures a + (b + c + d) + [] == a + b + c + d
  {
  }

  lemma TriedOnce(log: Log, more: Log, busy: bool)
    requires |log.added| == |log.busy| < |log.queue| && more == OneTried(log, busy)
    ensures var k, x := |log.busy|, log.queue[|log.busy|];
            && Taken(log.queue, Busy(more), k) == Taken(log.queue, Busy(log), k)
            && Taken(log.queue, Busy(more), k + 1) == Taken(log.queue, Busy(log), k) + (if busy then [] else [x])
            && Behind(log.queue, Busy(more), Added(more), k + 1) ==
               Behind(log.queue, Busy(log), Added(log), k) + log.now + (if busy then [x] else [])
  {
    var k := |log.busy|;
    TakenBefore(log.queue, log, more, k);
    assert Busy(more)(k) == busy && Added(more)(k) == log.now;
  }

  /** One more trylock in the log. */
  lemma Tried(log: Log, busy: bool)
    requires |log.added| == |log.busy| && |log.busy| + 1 < |log.queue|
    ensures var k, x := |log.busy|, log.queue[|log.busy|];
            var more := OneTried(log, busy);
            && Taken(log.queue, Busy(more), k + 1) == Taken(log.queue, Busy(log), k) + (if busy then [] else [x])
            && Taken(log.queue, Busy(more), k) == Taken(log.queue, Busy(log), k)
            && Rest(more, k + 1) == Rest(log, k + 1) + (if busy then [x] else [])
  {
    var k, more := |log.busy|, OneTried(log, busy);
    TriedOnce(log, more, busy);
    Assoc(log.queue[k + 1..], Behind(log.queue, Busy(log), Added(log), k), log.now, if busy then [log.queue[k]] else []);
  }

  lemma CollectTracks(s: State, f: nat, log: Log)
    requires Tracks(s, f, log) && FlusherOk(s, f) && s.flushers[f].pc == FTry && s.flushers[f].cur < |s.inodes|
    requires s.inodes[s.flushers[f].cur].lock == Nobody
    ensures Tracks(StepCollect(s, f), f, OneTried(log, false))
  {
    Tried(log, false);
  }

  lemma ReturnQueues(s: State, f: nat)
    requires f < |s.flushers| && s.flushers[f].cur < |s.inodes|
    ensures var t, w := StepReturn(s, f), s.flushers[f];
            && |t.flushers| == |s.flushers| && t.flushers[f].pc == FCollect && t.flushers[f].vol == w.vol
            && t.flushers[f].num == w.num - 1 && t.flushers[f].got == w.got
            && At(t, Todo(f)) == At(s, Todo(f)) && At(t, Dirty(w.vol)) == At(s, Dirty(w.vol)) + [w.cur]
  {
  }

  lemma ReturnTracks(s: State, f: nat, log: Log)
    requires Tracks(s, f, log) && FlusherOk(s, f) && s.flushers[f].pc == FTry && s.flushers[f].cur < |s.inodes|
    ensures Tracks(StepReturn(s, f), f, OneTried(log, true))
  {
    ReturnQueues(s, f);
    Returned(s, StepReturn(s, f), f, log);
  }

  lemma Returned(s: State, t: State, f: nat, log: Log)
    requires Tracks(s, f, log) && FlusherOk(s, f) && s.flushers[f].pc == FTry
    requires f < |t.flushers| && t.flushers[f].pc == FCollect && t.flushers[f].vol == s.flushers[f].vol
    requires t.flushers[f].num == s.flushers[f].num - 1 && t.flushers[f].got == s.flushers[f].got
    requires At(t, Todo(f)) == At(s, Todo(f))
    requires At(t, Dirty(s.flushers[f].vol)) == At(s, Dirty(s.flushers[f].vol)) + [s.flushers[f].cur]
    ensures Tracks(t, f, OneTried(log, true))
  {
    Tried(log, true);
  }

  lemma CollectionEnds(s: State, f: nat, log: Log)
    requires Tracks(s, f, log) && FlusherOk(s, f) && s.flushers[f].pc == FCollect && s.flushers[f].got >= s.flushers[f].ws
    ensures Collected(SetFlusher(s, f, s.flushers[f].(pc := FWrite)), f, log)
  {
  }

  lemma TryTracks(s: State, f: nat, log: Log)
    requires Tracks(s, f, log) && FlusherOk(s, f) && FlusherSafe(s, f) && s.flushers[f].pc == FTry
    ensures Tracks(StepTryLock(s, f), f, OneTried(log, s.inodes[s.flushers[f].cur].lock != Nobody))
  {
    if s.inodes[s.flushers[f].cur].lock == Nobody { CollectTracks(s, f, log); } else { ReturnTracks(s, f, log); }
  }

  predicate TracksOrDone(t: State, f: nat, log: Log) {
    f < |t.flushers| && if Collects(t.flushers[f].pc) then Tracks(t, f, log) else Collected(t, f, log)
  }

  lemma OwnTracks(s: State, f: nat, write: bool, log: Log)
    requires Tracks(s, f, log) && FlusherOk(s, f) && FlusherGuard(s, f) && FlusherSafe(s, f)
    ensures TracksOrDone(FlusherStep(s, f, write), f,
                         if s.flushers[f].pc == FTry then OneTried(log, s.inodes[s.flushers[f].cur].lock != Nobody) else log)
  {
    var w := s.flushers[f];
    if w.pc == FTry {
      TryTracks(s, f, log);
    } else if w.got < w.ws {
      GrabTracks(s, f, log);
    } else {
      CollectionEnds(s, f, log);
    }
  }

  /** Any thread's step, seen from a collecting flush thread. */
  lemma StepTracks(s: State, a: Action, f: nat, log: Log)
    requires Inv(s) && Guard(s, a) && Safe(s, a) && Tracks(s, f, log)
    ensures TracksOrDone(Do(s, a), f, Logged(s, a, f, log))
    ensures Logged(s, a, f, log).queue == log.queue
  {
    if a.Flush? && a.f == f {
      assert FlusherOk(s, f);
      OwnTracks(s, f, a.write, log);
    } else {
      OthersSpare(s, a, f, log);
      OthersTrack(s, Do(s, a), f, log, Logged(s, a, f, log).now[|log.now|..]);
    }
  }

  /** The thread collects in every state of the run but perhaps the last. */
  ghost predicate Collecting(s: State, run: seq<Action>, f: nat)
    requires ValidRun(s, run)
    decreases |run|
  {
    f < |s.flushers| && (run == [] || (Collects(s.flushers[f].pc) && Collecting(Do(s, run[0]), run[1..], f)))
  }

  function Follow(s: State, run: seq<Action>, f: nat, log: Log): Log
    requires ValidRun(s, run)
    decreases |run|
  {
    if run == [] || f >= |s.flushers| then log else Follow(Do(s, run[0]), run[1..], f, Logged(s, run[0], f, log))
  }

  lemma {:induction false} RunTracks(s: State, run: seq<Action>, f: nat, log: Log)
    requires Inv(s) && ValidRun(s, run) && Collecting(s, run, f) && f < |s.flushers|
    requires TracksOrDone(s, f, log)
    ensures TracksOrDone(Exec(s, run), f, Follow(s, run, f, log)) && Follow(s, run, f, log).queue == log.queue
    decreases |run|
  {
    if run != [] {
      StepTracks(s, run[0], f, log);
      StepKeeps(s, run[0]);
      RunTracks(Do(s, run[0]), run[1..], f, Logged(s, run[0], f, log));
    }
  }

  lemma SnapshotTracks(s: State, f: nat)
    requires Inv(s) && f < |s.flushers| && s.flushers[f].pc == FSnapshot
    ensures Tracks(StepSnapshot(s, f), f, Log(At(s, Dirty(s.flushers[f].vol)), [], [], []))
  {
    assert FlusherOk(s, f);
    var log := Log(At(s, Dirty(s.flushers[f].vol)), [], [], []);
    assert Rest(log, 0) == log.queue;
  }

  /**
   From its look at the queue on, however all threads interleave, a flush thread collects what FlushSpec says: the inodes
   whose trylocks succeed, in order, until the batch is full or one inode of the queue is left; the others are back in the
   queue, each behind what the writer has enqueued before it.
   */
  lemma CollectMeetsSpec(s: State, f: nat, run: seq<Action>) returns (log: Log)
    requires Inv(s) && f < |s.flushers| && s.flushers[f].pc == FSnapshot
    requires ValidRun(StepSnapshot(s, f), run) && Collecting(StepSnapshot(s, f), run, f)
    requires var t := Exec(StepSnapshot(s, f), run); f < |t.flushers| && t.flushers[f].pc == FWrite
    ensures log == Follow(StepSnapshot(s, f), run, f, Log(At(s, Dirty(s.flushers[f].vol)), [], [], []))
    ensures log.queue == At(s, Dirty(s.flushers[f].vol)) && Collected(Exec(StepSnapshot(s, f), run), f, log)
  {
    var start := Log(At(s, Dirty(s.flushers[f].vol)), [], [], []);
    SnapshotTracks(s, f);
    StepKeeps(s, Flush(f, false));
    RunTracks(StepSnapshot(s, f), run, f, start);
    log := Follow(StepSnapshot(s, f), run, f, start);
  }
}
