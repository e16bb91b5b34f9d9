/** A CLEAN inode that the balloon threads have lost stays lost until its key is written again. */
module LostForGood {
  import opened BurstBuffer
  import opened BurstInvariant
  import opened BurstRuns
  import opened BurstTheorems

  /** The writer of the inode's volume is in a call on another key, or has only to return from this one. */
  predicate NotWanted(s: State, x: Inode) {
    x.vol < |s.writers| && s.writers[x.vol].lbn == x.lbn ==>
      s.writers[x.vol].pc == WIdle || s.writers[x.vol].pc == WUnlockNode
  }

  /** Inode i is CLEAN, its index has no copy left, and no call is about to dirty it. */
  predicate Lost(s: State, i: nat) {
    i < |s.inodes| && s.inodes[i].state == CLEAN && !HasCopy(s, i) && NotWanted(s, s.inodes[i])
  }

  lemma LostIsUnfindable(s: State, i: nat)
    requires Lost(s, i)
    ensures !Findable(s, i)
  {
  }

  /** A drop of an inode's last copy loses it. */
  lemma DropIsLost(s: State, b: nat)
    requires Inv(s) && Guard(s, Balloon(b)) && Drops(s, Balloon(b))
    ensures Safe(s, Balloon(b))
    ensures var t, i := Do(s, Balloon(b)), s.clean[b][0]; HasCopy(t, i) || Lost(t, i)
  {
    DropLoses(s, b);
    DropIsStep(s, b);
  }

  /** t leaves inode i as it is, gives it no copy, and no writer a wish for it. */
  predicate Ignores(s: State, t: State, i: nat)
    requires i < |s.inodes|
  {
    i < |t.inodes| && KeyOf(t.inodes[i]) == KeyOf(s.inodes[i]) && Lost(t, i)
  }

  predicate OnKey(a: Action, k: Key) {
    a.Begin? && a.v == k.vol && a.lbn == k.lbn
  }

  /** Queues and sync threads that a writer's step leaves alone hold no copy afterwards. */
  lemma WriterIgnores(s: State, t: State, v: nat, i: nat)
    requires Lost(s, i) && v < |s.writers| && |t.writers| == |s.writers|
    requires var u := s.inodes[i].vol; u < |s.writers| && u != v ==> t.writers[u] == s.writers[u]
    requires t.clean == s.clean && t.syncers == s.syncers && i < |t.inodes| && t.inodes[i] == s.inodes[i]
    requires v == s.inodes[i].vol && t.writers[v].lbn == s.inodes[i].lbn ==>
               t.writers[v].pc == WIdle || t.writers[v].pc == WUnlockNode
    ensures Ignores(s, t, i)
  {
  }

  /** A writer that touches inode j knows it by its key, or has taken it from a free queue. */
  lemma HerInode(s: State, v: nat, i: nat)
    requires Inv(s) && Lost(s, i) && v < |s.writers| && s.writers[v].i == i
    ensures s.writers[v].pc != WTag && s.writers[v].pc != WAttach && s.writers[v].pc != WLockNew
    ensures s.writers[v].pc != WLockInode && s.writers[v].pc != WMark && !MidWrite(s.writers[v].pc)
    ensures !BeforePush(s.writers[v].pc) && s.writers[v].pc != WUnlockInode
  {
    assert WriterOk(s, v) && InodeOk(s, i);
  }

  lemma TakenIsFree(s: State, v: nat, i: nat)
    requires Inv(s) && Lost(s, i) && v < |s.writers| && s.writers[v].pc == WTake && WriterSafe(s, v)
    ensures At(s, Free(s.writers[v].shard))[0] != i
  {
    var q := At(s, Free(s.writers[v].shard));
    assert BoxOk(s, Free(s.writers[v].shard)) && q[0] in q;
    assert InodeOk(s, i);
  }

  lemma SearchIgnores(s: State, v: nat, i: nat)
    requires Inv(s) && Lost(s, i) && v < |s.writers| && WriterSafe(s, v)
    requires s.writers[v].pc == WSearch || s.writers[v].pc == WCheckFree || s.writers[v].pc == WClaim || s.writers[v].pc == WTake
          || s.writers[v].pc == WDec || s.writers[v].pc == WLockOld || s.writers[v].pc == WRecheck || s.writers[v].pc == WUnlockNode
    ensures Ignores(s, WriterStep(s, v), i)
  {
    match s.writers[v].pc
    case WSearch => WriterIgnores(s, StepSearch(s, v), v, i);
    case WCheckFree => WriterIgnores(s, StepCheckFree(s, v), v, i);
    case WClaim => WriterIgnores(s, StepClaim(s, v), v, i);
    case WTake => TakenIsFree(s, v, i); WriterIgnores(s, StepTake(s, v), v, i);
    case WDec => WriterIgnores(s, StepDec(s, v), v, i);
    case WLockOld => WriterIgnores(s, StepLockOld(s, v), v, i);
    case WRecheck => WriterIgnores(s, StepRecheck(s, v), v, i);
    case WUnlockNode => WriterIgnores(s, StepUnlockNode(s, v), v, i);
    case _ => assert false;
  }

  lemma EnterIgnores(s: State, v: nat, i: nat)
    requires Inv(s) && Lost(s, i) && v < |s.writers| && WriterSafe(s, v)
    requires s.writers[v].pc == WTag || s.writers[v].pc == WAttach || s.writers[v].pc == WLockNew
          || s.writers[v].pc == WLockInode || s.writers[v].pc == WMark
    ensures Ignores(s, WriterStep(s, v), i)
  {
    if s.writers[v].i == i { HerInode(s, v, i); }
    match s.writers[v].pc
    case WTag => WriterIgnores(s, StepTag(s, v), v, i);
    case WAttach => WriterIgnores(s, StepAttach(s, v), v, i);
    case WLockNew => WriterIgnores(s, StepLockNew(s, v), v, i);
    case WLockInode => WriterIgnores(s, StepLockInode(s, v), v, i);
    case WMark => WriterIgnores(s, StepMark(s, v), v, i);
    case _ => assert false;
  }

  /** Writer v is in a call on another key, with another inode. */
  predicate Elsewhere(s: State, v: nat, i: nat) {
    && v < |s.writers| && i < |s.inodes| && s.writers[v].i != i
    && !(v == s.inodes[i].vol && s.writers[v].lbn == s.inodes[i].lbn)
  }

  lemma CopyIgnores(s: State, v: nat, i: nat)
    requires Lost(s, i) && Elsewhere(s, v, i) && s.writers[v].ob < |s.blocks|
    ensures Ignores(s, StepCopy(s, v), i)
  {
    WriterIgnores(s, StepCopy(s, v), v, i);
  }

  lemma GiveIgnores(s: State, v: nat, i: nat)
    requires Lost(s, i) && Elsewhere(s, v, i) && s.writers[v].i < |s.inodes| && v < |s.spare|
    ensures Ignores(s, StepGive(s, v), i)
  {
    WriterIgnores(s, StepGive(s, v), v, i);
  }

  lemma SwapIgnores(s: State, v: nat, i: nat)
    requires Lost(s, i) && Elsewhere(s, v, i) && s.writers[v].i < |s.inodes|
    requires s.writers[v].ob < |s.owner| && s.inodes[s.writers[v].i].block < |s.owner|
    ensures Ignores(s, StepSwap(s, v), i)
  {
    WriterIgnores(s, StepSwap(s, v), v, i);
  }

  lemma RaiseIgnores(s: State, v: nat, i: nat)
    requires Lost(s, i) && Elsewhere(s, v, i)
    ensures Ignores(s, StepRaise(s, v), i)
  {
    WriterIgnores(s, StepRaise(s, v), v, i);
  }

  lemma CountIgnores(s: State, v: nat, i: nat)
    requires Lost(s, i) && Elsewhere(s, v, i)
    ensures Ignores(s, StepCount(s, v), i)
  {
    if s.writers[v].was == DIRTY { WriterIgnores(s, StepCount(s, v), v, i); } else { RaiseIgnores(s, v, i); }
  }

  lemma EnqueueIgnores(s: State, v: nat, i: nat)
    requires Lost(s, i) && Elsewhere(s, v, i) && s.writers[v].i < |s.inodes|
    ensures Ignores(s, StepEnqueue(s, v), i)
  {
    WriterIgnores(s, StepEnqueue(s, v), v, i);
  }

  lemma UnlockIgnores(s: State, v: nat, i: nat)
    requires Lost(s, i) && Elsewhere(s, v, i) && s.writers[v].i < |s.inodes|
    ensures Ignores(s, StepUnlockInode(s, v), i)
  {
    WriterIgnores(s, StepUnlockInode(s, v), v, i);
  }

  lemma HoldIgnores(s: State, v: nat, i: nat)
    requires Inv(s) && Lost(s, i) && v < |s.writers| && WriterSafe(s, v)
    requires MidWrite(s.writers[v].pc) || BeforePush(s.writers[v].pc) || s.writers[v].pc == WUnlockInode
    ensures Ignores(s, WriterStep(s, v), i)
  {
    if s.writers[v].i == i { HerInode(s, v, i); }
    match s.writers[v].pc
    case WCount => CountIgnores(s, v, i);
    case WPush => EnqueueIgnores(s, v, i);
    case WUnlockInode => UnlockIgnores(s, v, i);
    case WCopy => CopyIgnores(s, v, i);
    case WGive => GiveIgnores(s, v, i);
    case WSwap => SwapIgnores(s, v, i);
    case _ => assert false;
  }

  lemma WriteIgnores(s: State, v: nat, i: nat)
    requires Inv(s) && Lost(s, i) && v < |s.writers| && WriterGuard(s, v) && WriterSafe(s, v)
    ensures Ignores(s, WriterStep(s, v), i)
  {
    match s.writers[v].pc
    case WIdle =>
    case WSearch => SearchIgnores(s, v, i);
    case WCheckFree => SearchIgnores(s, v, i);
    case WClaim => SearchIgnores(s, v, i);
    case WTake => SearchIgnores(s, v, i);
    case WDec => SearchIgnores(s, v, i);
    case WLockOld => SearchIgnores(s, v, i);
    case WRecheck => SearchIgnores(s, v, i);
    case WUnlockNode => SearchIgnores(s, v, i);
    case WTag => EnterIgnores(s, v, i);
    case WAttach => EnterIgnores(s, v, i);
    case WLockNew => EnterIgnores(s, v, i);
    case WLockInode => EnterIgnores(s, v, i);
    case WMark => EnterIgnores(s, v, i);
    case _ => HoldIgnores(s, v, i);
  }

  lemma NotAtHead(s: State, id: QueueId, i: nat)
    requires Inv(s) && Lost(s, i) && At(s, id) != []
    ensures At(s, id)[0] != i
  {
    assert BoxOk(s, id) && At(s, id)[0] in At(s, id) && InodeOk(s, i);
  }

  /** A step of a flush thread on another inode, or on none. */
  lemma FlowIgnores(s: State, t: State, j: int, i: nat)
    requires Lost(s, i) && i != j && |t.inodes| == |s.inodes| && t.writers == s.writers && t.clean == s.clean && t.syncers == s.syncers
    requires j < |s.inodes| && t.inodes == if j < 0 then s.inodes else s.inodes[j := t.inodes[j]]
    ensures Ignores(s, t, i)
  {
  }

  lemma GrabIgnores(s: State, f: nat, i: nat)
    requires Inv(s) && Lost(s, i) && f < |s.flushers| && s.flushers[f].pc == FCollect && FlusherGuard(s, f) && FlusherSafe(s, f)
    ensures Ignores(s, FlusherStep(s, f, false), i)
  {
    var w := s.flushers[f];
    if w.got < w.ws {
      NotAtHead(s, Dirty(w.vol), i);
      FlowIgnores(s, StepGrab(s, f), At(s, Dirty(w.vol))[0], i);
    } else {
      FlowIgnores(s, SetFlusher(s, f, w.(pc := FWrite)), -1, i);
    }
  }

  lemma TryIgnores(s: State, f: nat, i: nat)
    requires Inv(s) && Lost(s, i) && f < |s.flushers| && s.flushers[f].pc == FTry && FlusherSafe(s, f)
    ensures Ignores(s, StepTryLock(s, f), i)
  {
    assert InodeOk(s, i) && FlusherOk(s, f);
    var j := s.flushers[f].cur;
    if s.inodes[j].lock == Nobody { FlowIgnores(s, StepCollect(s, f), j, i); } else { FlowIgnores(s, StepReturn(s, f), j, i); }
  }

  lemma OutIgnores(s: State, f: nat, write: bool, i: nat)
    requires Inv(s) && Lost(s, i) && f < |s.flushers| && s.flushers[f].pc == FWrite && FlusherSafe(s, f)
    ensures Ignores(s, FlusherStep(s, f, write), i)
  {
    if write && At(s, Todo(f)) != [] {
      NotAtHead(s, Todo(f), i);
      FlowIgnores(s, StepWriteBlock(s, f), At(s, Todo(f))[0], i);
    } else if At(s, Done(f)) != [] {
      NotAtHead(s, Done(f), i);
      FlowIgnores(s, StepMarkSync(s, f), At(s, Done(f))[0], i);
    } else {
      FlowIgnores(s, FlusherStep(s, f, write), -1, i);
    }
  }

  lemma HandIgnores(s: State, f: nat, i: nat)
    requires Inv(s) && Lost(s, i) && f < |s.flushers| && s.flushers[f].pc == FHand && FlusherSafe(s, f)
    ensures Ignores(s, StepHandOff(s, f), i)
  {
    assert InodeOk(s, i) && FlusherOk(s, f);
    FlowIgnores(s, StepHandOff(s, f), s.flushers[f].cur, i);
  }

  lemma LocalIgnores(s: State, f: nat, w: Flusher, inuse: seq<nat>, i: nat)
    requires Lost(s, i) && f < |s.flushers|
    ensures Ignores(s, SetFlusher(s, f, w).(inuse := inuse), i)
  {
    FlowIgnores(s, SetFlusher(s, f, w).(inuse := inuse), -1, i);
  }

  lemma WakeIgnores(s: State, f: nat, i: nat)
    requires Lost(s, i) && f < |s.flushers| && FlusherSafe(s, f)
    requires s.flushers[f].pc == FIdle || s.flushers[f].pc == FWoken || s.flushers[f].pc == FClaim
          || s.flushers[f].pc == FLook || s.flushers[f].pc == FSnapshot || s.flushers[f].pc == FPut
    ensures Ignores(s, FlusherStep(s, f, false), i)
  {
    var w := s.flushers[f];
    match w.pc
    case FIdle => LocalIgnores(s, f, w.(pc := FWoken), s.inuse, i);
    case FWoken => LocalIgnores(s, f, w.(pc := if s.inuse == [] then FIdle else FClaim), s.inuse, i);
    case FClaim => LocalIgnores(s, f, w.(pc := FLook, vol := s.inuse[0]), s.inuse[1..], i);
    case FLook => LocalIgnores(s, f, w.(pc := if |At(s, Dirty(w.vol))| > 1 then FSnapshot else FPut), s.inuse, i);
    case FSnapshot => LocalIgnores(s, f, StepSnapshot(s, f).flushers[f], s.inuse, i);
    case FPut => LocalIgnores(s, f, w.(pc := FIdle), s.inuse + [w.vol], i);
    case _ => assert false;
  }

  /** A flush thread has DIRTY and SYNC inodes in hand only. */
  lemma FlushIgnores(s: State, f: nat, write: bool, i: nat)
    requires Inv(s) && Lost(s, i) && f < |s.flushers| && FlusherGuard(s, f) && FlusherSafe(s, f)
    ensures Ignores(s, FlusherStep(s, f, write), i)
  {
    match s.flushers[f].pc
    case FCollect => GrabIgnores(s, f, i);
    case FTry => TryIgnores(s, f, i);
    case FWrite => OutIgnores(s, f, write, i);
    case FHand => HandIgnores(s, f, i);
    case _ => WakeIgnores(s, f, i);
  }

  /** A step of a sync thread that makes no copy of i and leaves its key and state. */
  lemma SyncedIgnores(s: State, t: State, q: nat, i: nat)
    requires Lost(s, i) && q < |s.syncers| == |t.syncers| && t.syncers == s.syncers[q := t.syncers[q]]
    requires t.writers == s.writers && t.clean == s.clean && !(t.syncers[q].pc == SPush && t.syncers[q].cur == i)
    requires i < |t.inodes| && KeyOf(t.inodes[i]) == KeyOf(s.inodes[i]) && t.inodes[i].state == CLEAN
    ensures Ignores(s, t, i)
  {
  }

  lemma PushCleanIgnores(s: State, q: nat, i: nat)
    requires Lost(s, i) && q < |s.syncers| && s.syncers[q].pc == SPush && SyncerSafe(s, q)
    ensures Ignores(s, StepPushClean(s, q), i)
  {
    var t := StepPushClean(s, q);
    assert s.syncers[q].cur != i;
    forall b | 0 <= b < |t.clean| ensures i !in t.clean[b] { assert i !in s.clean[b]; }
  }

  lemma TakeSyncIgnores(s: State, q: nat, i: nat)
    requires Inv(s) && Lost(s, i) && q < |s.syncers| && s.syncers[q].pc == SLoop && s.syncers[q].n > 0 && SyncerSafe(s, q)
    ensures Ignores(s, StepTakeSync(s, q), i)
  {
    NotAtHead(s, Sync(q), i);
    SyncedIgnores(s, StepTakeSync(s, q), q, i);
  }

  lemma RoundIgnores(s: State, q: nat, w: Syncer, i: nat)
    requires Lost(s, i) && q < |s.syncers| && w.pc != SPush
    ensures Ignores(s, SetSyncer(s, q, w), i)
  {
    SyncedIgnores(s, SetSyncer(s, q, w), q, i);
  }

  lemma CommitIgnores(s: State, q: nat, i: nat)
    requires Lost(s, i) && q < |s.syncers|
    ensures Ignores(s, StepCommit(s, q), i)
  {
    SyncedIgnores(s, StepCommit(s, q), q, i);
  }

  lemma ReleaseIgnores(s: State, q: nat, i: nat)
    requires Lost(s, i) && q < |s.syncers| && s.syncers[q].cur < |s.inodes|
    ensures Ignores(s, StepUnlock(s, q), i)
  {
    SyncedIgnores(s, StepUnlock(s, q), q, i);
  }

  lemma CleanIgnores(s: State, q: nat, i: nat)
    requires Inv(s) && Lost(s, i) && q < |s.syncers| && s.syncers[q].pc == SClean && SyncerSafe(s, q)
    ensures Ignores(s, StepClean(s, q), i)
  {
    assert InodeOk(s, i) && SyncerOk(s, q);
    SyncedIgnores(s, StepClean(s, q), q, i);
  }

  /** A sync thread has SYNC inodes in hand, or the CLEAN one that it has just marked. */
  lemma SyncIgnores(s: State, q: nat, i: nat)
    requires Inv(s) && Lost(s, i) && q < |s.syncers| && SyncerGuard(s, q) && SyncerSafe(s, q)
    ensures Ignores(s, SyncerStep(s, q), i)
  {
    var w := s.syncers[q];
    match w.pc
    case SIdle => RoundIgnores(s, q, w.(pc := SSync, n := |At(s, Sync(q))|), i);
    case SSync => CommitIgnores(s, q, i);
    case SLoop => if w.n > 0 { TakeSyncIgnores(s, q, i); } else { RoundIgnores(s, q, w.(pc := SIdle), i); }
    case SClean => CleanIgnores(s, q, i);
    case SPush => PushCleanIgnores(s, q, i);
    case SUnlock => ReleaseIgnores(s, q, i);
  }

  /** A pass that takes the front off a clean queue and changes at most the inode there. */
  lemma PassIgnores(s: State, t: State, b: nat, i: nat)
    requires Lost(s, i) && b < |s.clean| && s.clean[b] != [] && t.clean == s.clean[b := s.clean[b][1..]]
    requires t.syncers == s.syncers && t.writers == s.writers && i < |t.inodes| && t.inodes[i] == s.inodes[i]
    ensures Ignores(s, t, i)
  {
    forall c | 0 <= c < |t.clean| ensures i !in t.clean[c] { assert i !in s.clean[c]; }
  }

  /** A balloon thread looks at other inodes only. */
  lemma BalloonIgnores(s: State, b: nat, i: nat)
    requires Lost(s, i) && b < |s.clean| && BalloonGuard(s, b) && BalloonSafe(s, b)
    ensures Ignores(s, BalloonStep(s, b), i)
  {
    assert i !in s.clean[b];
    PassIgnores(s, StepSkip(s, b), b, i);
    PassIgnores(s, StepDrop(s, b), b, i);
    PassIgnores(s, StepFree(s, b), b, i);
    BalloonCases(s, b);
  }

  /** Every step but the beginning of a call on its key leaves a lost inode lost. */
  lemma StepIgnores(s: State, a: Action, i: nat)
    requires Inv(s) && Lost(s, i) && Guard(s, a) && !OnKey(a, KeyOf(s.inodes[i]))
    ensures Safe(s, a) && Ignores(s, Do(s, a), i)
  {
    StepKeeps(s, a);
    match a
    case Begin(v, lbn, data) => WriterIgnores(s, StepBegin(s, v, lbn, data), v, i);
    case Write(v) => WriteIgnores(s, v, i);
    case Tear(v, junk) => WriterIgnores(s, Do(s, a), v, i);
    case Flush(f, write) => FlushIgnores(s, f, write, i);
    case DoSync(q) => SyncIgnores(s, q, i);
    case Balloon(b) => BalloonIgnores(s, b, i);
  }

  /** Whatever all threads do, a lost inode stays CLEAN, out of every queue and unfindable, until a call on its key begins. */
  lemma {:induction false} LostStaysLost(s: State, run: seq<Action>, i: nat)
    requires Inv(s) && ValidRun(s, run) && Lost(s, i) && forall a | a in run :: !OnKey(a, KeyOf(s.inodes[i]))
    ensures var t := Exec(s, run);
            i < |t.inodes| && KeyOf(t.inodes[i]) == KeyOf(s.inodes[i]) && t.inodes[i].state == CLEAN && !Findable(t, i)
    decreases |run|
  {
    if run == [] {
      LostIsUnfindable(s, i);
    } else {
      StepKeeps(s, run[0]);
      StepIgnores(s, run[0], i);
      LostStaysLost(Do(s, run[0]), run[1..], i);
    }
  }
}
