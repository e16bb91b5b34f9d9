/**
 flush_thread_func and its volumes: no volume is ever lost to the flush threads, none waits behind others for ever, and a
 flush thread that gets its turn takes the volume at the front.
 */
module VolumeTokens {
  import opened Queues
  import opened BurstBuffer
  import opened BurstInvariant
  import opened BurstRuns
  import opened FlushCollect
  import opened BurstFlusherSteps
  import opened BurstTheorems
  import opened WriteReturns
  import opened ThreadBodies

  /** Flush thread f has volume v. */
  predicate HeldBy(s: State, v: nat, f: nat) {
    f < |s.flushers| && HasToken(s.flushers[f].pc) && s.flushers[f].vol == v
  }

  predicate Held(s: State, v: nat) {
    exists f: nat | f < |s.flushers| :: HeldBy(s, v, f)
  }

  /** Volume v is in use, or some flush thread has it. */
  predicate Served(s: State, v: nat) { v in s.inuse || Held(s, v) }

  predicate AllServed(s: State) {
    forall v: nat | v < |s.writers| :: Served(s, v)
  }

  /** The volumes in use and those that flush threads have are the same. */
  ghost predicate SameTokens(s: State, t: State) {
    && t.inuse == s.inuse && |t.writers| == |s.writers| && |t.flushers| == |s.flushers|
    && forall v: nat, f: nat :: HeldBy(s, v, f) <==> HeldBy(t, v, f)
  }

  /** The step is not one that concerns flush threads. */
  predicate Unconcerned(s: State, t: State) {
    t.inuse == s.inuse && |t.writers| == |s.writers| && t.flushers == s.flushers
  }

  lemma RoundUnconcerned(s: State, q: nat)
    requires q < |s.syncers| && SyncerSafe(s, q) && (s.syncers[q].pc == SSync || s.syncers[q].pc == SLoop)
    ensures Unconcerned(s, SyncerStep(s, q))
  {
    if s.syncers[q].pc == SSync {
      assert Unconcerned(s, StepCommit(s, q));
    } else if s.syncers[q].n > 0 {
      assert Unconcerned(s, StepTakeSync(s, q));
    }
  }

  lemma CleaningUnconcerned(s: State, q: nat)
    requires q < |s.syncers| && SyncerSafe(s, q) && (s.syncers[q].pc == SClean || s.syncers[q].pc == SUnlock)
    ensures Unconcerned(s, SyncerStep(s, q))
  {
    if s.syncers[q].pc == SClean {
      assert Unconcerned(s, StepClean(s, q));
    } else {
      assert Unconcerned(s, StepUnlock(s, q));
    }
  }

  lemma PushUnconcerned(s: State, q: nat)
    requires q < |s.syncers| && SyncerSafe(s, q) && (s.syncers[q].pc == SPush || s.syncers[q].pc == SIdle)
    ensures Unconcerned(s, SyncerStep(s, q))
  {
    if s.syncers[q].pc == SPush { assert Unconcerned(s, StepPushClean(s, q)); }
  }

  lemma SyncerUnconcerned(s: State, q: nat)
    requires q < |s.syncers| && SyncerSafe(s, q)
    ensures Unconcerned(s, SyncerStep(s, q))
  {
    match s.syncers[q].pc
    case SSync => RoundUnconcerned(s, q);
    case SLoop => RoundUnconcerned(s, q);
    case SClean => CleaningUnconcerned(s, q);
    case SUnlock => CleaningUnconcerned(s, q);
    case _ => PushUnconcerned(s, q);
  }

  lemma FreeUnconcerned(s: State, b: nat)
    requires b < |s.clean| && s.clean[b] != [] && s.clean[b][0] < |s.inodes|
    ensures Unconcerned(s, StepFree(s, b))
  {
  }

  lemma BalloonUnconcerned(s: State, b: nat)
    requires b < |s.clean| && BalloonSafe(s, b)
    ensures Unconcerned(s, BalloonStep(s, b))
  {
    BalloonCases(s, b);
    FreeUnconcerned(s, b);
  }

  /** A flush thread between its test of the in-use queue and its dequeue, or in the middle of a call of nvm_flush. */
  lemma FlusherKeepsVolume(s: State, f: nat, write: bool)
    requires f < |s.flushers| && FlusherSafe(s, f) && s.flushers[f].pc != FClaim && s.flushers[f].pc != FPut
    ensures SameTokens(s, FlusherStep(s, f, write))
  {
    match s.flushers[f].pc
    case FIdle =>
    case FWoken =>
    case FLook =>
    case FSnapshot => assert SameTokens(s, StepSnapshot(s, f));
    case FCollect => CollectKeepsVolume(s, f);
    case FTry => CollectKeepsVolume(s, f);
    case _ => OutKeepsVolume(s, f, write);
  }

  lemma TryKeepsVolume(s: State, f: nat)
    requires f < |s.flushers| && s.flushers[f].pc == FTry && s.flushers[f].cur < |s.inodes|
    ensures SameTokens(s, StepCollect(s, f))
    ensures SameTokens(s, StepReturn(s, f))
  {
  }

  lemma GrabKeepsVolume(s: State, f: nat)
    requires f < |s.flushers| && s.flushers[f].pc == FCollect
    requires var q := At(s, Dirty(s.flushers[f].vol)); q != [] && q[0] < |s.inodes|
    ensures SameTokens(s, StepGrab(s, f))
  {
  }

  lemma CollectKeepsVolume(s: State, f: nat)
    requires f < |s.flushers| && FlusherSafe(s, f) && (s.flushers[f].pc == FCollect || s.flushers[f].pc == FTry)
    ensures SameTokens(s, FlusherStep(s, f, false))
  {
    if s.flushers[f].pc == FTry {
      TryKeepsVolume(s, f);
    } else if s.flushers[f].got < s.flushers[f].ws {
      GrabKeepsVolume(s, f);
    }
  }

  lemma WriteKeepsVolume(s: State, f: nat)
    requires f < |s.flushers| && FlusherSafe(s, f) && s.flushers[f].pc == FWrite && At(s, Todo(f)) != []
    ensures SameTokens(s, StepWriteBlock(s, f))
  {
  }

  lemma MarkKeepsVolume(s: State, f: nat)
    requires f < |s.flushers| && FlusherSafe(s, f) && s.flushers[f].pc == FWrite && At(s, Done(f)) != []
    ensures SameTokens(s, StepMarkSync(s, f))
  {
  }

  lemma HandKeepsVolume(s: State, f: nat)
    requires f < |s.flushers| && FlusherSafe(s, f) && s.flushers[f].pc == FHand
    ensures SameTokens(s, StepHandOff(s, f))
  {
  }

  lemma OutKeepsVolume(s: State, f: nat, write: bool)
    requires f < |s.flushers| && FlusherSafe(s, f) && (s.flushers[f].pc == FWrite || s.flushers[f].pc == FHand)
    ensures SameTokens(s, FlusherStep(s, f, write))
  {
    if s.flushers[f].pc == FHand {
      HandKeepsVolume(s, f);
    } else if write && At(s, Todo(f)) != [] {
      WriteKeepsVolume(s, f);
    } else if At(s, Done(f)) != [] {
      MarkKeepsVolume(s, f);
    }
  }

  /** Any step but a flush thread's taking a volume or putting it back. */
  lemma OtherwiseSame(s: State, a: Action)
    requires Inv(s) && Guard(s, a) && Safe(s, a)
    requires a.Flush? ==> s.flushers[a.f].pc != FClaim && s.flushers[a.f].pc != FPut
    ensures SameTokens(s, Do(s, a))
  {
    match a
    case Begin(v, lbn, data) => assert Unconcerned(s, StepBegin(s, v, lbn, data));
    case Write(v) => WriterGoesOn(s, v);
    case Tear(v, junk) =>
    case Flush(f, write) => FlusherKeepsVolume(s, f, write);
    case DoSync(q) => SyncerUnconcerned(s, q);
    case Balloon(b) => BalloonUnconcerned(s, b);
  }

  /** Taking the volume at the front, and putting a volume back behind all others. */
  lemma TakeServes(s: State, f: nat)
    requires f < |s.flushers| && s.flushers[f].pc == FClaim && s.inuse != [] && AllServed(s)
    ensures AllServed(StepTakeToken(s, f))
  {
    var t := StepTakeToken(s, f);
    forall v: nat | v < |t.writers| ensures Served(t, v) {
      assert Served(s, v);
      if v == s.inuse[0] {
        assert HeldBy(t, v, f);
      } else if v !in s.inuse {
        var g: nat :| g < |s.flushers| && HeldBy(s, v, g);
        assert HeldBy(t, v, g);
      }
    }
  }

  lemma PutServes(s: State, f: nat)
    requires f < |s.flushers| && s.flushers[f].pc == FPut && AllServed(s)
    ensures AllServed(StepPutToken(s, f))
  {
    var t := StepPutToken(s, f);
    forall v: nat | v < |t.writers| ensures Served(t, v) {
      assert Served(s, v);
      if v !in t.inuse {
        var g: nat :| g < |s.flushers| && HeldBy(s, v, g);
        assert HeldBy(t, v, g);
      }
    }
  }

  lemma SameServes(s: State, t: State)
    requires SameTokens(s, t) && AllServed(s)
    ensures AllServed(t)
  {
    forall v: nat | v < |t.writers| ensures Served(t, v) {
      assert Served(s, v);
      if v !in s.inuse {
        var g: nat :| g < |s.flushers| && HeldBy(s, v, g);
        assert HeldBy(t, v, g);
      }
    }
  }

  /** No step of any thread loses a volume. */
  lemma StepServes(s: State, a: Action)
    requires Inv(s) && Guard(s, a) && AllServed(s)
    ensures Safe(s, a) && AllServed(Do(s, a))
  {
    StepKeeps(s, a);
    if a.Flush? && s.flushers[a.f].pc == FClaim {
      TakeServes(s, a.f);
    } else if a.Flush? && s.flushers[a.f].pc == FPut {
      PutServes(s, a.f);
    } else {
      OtherwiseSame(s, a);
      SameServes(s, Do(s, a));
    }
  }

  lemma {:induction false} RunServes(s: State, run: seq<Action>)
    requires Inv(s) && AllServed(s) && ValidRun(s, run)
    ensures Inv(Exec(s, run)) && AllServed(Exec(s, run))
    decreases |run|
  {
    if run != [] {
      StepKeeps(s, run[0]);
      StepServes(s, run[0]);
      RunServes(Do(s, run[0]), run[1..]);
    }
  }

  /** In every reachable state each volume is in use, once, or with exactly one flush thread. */
  lemma EveryVolumeIsServed(s: State, v: nat)
    requires Reachable(s) && v < |s.writers|
    ensures (v in s.inuse && NoDup(s.inuse)) != Held(s, v)
    ensures forall f: nat, g: nat | HeldBy(s, v, f) && HeldBy(s, v, g) :: f == g
  {
    var inodeBlock, volumeBlock, owner, blocks, files, flushers, run :|
      && OwnersAgree(owner, inodeBlock, volumeBlock) && |blocks| == |owner|
      && ValidRun(Boot(inodeBlock, volumeBlock, owner, blocks, files, flushers), run)
      && s == Exec(Boot(inodeBlock, volumeBlock, owner, blocks, files, flushers), run);
    var s0 := Boot(inodeBlock, volumeBlock, owner, blocks, files, flushers);
    BootInv(inodeBlock, volumeBlock, owner, blocks, files, flushers);
    forall u: nat | u < |s0.writers| ensures Served(s0, u) { assert s0.inuse[u] == u; }
    RunServes(s0, run);
    assert Served(s, v) && TokensOk(s);
  }

  // --------------------------------------------------------------------------------- a volume's turn

  /** How many volumes are in front of v. */
  predicate InFront(s: State, v: nat, n: nat) { n < |s.inuse| && s.inuse[n] == v }

  lemma TakeTurn(s: State, f: nat, v: nat, n: nat)
    requires f < |s.flushers| && s.inuse != [] && InFront(s, v, n)
    ensures if n == 0 then HeldBy(StepTakeToken(s, f), v, f) else InFront(StepTakeToken(s, f), v, n - 1)
  {
  }

  lemma PutTurn(s: State, f: nat, v: nat, n: nat)
    requires f < |s.flushers| && InFront(s, v, n)
    ensures InFront(StepPutToken(s, f), v, n)
  {
  }

  /**
   No step puts a volume in front of another one that waits: with n volumes in front of it, after any step it has n or
   n - 1 in front of it, or, at the front, has been taken by the flush thread that took the step.
   */
  lemma TurnComes(s: State, a: Action, v: nat, n: nat)
    requires Inv(s) && Guard(s, a) && InFront(s, v, n)
    ensures Safe(s, a)
    ensures if a.Flush? && s.flushers[a.f].pc == FClaim then
              if n == 0 then HeldBy(Do(s, a), v, a.f) else InFront(Do(s, a), v, n - 1)
            else InFront(Do(s, a), v, n)
  {
    StepKeeps(s, a);
    if a.Flush? && s.flushers[a.f].pc == FClaim {
      TakeTurn(s, a.f, v, n);
    } else if a.Flush? && s.flushers[a.f].pc == FPut {
      PutTurn(s, a.f, v, n);
    } else {
      OtherwiseSame(s, a);
    }
  }

  // ------------------------------------------------------------------------------- a flush thread's turn

  /** A flush thread wakes if and only if inode_dirty_count has come up to a tenth of the inodes. */
  lemma WakesIff(s: State, f: nat, write: bool)
    requires f < |s.flushers| && s.flushers[f].pc == FIdle
    ensures Guard(s, Flush(f, write)) <==> 10 * (s.dirtyCount + 1) > |s.inodes|
  {
  }

  /** The four steps from the test of inode_dirty_count to the test of the volume's dirty queue. */
  function StartRun(f: nat): seq<Action> { [Flush(f, false), Flush(f, false), Flush(f, false), Flush(f, false)] }

  /** Thread f has volume v, and goes to nvm_flush if the dirty queue holds more than one inode. */
  function Started(s: State, f: nat): State
    requires f < |s.flushers| && s.inuse != []
  {
    var v := s.inuse[0];
    s.(inuse := s.inuse[1..],
       flushers := s.flushers[f := s.flushers[f].(vol := v, pc := if |At(s, Dirty(v))| <= 1 then FPut else FSnapshot)])
  }

  lemma FlusherSteps(s: State, run: seq<Action>, t: State, f: nat, u: State)
    requires Executes(s, run, t) && f < |t.flushers| && FlusherGuard(t, f) && FlusherSafe(t, f) && u == FlusherStep(t, f, false)
    ensures Executes(s, run + [Flush(f, false)], u)
  {
    OneMore(s, run, t, Flush(f, false));
  }

  /**
   A flush thread that finds enough dirty inodes and a volume in use takes the one at the front, and goes on to flush it
   if and only if its dirty queue holds more than one inode.
   */
  lemma TurnStarts(s: State, f: nat)
    requires f < |s.flushers| && s.flushers[f].pc == FIdle && 10 * (s.dirtyCount + 1) > |s.inodes| && s.inuse != []
    ensures Executes(s, StartRun(f), Started(s, f))
  {
    var w, v := s.flushers[f], s.inuse[0];
    var s1 := SetFlusher(s, f, w.(pc := FWoken));
    var s2 := SetFlusher(s1, f, w.(pc := FClaim));
    var s3 := StepTakeToken(s2, f);
    assert Executes(s, [], s);
    FlusherSteps(s, [], s, f, s1);
    FlusherSteps(s, [] + [Flush(f, false)], s1, f, s2);
    FlusherSteps(s, [] + [Flush(f, false)] + [Flush(f, false)], s2, f, s3);
    LookStarts(s, s3, f);
    FlusherSteps(s, [] + [Flush(f, false)] + [Flush(f, false)] + [Flush(f, false)], s3, f, Started(s, f));
    assert [] + [Flush(f, false)] + [Flush(f, false)] + [Flush(f, false)] + [Flush(f, false)] == StartRun(f);
  }

  lemma LookStarts(s: State, t: State, f: nat)
    requires f < |s.flushers| && s.inuse != [] && |t.flushers| == |s.flushers|
    requires t == s.(inuse := s.inuse[1..], flushers := t.flushers)
    requires t.flushers == s.flushers[f := s.flushers[f].(pc := FLook, vol := s.inuse[0])]
    ensures FlusherStep(t, f, false) == Started(s, f)
  {
    assert t.flushers[f := Started(s, f).flushers[f]] == Started(s, f).flushers;
  }

  /** A flush thread with a volume always can take its next step, and before it takes a volume waits only for one. */
  lemma HolderNeverWaits(s: State, f: nat, write: bool)
    requires Inv(s) && f < |s.flushers| && (HasToken(s.flushers[f].pc) || s.flushers[f].pc == FWoken)
    ensures Guard(s, Flush(f, write))
  {
    if s.flushers[f].pc == FCollect { CollectNeverWaits(s, f); }
  }

  /** How far a flush thread with a volume has come: the phases of its turn, the last one being 0. */
  function Phase(s: State, f: nat): nat
    requires f < |s.flushers|
  {
    match s.flushers[f].pc
    case FLook => 4
    case FSnapshot => 3
    case FCollect => 2
    case FTry => 2
    case FWrite => 1
    case FHand => 1
    case FPut => 0
    case _ => 5
  }

  /** What is left to do in the phase. */
  function Left(s: State, f: nat): int
    requires f < |s.flushers|
  {
    var w := s.flushers[f];
    match w.pc
    case FCollect => 2 * (w.num - w.got) + 1
    case FTry => 2 * (w.num - w.got)
    case FWrite => 3 * |At(s, Todo(f))| + 2 * |At(s, Done(f))|
    case FHand => 3 * |At(s, Todo(f))| + 2 * |At(s, Done(f))| + 1
    case _ => 0
  }

  predicate Nearer(s: State, t: State, f: nat) {
    && f < |s.flushers| == |t.flushers|
    && (Phase(t, f) < Phase(s, f) || (Phase(t, f) == Phase(s, f) && 0 <= Left(t, f) < Left(s, f)))
  }

  lemma CollectNearer(s: State, f: nat)
    requires f < |s.flushers| && FlusherOk(s, f) && FlusherSafe(s, f) && (s.flushers[f].pc == FCollect || s.flushers[f].pc == FTry)
    ensures Nearer(s, FlusherStep(s, f, true), f)
  {
    if s.flushers[f].pc == FTry {
      assert Nearer(s, StepCollect(s, f), f) && Nearer(s, StepReturn(s, f), f);
    } else if s.flushers[f].got < s.flushers[f].ws {
      assert Nearer(s, StepGrab(s, f), f);
    }
  }

  lemma WriteNearer(s: State, f: nat)
    requires f < |s.flushers| && FlusherSafe(s, f) && s.flushers[f].pc == FWrite && At(s, Todo(f)) != []
    ensures Nearer(s, StepWriteBlock(s, f), f)
  {
  }

  lemma MarkNearer(s: State, f: nat)
    requires f < |s.flushers| && FlusherSafe(s, f) && s.flushers[f].pc == FWrite && At(s, Done(f)) != []
    ensures Nearer(s, StepMarkSync(s, f), f)
  {
  }

  lemma HandNearer(s: State, f: nat)
    requires f < |s.flushers| && FlusherSafe(s, f) && s.flushers[f].pc == FHand
    ensures Nearer(s, StepHandOff(s, f), f)
  {
  }

  lemma OutNearer(s: State, f: nat)
    requires f < |s.flushers| && FlusherSafe(s, f) && (s.flushers[f].pc == FWrite || s.flushers[f].pc == FHand)
    ensures Nearer(s, FlusherStep(s, f, true), f)
  {
    if s.flushers[f].pc == FHand {
      HandNearer(s, f);
    } else if At(s, Todo(f)) != [] {
      WriteNearer(s, f);
    } else if At(s, Done(f)) != [] {
      MarkNearer(s, f);
    }
  }

  lemma StepNearer(s: State, f: nat)
    requires f < |s.flushers| && FlusherOk(s, f) && FlusherSafe(s, f) && HasToken(s.flushers[f].pc) && s.flushers[f].pc != FPut
    ensures Nearer(s, FlusherStep(s, f, true), f)
  {
    match s.flushers[f].pc
    case FLook =>
    case FSnapshot =>
    case FCollect => CollectNearer(s, f);
    case FTry => CollectNearer(s, f);
    case _ => OutNearer(s, f);
  }

  /** Each of its own steps brings it nearer to putting the volume back, which is its last one. */
  lemma HolderAdvances(s: State, f: nat)
    requires Inv(s) && f < |s.flushers| && HasToken(s.flushers[f].pc)
    ensures Guard(s, Flush(f, true)) && Safe(s, Flush(f, true))
    ensures var t := Do(s, Flush(f, true));
            if s.flushers[f].pc == FPut then t.inuse == s.inuse + [s.flushers[f].vol]
            else Nearer(s, t, f) && t.inuse == s.inuse && HeldBy(t, s.flushers[f].vol, f)
  {
    HolderNeverWaits(s, f, true);
    StepKeeps(s, Flush(f, true));
    assert FlusherOk(s, f);
    if s.flushers[f].pc == FPut {
      assert Do(s, Flush(f, true)) == StepPutToken(s, f);
    } else {
      StepNearer(s, f);
      FlusherKeepsVolume(s, f, true);
      assert HeldBy(s, s.flushers[f].vol, f);
    }
  }

  /** Nobody else's steps take it back. */
  lemma OthersDoNotDelay(s: State, a: Action, f: nat)
    requires Inv(s) && Guard(s, a) && f < |s.flushers| && HasToken(s.flushers[f].pc) && !(a.Flush? && a.f == f)
    ensures Safe(s, a) && f < |Do(s, a).flushers|
    ensures Phase(Do(s, a), f) == Phase(s, f) && Left(Do(s, a), f) == Left(s, f)
  {
    StepKeeps(s, a);
    OthersSpare(s, a, f, Log([], [], [], []));
  }
}
