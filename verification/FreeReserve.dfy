/**
 isFreeLFQueueEnough at work: with fewer volumes than its threshold, a writer that has passed the test never waits for a
 free inode, however many others have passed it at the same time.
 */
module FreeReserve {
  import opened BurstBuffer
  import opened BurstInvariant
  import opened BurstFrames
  import opened BurstRuns
  import opened BurstTheorems
  import opened Sharding
  import opened WriteReturns
  import DirtyCount
  import Writers = BurstWriterSteps
  import Flushers = BurstFlusherSteps
  import Syncers = BurstSyncerSteps

  predicate Asking(pc: WriterPc) { pc == WClaim || pc == WTake || pc == WTag || pc == WDec }

  /** The writers that have passed the test and not yet decremented inode_free_count. */
  function InFlight(s: State): set<nat> {
    set v: nat | v < |s.writers| && Asking(s.writers[v].pc)
  }

  /** What is left of the counter when they are through. */
  function Reserve(s: State): int { s.freeCount - |InFlight(s)| }

  predicate ReserveOk(s: State) {
    Reserve(s) >= FREE_MIN_COUNT - |s.writers| || InFlight(s) == {}
  }

  lemma FewInFlight(s: State)
    ensures |InFlight(s)| <= |s.writers|
    ensures forall v: nat | v < |s.writers| && v !in InFlight(s) :: |InFlight(s)| < |s.writers|
  {
    DirtyCount.SubsetSize(|s.writers|, InFlight(s));
    forall v: nat | v < |s.writers| && v !in InFlight(s) ensures |InFlight(s)| < |s.writers| {
      DirtyCount.SubsetSize(|s.writers|, InFlight(s) + {v});
    }
  }

  /** A writer passes the test, and then there were enough; or leaves the number that others can count on as it is. */
  predicate Passes(s: State, t: State, v: nat) {
    && v < |s.writers| == |t.writers| && t.writers == s.writers[v := t.writers[v]]
    && (Asking(t.writers[v].pc) && !Asking(s.writers[v].pc) ==> s.freeCount >= FREE_MIN_COUNT)
    && (Asking(s.writers[v].pc) && !Asking(t.writers[v].pc) <==> s.writers[v].pc == WDec)
    && t.freeCount == s.freeCount - (if s.writers[v].pc == WDec then 1 else 0)
  }

  lemma PassesReserve(s: State, t: State, v: nat)
    requires Passes(s, t, v) && ReserveOk(s)
    ensures ReserveOk(t)
  {
    FewInFlight(s);
    if Asking(t.writers[v].pc) && !Asking(s.writers[v].pc) {
      assert v !in InFlight(s) && InFlight(t) == InFlight(s) + {v};
    } else if s.writers[v].pc == WDec {
      assert v in InFlight(s) && InFlight(t) == InFlight(s) - {v};
    } else {
      assert InFlight(t) == InFlight(s);
    }
  }

  lemma WriterPasses(s: State, v: nat)
    requires Inv(s) && v < |s.writers| && WriterGuard(s, v) && WriterSafe(s, v)
    ensures Passes(s, WriterStep(s, v), v)
  {
    WriterGoesOn(s, v);
    Writers.WriterKeeps(s, v);
  }

  lemma StepReserve(s: State, a: Action)
    requires Inv(s) && Guard(s, a) && ReserveOk(s)
    ensures Safe(s, a) && ReserveOk(Do(s, a))
  {
    StepKeeps(s, a);
    match a
    case Begin(v, lbn, data) => PassesReserve(s, Do(s, a), v);
    case Write(v) => WriterPasses(s, v); PassesReserve(s, Do(s, a), v);
    case Tear(v, junk) => Writers.TearKeeps(s, v, junk);
    case Flush(f, write) => Flushers.FlusherKeeps(s, f, write);
    case DoSync(q) => Syncers.SyncerKeeps(s, q);
    case Balloon(b) => BalloonCases(s, b);
  }

  lemma {:induction false} RunReserve(s: State, run: seq<Action>)
    requires Inv(s) && ReserveOk(s) && ValidRun(s, run)
    ensures ReserveOk(Exec(s, run))
    decreases |run|
  {
    if run != [] {
      StepKeeps(s, run[0]);
      StepReserve(s, run[0]);
      RunReserve(Do(s, run[0]), run[1..]);
    }
  }

  lemma ReachableReserve(s: State)
    requires Reachable(s)
    ensures ReserveOk(s)
  {
    var inodeBlock, volumeBlock, owner, blocks, files, flushers, run :|
      && OwnersAgree(owner, inodeBlock, volumeBlock) && |blocks| == |owner|
      && ValidRun(Boot(inodeBlock, volumeBlock, owner, blocks, files, flushers), run)
      && s == Exec(Boot(inodeBlock, volumeBlock, owner, blocks, files, flushers), run);
    BootInv(inodeBlock, volumeBlock, owner, blocks, files, flushers);
    assert InFlight(Boot(inodeBlock, volumeBlock, owner, blocks, files, flushers)) == {};
    RunReserve(Boot(inodeBlock, volumeBlock, owner, blocks, files, flushers), run);
  }

  /** The queues, less those that wait at them, hold at least the reserve. */
  lemma QueuesHoldReserve(s: State)
    requires Inv(s) && ShardOk(s)
    ensures ClaimedSize(s, 0) + ClaimedSize(s, 1) >= Reserve(s)
  {
    var both := Takers(s, 0) + Takers(s, 1);
    forall v | v in both + Holders(s) ensures v in InFlight(s) {}
    assert Takers(s, 0) !! Takers(s, 1) && both !! Holders(s);
    assert |both + Holders(s)| == |Takers(s, 0)| + |Takers(s, 1)| + |Holders(s)|;
    SubsetIsSmaller(both + Holders(s), InFlight(s));
  }

  lemma SubsetIsSmaller(a: set<nat>, b: set<nat>)
    requires a <= b
    ensures |a| <= |b|
  {
    assert b == a + (b - a);
  }

  lemma TakerFinds(s: State, v: nat, r: nat)
    requires v in Takers(s, r) && r < NUM_FREE && ReserveOk(s) && |s.writers| < 100
    requires ClaimedSize(s, 0) + ClaimedSize(s, 1) >= Reserve(s) && -1 <= ClaimedSize(s, 0) - ClaimedSize(s, 1) <= 2
    ensures At(s, Free(r)) != []
  {
    assert v in InFlight(s);
  }

  /**
   With fewer than 100 volumes, a writer that has found at least 100 free inodes and has its ticket for a free queue finds
   an inode in it at once, whatever all other threads do in between.
   */
  lemma TakeNeverWaits(s: State, v: nat)
    requires Reachable(s) && v < |s.writers| < 100 && s.writers[v].pc == WTake
    ensures Guard(s, Write(v)) && At(s, Free(s.writers[v].shard)) != []
  {
    ReachableShards(s);
    ReachableReserve(s);
    FreeQueuesAreEven(s);
    QueuesHoldReserve(s);
    assert WriterOk(s, v);
    TakerFinds(s, v, s.writers[v].shard);
  }
}
