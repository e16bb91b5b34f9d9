/**
 isFreeLFQueueEnough is no reservation. With 100 volumes or more, writers that all pass the test can leave one of them in a
 dequeue with no free inode: an odd number of inodes, one of them freed, and an even number taken leave 51 of the 100 free
 ones in one free queue and 49 in the other, and the writers take from both in turn.
 */
module TakeWaits {
  import opened BurstBuffer
  import opened BurstInvariant
  import opened BurstFrames
  import opened BurstRuns
  import opened BurstTheorems
  import opened ThreadBodies
  import opened Sharding
  import opened BadRuns
  import opened FreeReserve

  /** Nobody has written this block number. */
  const LBN := 100

  /** The free count is at the threshold, it is queue 0's turn, and every writer can ask for a new inode. */
  ghost predicate Asks(s: State) {
    && s.freeCount == FREE_MIN_COUNT && s.freeDeq % NUM_FREE == 0
    && (forall v | 0 <= v < |s.writers| :: s.writers[v].pc == WIdle)
    && (forall v: nat :: Key(v, LBN) !in s.nodes)
  }

  lemma FrontIsFree(s1: State, w: Writer, m: Memory, s: State)
    requires Stands(s1, w, m) && Dirtied(m, KEYS) && Inv(s) && Cleaned(s1, s)
    ensures Guard(s, Balloon(0)) && Safe(s, Balloon(0)) && Do(s, Balloon(0)) == StepFree(s, 0)
  {
    StepKeeps(s, Balloon(0));
    assert KeyOf(s.inodes[0]) == Key(0, 0) && s.clean[0][0] == 0;
  }

  lemma FreedCounters(s1: State, w: Writer, m: Memory, s: State)
    requires Stands(s1, w, m) && Dirtied(m, KEYS) && w.pc == WIdle && Cleaned(s1, s)
    ensures var t := StepFree(s, 0);
            && t.freeEnq == 1 && t.freeDeq == KEYS && t.freeCount == FREE_MIN_COUNT && |t.inodes| == INODES
            && t.writers == Solo(w, |m.spare|)
            && forall v: nat :: Key(v, LBN) !in t.nodes
  {
    assert CountersOf(s1) == m.counters;
  }

  /** The spread of the free inodes when one has been freed and twelve taken. */
  lemma Spread(s: State)
    requires ShardOk(s) && s.freeEnq == 1 && s.freeDeq == KEYS && |s.inodes| == INODES
    requires forall v | 0 <= v < |s.writers| :: s.writers[v].pc == WIdle
    ensures |At(s, Free(1))| == 49
  {
    assert Takers(s, 1) == {};
  }

  lemma FreeFirst(s1: State, w: Writer, m: Memory, s: State) returns (t: State)
    requires Stands(s1, w, m) && Dirtied(m, KEYS) && w.pc == WIdle && Inv(s) && Cleaned(s1, s)
    ensures Leads(s, t)
    ensures t.freeEnq == 1 && t.freeDeq == KEYS && |t.inodes| == INODES && |t.writers| == |m.spare| && Asks(t)
  {
    FrontIsFree(s1, w, m, s);
    FreedCounters(s1, w, m, s);
    t := StepFree(s, 0);
    Stay(s);
    Go(s, s, Balloon(0), t);
  }

  /** A run with twelve inodes taken and one freed. */
  lemma OneFreeRun(volumes: nat) returns (s: State)
    requires volumes > 0
    ensures Leads(Opening(volumes), s)
    ensures s.freeEnq == 1 && s.freeDeq == KEYS && |s.inodes| == INODES && |s.writers| == volumes && Asks(s)
  {
    var s0 := Opening(volumes);
    OpeningReachable(volumes);
    ReachableInv(s0);
    var s1, w, m := WriteKeys(volumes);
    var s2 := CleanFirst(s1, w, m);
    LeadsOn(s0, s1, s2);
    LeadsKeeps(s0, s2);
    s := FreeFirst(s1, w, m, s2);
    LeadsOn(s0, s2, s);
  }

  lemma UnevenExists(volumes: nat) returns (s: State)
    requires volumes > 0
    ensures Reachable(s) && |s.writers| == volumes && Asks(s) && |At(s, Free(1))| == 49
  {
    s := OneFreeRun(volumes);
    OpeningReachable(volumes);
    LeadsReachable(Opening(volumes), s);
    ReachableShards(s);
    Spread(s);
  }

  // ------------------------------------------------------------------------------------ all ask at once

  /** The first k writers have passed the test and hold tickets of the free queues, in turn. */
  function Ticketed(s: State, k: nat): State
    requires k <= |s.writers|
  {
    s.(writers := seq(|s.writers|, v requires 0 <= v < |s.writers| =>
                        if v < k then s.writers[v].(pc := WTake, lbn := LBN, data := 0, shard := v % NUM_FREE) else s.writers[v]),
       freeDeq := s.freeDeq + k)
  }

  lemma TestPasses(s: State, k: nat)
    requires Asks(s) && k < |s.writers|
    ensures var t := Ticketed(s, k);
            Guard(t, Begin(k, LBN, 0)) && Do(t, Begin(k, LBN, 0)) == StepBegin(t, k, LBN, 0) && CanAsk(StepBegin(t, k, LBN, 0), k)
  {
  }

  lemma TicketNext(s: State, k: nat)
    requires Asks(s) && k < |s.writers| && CanAsk(StepBegin(Ticketed(s, k), k, LBN, 0), k)
    ensures var t := Asked(StepBegin(Ticketed(s, k), k, LBN, 0), k);
            k < |t.writers| && t.writers[k].pc == WClaim && StepClaim(t, k) == Ticketed(s, k + 1)
  {
    var t := Asked(StepBegin(Ticketed(s, k), k, LBN, 0), k);
    assert StepClaim(t, k).writers == Ticketed(s, k + 1).writers;
  }

  lemma AskNext(s: State, k: nat, t: State, n: State)
    requires Asks(s) && k < |s.writers| && t == Ticketed(s, k) && n == Ticketed(s, k + 1) && Leads(s, t)
    ensures Leads(s, n)
  {
    TestPasses(s, k);
    TicketNext(s, k);
    var t1 := StepBegin(t, k, LBN, 0);
    var t2 := Asked(t1, k);
    Go(s, t, Begin(k, LBN, 0), t1);
    AskRun(t1, k);
    LeadsOn(s, t1, t2);
    Go(s, t2, Write(k), n);
  }

  lemma TicketNone(s: State)
    ensures Ticketed(s, 0) == s
  {
    assert Ticketed(s, 0).writers == s.writers;
  }

  lemma {:induction false} AllAsk(s: State, k: nat, t: State)
    requires Asks(s) && k <= |s.writers| && t == Ticketed(s, k)
    ensures Leads(s, t)
  {
    if k == 0 {
      Stay(s);
      TicketNone(s);
    } else {
      AllAsk(s, k - 1, Ticketed(s, k - 1));
      AskNext(s, k - 1, Ticketed(s, k - 1), t);
    }
  }

  // ------------------------------------------------------------------------------- one queue runs empty

  /** The first m writers with tickets of free queue 1 have taken their inodes from it. */
  ghost predicate Draining(s: State, m: nat) {
    && Reachable(s) && |s.writers| >= 100 && m <= 49 && |At(s, Free(1))| == 49 - m
    && forall v | 2 * m < v < 100 && v % NUM_FREE == 1 :: s.writers[v].pc == WTake && s.writers[v].shard == 1
  }

  lemma DrainOne(s: State, m: nat) returns (t: State)
    requires Draining(s, m) && m < 49
    ensures Draining(t, m + 1) && |t.writers| == |s.writers|
  {
    var v := 2 * m + 1;
    ReachableInv(s);
    StepKeeps(s, Write(v));
    t := StepTake(s, v);
    Stay(s);
    Go(s, s, Write(v), t);
    LeadsReachable(s, t);
  }

  lemma {:induction false} Drain(s: State, m: nat) returns (t: State)
    requires Draining(s, m)
    ensures Draining(t, 49) && |t.writers| == |s.writers|
    decreases 49 - m
  {
    if m == 49 {
      t := s;
    } else {
      t := DrainOne(s, m);
      t := Drain(t, m + 1);
    }
  }

  /** A writer has passed the test, and finds no inode in the free queue that it dequeues from. */
  predicate Waits(s: State, v: nat) {
    v < |s.writers| && s.writers[v].pc == WTake && At(s, Free(s.writers[v].shard)) == []
  }

  lemma WaitsNeeds(s: State, v: nat)
    requires Reachable(s) && Waits(s, v)
    ensures |s.writers| >= 100
  {
    if |s.writers| < 100 { TakeNeverWaits(s, v); }
  }

  /** Whether a writer that has passed the test can have to wait for a free inode is decided by the number of volumes. */
  lemma WaitsIff(volumes: nat)
    ensures (exists s: State, v: nat :: Reachable(s) && |s.writers| == volumes && Waits(s, v)) <==> volumes >= 100
  {
    if volumes >= 100 {
      var s := UnevenExists(volumes);
      var t := Ticketed(s, volumes);
      AllAsk(s, volumes, t);
      LeadsReachable(s, t);
      assert Draining(t, 0);
      t := Drain(t, 0);
      assert Waits(t, 99);
    } else {
      forall s: State, v: nat | Reachable(s) && |s.writers| == volumes ensures !Waits(s, v) {
        if Waits(s, v) { WaitsNeeds(s, v); }
      }
    }
  }
}
