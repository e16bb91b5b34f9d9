/**
 What one call of nvm_flush is meant to do, apart from how its loops do it: which dirty inodes it takes, where its
 gathered writes put their blocks, and which sync queue gets which inode.
 */
module FlushSpec {
  import opened Queues
  import BurstBuffer

  const FLUSH_BATCH_SIZE := BurstBuffer.FLUSH_BATCH_SIZE
  const LBN_LIMIT := BurstBuffer.LBN_LIMIT
  const NUM_SYNCER := BurstBuffer.NUM_SYNCER

  type Block = BurstBuffer.Block

  /** A file, from block number to contents. */
  type File = map<nat, Block>

  // ------------------------------------------------------------------------------- collect and lock

  /** Of the first n inodes of the queue, the ones whose trylock succeeds; the k-th trylock fails if busy(k). */
  function Taken(queue: seq<nat>, busy: nat -> bool, n: nat): (taken: seq<nat>)
    requires n <= |queue|
    ensures |taken| <= n
  {
    if n == 0 then [] else Taken(queue, busy, n - 1) + (if busy(n - 1) then [] else [queue[n - 1]])
  }

  /** What is enqueued behind the queue meanwhile: what writers add before the k-th trylock, and what is put back. */
  function Behind(queue: seq<nat>, busy: nat -> bool, added: nat -> seq<nat>, n: nat): seq<nat>
    requires n <= |queue|
  {
    if n == 0 then [] else Behind(queue, busy, added, n - 1) + added(n - 1) + (if busy(n - 1) then [queue[n - 1]] else [])
  }

  /** The collection stops after n trylocks: at a full batch, or with the last inode of the queue left. */
  predicate StopsAt(queue: seq<nat>, busy: nat -> bool, n: nat) {
    && n < |queue|
    && (|Taken(queue, busy, n)| == FLUSH_BATCH_SIZE || n == |queue| - 1)
    && |Taken(queue, busy, n)| <= FLUSH_BATCH_SIZE
    && (n > 0 ==> |Taken(queue, busy, n - 1)| < FLUSH_BATCH_SIZE)
  }

  /** One dequeue from what is left of the queue and what is behind it. */
  lemma CollectStep(queue: seq<nat>, busy: nat -> bool, added: nat -> seq<nat>, k: nat)
    requires k < |queue|
    ensures var now := queue[k..] + Behind(queue, busy, added, k) + added(k);
            && now[0] == queue[k]
            && now[1..] + (if busy(k) then [queue[k]] else []) == queue[k + 1..] + Behind(queue, busy, added, k + 1)
  {
  }

  /** What is added behind the queue, all told. */
  function AddedBy(added: nat -> seq<nat>, n: nat): seq<nat> {
    if n == 0 then [] else AddedBy(added, n - 1) + added(n - 1)
  }

  /** How often x occurs. */
  function Times(q: seq<nat>, x: nat): nat {
    if q == [] then 0 else Times(q[..|q| - 1], x) + (if q[|q| - 1] == x then 1 else 0)
  }

  lemma {:induction false} TimesAdd(a: seq<nat>, b: seq<nat>, x: nat)
    ensures Times(a + b, x) == Times(a, x) + Times(b, x)
  {
    if b == [] {
      assert a + b == a;
    } else {
      TimesAdd(a, b[..|b| - 1], x);
      assert (a + b)[..|a + b| - 1] == a + b[..|b| - 1];
    }
  }

  /** Nothing is lost or taken twice: what is taken and what is queued is what was queued and what writers added. */
  lemma {:induction false} CollectConserves(queue: seq<nat>, busy: nat -> bool, added: nat -> seq<nat>, n: nat, x: nat)
    requires n <= |queue|
    ensures Times(Taken(queue, busy, n), x) + Times(queue[n..], x) + Times(Behind(queue, busy, added, n), x)
         == Times(queue, x) + Times(AddedBy(added, n), x)
  {
    if n == 0 {
      assert queue[0..] == queue;
    } else {
      var m := n - 1;
      CollectConserves(queue, busy, added, m, x);
      assert queue[m..] == [queue[m]] + queue[n..];
      TimesAdd([queue[m]], queue[n..], x);
      TimesAdd(AddedBy(added, m), added(m), x);
      TimesAdd(Behind(queue, busy, added, m), added(m), x);
      TimesAdd(Behind(queue, busy, added, m) + added(m), if busy(m) then [queue[m]] else [], x);
      TimesAdd(Taken(queue, busy, m), if busy(m) then [] else [queue[m]], x);
    }
  }

  /** The inodes taken stand in the queue in the same order, among its first n. */
  lemma {:induction false} TakenInOrder(queue: seq<nat>, busy: nat -> bool, n: nat)
    requires n <= |queue| && NoDup(queue)
    ensures NoDup(Taken(queue, busy, n))
    ensures forall x :: x in Taken(queue, busy, n) <==> exists k: nat :: k < n && !busy(k) && queue[k] == x
  {
    if n > 0 {
      TakenInOrder(queue, busy, n - 1);
      var rest, x := Taken(queue, busy, n - 1), queue[n - 1];
      assert x !in rest;
      PushFacts(rest, x);
    }
  }

  /** Whatever comes later, the inodes taken so far stay in front, and each one taken goes behind them. */
  lemma {:induction false} TakenGrows(queue: seq<nat>, busy: nat -> bool, m: nat, n: nat)
    requires m < n <= |queue|
    ensures Taken(queue, busy, m) + (if busy(m) then [] else [queue[m]]) <= Taken(queue, busy, n)
  {
    if m < n - 1 { TakenGrows(queue, busy, m, n - 1); }
  }

  // --------------------------------------------------------------------------------------- coalesce

  /** uint32_t: the number after the last one is 0. */
  function NextLbn(lbn: nat): nat { (lbn + 1) % LBN_LIMIT }

  /** How many inodes from position p on have consecutive block numbers, each compared with the one before it. */
  function RunLength(lbns: seq<nat>, p: nat): (n: nat)
    requires p < |lbns|
    ensures 1 <= n <= |lbns| - p
    decreases |lbns| - p
  {
    if p + 1 < |lbns| && lbns[p + 1] == NextLbn(lbns[p]) then 1 + RunLength(lbns, p + 1) else 1
  }

  /** The sizes of the batches from position p on. */
  function Batches(lbns: seq<nat>, p: nat): seq<nat>
    requires p <= |lbns|
    decreases |lbns| - p
  {
    if p == |lbns| then [] else [RunLength(lbns, p)] + Batches(lbns, p + RunLength(lbns, p))
  }

  /** A run is consecutive and cannot be made longer. */
  lemma {:induction false} RunIsMaximal(lbns: seq<nat>, p: nat)
    requires p < |lbns|
    ensures var n := RunLength(lbns, p);
            && (forall k | p < k < p + n :: lbns[k] == NextLbn(lbns[k - 1]))
            && (p + n < |lbns| ==> lbns[p + n] != NextLbn(lbns[p + n - 1]))
    decreases |lbns| - p
  {
    if p + 1 < |lbns| && lbns[p + 1] == NextLbn(lbns[p]) { RunIsMaximal(lbns, p + 1); }
  }

  /** The only maximal run from p is the one of that length. */
  lemma {:induction false} MaximalIsRun(lbns: seq<nat>, p: nat, n: nat)
    requires 1 <= n <= |lbns| - p && forall k | p < k < p + n :: lbns[k] == NextLbn(lbns[k - 1])
    requires p + n < |lbns| ==> lbns[p + n] != NextLbn(lbns[p + n - 1])
    ensures n == RunLength(lbns, p)
    decreases n
  {
    if n > 1 {
      assert lbns[p + 1] == NextLbn(lbns[p]);
      MaximalIsRun(lbns, p + 1, n - 1);
    }
  }

  function Sum(q: seq<nat>): nat { if q == [] then 0 else q[0] + Sum(q[1..]) }

  lemma SumStep(n: nat, rest: seq<nat>, b: nat)
    requires 0 < b <= |rest| + 1
    ensures Sum(([n] + rest)[..b]) == n + Sum(rest[..b - 1])
  {
    assert ([n] + rest)[..b][1..] == rest[..b - 1];
  }

  /** The batches are all the inodes, in order. */
  lemma {:induction false} BatchesCover(lbns: seq<nat>, p: nat)
    requires p <= |lbns|
    ensures Sum(Batches(lbns, p)) == |lbns| - p
    decreases |lbns| - p
  {
    if p < |lbns| {
      var n := RunLength(lbns, p);
      BatchesCover(lbns, p + n);
      assert Batches(lbns, p)[1..] == Batches(lbns, p + n);
    }
  }

  /** Batch b starts where the ones before it end, and is the whole run from there. */
  lemma {:induction false} BatchIsRun(lbns: seq<nat>, p: nat, b: nat)
    requires p <= |lbns| && b < |Batches(lbns, p)|
    ensures var at := p + Sum(Batches(lbns, p)[..b]); at < |lbns| && Batches(lbns, p)[b] == RunLength(lbns, at)
    decreases b
  {
    if b > 0 {
      var n := RunLength(lbns, p);
      BatchIsRun(lbns, p + n, b - 1);
      SumStep(n, Batches(lbns, p + n), b);
    }
  }

  // ---------------------------------------------------------------------------------------- write

  /** pwritev: the blocks side by side, from block `at` on. */
  function WriteRun(file: File, at: nat, blocks: seq<Block>): File {
    if blocks == [] then file else WriteRun(file, at, blocks[..|blocks| - 1])[at + |blocks| - 1 := blocks[|blocks| - 1]]
  }

  /** Each block by itself, at its own number, in order. */
  function WriteEach(file: File, lbns: seq<nat>, blocks: seq<Block>): File
    requires |lbns| == |blocks|
  {
    if lbns == [] then file
    else WriteEach(file, lbns[..|lbns| - 1], blocks[..|lbns| - 1])[lbns[|lbns| - 1] := blocks[|lbns| - 1]]
  }

  /** One pwritev per batch, at the number of its first block. */
  function WriteBatches(file: File, lbns: seq<nat>, blocks: seq<Block>, p: nat): File
    requires |lbns| == |blocks| && p <= |lbns|
    decreases |lbns| - p
  {
    if p == |lbns| then file
    else
      var n := RunLength(lbns, p);
      WriteBatches(WriteRun(file, lbns[p], blocks[p..p + n]), lbns, blocks, p + n)
  }

  /** A block number written once holds its block afterwards, and one not written holds what it held. */
  lemma {:induction false} EachHolds(file: File, lbns: seq<nat>, blocks: seq<Block>, lbn: nat)
    requires |lbns| == |blocks|
    ensures lbn !in lbns ==> (lbn in WriteEach(file, lbns, blocks) <==> lbn in file)
    ensures lbn !in lbns && lbn in file ==> WriteEach(file, lbns, blocks)[lbn] == file[lbn]
    ensures forall k | 0 <= k < |lbns| && lbns[k] == lbn && lbn !in lbns[k + 1..] ::
              lbn in WriteEach(file, lbns, blocks) && WriteEach(file, lbns, blocks)[lbn] == blocks[k]
  {
    if lbns != [] {
      var n := |lbns| - 1;
      EachHolds(file, lbns[..n], blocks[..n], lbn);
      assert lbns == lbns[..n] + [lbns[n]];
      forall k | 0 <= k < |lbns| && lbns[k] == lbn && lbn !in lbns[k + 1..]
        ensures lbn in WriteEach(file, lbns, blocks) && WriteEach(file, lbns, blocks)[lbn] == blocks[k]
      {
        if k < n {
          assert lbns[k + 1..][n - k - 1] == lbns[n];
          assert lbns[..n][k + 1..] + [lbns[n]] == lbns[k + 1..];
        }
      }
    }
  }

  /** The last block number of all is followed by number 0: the gathered write goes on past the end instead. */
  predicate WrapsAt(lbns: seq<nat>, k: int) {
    0 <= k && k + 1 < |lbns| && lbns[k] == LBN_LIMIT - 1 && lbns[k + 1] == 0
  }

  lemma {:induction false} WriteEachSplit(file: File, lbns: seq<nat>, blocks: seq<Block>, m: nat)
    requires m <= |lbns| == |blocks|
    ensures WriteEach(file, lbns, blocks) == WriteEach(WriteEach(file, lbns[..m], blocks[..m]), lbns[m..], blocks[m..])
  {
    if m < |lbns| {
      var n := |lbns| - 1;
      WriteEachSplit(file, lbns[..n], blocks[..n], m);
      assert lbns[..n][..m] == lbns[..m] && blocks[..n][..m] == blocks[..m];
      assert lbns[m..][..n - m] == lbns[..n][m..] && blocks[m..][..n - m] == blocks[..n][m..];
    } else {
      assert lbns[..m] == lbns && blocks[..m] == blocks;
    }
  }

  /** A run without a wrap puts every block at its own number. */
  lemma {:induction false} RunIsEach(file: File, lbns: seq<nat>, blocks: seq<Block>)
    requires 0 < |lbns| == |blocks| && forall k | 0 < k < |lbns| :: lbns[k] == lbns[0] + k
    ensures WriteRun(file, lbns[0], blocks) == WriteEach(file, lbns, blocks)
  {
    var n := |lbns| - 1;
    if n == 0 {
      assert blocks[..0] == [] && lbns[..0] == [];
    } else {
      RunIsEach(file, lbns[..n], blocks[..n]);
      assert lbns[n] == lbns[0] + n;
    }
  }

  lemma {:induction false} RunCounts(lbns: seq<nat>, p: nat, k: nat)
    requires p <= k < |lbns| && k < p + RunLength(lbns, p) && (forall x | x in lbns :: x < LBN_LIMIT)
    requires forall j | p <= j < k :: !WrapsAt(lbns, j)
    ensures lbns[k] == lbns[p] + (k - p)
  {
    if p < k {
      RunCounts(lbns, p, k - 1);
      RunIsMaximal(lbns, p);
      assert lbns[k - 1] in lbns && !WrapsAt(lbns, k - 1);
    }
  }

  lemma Cut<T>(q: seq<T>, p: nat, n: nat)
    requires p + n <= |q|
    ensures q[p..][..n] == q[p..p + n] && q[p..][n..] == q[p + n..]
  {
  }

  lemma OneRunIsEach(file: File, lbns: seq<nat>, blocks: seq<Block>, p: nat)
    requires p < |lbns| == |blocks| && (forall x | x in lbns :: x < LBN_LIMIT) && forall k :: !WrapsAt(lbns, k)
    ensures var n := RunLength(lbns, p);
            WriteRun(file, lbns[p], blocks[p..p + n]) == WriteEach(file, lbns[p..p + n], blocks[p..p + n])
  {
    var n := RunLength(lbns, p);
    var run := lbns[p..p + n];
    forall k | 0 < k < n ensures run[k] == run[0] + k { RunCounts(lbns, p, p + k); }
    RunIsEach(file, run, blocks[p..p + n]);
  }

  lemma {:induction false} BatchesAreEach(file: File, lbns: seq<nat>, blocks: seq<Block>, p: nat)
    requires p <= |lbns| == |blocks| && (forall x | x in lbns :: x < LBN_LIMIT) && forall k :: !WrapsAt(lbns, k)
    ensures WriteBatches(file, lbns, blocks, p) == WriteEach(file, lbns[p..], blocks[p..])
    decreases |lbns| - p
  {
    if p < |lbns| {
      var n := RunLength(lbns, p);
      OneRunIsEach(file, lbns, blocks, p);
      BatchesAreEach(WriteRun(file, lbns[p], blocks[p..p + n]), lbns, blocks, p + n);
      WriteEachSplit(file, lbns[p..], blocks[p..], n);
      Cut(lbns, p, n);
      Cut(blocks, p, n);
    }
  }

  lemma {:induction false} RunKeys(file: File, at: nat, blocks: seq<Block>)
    ensures forall k :: k in WriteRun(file, at, blocks) <==> k in file || at <= k < at + |blocks|
  {
    if blocks != [] { RunKeys(file, at, blocks[..|blocks| - 1]); }
  }

  lemma {:induction false} EachKeys(file: File, lbns: seq<nat>, blocks: seq<Block>)
    requires |lbns| == |blocks|
    ensures forall k :: k in WriteEach(file, lbns, blocks) <==> k in file || k in lbns
  {
    if lbns != [] {
      var n := |lbns| - 1;
      EachKeys(file, lbns[..n], blocks[..n]);
      assert lbns == lbns[..n] + [lbns[n]];
    }
  }

  lemma {:induction false} BatchesKeepKeys(file: File, lbns: seq<nat>, blocks: seq<Block>, p: nat, k: nat)
    requires p <= |lbns| == |blocks| && k in file
    ensures k in WriteBatches(file, lbns, blocks, p)
    decreases |lbns| - p
  {
    if p < |lbns| {
      var n := RunLength(lbns, p);
      RunKeys(file, lbns[p], blocks[p..p + n]);
      BatchesKeepKeys(WriteRun(file, lbns[p], blocks[p..p + n]), lbns, blocks, p + n, k);
    }
  }

  /** A wrap at k, the first one from p on, makes the batches write block number 2^32. */
  lemma {:induction false} WrapOverruns(file: File, lbns: seq<nat>, blocks: seq<Block>, p: nat, k: nat)
    requires p <= k < |lbns| == |blocks| && (forall x | x in lbns :: x < LBN_LIMIT)
    requires WrapsAt(lbns, k) && forall j | p <= j < k :: !WrapsAt(lbns, j)
    ensures LBN_LIMIT in WriteBatches(file, lbns, blocks, p)
    decreases |lbns| - p
  {
    var n := RunLength(lbns, p);
    var written := WriteRun(file, lbns[p], blocks[p..p + n]);
    if k < p + n {
      RunCounts(lbns, p, k);
      RunIsMaximal(lbns, p);
      assert k + 1 < p + n;
      RunKeys(file, lbns[p], blocks[p..p + n]);
      BatchesKeepKeys(written, lbns, blocks, p + n, LBN_LIMIT);
    } else {
      WrapOverruns(written, lbns, blocks, p + n, k);
    }
  }

  /**
   On a file with valid block numbers only, the gathered writes leave what writing each block separately leaves if and
   only if no inode of the last block number is directly followed by one of block number 0.
   */
  lemma GatheredIffNoWrap(file: File, lbns: seq<nat>, blocks: seq<Block>)
    requires |lbns| == |blocks| && (forall x | x in lbns :: x < LBN_LIMIT) && forall k | k in file :: k < LBN_LIMIT
    ensures WriteBatches(file, lbns, blocks, 0) == WriteEach(file, lbns, blocks) <==> forall k :: !WrapsAt(lbns, k)
  {
    assert lbns[0..] == lbns && blocks[0..] == blocks;
    if k :| WrapsAt(lbns, k) {
      var first := FirstWrap(lbns, k);
      WrapOverruns(file, lbns, blocks, 0, first);
      EachKeys(file, lbns, blocks);
    } else {
      BatchesAreEach(file, lbns, blocks, 0);
    }
  }

  lemma {:induction false} FirstWrap(lbns: seq<nat>, k: nat) returns (first: nat)
    requires WrapsAt(lbns, k)
    ensures WrapsAt(lbns, first) && forall j | 0 <= j < first :: !WrapsAt(lbns, j)
    decreases k
  {
    first := k;
    if j :| 0 <= j < k && WrapsAt(lbns, j) { first := FirstWrap(lbns, j); }
  }

  // --------------------------------------------------------------------------------------- hand off

  /** What queue r gets when the inodes are dealt round robin, the first one to queue start % NUM_SYNCER. */
  function Dealt(idxs: seq<nat>, start: nat, r: nat): seq<nat> {
    if idxs == [] then []
    else
      var n := |idxs| - 1;
      Dealt(idxs[..n], start, r) + (if (start + n) % NUM_SYNCER == r then [idxs[n]] else [])
  }

  /** Dealing loses nothing and repeats nothing. */
  lemma {:induction false} DealtConserves(idxs: seq<nat>, start: nat, x: nat)
    ensures Times(Dealt(idxs, start, 0), x) + Times(Dealt(idxs, start, 1), x) == Times(idxs, x)
  {
    if idxs != [] {
      var n := |idxs| - 1;
      DealtConserves(idxs[..n], start, x);
      var to0, to1, last := Dealt(idxs[..n], start, 0), Dealt(idxs[..n], start, 1), [idxs[n]];
      if (start + n) % NUM_SYNCER == 0 {
        assert Dealt(idxs, start, 0) == to0 + last && Dealt(idxs, start, 1) == to1;
        TimesAdd(to0, last, x);
      } else {
        assert Dealt(idxs, start, 0) == to0 && Dealt(idxs, start, 1) == to1 + last;
        TimesAdd(to1, last, x);
      }
    }
  }

  /** Each inode goes to the queue in turn, behind those dealt before it, and to no other. */
  lemma {:induction false} DealtInTurn(idxs: seq<nat>, start: nat, k: nat)
    requires k < |idxs|
    ensures var r := (start + k) % NUM_SYNCER;
            && Dealt(idxs[..k], start, r) + [idxs[k]] <= Dealt(idxs, start, r)
            && Dealt(idxs[..k], start, 1 - r) <= Dealt(idxs, start, 1 - r)
  {
    var n := |idxs| - 1;
    if k < n {
      DealtInTurn(idxs[..n], start, k);
      assert idxs[..n][..k] == idxs[..k];
    }
  }

  /** The two queues get half of the inodes each, up to one. */
  lemma {:induction false} DealtEvenly(idxs: seq<nat>, start: nat, r: nat)
    requires r < NUM_SYNCER
    ensures |Dealt(idxs, start, r)| == (|idxs| + 1 - (start + r) % NUM_SYNCER) / NUM_SYNCER
  {
    if idxs != [] { DealtEvenly(idxs[..|idxs| - 1], start, r); }
  }
}
