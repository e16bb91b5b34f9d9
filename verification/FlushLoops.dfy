/**
 nvm_flush on the tables and queues it works on in place: dequeue and lock, look ahead, gather, write, hand off.

 Other threads show up as `busy`, the outcome of each trylock, and `added`, what writers enqueue before each dequeue.
 What a flush thread has locked nobody else changes.
 */
module FlushLoops {
  import opened Queues
  import opened FlushSpec
  import BurstBuffer

  type InodeState = BurstBuffer.InodeState

  /** Indices into a table of that size. */
  predicate IsList(idxs: seq<nat>, size: nat) {
    forall k | 0 <= k < |idxs| :: idxs[k] < size
  }

  function Select<T>(table: seq<T>, idxs: seq<nat>): seq<T>
    requires IsList(idxs, |table|)
  {
    seq(|idxs|, k requires 0 <= k < |idxs| => table[idxs[k]])
  }

  lemma SelectSlice<T>(table: seq<T>, idxs: seq<nat>, at: nat, n: nat)
    requires IsList(idxs, |table|) && at + n <= |idxs|
    ensures Select(table, idxs[at..at + n]) == Select(table, idxs)[at..at + n]
  {
  }

  lemma Slice(a: array<nat>, at: nat, n: nat, m: nat)
    requires at + n <= m <= a.Length
    ensures a[at..at + n] == a[..m][at..at + n]
  {
  }

  /** The table with the entries of some inodes set. */
  function SetAll<T>(table: seq<T>, idxs: seq<nat>, value: T): (r: seq<T>)
    requires IsList(idxs, |table|)
    ensures |r| == |table|
  {
    if idxs == [] then table else SetAll(table, idxs[..|idxs| - 1], value)[idxs[|idxs| - 1] := value]
  }

  lemma {:induction false} SetAllIs<T>(table: seq<T>, idxs: seq<nat>, value: T, x: nat)
    requires IsList(idxs, |table|) && x < |table|
    ensures SetAll(table, idxs, value)[x] == if x in idxs then value else table[x]
  {
    if idxs != [] {
      var n := |idxs| - 1;
      SetAllIs(table, idxs[..n], value, x);
      assert idxs == idxs[..n] + [idxs[n]];
    }
  }

  lemma {:induction false} SetAllMore<T>(table: seq<T>, first: seq<nat>, more: seq<nat>, value: T)
    requires IsList(first, |table|) && IsList(more, |table|)
    ensures SetAll(SetAll(table, first, value), more, value) == SetAll(table, first + more, value)
  {
    if more == [] {
      assert first + more == first;
    } else {
      var n := |more| - 1;
      SetAllMore(table, first, more[..n], value);
      assert (first + more)[..|first| + n] == first + more[..n];
    }
  }

  lemma {:induction false} DealtMore(first: seq<nat>, more: seq<nat>, start: nat, r: nat)
    ensures Dealt(first, start, r) + Dealt(more, start + |first|, r) == Dealt(first + more, start, r)
  {
    if more == [] {
      assert first + more == first;
    } else {
      var n := |more| - 1;
      DealtMore(first, more[..n], start, r);
      assert (first + more)[..|first| + n] == first + more[..n];
    }
  }

  /** Where the collection stands after k trylocks. */
  ghost predicate Collecting(
    queue: seq<nat>, busy: nat -> bool, added: nat -> seq<nat>, locks: seq<bool>,
    k: nat, got: seq<nat>, dirty: seq<nat>, locked: seq<bool>)
  {
    && k < |queue| && got == Taken(queue, busy, k) && IsList(got, |locks|)
    && (k > 0 ==> |Taken(queue, busy, k - 1)| < FLUSH_BATCH_SIZE)
    && dirty == queue[k..] + Behind(queue, busy, added, k) && IsList(dirty, |locks|)
    && locked == SetAll(locks, got, true)
  }

  lemma CollectOne(
    queue: seq<nat>, busy: nat -> bool, added: nat -> seq<nat>, locks: seq<bool>,
    k: nat, got: seq<nat>, dirty: seq<nat>, locked: seq<bool>)
    requires Collecting(queue, busy, added, locks, k, got, dirty, locked)
    requires k + 1 < |queue| && |got| < FLUSH_BATCH_SIZE && IsList(added(k), |locks|) && queue[k] < |locks|
    ensures var x := queue[k];
            var dirty' := (dirty + added(k))[1..] + if busy(k) then [x] else [];
            if busy(k) then Collecting(queue, busy, added, locks, k + 1, got, dirty', locked)
            else Collecting(queue, busy, added, locks, k + 1, got + [x], dirty', locked[x := true])
  {
    CollectStep(queue, busy, added, k);
    var x := queue[k];
    var dirty' := (dirty + added(k))[1..] + if busy(k) then [x] else [];
    assert dirty' == queue[k + 1..] + Behind(queue, busy, added, k + 1);
    assert IsList(dirty', |locks|);
    if !busy(k) {
      assert (got + [x])[..|got|] == got;
      assert Taken(queue, busy, k + 1) == got + [x] && IsList(got + [x], |locks|);
      assert SetAll(locks, got + [x], true) == locked[x := true];
    }
  }

  /** The sync queues after the inodes are dealt to them. */
  predicate DealtTo(was: seq<seq<nat>>, now: seq<seq<nat>>, idxs: seq<nat>, start: nat) {
    && |was| == |now| == NUM_SYNCER
    && now[0] == was[0] + Dealt(idxs, start, 0) && now[1] == was[1] + Dealt(idxs, start, 1)
  }

  /** What writing out a batch changes. */
  datatype Outcome = Outcome(file: File, states: seq<InodeState>, syncs: seq<seq<nat>>, syncIdx: nat)

  /** Where the writing stands once the batches before position `at` are out. */
  ghost predicate Writing(
    idxs: seq<nat>, lbns: seq<nat>, data: seq<Block>, before: Outcome, at: nat, batches: seq<nat>, now: Outcome)
  {
    && |lbns| == |data| == |idxs| && at <= |idxs|
    && IsList(idxs[..at], |before.states|) && now.states == SetAll(before.states, idxs[..at], BurstBuffer.SYNC)
    && batches + Batches(lbns, at) == Batches(lbns, 0)
    && WriteBatches(now.file, lbns, data, at) == WriteBatches(before.file, lbns, data, 0)
    && now.syncIdx == before.syncIdx + at
    && DealtTo(before.syncs, now.syncs, idxs[..at], before.syncIdx)
  }

  lemma Join(idxs: seq<nat>, at: nat, n: nat)
    requires at + n <= |idxs|
    ensures idxs[..at] + idxs[at..at + n] == idxs[..at + n]
  {
  }

  lemma DealtOne(
    idxs: seq<nat>, at: nat, n: nat, start: nat, next: nat, was: seq<seq<nat>>, now: seq<seq<nat>>, then': seq<seq<nat>>)
    requires at + n <= |idxs| && next == start + at
    requires DealtTo(was, now, idxs[..at], start) && DealtTo(now, then', idxs[at..at + n], next)
    ensures DealtTo(was, then', idxs[..at + n], start)
  {
    Join(idxs, at, n);
    DealtMore(idxs[..at], idxs[at..at + n], start, 0);
    DealtMore(idxs[..at], idxs[at..at + n], start, 1);
  }

  lemma SetOne(table: seq<InodeState>, idxs: seq<nat>, at: nat, n: nat)
    requires at + n <= |idxs| && IsList(idxs, |table|)
    ensures SetAll(SetAll(table, idxs[..at], BurstBuffer.SYNC), idxs[at..at + n], BurstBuffer.SYNC)
         == SetAll(table, idxs[..at + n], BurstBuffer.SYNC)
  {
    Join(idxs, at, n);
    SetAllMore(table, idxs[..at], idxs[at..at + n], BurstBuffer.SYNC);
  }

  lemma BatchesOne(lbns: seq<nat>, at: nat, n: nat, batches: seq<nat>)
    requires at < |lbns| && n == RunLength(lbns, at) && at + n <= |lbns|
    ensures (batches + [n]) + Batches(lbns, at + n) == batches + Batches(lbns, at)
  {
    var rest := Batches(lbns, at + n);
    assert Batches(lbns, at) == [n] + rest;
    assert (batches + [n]) + rest == batches + ([n] + rest);
  }

  lemma FileOne(file: File, lbns: seq<nat>, data: seq<Block>, at: nat, n: nat, then': File)
    requires at < |lbns| == |data| && n == RunLength(lbns, at) && at + n <= |lbns|
    requires then' == WriteRun(file, lbns[at], data[at..at + n])
    ensures WriteBatches(then', lbns, data, at + n) == WriteBatches(file, lbns, data, at)
  {
  }

  lemma WritingOne(
    idxs: seq<nat>, lbns: seq<nat>, data: seq<Block>, before: Outcome, at: nat, batches: seq<nat>, now: Outcome, then': Outcome, n: nat)
    requires Writing(idxs, lbns, data, before, at, batches, now) && at < |idxs| && IsList(idxs, |before.states|)
    requires n == RunLength(lbns, at) && at + n <= |idxs|
    requires then'.file == WriteRun(now.file, lbns[at], data[at..at + n])
    requires then'.states == SetAll(now.states, idxs[at..at + n], BurstBuffer.SYNC) && then'.syncIdx == now.syncIdx + n
    requires DealtTo(now.syncs, then'.syncs, idxs[at..at + n], now.syncIdx)
    ensures Writing(idxs, lbns, data, before, at + n, batches + [n], then')
  {
    SetOne(before.states, idxs, at, n);
    DealtOne(idxs, at, n, before.syncIdx, now.syncIdx, before.syncs, now.syncs, then'.syncs);
    BatchesOne(lbns, at, n, batches);
    FileOne(now.file, lbns, data, at, n, then'.file);
  }

  lemma WritingDone(idxs: seq<nat>, lbns: seq<nat>, data: seq<Block>, before: Outcome, batches: seq<nat>, now: Outcome)
    requires Writing(idxs, lbns, data, before, |idxs|, batches, now)
    ensures IsList(idxs, |before.states|) && now.states == SetAll(before.states, idxs, BurstBuffer.SYNC)
    ensures batches == Batches(lbns, 0) && now.file == WriteBatches(before.file, lbns, data, 0)
    ensures DealtTo(before.syncs, now.syncs, idxs, before.syncIdx) && now.syncIdx == before.syncIdx + |idxs|
  {
    assert idxs[..|idxs|] == idxs && batches + [] == batches;
  }

  class FlushThread {
    // inode table and block table
    const lbn: array<nat>
    const block: array<nat>
    const state: array<InodeState>
    const locked: array<bool>
    const blocks: array<Block>
    // the volume's dirty queue and file, and the sync queues
    var dirty: seq<nat>
    var file: File
    const sync: array<seq<nat>>
    var syncIdx: nat
    var dirtyCount: int
    // the thread's own buffers
    const iIdxs: array<nat>
    const iov: array<nat>

    predicate Shape() {
      && lbn.Length == block.Length == state.Length == locked.Length
      && iIdxs.Length == iov.Length == FLUSH_BATCH_SIZE && sync.Length == NUM_SYNCER
      && lbn != block && lbn != iIdxs && lbn != iov && block != iIdxs && block != iov && iIdxs != iov
    }

    predicate Valid()
      reads lbn, block
    {
      Shape() && forall x | 0 <= x < lbn.Length :: lbn[x] < LBN_LIMIT && block[x] < blocks.Length
    }

    predicate AreInodes(idxs: seq<nat>) {
      IsList(idxs, lbn.Length)
    }

    /** The block numbers and the contents of some inodes. */
    ghost function Lbns(idxs: seq<nat>): seq<nat>
      reads lbn
      requires AreInodes(idxs)
    {
      Select(lbn[..], idxs)
    }

    ghost function Contents(idxs: seq<nat>): seq<Block>
      reads lbn, block, blocks
      requires Valid() && AreInodes(idxs)
    {
      Select(blocks[..], Select(block[..], idxs))
    }

    /** Dequeues an inode to iIdxs[i] and tries its lock, for the k-th time; if it is busy, puts it back. */
    method TakeOne(i: nat, k: nat, busy: nat -> bool, added: nat -> seq<nat>, ghost queue: seq<nat>, ghost locks: seq<bool>)
      requires Shape() && i < FLUSH_BATCH_SIZE && k + 1 < |queue| && AreInodes(added(k))
      requires queue[k] < lbn.Length == |locks|
      requires Collecting(queue, busy, added, locks, k, iIdxs[..i], dirty, locked[..])
      modifies this`dirty, iIdxs, locked
      ensures Collecting(queue, busy, added, locks, k + 1, iIdxs[..if busy(k) then i else i + 1], dirty, locked[..])
    {
      ghost var got, held := iIdxs[..i], locked[..];
      CollectOne(queue, busy, added, locks, k, got, dirty, held);
      dirty := dirty + added(k);
      assert dirty[0] == queue[k];
      iIdxs[i] := dirty[0];
      dirty := dirty[1..];
      if busy(k) {
        dirty := dirty + [iIdxs[i]];
        assert iIdxs[..i] == got;
      } else {
        locked[iIdxs[i]] := true;
        assert iIdxs[..i + 1] == got + [queue[k]] && locked[..] == held[queue[k] := true];
      }
    }

    /** Dequeues and locks at most a batch of inodes; one that is locked goes back to the end of the queue. */
    method Collect(busy: nat -> bool, added: nat -> seq<nat>) returns (writeSize: nat, ghost n: nat)
      requires Shape() && |dirty| > 1 && AreInodes(dirty) && forall k :: AreInodes(added(k))
      modifies this`dirty, iIdxs, locked
      ensures StopsAt(old(dirty), busy, n)
      ensures writeSize <= FLUSH_BATCH_SIZE && iIdxs[..writeSize] == Taken(old(dirty), busy, n)
      ensures dirty == old(dirty)[n..] + Behind(old(dirty), busy, added, n) && AreInodes(dirty)
      ensures AreInodes(iIdxs[..writeSize]) && locked[..] == SetAll(old(locked[..]), iIdxs[..writeSize], true)
    {
      ghost var queue, locks := dirty, locked[..];
      var num := |dirty| - 1;
      writeSize := if num >= FLUSH_BATCH_SIZE then FLUSH_BATCH_SIZE else num;
      var i, k: nat := 0, 0;
      while i < writeSize
        invariant 0 <= i <= writeSize == (if num >= FLUSH_BATCH_SIZE then FLUSH_BATCH_SIZE else num)
        invariant k == |queue| - 1 - num + i < |queue|
        invariant Collecting(queue, busy, added, locks, k, iIdxs[..i], dirty, locked[..])
        decreases num - i
      {
        TakeOne(i, k, busy, added, queue, locks);
        ghost var taken := if busy(k) then i else i + 1;
        if busy(k) {
          i := i - 1;
          num := num - 1;
          if num < FLUSH_BATCH_SIZE {
            writeSize := writeSize - 1;
          }
        }
        i, k := i + 1, k + 1;
        assert i == taken;
      }
      n := k;
    }

    /** The size of the batch that starts at position `at`. */
    method LookAhead(at: nat, writeSize: nat) returns (count: nat)
      requires Shape() && at < writeSize <= FLUSH_BATCH_SIZE && AreInodes(iIdxs[..writeSize])
      ensures count == RunLength(Lbns(iIdxs[..writeSize]), at)
    {
      ghost var lbns := Lbns(iIdxs[..writeSize]);
      count := 1;
      var curr := lbn[iIdxs[at]];
      var i := at + 1;
      while i < writeSize
        invariant i == at + count <= writeSize && curr == lbns[i - 1]
        invariant RunLength(lbns, at) == count - 1 + RunLength(lbns, i - 1)
      {
        var succ := lbn[iIdxs[i]];
        assert succ == lbns[i];
        if succ != (curr + 1) % LBN_LIMIT {
          break;
        }
        count := count + 1;
        curr := succ;
        i := i + 1;
      }
    }

    /** Points iov at the blocks of the batch. */
    method Gather(at: nat, count: nat)
      requires Shape() && at + count <= FLUSH_BATCH_SIZE && AreInodes(iIdxs[at..at + count])
      modifies iov
      ensures iov[..count] == Select(block[..], iIdxs[at..at + count])
    {
      ghost var got := iIdxs[at..at + count];
      var i := 0;
      while i < count
        invariant 0 <= i <= count
        invariant iov[..i] == Select(block[..], got[..i])
      {
        assert got[i] == iIdxs[at + i];
        iov[i] := block[iIdxs[at + i]];
        i := i + 1;
      }
      assert got[..count] == got;
    }

    /** The gathered blocks, side by side from block number `to` on. */
    method Pwritev(to: nat, count: nat)
      requires Shape() && count <= FLUSH_BATCH_SIZE && IsList(iov[..count], blocks.Length)
      modifies this`file
      ensures file == WriteRun(old(file), to, Select(blocks[..], iov[..count]))
    {
      ghost var data := Select(blocks[..], iov[..count]);
      var i := 0;
      while i < count
        invariant 0 <= i <= count && file == WriteRun(old(file), to, data[..i])
      {
        assert data[..i + 1][..i] == data[..i] && iov[..count][i] == iov[i];
        file := file[to + i := blocks[iov[i]]];
        i := i + 1;
      }
      assert data[..count] == data;
    }

    /** Marks the batch SYNC and deals it to the sync queues; its locks stay held. */
    method HandOff(at: nat, count: nat)
      requires Shape() && at + count <= FLUSH_BATCH_SIZE && AreInodes(iIdxs[at..at + count])
      modifies this`syncIdx, this`dirtyCount, state, sync
      ensures syncIdx == old(syncIdx) + count && dirtyCount == old(dirtyCount) - count
      ensures DealtTo(old(sync[..]), sync[..], iIdxs[at..at + count], old(syncIdx))
      ensures state[..] == SetAll(old(state[..]), iIdxs[at..at + count], BurstBuffer.SYNC)
    {
      ghost var got := iIdxs[at..at + count];
      var i := 0;
      while i < count
        invariant 0 <= i <= count && syncIdx == old(syncIdx) + i && dirtyCount == old(dirtyCount) - i
        invariant DealtTo(old(sync[..]), sync[..], got[..i], old(syncIdx))
        invariant state[..] == SetAll(old(state[..]), got[..i], BurstBuffer.SYNC)
      {
        assert got[..i + 1][..i] == got[..i] && got[i] == iIdxs[at + i];
        var idx := iIdxs[at + i];
        dirtyCount := dirtyCount - 1;
        state[idx] := BurstBuffer.SYNC;
        var r := syncIdx % NUM_SYNCER;
        sync[r] := sync[r] + [idx];
        syncIdx := syncIdx + 1;
        i := i + 1;
      }
      assert got[..count] == got;
    }

    /** One batch: look ahead, gather, write, hand off. */
    method WriteBatch(at: nat, writeSize: nat) returns (count: nat)
      requires Valid() && at < writeSize <= FLUSH_BATCH_SIZE && AreInodes(iIdxs[..writeSize])
      modifies this`file, this`syncIdx, this`dirtyCount, iov, state, sync
      ensures var idxs := iIdxs[..writeSize];
              && count == RunLength(Lbns(idxs), at) && syncIdx == old(syncIdx) + count && dirtyCount == old(dirtyCount) - count
              && file == WriteRun(old(file), Lbns(idxs)[at], Contents(idxs)[at..at + count])
              && state[..] == SetAll(old(state[..]), idxs[at..at + count], BurstBuffer.SYNC)
              && DealtTo(old(sync[..]), sync[..], idxs[at..at + count], old(syncIdx))
    {
      ghost var idxs := iIdxs[..writeSize];
      count := LookAhead(at, writeSize);
      Slice(iIdxs, at, count, writeSize);
      SelectSlice(block[..], idxs, at, count);
      SelectSlice(blocks[..], Select(block[..], idxs), at, count);
      Gather(at, count);
      assert iov[..count] == Select(block[..], idxs)[at..at + count] && IsList(Select(block[..], idxs), blocks.Length);
      Pwritev(lbn[iIdxs[at]], count);
      HandOff(at, count);
    }

    method WriteOut(writeSize: nat) returns (batches: seq<nat>)
      requires Valid() && writeSize <= FLUSH_BATCH_SIZE && AreInodes(iIdxs[..writeSize])
      modifies this`file, this`syncIdx, this`dirtyCount, iov, state, sync
      ensures batches == Batches(Lbns(iIdxs[..writeSize]), 0)
      ensures file == WriteBatches(old(file), Lbns(iIdxs[..writeSize]), Contents(iIdxs[..writeSize]), 0)
      ensures syncIdx == old(syncIdx) + writeSize && dirtyCount == old(dirtyCount) - writeSize
      ensures DealtTo(old(sync[..]), sync[..], iIdxs[..writeSize], old(syncIdx))
      ensures state[..] == SetAll(old(state[..]), iIdxs[..writeSize], BurstBuffer.SYNC)
    {
      ghost var idxs, lbns, data := iIdxs[..writeSize], Lbns(iIdxs[..writeSize]), Contents(iIdxs[..writeSize]);
      ghost var before := Outcome(file, state[..], sync[..], syncIdx);
      batches := [];
      var at := 0;
      while at < writeSize
        invariant 0 <= at <= writeSize && dirtyCount == old(dirtyCount) - at
        invariant Writing(idxs, lbns, data, before, at, batches, Outcome(file, state[..], sync[..], syncIdx))
      {
        ghost var now := Outcome(file, state[..], sync[..], syncIdx);
        var count := WriteBatch(at, writeSize);
        WritingOne(idxs, lbns, data, before, at, batches, now, Outcome(file, state[..], sync[..], syncIdx), count);
        batches := batches + [count];
        at := at + count;
      }
      WritingDone(idxs, lbns, data, before, batches, Outcome(file, state[..], sync[..], syncIdx));
    }

    /** nvm_flush: what it takes, where the blocks go, and who gets the inodes next. */
    method NvmFlush(busy: nat -> bool, added: nat -> seq<nat>) returns (writeSize: nat, batches: seq<nat>, ghost n: nat)
      requires Valid() && |dirty| > 1 && AreInodes(dirty) && forall k :: AreInodes(added(k))
      modifies this`dirty, this`file, this`syncIdx, this`dirtyCount, iIdxs, iov, locked, state, sync
      ensures StopsAt(old(dirty), busy, n) && dirty == old(dirty)[n..] + Behind(old(dirty), busy, added, n)
      ensures writeSize <= FLUSH_BATCH_SIZE && iIdxs[..writeSize] == Taken(old(dirty), busy, n)
      ensures AreInodes(iIdxs[..writeSize])
      ensures locked[..] == SetAll(old(locked[..]), iIdxs[..writeSize], true)
      ensures Valid() && batches == Batches(Lbns(iIdxs[..writeSize]), 0)
      ensures file == WriteBatches(old(file), Lbns(iIdxs[..writeSize]), Contents(iIdxs[..writeSize]), 0)
      ensures state[..] == SetAll(old(state[..]), iIdxs[..writeSize], BurstBuffer.SYNC)
      ensures DealtTo(old(sync[..]), sync[..], iIdxs[..writeSize], old(syncIdx))
      ensures syncIdx == old(syncIdx) + writeSize && dirtyCount == old(dirtyCount) - writeSize
    {
      writeSize, n := Collect(busy, added);
      batches := WriteOut(writeSize);
    }
  }
}
