/**
 The writing half of nvm_flush as a schedule of the life cycle: batch by batch, all the blocks of a batch and then its
 hand-offs. What the schedule leaves is what FlushLoops.FlushThread.WriteOut promises.
 */
module FlushRuns {
  import opened BurstBuffer
  import opened FlushSpec
  import opened FlushLoops
  import opened ThreadBodies
  import opened BurstInvariant

  /** What a flush thread works on while it writes. */
  datatype View = View(
    todo: seq<nat>, done: seq<nat>, table: seq<Entry>, blocks: seq<BurstBuffer.Block>, cache: map<Key, BurstBuffer.Block>,
    sync0: seq<nat>, sync1: seq<nat>, syncIdx: nat, dirtyCount: int)

  ghost predicate Stands(s: State, f: nat, x: View) {
    && f < |s.flushers| && s.flushers[f].pc == FWrite
    && At(s, Todo(f)) == x.todo && At(s, Done(f)) == x.done && Table(s.inodes) == x.table && s.blocks == x.blocks
    && s.cache == x.cache && At(s, Sync(0)) == x.sync0 && At(s, Sync(1)) == x.sync1
    && s.syncIdx == x.syncIdx && s.dirtyCount == x.dirtyCount
  }

  predicate AreInodes(table: seq<Entry>, blocks: seq<BurstBuffer.Block>, idxs: seq<nat>) {
    IsList(idxs, |table|) && forall k | 0 <= k < |idxs| :: table[idxs[k]].block < |blocks|
  }

  predicate Sound(x: View) {
    AreInodes(x.table, x.blocks, x.todo) && AreInodes(x.table, x.blocks, x.done)
  }

  function KeysOf(table: seq<Entry>, idxs: seq<nat>): (r: seq<Key>)
    requires IsList(idxs, |table|)
    ensures |r| == |idxs|
  {
    seq(|idxs|, k requires 0 <= k < |idxs| => Key(table[idxs[k]].vol, table[idxs[k]].lbn))
  }

  function DataOf(table: seq<Entry>, blocks: seq<BurstBuffer.Block>, idxs: seq<nat>): (r: seq<BurstBuffer.Block>)
    requires AreInodes(table, blocks, idxs)
    ensures |r| == |idxs|
  {
    seq(|idxs|, k requires 0 <= k < |idxs| => blocks[table[idxs[k]].block])
  }

  /** Each block at its own key, in order. */
  function WriteKeys(cache: map<Key, BurstBuffer.Block>, keys: seq<Key>, data: seq<BurstBuffer.Block>): map<Key, BurstBuffer.Block>
    requires |keys| == |data|
  {
    if keys == [] then cache
    else var n := |keys| - 1; WriteKeys(cache, keys[..n], data[..n])[keys[n] := data[n]]
  }

  function MarkSync(table: seq<Entry>, idxs: seq<nat>): (r: seq<Entry>)
    requires IsList(idxs, |table|)
    ensures |r| == |table|
  {
    if idxs == [] then table
    else
      var n := |idxs| - 1;
      var rest := MarkSync(table, idxs[..n]);
      rest[idxs[n] := rest[idxs[n]].(state := SYNC)]
  }

  lemma {:induction false} MarkSyncIs(table: seq<Entry>, idxs: seq<nat>, i: nat)
    requires IsList(idxs, |table|) && i < |table|
    ensures MarkSync(table, idxs)[i] == if i in idxs then table[i].(state := SYNC) else table[i]
  {
    if idxs != [] {
      var n := |idxs| - 1;
      MarkSyncIs(table, idxs[..n], i);
      assert idxs == idxs[..n] + [idxs[n]];
    }
  }

  lemma StillInodes(table: seq<Entry>, blocks: seq<BurstBuffer.Block>, marked: seq<nat>, idxs: seq<nat>)
    requires IsList(marked, |table|) && AreInodes(table, blocks, idxs)
    ensures AreInodes(MarkSync(table, marked), blocks, idxs)
  {
    forall k | 0 <= k < |idxs| ensures MarkSync(table, marked)[idxs[k]].block < |blocks| { MarkSyncIs(table, marked, idxs[k]); }
  }

  // -------------------------------------------------------------------------------------- single steps

  function Written(x: View, n: nat): View
    requires Sound(x) && n <= |x.todo|
  {
    var first := x.todo[..n];
    x.(todo := x.todo[n..], done := x.done + first,
       cache := WriteKeys(x.cache, KeysOf(x.table, first), DataOf(x.table, x.blocks, first)))
  }

  lemma WriteSafe(s: State, f: nat, x: View, i: nat)
    requires Stands(s, f, x) && Sound(x) && x.todo != [] && x.todo[0] == i
    ensures i < |s.inodes| && s.inodes[i].block < |s.blocks|
    ensures Guard(s, Flush(f, true)) && Safe(s, Flush(f, true)) && Do(s, Flush(f, true)) == StepWriteBlock(s, f)
  {
    assert |Table(s.inodes)| == |s.inodes| && Table(s.inodes)[i] == EntryOf(s.inodes[i]);
    if x.done != [] { assert Table(s.inodes)[x.done[0]] == EntryOf(s.inodes[x.done[0]]); }
  }

  lemma WriteOne(s: State, f: nat, x: View)
    requires Stands(s, f, x) && Sound(x) && x.todo != []
    ensures Guard(s, Flush(f, true)) && Safe(s, Flush(f, true))
    ensures var t, y := Do(s, Flush(f, true)), x.table[x.todo[0]];
            Stands(t, f, x.(todo := x.todo[1..], done := x.done + [x.todo[0]],
                            cache := x.cache[Key(y.vol, y.lbn) := x.blocks[y.block]]))
  {
    var i := x.todo[0];
    WriteSafe(s, f, x, i);
    assert Table(s.inodes)[i] == EntryOf(s.inodes[i]);
    TableUpdate(s.inodes, i, s.inodes[i].(place := In(Done(f))));
    assert Table(s.inodes)[i := EntryOf(s.inodes[i])] == Table(s.inodes);
  }

  lemma WrittenOne(x: View, n: nat)
    requires Sound(x) && n < |x.todo|
    ensures var w, y := Written(x, n), x.table[x.todo[n]];
            && w.todo != [] && w.todo[0] == x.todo[n] && Sound(w)
            && Written(x, n + 1) == w.(todo := w.todo[1..], done := w.done + [x.todo[n]],
                                       cache := w.cache[Key(y.vol, y.lbn) := x.blocks[y.block]])
  {
    var first, more := x.todo[..n], x.todo[..n + 1];
    assert more[..n] == first;
    assert KeysOf(x.table, more)[..n] == KeysOf(x.table, first);
    assert DataOf(x.table, x.blocks, more)[..n] == DataOf(x.table, x.blocks, first);
    assert x.done + more == x.done + first + [x.todo[n]];
  }

  /** The blocks of the next n inodes, one after the other. */
  function WritesRun(f: nat, n: nat): seq<Action> {
    if n == 0 then [] else WritesRun(f, n - 1) + [Flush(f, true)]
  }

  lemma {:induction false} WritesAre(s: State, f: nat, x: View, n: nat) returns (t: State)
    requires Stands(s, f, x) && Sound(x) && n <= |x.todo|
    ensures Executes(s, WritesRun(f, n), t) && Stands(t, f, Written(x, n))
  {
    if n == 0 {
      t := s;
      assert x.todo[..0] == [] && x.done + [] == x.done;
      assert Written(x, 0) == x;
    } else {
      var u := WritesAre(s, f, x, n - 1);
      WrittenOne(x, n - 1);
      WriteOne(u, f, Written(x, n - 1));
      OneMore(s, WritesRun(f, n - 1), u, Flush(f, true));
      t := Do(u, Flush(f, true));
    }
  }

  function Handed(x: View, n: nat): View
    requires Sound(x) && n <= |x.done|
  {
    var first := x.done[..n];
    x.(done := x.done[n..], table := MarkSync(x.table, first),
       sync0 := x.sync0 + Dealt(first, x.syncIdx, 0), sync1 := x.sync1 + Dealt(first, x.syncIdx, 1),
       syncIdx := x.syncIdx + n, dirtyCount := x.dirtyCount - n)
  }

  /** One inode marked SYNC and enqueued. */
  function HandedNext(x: View, i: nat): View
    requires i < |x.table| && x.done != []
  {
    x.(done := x.done[1..], table := x.table[i := x.table[i].(state := SYNC)],
       sync0 := if x.syncIdx % FlushSpec.NUM_SYNCER == 0 then x.sync0 + [i] else x.sync0,
       sync1 := if x.syncIdx % FlushSpec.NUM_SYNCER == 0 then x.sync1 else x.sync1 + [i],
       syncIdx := x.syncIdx + 1, dirtyCount := x.dirtyCount - 1)
  }

  lemma HandTable(s: State, f: nat, i: nat)
    requires f < |s.flushers| && At(s, Done(f)) != [] && At(s, Done(f))[0] == i && i < |s.inodes|
    ensures var t := StepHandOff(StepMarkSync(s, f), f);
            && Table(t.inodes) == Table(s.inodes)[i := EntryOf(s.inodes[i]).(state := SYNC)]
            && t.blocks == s.blocks && t.cache == s.cache && t.syncIdx == s.syncIdx + 1 && t.dirtyCount == s.dirtyCount - 1
            && |t.flushers| == |s.flushers| && t.flushers[f].pc == FWrite
  {
    var t := StepHandOff(StepMarkSync(s, f), f);
    TableUpdate(s.inodes, i, t.inodes[i]);
    assert t.inodes == s.inodes[i := t.inodes[i]];
  }

  lemma HandQueues(s: State, f: nat, i: nat)
    requires f < |s.flushers| && At(s, Done(f)) != [] && At(s, Done(f))[0] == i && i < |s.inodes|
    ensures var t, first := StepHandOff(StepMarkSync(s, f), f), s.syncIdx % FlushSpec.NUM_SYNCER == 0;
            && At(t, Todo(f)) == At(s, Todo(f)) && At(t, Done(f)) == At(s, Done(f))[1..]
            && At(t, Sync(0)) == (if first then At(s, Sync(0)) + [i] else At(s, Sync(0)))
            && At(t, Sync(1)) == (if first then At(s, Sync(1)) else At(s, Sync(1)) + [i])
  {
  }

  lemma HandSafe(s: State, f: nat, x: View, i: nat)
    requires Stands(s, f, x) && Sound(x) && x.done != [] && x.done[0] == i
    ensures i < |s.inodes| && Guard(s, Flush(f, false)) && Safe(s, Flush(f, false)) && Do(s, Flush(f, false)) == StepMarkSync(s, f)
    ensures var u := StepMarkSync(s, f);
            Guard(u, Flush(f, false)) && Safe(u, Flush(f, false)) && Do(u, Flush(f, false)) == StepHandOff(u, f)
  {
    assert |Table(s.inodes)| == |s.inodes| && Table(s.inodes)[i] == EntryOf(s.inodes[i]);
    if x.todo != [] { assert Table(s.inodes)[x.todo[0]] == EntryOf(s.inodes[x.todo[0]]); }
  }

  /** Marking an inode and enqueuing it are two steps. */
  function HandRun(f: nat): seq<Action> { [Flush(f, false), Flush(f, false)] }

  lemma HandOne(s: State, f: nat, x: View, i: nat) returns (t: State)
    requires Stands(s, f, x) && Sound(x) && x.done != [] && x.done[0] == i
    ensures Executes(s, HandRun(f), t) && i < |x.table| && Stands(t, f, HandedNext(x, i))
  {
    HandSafe(s, f, x, i);
    t := StepHandOff(StepMarkSync(s, f), f);
    TwoSteps(s, Flush(f, false), StepMarkSync(s, f), Flush(f, false), t);
    assert |Table(s.inodes)| == |s.inodes| && Table(s.inodes)[i] == EntryOf(s.inodes[i]);
    HandTable(s, f, i);
    HandQueues(s, f, i);
  }

  lemma TwoSteps(s: State, a: Action, t: State, b: Action, u: State)
    requires Guard(s, a) && Safe(s, a) && t == Do(s, a) && Guard(t, b) && Safe(t, b) && u == Do(t, b)
    ensures Executes(s, [a, b], u)
  {
    assert Executes(s, [], s);
    OneMore(s, [], s, a);
    assert [] + [a] == [a] && [a] + [b] == [a, b];
    OneMore(s, [a], t, b);
  }

  lemma HandedOne(x: View, n: nat)
    requires Sound(x) && n < |x.done|
    ensures var w, i := Handed(x, n), x.done[n];
            w.done != [] && w.done[0] == i && Sound(w) && Handed(x, n + 1) == HandedNext(w, i)
  {
    var first, more := x.done[..n], x.done[..n + 1];
    assert more[..n] == first;
    StillInodes(x.table, x.blocks, first, x.todo);
    StillInodes(x.table, x.blocks, first, x.done[n..]);
    var w := Handed(x, n);
    assert w.done[1..] == x.done[n + 1..];
    assert Dealt(more, x.syncIdx, 0) == Dealt(first, x.syncIdx, 0) + (if w.syncIdx % FlushSpec.NUM_SYNCER == 0 then [x.done[n]] else []);
    assert Dealt(more, x.syncIdx, 1) == Dealt(first, x.syncIdx, 1) + (if w.syncIdx % FlushSpec.NUM_SYNCER == 1 then [x.done[n]] else []);
  }

  /** The next n hand-offs. */
  function HandsRun(f: nat, n: nat): seq<Action> {
    if n == 0 then [] else HandsRun(f, n - 1) + HandRun(f)
  }

  lemma HandsStep(s: State, f: nat, x: View, n: nat) returns (t: State)
    requires Sound(x) && n < |x.done| && Stands(s, f, Handed(x, n))
    ensures Executes(s, HandRun(f), t) && Stands(t, f, Handed(x, n + 1))
  {
    HandedOne(x, n);
    t := HandOne(s, f, Handed(x, n), x.done[n]);
  }

  lemma {:induction false} HandsAre(s: State, f: nat, x: View, n: nat) returns (t: State)
    requires Stands(s, f, x) && Sound(x) && n <= |x.done|
    ensures Executes(s, HandsRun(f, n), t) && Stands(t, f, Handed(x, n))
  {
    if n == 0 {
      t := s;
      assert x.done[..0] == [] && Handed(x, 0) == x;
    } else {
      var u := HandsAre(s, f, x, n - 1);
      t := HandsStep(u, f, x, n - 1);
      RunOn(s, HandsRun(f, n - 1), u, HandRun(f), t);
    }
  }

  // ------------------------------------------------------------------------------------------- batches

  function BatchRun(f: nat, n: nat): seq<Action> { WritesRun(f, n) + HandsRun(f, n) }

  /** The next n inodes are written, marked and dealt. */
  function Batched(x: View, n: nat): View
    requires Sound(x) && n <= |x.todo|
  {
    var first := x.todo[..n];
    x.(todo := x.todo[n..], table := MarkSync(x.table, first),
       cache := WriteKeys(x.cache, KeysOf(x.table, first), DataOf(x.table, x.blocks, first)),
       sync0 := x.sync0 + Dealt(first, x.syncIdx, 0), sync1 := x.sync1 + Dealt(first, x.syncIdx, 1),
       syncIdx := x.syncIdx + n, dirtyCount := x.dirtyCount - n)
  }

  lemma WrittenThenHanded(x: View, n: nat)
    requires Sound(x) && x.done == [] && n <= |x.todo|
    ensures var w := Written(x, n); |w.done| == n && Sound(w) && Handed(w, n) == Batched(x, n)
  {
    var w := Written(x, n);
    assert w.done == x.todo[..n] && w.done[..n] == w.done && w.done[n..] == [];
  }

  lemma BatchIs(s: State, f: nat, x: View, n: nat) returns (t: State)
    requires Stands(s, f, x) && Sound(x) && x.done == [] && n <= |x.todo|
    ensures Executes(s, BatchRun(f, n), t) && Stands(t, f, Batched(x, n))
  {
    var u := WritesAre(s, f, x, n);
    WrittenThenHanded(x, n);
    t := HandsAre(u, f, Written(x, n), n);
    RunOn(s, WritesRun(f, n), u, HandsRun(f, n), t);
  }

  lemma {:induction false} WriteKeysMore(cache: map<Key, BurstBuffer.Block>, keys: seq<Key>, data: seq<BurstBuffer.Block>, n: nat)
    requires n <= |keys| == |data|
    ensures WriteKeys(WriteKeys(cache, keys[..n], data[..n]), keys[n..], data[n..]) == WriteKeys(cache, keys, data)
  {
    if n < |keys| {
      var m := |keys| - 1;
      WriteKeysMore(cache, keys[..m], data[..m], n);
      assert keys[..m][..n] == keys[..n] && data[..m][..n] == data[..n];
      assert keys[n..][..m - n] == keys[..m][n..] && data[n..][..m - n] == data[..m][n..];
    } else {
      assert keys[..n] == keys && data[..n] == data;
    }
  }

  lemma {:induction false} MarkSyncMore(table: seq<Entry>, first: seq<nat>, more: seq<nat>)
    requires IsList(first, |table|) && IsList(more, |table|)
    ensures MarkSync(MarkSync(table, first), more) == MarkSync(table, first + more)
  {
    if more == [] {
      assert first + more == first;
    } else {
      var n := |more| - 1;
      MarkSyncMore(table, first, more[..n]);
      assert (first + more)[..|first| + n] == first + more[..n];
    }
  }

  /** Marking inodes changes neither keys nor blocks. */
  lemma StillWrites(table: seq<Entry>, blocks: seq<BurstBuffer.Block>, marked: seq<nat>, idxs: seq<nat>)
    requires IsList(marked, |table|) && AreInodes(table, blocks, idxs)
    ensures AreInodes(MarkSync(table, marked), blocks, idxs)
    ensures KeysOf(MarkSync(table, marked), idxs) == KeysOf(table, idxs)
    ensures DataOf(MarkSync(table, marked), blocks, idxs) == DataOf(table, blocks, idxs)
  {
    StillInodes(table, blocks, marked, idxs);
    forall k | 0 <= k < |idxs| { MarkSyncIs(table, marked, idxs[k]); }
  }

  lemma BatchedSound(x: View, n: nat)
    requires Sound(x) && x.done == [] && n <= |x.todo|
    ensures Sound(Batched(x, n))
  {
    StillInodes(x.table, x.blocks, x.todo[..n], x.todo[n..]);
  }

  lemma CacheMore(table: seq<Entry>, blocks: seq<BurstBuffer.Block>, cache: map<Key, BurstBuffer.Block>, todo: seq<nat>, n: nat)
    requires AreInodes(table, blocks, todo) && n <= |todo|
    ensures AreInodes(table, blocks, todo[..n]) && AreInodes(MarkSync(table, todo[..n]), blocks, todo[n..])
    ensures var marked, some := MarkSync(table, todo[..n]), WriteKeys(cache, KeysOf(table, todo[..n]), DataOf(table, blocks, todo[..n]));
            WriteKeys(some, KeysOf(marked, todo[n..]), DataOf(marked, blocks, todo[n..])) ==
            WriteKeys(cache, KeysOf(table, todo), DataOf(table, blocks, todo))
  {
    StillWrites(table, blocks, todo[..n], todo[n..]);
    WriteKeysMore(cache, KeysOf(table, todo), DataOf(table, blocks, todo), n);
    assert KeysOf(table, todo)[..n] == KeysOf(table, todo[..n]) && KeysOf(table, todo)[n..] == KeysOf(table, todo[n..]);
    assert DataOf(table, blocks, todo)[..n] == DataOf(table, blocks, todo[..n]);
    assert DataOf(table, blocks, todo)[n..] == DataOf(table, blocks, todo[n..]);
  }

  lemma DealtAll(todo: seq<nat>, n: nat, start: nat, next: nat, queue: seq<nat>, r: nat)
    requires n <= |todo| && next == start + n
    ensures queue + Dealt(todo[..n], start, r) + Dealt(todo[n..], next, r) == queue + Dealt(todo, start, r)
  {
    DealtMore(todo[..n], todo[n..], start, r);
    assert todo[..n] + todo[n..] == todo;
  }

  lemma Ends(q: seq<nat>)
    ensures q[..|q|] == q && q[|q|..] == []
  {
  }

  /** One batch, and then all the rest, is all. */
  lemma BatchedMore(x: View, n: nat, y: View, z: View)
    requires Sound(x) && x.done == [] && n <= |x.todo| && y == Batched(x, n)
    requires Sound(y) && z == Batched(y, |y.todo|)
    ensures z == Batched(x, |x.todo|)
  {
    var first, rest := x.todo[..n], x.todo[n..];
    Ends(rest);
    Ends(x.todo);
    CacheMore(x.table, x.blocks, x.cache, x.todo, n);
    MarkSyncMore(x.table, first, rest);
    assert first + rest == x.todo;
    DealtAll(x.todo, n, x.syncIdx, y.syncIdx, x.sync0, 0);
    DealtAll(x.todo, n, x.syncIdx, y.syncIdx, x.sync1, 1);
  }

  /** Batch by batch. */
  function OutRun(f: nat, batches: seq<nat>): seq<Action> {
    if batches == [] then [] else BatchRun(f, batches[0]) + OutRun(f, batches[1..])
  }

  lemma {:induction false} OutIs(s: State, f: nat, x: View, batches: seq<nat>) returns (t: State)
    requires Stands(s, f, x) && Sound(x) && x.done == [] && Sum(batches) == |x.todo|
    ensures Executes(s, OutRun(f, batches), t) && Stands(t, f, Batched(x, |x.todo|))
    decreases |batches|
  {
    if batches == [] {
      t := s;
      assert Batched(x, 0) == x;
    } else {
      var n := batches[0];
      var u := BatchIs(s, f, x, n);
      var y := Batched(x, n);
      BatchedSound(x, n);
      t := OutIs(u, f, y, batches[1..]);
      BatchedMore(x, n, y, Batched(y, |y.todo|));
      RunOn(s, BatchRun(f, n), u, OutRun(f, batches[1..]), t);
    }
  }

  // ------------------------------------------------------------------------------- the order of nvm_flush

  ghost function ViewOf(s: State, f: nat): View {
    View(At(s, Todo(f)), At(s, Done(f)), Table(s.inodes), s.blocks, s.cache, At(s, Sync(0)), At(s, Sync(1)), s.syncIdx, s.dirtyCount)
  }

  lemma CollectedSound(s: State, f: nat)
    requires Inv(s) && f < |s.flushers| && At(s, Done(f)) == []
    ensures Sound(ViewOf(s, f))
    ensures forall i | i in At(s, Todo(f)) :: i < |s.inodes| && s.inodes[i].vol == s.flushers[f].vol && Writable(s.inodes[i].lbn)
  {
    var todo := At(s, Todo(f));
    assert BoxOk(s, Todo(f));
    forall i | i in todo
      ensures i < |s.inodes| && s.inodes[i].block < |s.blocks| && s.inodes[i].vol == s.flushers[f].vol && Writable(s.inodes[i].lbn)
    {
      assert InodeOk(s, i);
    }
    forall k | 0 <= k < |todo| ensures todo[k] < |s.inodes| && Table(s.inodes)[todo[k]].block < |s.blocks| {
      assert todo[k] in todo;
      assert |Table(s.inodes)| == |s.inodes|;
    }
  }

  function LbnsOf(table: seq<Entry>, idxs: seq<nat>): (r: seq<nat>)
    requires IsList(idxs, |table|)
    ensures |r| == |idxs|
  {
    seq(|idxs|, k requires 0 <= k < |idxs| => table[idxs[k]].lbn)
  }

  /** The volume's part of the files is `file`. */
  ghost predicate IsFile(cache: map<Key, BurstBuffer.Block>, v: nat, file: File) {
    forall l: nat :: (Key(v, l) in cache <==> l in file) && (l in file ==> cache[Key(v, l)] == file[l])
  }

  lemma {:induction false} KeysAreFile(
    cache: map<Key, BurstBuffer.Block>, v: nat, file: File, keys: seq<Key>, lbns: seq<nat>, data: seq<BurstBuffer.Block>)
    requires IsFile(cache, v, file) && |keys| == |lbns| == |data| && forall k | 0 <= k < |keys| :: keys[k] == Key(v, lbns[k])
    ensures IsFile(WriteKeys(cache, keys, data), v, WriteEach(file, lbns, data))
    ensures forall k: Key | k.vol != v :: Lookup(WriteKeys(cache, keys, data), k) == Lookup(cache, k)
  {
    if keys != [] {
      var n := |keys| - 1;
      KeysAreFile(cache, v, file, keys[..n], lbns[..n], data[..n]);
    }
  }

  /**
   A flush thread that has collected its inodes and writes them out in the batches of nvm_flush follows a schedule of
   the life cycle. It ends with every block where the gathered writes put it, in the file of the thread's volume, and with
   every inode marked SYNC and dealt to the sync queues in turn.
   */
  lemma WriteOutIsRun(s: State, f: nat, file: File) returns (t: State)
    requires Inv(s) && f < |s.flushers| && s.flushers[f].pc == FWrite && At(s, Done(f)) == []
    requires IsFile(s.cache, s.flushers[f].vol, file)
    ensures Sound(ViewOf(s, f))
    ensures var todo, table, v := At(s, Todo(f)), Table(s.inodes), s.flushers[f].vol;
            var lbns, data := LbnsOf(table, todo), DataOf(table, s.blocks, todo);
            && Executes(s, OutRun(f, Batches(lbns, 0)), t) && f < |t.flushers| && t.flushers[f].pc == FWrite
            && At(t, Todo(f)) == At(t, Done(f)) == [] && Table(t.inodes) == MarkSync(table, todo)
            && IsFile(t.cache, v, WriteBatches(file, lbns, data, 0))
            && (forall k: Key | k.vol != v :: Lookup(t.cache, k) == Lookup(s.cache, k))
            && At(t, Sync(0)) == At(s, Sync(0)) + Dealt(todo, s.syncIdx, 0)
            && At(t, Sync(1)) == At(s, Sync(1)) + Dealt(todo, s.syncIdx, 1)
            && t.syncIdx == s.syncIdx + |todo| && t.dirtyCount == s.dirtyCount - |todo|
  {
    var x := ViewOf(s, f);
    var v := s.flushers[f].vol;
    CollectedSound(s, f);
    var lbns, data := LbnsOf(x.table, x.todo), DataOf(x.table, x.blocks, x.todo);
    BatchesCover(lbns, 0);
    t := OutIs(s, f, x, Batches(lbns, 0));
    assert x.todo[..|x.todo|] == x.todo;
    OneVolume(s, f);
    KeysAreFile(x.cache, v, file, KeysOf(x.table, x.todo), lbns, data);
    BatchesAreEach(file, lbns, data, 0);
    assert lbns[0..] == lbns && data[0..] == data;
  }

  lemma OneVolume(s: State, f: nat)
    requires f < |s.flushers| && Sound(ViewOf(s, f))
    requires forall i | i in At(s, Todo(f)) :: i < |s.inodes| && s.inodes[i].vol == s.flushers[f].vol && Writable(s.inodes[i].lbn)
    ensures var todo, table := At(s, Todo(f)), Table(s.inodes);
            && (forall k | 0 <= k < |todo| :: KeysOf(table, todo)[k] == Key(s.flushers[f].vol, LbnsOf(table, todo)[k]))
            && (forall l | l in LbnsOf(table, todo) :: l < FlushSpec.LBN_LIMIT) && (forall k :: !WrapsAt(LbnsOf(table, todo), k))
  {
    var todo, table := At(s, Todo(f)), Table(s.inodes);
    assert |table| == |s.inodes|;
    forall k | 0 <= k < |todo|
      ensures KeysOf(table, todo)[k] == Key(s.flushers[f].vol, LbnsOf(table, todo)[k]) && Writable(LbnsOf(table, todo)[k])
    {
      assert todo[k] in todo;
      assert table[todo[k]] == EntryOf(s.inodes[todo[k]]);
    }
  }
}
