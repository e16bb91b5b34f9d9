/** nvm_durable_write returns only when its block has taken effect, whatever its way there and whatever others do. */
module WriteReturns {
  import opened BurstBuffer
  import opened BurstInvariant
  import opened BurstRuns
  import opened BurstTheorems
  import Writers = BurstWriterSteps
  import Flushers = BurstFlusherSteps
  import Syncers = BurstSyncerSteps

  /** The call's block has taken effect, and the call has not returned. */
  predicate HasLanded(pc: WriterPc) {
    BeforePush(pc) || pc == WUnlockInode || pc == WUnlockNode
  }

  /** The call goes on with the same key and data; only the last unlock returns, and only the exchange lands. */
  predicate GoesOn(w: Writer, n: Writer) {
    && n.lbn == w.lbn && n.data == w.data
    && (n.pc == WIdle <==> w.pc == WIdle || w.pc == WUnlockNode)
    && (HasLanded(n.pc) <==> w.pc == WSwap || (HasLanded(w.pc) && w.pc != WUnlockNode))
    && (n.pc == WClaim ==> w.pc == WCheckFree)
  }

  /** The call goes on, and the files, the flush threads and their volumes stay as they are. */
  predicate Continues(s: State, t: State, v: nat) {
    && v < |s.writers| == |t.writers| && GoesOn(s.writers[v], t.writers[v])
    && t.inuse == s.inuse && t.flushers == s.flushers
    && t.cache == s.cache && t.stable == s.stable && t.pending == s.pending
  }

  lemma AskGoesOn(s: State, v: nat)
    requires v < |s.writers| && WriterSafe(s, v) && (s.writers[v].pc == WSearch || s.writers[v].pc == WCheckFree)
    ensures Continues(s, WriterStep(s, v), v)
  {
    if s.writers[v].pc == WSearch {
      assert Continues(s, StepSearch(s, v), v);
    } else {
      assert Continues(s, StepCheckFree(s, v), v);
    }
  }

  lemma ClaimGoesOn(s: State, v: nat)
    requires v < |s.writers| && WriterSafe(s, v) && (s.writers[v].pc == WClaim || s.writers[v].pc == WDec)
    ensures Continues(s, WriterStep(s, v), v)
  {
    if s.writers[v].pc == WClaim {
      assert Continues(s, StepClaim(s, v), v);
    } else {
      assert Continues(s, StepDec(s, v), v);
    }
  }

  lemma TakeGoesOn(s: State, v: nat)
    requires v < |s.writers| && WriterSafe(s, v) && (s.writers[v].pc == WTake || s.writers[v].pc == WTag)
    ensures Continues(s, WriterStep(s, v), v)
  {
    if s.writers[v].pc == WTake {
      assert Continues(s, StepTake(s, v), v);
    } else {
      assert Continues(s, StepTag(s, v), v);
    }
  }

  lemma AttachGoesOn(s: State, v: nat)
    requires v < |s.writers| && WriterSafe(s, v) && (s.writers[v].pc == WAttach || s.writers[v].pc == WLockNew)
    ensures Continues(s, WriterStep(s, v), v)
  {
    if s.writers[v].pc == WAttach {
      assert Continues(s, StepAttach(s, v), v);
    } else {
      assert Continues(s, StepLockNew(s, v), v);
    }
  }

  lemma LockGoesOn(s: State, v: nat)
    requires v < |s.writers| && WriterSafe(s, v) && (s.writers[v].pc == WLockOld || s.writers[v].pc == WLockInode)
    ensures Continues(s, WriterStep(s, v), v)
  {
    if s.writers[v].pc == WLockOld {
      assert Continues(s, StepLockOld(s, v), v);
    } else {
      assert Continues(s, StepLockInode(s, v), v);
    }
  }

  lemma MarkGoesOn(s: State, v: nat)
    requires v < |s.writers| && WriterSafe(s, v) && (s.writers[v].pc == WMark || s.writers[v].pc == WCopy)
    ensures Continues(s, WriterStep(s, v), v)
  {
    if s.writers[v].pc == WMark {
      assert Continues(s, StepMark(s, v), v);
    } else {
      assert Continues(s, StepCopy(s, v), v);
    }
  }

  lemma SwapGoesOn(s: State, v: nat)
    requires v < |s.writers| && WriterSafe(s, v) && (s.writers[v].pc == WGive || s.writers[v].pc == WSwap)
    ensures Continues(s, WriterStep(s, v), v)
  {
    if s.writers[v].pc == WGive {
      assert Continues(s, StepGive(s, v), v);
    } else {
      assert Continues(s, StepSwap(s, v), v);
    }
  }

  lemma CountGoesOn(s: State, v: nat)
    requires v < |s.writers| && WriterSafe(s, v) && s.writers[v].pc == WCount
    ensures Continues(s, WriterStep(s, v), v)
  {
    assert Continues(s, StepRaise(s, v), v);
  }

  lemma PushGoesOn(s: State, v: nat)
    requires v < |s.writers| && WriterSafe(s, v) && s.writers[v].pc == WPush
    ensures Continues(s, WriterStep(s, v), v)
  {
    assert Continues(s, StepEnqueue(s, v), v);
  }

  lemma UnlockGoesOn(s: State, v: nat)
    requires v < |s.writers| && WriterSafe(s, v) && (s.writers[v].pc == WUnlockInode || s.writers[v].pc == WUnlockNode)
    ensures Continues(s, WriterStep(s, v), v)
  {
    if s.writers[v].pc == WUnlockInode {
      assert Continues(s, StepUnlockInode(s, v), v);
    } else {
      assert Continues(s, StepUnlockNode(s, v), v);
    }
  }

  lemma RecheckGoesOn(s: State, v: nat)
    requires v < |s.writers| && WriterSafe(s, v) && s.writers[v].pc == WRecheck
    ensures Continues(s, WriterStep(s, v), v)
  {
    if s.nodes[WKey(s, v)].valid {
      assert Continues(s, StepAccept(s, v), v);
    } else {
      assert Continues(s, StepReject(s, v), v);
    }
  }

  lemma WriterGoesOn(s: State, v: nat)
    requires v < |s.writers| && WriterSafe(s, v) && s.writers[v].pc != WIdle
    ensures Continues(s, WriterStep(s, v), v)
  {
    match s.writers[v].pc
    case WSearch => AskGoesOn(s, v);
    case WCheckFree => AskGoesOn(s, v);
    case WClaim => ClaimGoesOn(s, v);
    case WDec => ClaimGoesOn(s, v);
    case WTake => TakeGoesOn(s, v);
    case WTag => TakeGoesOn(s, v);
    case WAttach => AttachGoesOn(s, v);
    case WLockNew => AttachGoesOn(s, v);
    case WLockOld => LockGoesOn(s, v);
    case WLockInode => LockGoesOn(s, v);
    case WMark => MarkGoesOn(s, v);
    case WCopy => MarkGoesOn(s, v);
    case WGive => SwapGoesOn(s, v);
    case WSwap => SwapGoesOn(s, v);
    case WCount => CountGoesOn(s, v);
    case WPush => PushGoesOn(s, v);
    case WUnlockInode => UnlockGoesOn(s, v);
    case WUnlockNode => UnlockGoesOn(s, v);
    case WRecheck => RecheckGoesOn(s, v);
  }

  /** Nobody else changes what a writer is about. */
  lemma OthersLeave(s: State, a: Action, v: nat)
    requires Inv(s) && Guard(s, a) && Safe(s, a) && v < |s.writers| && s.writers[v].pc != WIdle && a != Write(v)
    ensures |Do(s, a).writers| == |s.writers| && Do(s, a).writers[v] == s.writers[v]
  {
    match a
    case Begin(u, lbn, data) =>
    case Write(u) => Writers.WriterKeeps(s, u);
    case Tear(u, junk) => Writers.TearKeeps(s, u, junk);
    case Flush(f, write) => Flushers.FlusherKeeps(s, f, write);
    case DoSync(q) => Syncers.SyncerKeeps(s, q);
    case Balloon(b) => BalloonCases(s, b);
  }

  lemma CallGoesOn(s: State, a: Action, v: nat)
    requires Inv(s) && Guard(s, a) && Safe(s, a) && v < |s.writers| && s.writers[v].pc != WIdle
    ensures |Do(s, a).writers| == |s.writers|
    ensures if a == Write(v) then GoesOn(s.writers[v], Do(s, a).writers[v]) else Do(s, a).writers[v] == s.writers[v]
  {
    if a == Write(v) {
      WriterGoesOn(s, v);
      Writers.WriterKeeps(s, v);
    } else {
      OthersLeave(s, a, v);
    }
  }

  /** Whichever step makes a writer idle again, its key means the caller's block then. */
  lemma ReturnIsWritten(s: State, a: Action, v: nat)
    requires Inv(s) && Guard(s, a) && v < |s.writers| && s.writers[v].pc != WIdle
    ensures Safe(s, a) && v < |Do(s, a).writers|
    ensures Do(s, a).writers[v].pc == WIdle ==>
              HasLanded(s.writers[v].pc) && Logical(Do(s, a), WKey(s, v)) == Some(s.writers[v].data)
  {
    StepKeeps(s, a);
    CallGoesOn(s, a, v);
    if Do(s, a).writers[v].pc == WIdle {
      WriteTookEffect(s, v);
      StepRefinesMap(s, a, WKey(s, v));
    }
  }

  // ------------------------------------------------------------------------------------ the whole call

  /** Writer v is in a call before every action of the run. */
  predicate InCall(s: State, run: seq<Action>, v: nat)
    requires ValidRun(s, run)
    decreases |run|
  {
    run == [] || (v < |s.writers| && s.writers[v].pc != WIdle && InCall(Do(s, run[0]), run[1..], v))
  }

  /** How often writer v changes what a key means. */
  function Landings(s: State, run: seq<Action>, v: nat): nat
    requires ValidRun(s, run)
    decreases |run|
  {
    if run == [] then 0
    else (if run[0] == Write(v) && s.writers[v].pc == WSwap then 1 else 0) + Landings(Do(s, run[0]), run[1..], v)
  }

  lemma LastStep(s: State, run: seq<Action>, v: nat)
    requires ValidRun(s, run) && run != [] && InCall(s, run, v)
    requires v < |Do(s, run[0]).writers| && Do(s, run[0]).writers[v].pc == WIdle
    ensures run == [run[0]] && Exec(s, run) == Do(s, run[0])
    ensures Landings(s, run, v) == if run[0] == Write(v) && s.writers[v].pc == WSwap then 1 else 0
  {
    assert run[1..] == [];
    assert run == [run[0]] + run[1..];
  }

  /** A step that does not return: one landing fewer to come if it lands. */
  lemma FirstStep(s: State, a: Action, v: nat)
    requires Inv(s) && Guard(s, a) && v < |s.writers| && s.writers[v].pc != WIdle
    ensures Safe(s, a) && Inv(Do(s, a)) && v < |Do(s, a).writers|
    ensures var t := Do(s, a);
            t.writers[v].pc != WIdle ==>
              && WKey(t, v) == WKey(s, v) && t.writers[v].data == s.writers[v].data
              && (HasLanded(t.writers[v].pc) <==> HasLanded(s.writers[v].pc) || (a == Write(v) && s.writers[v].pc == WSwap))
  {
    StepKeeps(s, a);
    CallGoesOn(s, a, v);
  }

  /** The run of a call up to its return keeps this at every step. */
  predicate Written(s: State, run: seq<Action>, v: nat)
    requires ValidRun(s, run)
  {
    && v < |s.writers| && Logical(Exec(s, run), WKey(s, v)) == Some(s.writers[v].data)
    && Landings(s, run, v) == if HasLanded(s.writers[v].pc) then 0 else 1
  }

  lemma LastOfCall(s: State, run: seq<Action>, v: nat)
    requires Inv(s) && ValidRun(s, run) && run != [] && v < |s.writers| && s.writers[v].pc != WIdle && InCall(s, run, v)
    requires v < |Do(s, run[0]).writers| && Do(s, run[0]).writers[v].pc == WIdle
    ensures Written(s, run, v)
  {
    ReturnIsWritten(s, run[0], v);
    LastStep(s, run, v);
  }

  lemma OneBefore(s: State, run: seq<Action>, v: nat)
    requires Inv(s) && ValidRun(s, run) && run != [] && v < |s.writers| && s.writers[v].pc != WIdle
    requires v < |Do(s, run[0]).writers| && Do(s, run[0]).writers[v].pc != WIdle && Written(Do(s, run[0]), run[1..], v)
    ensures Written(s, run, v)
  {
    FirstStep(s, run[0], v);
  }

  lemma {:induction false} RestOfCall(s: State, run: seq<Action>, v: nat)
    requires Inv(s) && ValidRun(s, run) && v < |s.writers| && s.writers[v].pc != WIdle && InCall(s, run, v)
    requires v < |Exec(s, run).writers| && Exec(s, run).writers[v].pc == WIdle
    ensures Written(s, run, v)
    decreases |run|
  {
    FirstStep(s, run[0], v);
    if Do(s, run[0]).writers[v].pc == WIdle {
      LastOfCall(s, run, v);
    } else {
      RestOfCall(Do(s, run[0]), run[1..], v);
      OneBefore(s, run, v);
    }
  }

  /**
   Over every run from the beginning of a call to its return: the call takes effect exactly once, and when it returns its
   key means the caller's block. However often it waits for free inodes or finds its node invalidated, it goes on.
   */
  lemma CallIsWritten(s: State, v: nat, lbn: nat, data: Block, run: seq<Action>)
    requires Inv(s) && Guard(s, Begin(v, lbn, data))
    requires ValidRun(StepBegin(s, v, lbn, data), run) && InCall(StepBegin(s, v, lbn, data), run, v)
    requires var t := Exec(StepBegin(s, v, lbn, data), run); v < |t.writers| && t.writers[v].pc == WIdle
    ensures Logical(Exec(StepBegin(s, v, lbn, data), run), Key(v, lbn)) == Some(data)
    ensures Landings(StepBegin(s, v, lbn, data), run, v) == 1
  {
    StepKeeps(s, Begin(v, lbn, data));
    RestOfCall(StepBegin(s, v, lbn, data), run, v);
  }
}
