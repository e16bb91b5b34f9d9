/**
 The latch-free list lflist: append by swapping the tail, deletion by a mark bit, unlinking by compare-and-swap.

 Every access to shared memory is one step, so any number of appends, searches and removes interleave. A node is named
 by its append index, the order of the tail swaps; node 0 is the dummy head, which holds 0, so nobody looks for 0.
 `appender` and `winner` record which thread appended and which one marked a node, and `removed` the nodes for which
 remove has returned 1: history only.
 */
module LatchFreeList {
  import opened Queues

  const COUNT_RANGE := 0x1_0000_0000_0000_0000

  datatype Ref = Null | To(node: nat)

  /** A next pointer, with its mark bit apart. */
  datatype Link = Link(ref: Ref, marked: bool)

  /** A call of search, alone or from remove, with its left node and that node's next as read. */
  datatype Call = Call(data: nat, removal: bool, left: Ref, leftNext: Ref)

  datatype Thread =
    | Idle
    | Linking(last: nat, node: nat)
    | Counting
    | Starting(call: Call)
    | Passing(call: Call, t: nat, tNext: Link)
    | Arriving(call: Call, t: nat)
    | Unlinking(call: Call, right: nat)
    | Checking(call: Call, right: nat)
    | Testing(call: Call, curr: nat)
    | Reading(call: Call, curr: nat)
    | Marking(call: Call, curr: nat, succ: Link)
    | Discounting(node: nat)

  datatype State = State(
    data: seq<nat>, next: seq<Link>, tail: nat, count: nat, threads: seq<Thread>,
    appender: seq<nat>, winner: map<nat, nat>, removed: seq<nat>)

  function Size(s: State): nat { |s.data| }

  function Init(threads: nat): State
    requires threads > 0
  {
    State([0], [Link(Null, false)], 0, 0, seq(threads, _ => Idle), [0], map[], [])
  }

  // ------------------------------------------------------------------------------------------- steps

  datatype Action = Append(th: nat, data: nat) | Search(th: nat, data: nat) | Remove(th: nat, data: nat) | Step(th: nat)

  predicate Shape(s: State) {
    |s.next| == |s.appender| == Size(s) && s.tail < Size(s)
  }

  /** The pointers the step follows are not null. */
  predicate Follows(s: State, x: Thread)
    requires Shape(s)
  {
    match x
    case Linking(last, _) => last < Size(s)
    case Passing(_, t, _) => t < Size(s)
    case Arriving(_, t) => t < Size(s)
    case Unlinking(call, right) => call.left.To? && call.left.node < Size(s)
    case Checking(_, right) => right < Size(s)
    case Testing(_, curr) => curr < Size(s)
    case Reading(_, curr) => curr < Size(s)
    case Marking(_, curr, _) => curr < Size(s)
    case _ => true
  }

  predicate Enabled(s: State, a: Action) {
    && Shape(s) && Size(s) > 0 && a.th < |s.threads|
    && match a
       case Step(th) => s.threads[th] != Idle && Follows(s, s.threads[th])
       case _ => s.threads[a.th] == Idle && a.data != 0
  }

  function Move(s: State, th: nat, x: Thread): State
    requires th < |s.threads|
  {
    s.(threads := s.threads[th := x])
  }

  function AppendNode(s: State, th: nat, data: nat): State
    requires th < |s.threads|
  {
    Move(s, th, Linking(s.tail, Size(s))).(
    data := s.data + [data], next := s.next + [Link(Null, false)], tail := Size(s), appender := s.appender + [th])
  }

  /** The end of a traversal: is the found node already the left node's next? */
  function Found(call: Call, right: nat): Thread {
    if call.leftNext == To(right) then Checking(call, right) else Unlinking(call, right)
  }

  function Pass(s: State, call: Call, t: nat, tNext: Link): Thread
    requires t < Size(s)
  {
    if tNext.marked || s.data[t] != call.data then
      var call := if tNext.marked then call else call.(left := To(t), leftNext := tNext.ref);
      match tNext.ref
      case Null => Starting(call)
      case To(u) => if u == s.tail then Found(call, u) else Arriving(call, u)
    else
      Found(call, t)
  }

  function Unlink(s: State, th: nat, call: Call, right: nat): State
    requires Shape(s) && th < |s.threads| && call.left.To? && call.left.node < Size(s)
  {
    if s.next[call.left.node] == Link(call.leftNext, false) then
      Move(s, th, Checking(call, right)).(next := s.next[call.left.node := Link(To(right), false)])
    else
      Move(s, th, Starting(call))
  }

  function Check(s: State, call: Call, right: nat): Thread
    requires Shape(s) && right < Size(s)
  {
    if s.next[right].marked then Starting(call) else if call.removal then Testing(call, right) else Idle
  }

  /** remove calls search again. */
  function Again(call: Call): Thread { Starting(call.(leftNext := Null)) }

  function Mark(s: State, th: nat, call: Call, curr: nat, succ: Link): State
    requires Shape(s) && th < |s.threads| && curr < Size(s)
  {
    if s.next[curr] == succ then
      Move(s, th, Discounting(curr)).(next := s.next[curr := succ.(marked := true)], winner := s.winner[curr := th])
    else
      Move(s, th, Again(call))
  }

  function DoStep(s: State, th: nat): State
    requires Enabled(s, Step(th))
  {
    match s.threads[th]
    case Idle => s
    case Linking(last, node) => Move(s, th, Counting).(next := s.next[last := Link(To(node), false)])
    case Counting => Move(s, th, Idle).(count := (s.count + 1) % COUNT_RANGE)
    case Starting(call) => Move(s, th, Passing(call, 0, s.next[0]))
    case Passing(call, t, tNext) => Move(s, th, Pass(s, call, t, tNext))
    case Arriving(call, t) => Move(s, th, Passing(call, t, s.next[t]))
    case Unlinking(call, right) => Unlink(s, th, call, right)
    case Checking(call, right) => Move(s, th, Check(s, call, right))
    case Testing(call, curr) =>
      // not found: remove returns 0
      Move(s, th, if s.next[curr] == Link(Null, false) || s.data[curr] != call.data then Idle else Reading(call, curr))
    case Reading(call, curr) =>
      Move(s, th, if s.next[curr].marked then Again(call) else Marking(call, curr, s.next[curr]))
    case Marking(call, curr, succ) => Mark(s, th, call, curr, succ)
    case Discounting(node) =>
      Move(s, th, Idle).(count := (s.count + COUNT_RANGE - 1) % COUNT_RANGE, removed := s.removed + [node])
  }

  function Do(s: State, a: Action): State
    requires Enabled(s, a)
  {
    match a
    case Append(th, data) => AppendNode(s, th, data)
    case Search(th, data) => Move(s, th, Starting(Call(data, false, Null, Null)))
    case Remove(th, data) => Move(s, th, Starting(Call(data, true, Null, Null)))
    case Step(th) => DoStep(s, th)
  }

  // --------------------------------------------------------------------------------------- invariant

  /** The appender of node k has stored the link to it. */
  predicate Linked(s: State, k: nat)
    requires Shape(s) && 0 < k < Size(s)
  {
    s.appender[k] < |s.threads| && !(s.threads[s.appender[k]].Linking? && s.threads[s.appender[k]].node == k)
  }

  /** Every node strictly between i and j is marked. */
  predicate AllMarked(s: State, i: nat, j: nat)
    requires Shape(s) && j <= Size(s)
  {
    forall k: nat | i < k < j :: s.next[k].marked
  }

  /** Every node after i up to j is linked. */
  predicate AllLinked(s: State, i: nat, j: nat)
    requires Shape(s) && j < Size(s)
  {
    forall k: nat | i < k <= j :: Linked(s, k)
  }

  /** A pointer of node i, now or in the past. */
  predicate Points(s: State, i: nat, ref: Ref)
    requires Shape(s)
  {
    ref.To? ==> i < ref.node < Size(s) && AllMarked(s, i, ref.node) && AllLinked(s, i, ref.node)
  }

  predicate NodeOk(s: State, i: nat)
    requires Shape(s) && i < Size(s)
  {
    && (i > 0 ==> s.data[i] != 0 && s.appender[i] < |s.threads|)
    && (s.next[i].ref.To? <==> i + 1 < Size(s) && Linked(s, i + 1))
    && Points(s, i, s.next[i].ref)
    && (s.next[i].marked ==>
          i > 0 && s.next[i].ref.To? && i in s.winner && s.winner[i] < |s.threads|
          && (i in s.removed || s.threads[s.winner[i]] == Discounting(i)))
    && (!s.next[i].marked ==> i !in s.winner && i !in s.removed)
  }

  /** The traversal has reached t, and every node between the left node and t is marked. */
  predicate Reached(s: State, call: Call, t: nat)
    requires Shape(s)
  {
    && 0 < t < Size(s) && AllLinked(s, 0, t) && call.left.To? && call.leftNext.To?
    && call.left.node < call.leftNext.node <= t && AllMarked(s, call.left.node, t)
  }

  /** What thread th knows of the list while at x. */
  predicate Knows(s: State, th: nat, x: Thread)
    requires Shape(s)
  {
    match x
    case Idle => true
    case Linking(last, node) => last + 1 == node < Size(s) && s.appender[node] == th
    case Counting => true
    case Starting(call) => call.data != 0
    case Passing(call, t, tNext) =>
      && call.data != 0 && t < Size(s) && Points(s, t, tNext.ref)
      && (tNext.marked ==> t > 0 && tNext.ref.To? && s.next[t].marked)
      && (t > 0 ==> Reached(s, call, t))
    case Arriving(call, t) => call.data != 0 && Reached(s, call, t)
    case Unlinking(call, right) => call.data != 0 && Reached(s, call, right) && call.leftNext.node < right
    case Checking(call, right) => call.data != 0 && Reached(s, call, right)
    case Testing(call, curr) => call.data != 0 && 0 < curr < Size(s)
    case Reading(call, curr) => call.data != 0 && 0 < curr < Size(s) && s.data[curr] == call.data && s.next[curr].ref.To?
    case Marking(call, curr, succ) =>
      call.data != 0 && 0 < curr < Size(s) && s.data[curr] == call.data && succ.ref.To? && !succ.marked
    case Discounting(node) =>
      0 < node < Size(s) && s.next[node].marked && node in s.winner && s.winner[node] == th && node !in s.removed
  }

  predicate ThreadOk(s: State, th: nat)
    requires Shape(s) && th < |s.threads|
  {
    Knows(s, th, s.threads[th])
  }

  /** The nodes not marked, the dummy head apart. */
  function Unmarked(next: seq<Link>): nat {
    if |next| <= 1 then 0 else Unmarked(next[..|next| - 1]) + (if next[|next| - 1].marked then 0 else 1)
  }

  /** What a thread has changed in the list and not yet in the count. */
  function Owes(x: Thread): int {
    match x
    case Linking(_, _) => 1
    case Counting => 1
    case Discounting(_) => -1
    case _ => 0
  }

  function Owed(threads: seq<Thread>): int {
    if threads == [] then 0 else Owed(threads[..|threads| - 1]) + Owes(threads[|threads| - 1])
  }

  predicate CountOk(s: State) {
    s.count == (Unmarked(s.next) - Owed(s.threads)) % COUNT_RANGE
  }

  function Winning(x: Thread): nat { if x.Discounting? then 1 else 0 }

  /** The threads that have marked a node and not yet returned 1. */
  function Winners(threads: seq<Thread>): nat {
    if threads == [] then 0
    else Winners(threads[..|threads| - 1]) + Winning(threads[|threads| - 1])
  }

  /** Every node appended is live, or some remove has returned 1 for it, or is about to. */
  predicate NodesOk(s: State) {
    Size(s) == 1 + Unmarked(s.next) + |s.removed| + Winners(s.threads)
  }

  ghost predicate HistoryOk(s: State) {
    NoDup(s.removed) && (forall i | i in s.removed :: i < Size(s)) && (forall i | i in s.winner :: i < Size(s))
  }

  ghost predicate Inv(s: State) {
    && Shape(s) && s.tail + 1 == Size(s) && s.data[0] == 0
    && (forall i: nat | i < Size(s) :: NodeOk(s, i))
    && (forall th: nat | th < |s.threads| :: ThreadOk(s, th))
    && HistoryOk(s)
    && CountOk(s) && NodesOk(s)
  }

  lemma InitInv(threads: nat)
    requires threads > 0
    ensures Inv(Init(threads))
  {
    IdleOwesNothing(threads);
  }

  lemma {:induction false} IdleOwesNothing(n: nat)
    ensures Owed(seq(n, _ => Idle)) == 0 && Winners(seq(n, _ => Idle)) == 0
  {
    if n > 0 {
      IdleOwesNothing(n - 1);
      assert seq(n, _ => Idle)[..n - 1] == seq(n - 1, _ => Idle);
    }
  }

  // ------------------------------------------------------------------------------ how a step changes the list

  /** What no step takes back. */
  predicate Grows(s: State, n: State) {
    && Shape(s) && Shape(n) && Size(s) <= Size(n) && |n.threads| == |s.threads|
    && (forall k: nat | k < Size(s) :: n.data[k] == s.data[k] && n.appender[k] == s.appender[k])
    && (forall k: nat | k < Size(s) && s.next[k].marked :: n.next[k] == s.next[k])
    && (forall k: nat | k < Size(s) && s.next[k].ref.To? :: n.next[k].ref.To?)
    && (forall k: nat | 0 < k < Size(s) && Linked(s, k) :: Linked(n, k))
  }

  /** What the invariant says of the acting thread and of the one node it may write to. */
  ghost predicate Ready(s: State, a: Action) {
    && Enabled(s, a) && s.tail + 1 == Size(s) && s.data[0] == 0 && ThreadOk(s, a.th)
    && (a.Step? ==>
          match s.threads[a.th]
          case Linking(last, _) => NodeOk(s, last)
          case Starting(_) => NodeOk(s, 0)
          case Arriving(_, t) => NodeOk(s, t)
          case Unlinking(call, _) => NodeOk(s, call.left.node)
          case Reading(_, curr) => NodeOk(s, curr)
          case Testing(_, curr) => NodeOk(s, curr)
          case Marking(_, curr, _) => NodeOk(s, curr)
          case Discounting(node) => NodeOk(s, node)
          case _ => true)
  }

  lemma InvReady(s: State, a: Action)
    requires Inv(s) && Enabled(s, a)
    ensures Ready(s, a)
  {
    assert ThreadOk(s, a.th);
  }

  lemma AppendGrows(s: State, a: Action)
    requires Ready(s, a) && a.Append?
    ensures Grows(s, Do(s, a))
  {
  }

  lemma LinkGrows(s: State, th: nat)
    requires Ready(s, Step(th)) && s.threads[th].Linking?
    ensures Grows(s, Do(s, Step(th)))
  {
  }

  lemma UnlinkGrows(s: State, th: nat)
    requires Ready(s, Step(th)) && s.threads[th].Unlinking?
    ensures Grows(s, Do(s, Step(th)))
  {
  }

  lemma MarkGrows(s: State, th: nat)
    requires Ready(s, Step(th)) && s.threads[th].Marking?
    ensures Grows(s, Do(s, Step(th)))
  {
  }

  /** The thread neither appends, nor links, nor swaps a pointer. */
  predicate LeavesList(s: State, a: Action)
    requires Enabled(s, a)
  {
    !a.Append? && (a.Step? ==> !s.threads[a.th].Linking? && !s.threads[a.th].Unlinking? && !s.threads[a.th].Marking?)
  }

  lemma PlainGrows(s: State, a: Action)
    requires Ready(s, a) && LeavesList(s, a)
    ensures Grows(s, Do(s, a)) && Do(s, a).next == s.next && Do(s, a).data == s.data && Do(s, a).winner == s.winner
    ensures Do(s, a).appender == s.appender && Do(s, a).tail == s.tail
  {
  }

  lemma StepGrows(s: State, a: Action)
    requires Ready(s, a)
    ensures Grows(s, Do(s, a))
  {
    match a
    case Append(_, _) => AppendGrows(s, a);
    case Search(_, _) => PlainGrows(s, a);
    case Remove(_, _) => PlainGrows(s, a);
    case Step(th) =>
      match s.threads[th]
      case Linking(_, _) => LinkGrows(s, th);
      case Unlinking(_, _) => UnlinkGrows(s, th);
      case Marking(_, _, _) => MarkGrows(s, th);
      case _ => PlainGrows(s, a);
  }

  // ------------------------------------------------------------------------------ steps keep the invariant

  /** What a thread knows stays true, and its own writes it makes itself. */
  lemma StillKnows(s: State, n: State, th: nat, x: Thread)
    requires Grows(s, n) && Knows(s, th, x)
    requires x.Discounting? ==> x.node in n.winner && n.winner[x.node] == th && x.node !in n.removed
    ensures Knows(n, th, x)
  {
  }

  lemma PassKnows(s: State, th: nat)
    requires Ready(s, Step(th)) && s.threads[th].Passing?
    ensures var x := s.threads[th]; Knows(s, th, Pass(s, x.call, x.t, x.tNext))
  {
    var x := s.threads[th];
    if x.tNext.ref.To? && x.t > 0 {
      assert AllLinked(s, 0, x.tNext.ref.node);
    }
  }

  /** What the thread will know after the step is true before it, the mark it sets itself apart. */
  lemma SearchKnows(s: State, th: nat)
    requires Ready(s, Step(th))
    requires var x := s.threads[th]; x.Starting? || x.Arriving? || x.Unlinking? || x.Checking?
    ensures Knows(s, th, Do(s, Step(th)).threads[th])
    ensures !Do(s, Step(th)).threads[th].Discounting?
  {
  }

  lemma RemoveKnows(s: State, th: nat)
    requires Ready(s, Step(th))
    requires var x := s.threads[th]; x.Reading? || x.Testing? || x.Linking? || x.Counting? || x.Discounting?
    ensures Knows(s, th, Do(s, Step(th)).threads[th])
    ensures !Do(s, Step(th)).threads[th].Discounting?
  {
  }

  lemma MarkKnows(s: State, th: nat)
    requires Ready(s, Step(th)) && s.threads[th].Marking?
    ensures ThreadOk(Do(s, Step(th)), th)
  {
  }

  lemma StepKnows(s: State, th: nat)
    requires Ready(s, Step(th)) && Grows(s, Do(s, Step(th)))
    ensures ThreadOk(Do(s, Step(th)), th)
  {
    var n := Do(s, Step(th));
    var x := s.threads[th];
    if x.Marking? {
      MarkKnows(s, th);
    } else {
      if x.Passing? {
        PassKnows(s, th);
      } else if x.Starting? || x.Arriving? || x.Unlinking? || x.Checking? {
        SearchKnows(s, th);
      } else {
        RemoveKnows(s, th);
      }
      StillKnows(s, n, th, n.threads[th]);
    }
  }

  lemma ClaimKnows(s: State, a: Action)
    requires Ready(s, a) && !a.Step?
    ensures ThreadOk(Do(s, a), a.th)
  {
  }

  /** A node that the step does not write to. */
  lemma SameNode(s: State, n: State, i: nat)
    requires Grows(s, n) && i < Size(s) && NodeOk(s, i) && n.next[i] == s.next[i]
    requires i + 1 < Size(n) && Linked(n, i + 1) ==> i + 1 < Size(s) && Linked(s, i + 1)
    requires i in n.winner <==> i in s.winner
    requires i in n.removed <==> i in s.removed
    requires i in s.winner && i !in s.removed && s.winner[i] < |s.threads| ==>
               n.winner[i] == s.winner[i] && n.threads[s.winner[i]] == s.threads[s.winner[i]]
    requires i in s.winner ==> n.winner[i] == s.winner[i]
    ensures NodeOk(n, i)
  {
  }

  lemma AppendNodeOk(s: State, a: Action, i: nat)
    requires Ready(s, a) && a.Append? && Grows(s, Do(s, a)) && i < Size(s) && NodeOk(s, i)
    requires i + 1 < Size(s) ==> NodeOk(s, i + 1)
    ensures NodeOk(Do(s, a), i)
  {
    SameNode(s, Do(s, a), i);
  }

  lemma LinkNodeOk(s: State, th: nat, i: nat)
    requires Ready(s, Step(th)) && s.threads[th].Linking? && Grows(s, Do(s, Step(th))) && i < Size(s) && NodeOk(s, i)
    ensures NodeOk(Do(s, Step(th)), i)
  {
    if i != s.threads[th].last { SameNode(s, Do(s, Step(th)), i); }
  }

  lemma UnlinkNodeOk(s: State, th: nat, i: nat)
    requires Ready(s, Step(th)) && s.threads[th].Unlinking? && Grows(s, Do(s, Step(th))) && i < Size(s) && NodeOk(s, i)
    ensures NodeOk(Do(s, Step(th)), i)
  {
    var n, x := Do(s, Step(th)), s.threads[th];
    if n.next[i] == s.next[i] {
      SameNode(s, n, i);
    } else {
      assert Points(s, i, To(x.right));
    }
  }

  lemma MarkNodeOk(s: State, th: nat, i: nat)
    requires Ready(s, Step(th)) && s.threads[th].Marking? && Grows(s, Do(s, Step(th))) && i < Size(s) && NodeOk(s, i)
    ensures NodeOk(Do(s, Step(th)), i)
  {
    var n, x := Do(s, Step(th)), s.threads[th];
    if n.next[i] == s.next[i] { SameNode(s, n, i); }
  }

  lemma PlainNodeOk(s: State, a: Action, i: nat)
    requires Ready(s, a) && LeavesList(s, a) && i < Size(s) && NodeOk(s, i)
    ensures NodeOk(Do(s, a), i)
  {
    PlainGrows(s, a);
    var n := Do(s, a);
    if a.Step? && s.threads[a.th].Discounting? && i == s.threads[a.th].node {
      assert i in n.removed;
    } else {
      SameNode(s, n, i);
    }
  }

  lemma NodeKeeps(s: State, a: Action, i: nat)
    requires Ready(s, a) && Grows(s, Do(s, a)) && i < Size(s) && NodeOk(s, i) && (i + 1 < Size(s) ==> NodeOk(s, i + 1))
    ensures NodeOk(Do(s, a), i)
  {
    if a.Append? {
      AppendNodeOk(s, a, i);
    } else if LeavesList(s, a) {
      PlainNodeOk(s, a, i);
    } else if s.threads[a.th].Linking? {
      LinkNodeOk(s, a.th, i);
    } else if s.threads[a.th].Unlinking? {
      UnlinkNodeOk(s, a.th, i);
    } else {
      MarkNodeOk(s, a.th, i);
    }
  }

  // -------------------------------------------------------------------------------------- accounting

  lemma {:induction false} OneThread(threads: seq<Thread>, th: nat, x: Thread)
    requires th < |threads|
    ensures Owed(threads[th := x]) == Owed(threads) - Owes(threads[th]) + Owes(x)
    ensures Winners(threads[th := x]) == Winners(threads) - Winning(threads[th]) + Winning(x)
  {
    var n := |threads| - 1;
    if th < n {
      OneThread(threads[..n], th, x);
      assert threads[th := x][..n] == threads[..n][th := x];
    } else {
      assert threads[th := x][..n] == threads[..n];
    }
  }

  lemma {:induction false} OneNode(next: seq<Link>, i: nat, link: Link)
    requires i < |next|
    ensures Unmarked(next[i := link]) == Unmarked(next)
              + (if i == 0 || next[i].marked == link.marked then 0 else if link.marked then -1 else 1)
  {
    var n := |next| - 1;
    if i < n {
      OneNode(next[..n], i, link);
      assert next[i := link][..n] == next[..n][i := link];
    } else {
      assert next[i := link][..n] == next[..n];
    }
  }

  lemma Balance(live: int, owed: int, gained: int, counted: int, count: int)
    requires count == (live - owed) % COUNT_RANGE
    ensures var now := (live + gained - (owed + gained - counted)) % COUNT_RANGE;
            && (counted == 0 ==> now == count)
            && (counted == 1 ==> now == (count + 1) % COUNT_RANGE)
            && (counted == -1 ==> now == (count + COUNT_RANGE - 1) % COUNT_RANGE)
  {
  }

  /** How many live nodes a step adds. */
  function Gained(s: State, a: Action): int
    requires Enabled(s, a)
  {
    if a.Append? then 1
    else if a.Step? && s.threads[a.th].Marking? && s.next[s.threads[a.th].curr] == s.threads[a.th].succ then -1
    else 0
  }

  lemma MarkGains(s: State, th: nat)
    requires Ready(s, Step(th)) && s.threads[th].Marking?
    ensures Unmarked(Do(s, Step(th)).next) == Unmarked(s.next) + Gained(s, Step(th))
  {
    var x := s.threads[th];
    OneNode(s.next, x.curr, x.succ.(marked := true));
  }

  lemma UnlinkGains(s: State, th: nat)
    requires Ready(s, Step(th)) && s.threads[th].Unlinking?
    ensures Unmarked(Do(s, Step(th)).next) == Unmarked(s.next)
  {
    var x := s.threads[th];
    OneNode(s.next, x.call.left.node, Link(To(x.right), false));
  }

  lemma StepGains(s: State, a: Action)
    requires Ready(s, a)
    ensures Unmarked(Do(s, a).next) == Unmarked(s.next) + Gained(s, a)
  {
    if a.Append? {
      assert Do(s, a).next[..Size(s)] == s.next;
    } else if LeavesList(s, a) {
      PlainGrows(s, a);
    } else {
      match s.threads[a.th]
      case Linking(last, node) => OneNode(s.next, last, Link(To(node), false));
      case Unlinking(_, _) => UnlinkGains(s, a.th);
      case Marking(_, _, _) => MarkGains(s, a.th);
    }
  }

  function Counted(x: Thread): int { if x.Counting? then 1 else if x.Discounting? then -1 else 0 }

  /** What a step does to the count, the history and the acting thread, all told. */
  ghost predicate Books(s: State, n: State, th: nat, gained: int) {
    && th < |s.threads| && |n.threads| == |s.threads| && n.threads == s.threads[th := n.threads[th]]
    && Owes(n.threads[th]) == Owes(s.threads[th]) + gained - Counted(s.threads[th])
    && Winning(n.threads[th]) == (if gained == -1 then 1 else 0)
    && Size(n) == Size(s) + (if gained == 1 then 1 else 0)
    && |n.removed| == |s.removed| + Winning(s.threads[th])
    && n.count == (if Counted(s.threads[th]) == 1 then (s.count + 1) % COUNT_RANGE
                   else if Counted(s.threads[th]) == -1 then (s.count + COUNT_RANGE - 1) % COUNT_RANGE
                   else s.count)
    && -1 <= gained <= 1
  }

  lemma StepBooks(s: State, a: Action)
    requires Ready(s, a)
    ensures Books(s, Do(s, a), a.th, Gained(s, a))
  {
  }

  lemma BooksBalance(s: State, n: State, th: nat, gained: int)
    requires Books(s, n, th, gained) && Unmarked(n.next) == Unmarked(s.next) + gained && CountOk(s) && NodesOk(s)
    ensures CountOk(n) && NodesOk(n)
  {
    OneThread(s.threads, th, n.threads[th]);
    Balance(Unmarked(s.next), Owed(s.threads), gained, Counted(s.threads[th]), s.count);
  }

  lemma StepAccounts(s: State, a: Action)
    requires Ready(s, a) && CountOk(s) && NodesOk(s)
    ensures CountOk(Do(s, a)) && NodesOk(Do(s, a))
  {
    StepGains(s, a);
    StepBooks(s, a);
    BooksBalance(s, Do(s, a), a.th, Gained(s, a));
  }

  lemma NewNodeOk(s: State, a: Action)
    requires Ready(s, a) && a.Append? && HistoryOk(s)
    ensures NodeOk(Do(s, a), Size(s))
  {
  }

  lemma OtherThread(s: State, a: Action, th: nat)
    requires Ready(s, a) && Grows(s, Do(s, a)) && th < |s.threads| && th != a.th && ThreadOk(s, th)
    ensures ThreadOk(Do(s, a), th)
  {
    StillKnows(s, Do(s, a), th, s.threads[th]);
  }

  lemma ThreadKeeps(s: State, a: Action, th: nat)
    requires Ready(s, a) && Grows(s, Do(s, a)) && th < |s.threads| && ThreadOk(s, th)
    ensures ThreadOk(Do(s, a), th)
  {
    if th != a.th {
      OtherThread(s, a, th);
    } else if a.Step? {
      StepKnows(s, th);
    } else {
      ClaimKnows(s, a);
    }
  }

  lemma HistoryKeeps(s: State, a: Action)
    requires Ready(s, a) && HistoryOk(s)
    ensures HistoryOk(Do(s, a))
  {
    if a.Step? && s.threads[a.th].Discounting? { PushFacts(s.removed, s.threads[a.th].node); }
  }

  lemma NodesKeep(s: State, a: Action)
    requires Inv(s) && Ready(s, a) && Grows(s, Do(s, a))
    ensures var n := Do(s, a); forall i: nat | i < Size(n) :: NodeOk(n, i)
  {
    var n := Do(s, a);
    forall i: nat | i < Size(n) ensures NodeOk(n, i) {
      if i < Size(s) {
        assert NodeOk(s, i);
        NodeKeeps(s, a, i);
      } else {
        NewNodeOk(s, a);
      }
    }
  }

  lemma StepKeeps(s: State, a: Action)
    requires Inv(s) && Enabled(s, a)
    ensures Inv(Do(s, a))
  {
    InvReady(s, a);
    StepGrows(s, a);
    StepAccounts(s, a);
    NodesKeep(s, a);
    var n := Do(s, a);
    forall th: nat | th < |n.threads| ensures ThreadOk(n, th) {
      assert ThreadOk(s, th);
      ThreadKeeps(s, a, th);
    }
    HistoryKeeps(s, a);
  }

  // -------------------------------------------------------------------------------------------- runs

  predicate ValidRun(s: State, run: seq<Action>)
    decreases |run|
  {
    run == [] || (Enabled(s, run[0]) && ValidRun(Do(s, run[0]), run[1..]))
  }

  function Exec(s: State, run: seq<Action>): State
    requires ValidRun(s, run)
    decreases |run|
  {
    if run == [] then s else Exec(Do(s, run[0]), run[1..])
  }

  lemma {:induction false} RunKeeps(s: State, run: seq<Action>)
    requires Inv(s) && ValidRun(s, run)
    ensures Inv(Exec(s, run))
    decreases |run|
  {
    if run != [] {
      StepKeeps(s, run[0]);
      RunKeeps(Do(s, run[0]), run[1..]);
    }
  }

  ghost predicate Reachable(s: State) {
    exists threads: nat, run: seq<Action> ::
      threads > 0 && ValidRun(Init(threads), run) && s == Exec(Init(threads), run)
  }

  lemma ReachableInv(s: State)
    requires Reachable(s)
    ensures Inv(s)
  {
    var threads, run :| threads > 0 && ValidRun(Init(threads), run) && s == Exec(Init(threads), run);
    InitInv(threads);
    RunKeeps(Init(threads), run);
  }

  // ---------------------------------------------------------------------------------------- theorems

  /** No operation ever follows a null pointer: whoever is not idle can take its next step. */
  lemma NeverStuck(s: State, th: nat)
    requires Reachable(s) && th < |s.threads| && s.threads[th] != Idle
    ensures Enabled(s, Step(th))
  {
    ReachableInv(s);
    assert ThreadOk(s, th);
  }

  /** Following next pointers from node i leads to node m. */
  predicate Leads(s: State, i: nat, m: nat)
    requires Shape(s) && m < Size(s)
    decreases m - i
  {
    i == m || (i < m && s.next[i].ref.To? && i < s.next[i].ref.node && Leads(s, s.next[i].ref.node, m))
  }

  lemma {:induction false} LiveFrom(s: State, i: nat, m: nat)
    requires Inv(s) && i <= m < Size(s) && !s.next[m].marked && AllLinked(s, 0, m)
    ensures Leads(s, i, m)
    decreases m - i
  {
    if i < m {
      assert NodeOk(s, i) && Linked(s, i + 1);
      LiveFrom(s, s.next[i].ref.node, m);
    }
  }

  /** A live node is found from the head as soon as every earlier append has stored its link. */
  lemma LiveIsReachable(s: State, m: nat)
    requires Reachable(s) && Shape(s) && m < Size(s) && !s.next[m].marked && AllLinked(s, 0, m)
    ensures Leads(s, 0, m)
  {
    ReachableInv(s);
    LiveFrom(s, 0, m);
  }

  /** The swap in search takes out marked nodes only, and puts its left node's next further on. */
  lemma UnlinkDropsNoLiveNode(s: State, th: nat)
    requires Reachable(s) && Enabled(s, Step(th)) && s.threads[th].Unlinking?
    ensures var x, n := s.threads[th], Do(s, Step(th));
            && x.call.left.node < x.right < Size(s) && AllMarked(s, x.call.left.node, x.right)
            && (n.next != s.next ==>
                  && x.call.leftNext.To? && s.next[x.call.left.node] == Link(x.call.leftNext, false)
                  && x.call.left.node < x.call.leftNext.node < x.right
                  && n.next == s.next[x.call.left.node := Link(To(x.right), false)])
  {
    ReachableInv(s);
    assert ThreadOk(s, th);
  }

  /**
   A search turns to the node it has found only with no node between it and the live node before: it has read that node's
   next, unmarked, and found the pointer there, or has just put it there. If its swap fails, it starts again.
   */
  lemma FoundIsNext(s: State, th: nat)
    requires Reachable(s) && Enabled(s, Step(th)) && !s.threads[th].Checking?
    ensures var x, n := Do(s, Step(th)).threads[th], Do(s, Step(th));
            x.Checking? ==>
              && x.call.left.To? && x.call.left.node < x.right < Size(s)
              && (x.call.leftNext == To(x.right) || n.next[x.call.left.node] == Link(To(x.right), false))
    ensures s.threads[th].Unlinking? && Do(s, Step(th)).next == s.next && !Do(s, Step(th)).threads[th].Checking? ==>
              Do(s, Step(th)).threads[th] == Starting(s.threads[th].call)
  {
    ReachableInv(s);
    assert ThreadOk(s, th);
  }

  /** Every pointer leads to a later node, and what it jumps over is marked. */
  lemma PointersGoForward(s: State, i: nat)
    requires Reachable(s) && Shape(s) && i < Size(s) && s.next[i].ref.To?
    ensures i < s.next[i].ref.node < Size(s) && AllMarked(s, i, s.next[i].ref.node)
  {
    ReachableInv(s);
    assert NodeOk(s, i);
  }

  /** A marked node's next never changes again, and a null next is neither marked nor swapped: only the append of the
      following node writes it. */
  lemma WhoWritesNext(s: State, a: Action, i: nat)
    requires Reachable(s) && Enabled(s, a) && i < Size(s)
    ensures s.next[i].marked ==> Do(s, a).next[i] == s.next[i]
    ensures s.next[i].ref.Null? ==> !s.next[i].marked
    ensures s.next[i].ref.Null? && Do(s, a).next[i] != s.next[i] ==>
              a.Step? && s.threads[a.th] == Linking(i, i + 1) && Do(s, a).next[i] == Link(To(i + 1), false)
    ensures a.Step? && s.threads[a.th] == Linking(i, i + 1) ==> s.next[i] == Link(Null, false)
  {
    ReachableInv(s);
    InvReady(s, a);
    assert NodeOk(s, i);
    StepGrows(s, a);
  }

  /** A node goes from live to marked in one step of one remove for its own data, which from then on is the one that
      will return 1 for it. */
  lemma MarkedByItsRemove(s: State, a: Action, m: nat)
    requires Reachable(s) && Enabled(s, a) && m < Size(s) && !s.next[m].marked && Do(s, a).next[m].marked
    ensures a.Step? && s.threads[a.th].Marking? && s.threads[a.th].curr == m
    ensures s.data[m] == s.threads[a.th].call.data != 0
    ensures Do(s, a).threads[a.th] == Discounting(m) && m !in s.removed
  {
    ReachableInv(s);
    InvReady(s, a);
    assert NodeOk(s, m);
  }

  /** A remove that returns 1 is the only one ever to do so for its node, which is marked and stays so. */
  lemma RemovesOnce(s: State, th: nat)
    requires Reachable(s) && Enabled(s, Step(th)) && s.threads[th].Discounting?
    ensures var m := s.threads[th].node;
            && 0 < m < Size(s) && s.next[m].marked && m !in s.removed && Do(s, Step(th)).removed == s.removed + [m]
    ensures forall other: nat | other < |s.threads| && other != th :: s.threads[other] != s.threads[th]
  {
    ReachableInv(s);
    assert ThreadOk(s, th);
    forall other: nat | other < |s.threads| && other != th ensures s.threads[other] != s.threads[th] {
      assert ThreadOk(s, other);
    }
  }

  /** In every state the count is the live nodes, less the appends not yet counted, plus the removes not yet counted;
      and the live nodes, the nodes removes have returned 1 for and the nodes about to be are all that was appended. */
  lemma Accounting(s: State)
    requires Reachable(s)
    ensures s.count == (Unmarked(s.next) - Owed(s.threads)) % COUNT_RANGE
    ensures Size(s) - 1 == Unmarked(s.next) + |s.removed| + Winners(s.threads) && NoDup(s.removed)
  {
    ReachableInv(s);
  }

  predicate Quiet(s: State) {
    forall th: nat | th < |s.threads| :: s.threads[th] == Idle
  }

  lemma {:induction false} QuietOwesNothing(threads: seq<Thread>)
    requires forall th: nat | th < |threads| :: threads[th] == Idle
    ensures Owed(threads) == 0 && Winners(threads) == 0
  {
    if threads != [] { QuietOwesNothing(threads[..|threads| - 1]); }
  }

  /** With nothing in flight the count is the number of live nodes, every live node is found from the head, and the
      marked nodes are the ones removes have returned 1 for. */
  lemma QuietList(s: State, m: nat)
    requires Reachable(s) && Quiet(s) && Shape(s) && 0 < m < Size(s)
    ensures s.count == (Size(s) - 1 - |s.removed|) % COUNT_RANGE
    ensures s.next[m].marked <==> m in s.removed
    ensures m !in s.removed ==> Leads(s, 0, m)
  {
    ReachableInv(s);
    QuietOwesNothing(s.threads);
    assert NodeOk(s, m);
    if m !in s.removed {
      forall k: nat | 0 < k <= m ensures Linked(s, k) { assert NodeOk(s, k); }
      LiveFrom(s, 0, m);
    }
  }
}
