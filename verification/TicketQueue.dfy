/**
 The ticket queue lfqueue, shared by any number of producers and consumers.

 An operation takes a ticket with fetch_add, spins until its slot is its own, touches the slot, and publishes. Each
 of these is one step; a failed spin test changes nothing and is no step. `inputs` and `outputs` record, per ticket,
 what was enqueued and what was returned, and `pHolder` and `cHolder` which thread took a ticket: history only.
 Counters are unbounded and the queue is never closed.
 */
module TicketQueue {

  type Value = nat

  datatype Thread =
    | Idle
    | PSpin(t: nat, v: Value) | PStore(t: nat, v: Value) | PPublish(t: nat, v: Value)
    | CSpin(t: nat) | CRead(t: nat) | CPublish(t: nat, v: Value)

  datatype State = State(
    pCount: nat, cCount: nat,
    values: seq<Value>, pCounts: seq<nat>, cCounts: seq<nat>,
    threads: seq<Thread>,
    inputs: map<nat, Value>, outputs: map<nat, Value>,
    pHolder: map<nat, nat>, cHolder: map<nat, nat>)

  function Capacity(s: State): nat { |s.values| }

  /** t % n, by repeated subtraction. */
  function SlotOf(t: nat, n: nat): (i: nat)
    requires n > 0
    ensures i < n
  {
    if t < n then t else SlotOf(t - n, n)
  }

  lemma {:induction false} SlotIsModulo(t: nat, n: nat)
    requires n > 0
    ensures SlotOf(t, n) == t % n
  {
    if t >= n {
      SlotIsModulo(t - n, n);
      var q, r := (t - n) / n, (t - n) % n;
      assert t == n * (q + 1) + r;
      ModuloIsRemainder(t, n, q + 1, r);
    } else {
      ModuloIsRemainder(t, n, 0, t);
    }
  }

  lemma ModuloIsRemainder(t: nat, n: nat, q: nat, r: nat)
    requires n > 0 && t == n * q + r && r < n
    ensures t % n == r
  {
    assert t == n * (t / n) + t % n;
    assert n * (t / n - q) == r - t % n;
    ProductIsBig(n, t / n - q);
  }

  lemma ProductIsBig(n: int, d: int)
    requires n > 0
    ensures d >= 1 ==> n * d >= n
    ensures d <= -1 ==> n * d <= -n
  {
  }

  /** Tickets of one slot are a multiple of the capacity apart. */
  lemma {:induction false} SameSlot(a: nat, b: nat, n: nat)
    requires n > 0 && SlotOf(a, n) == SlotOf(b, n) && a < b
    ensures a + n <= b
  {
    if a >= n { SameSlot(a - n, b - n, n); }
  }

  lemma NotBetween(t: nat, i: nat, n: nat)
    requires n > 0 && SlotOf(t, n) == SlotOf(i, n)
    ensures !(i < t < i + n)
  {
    if i < t { SameSlot(i, t, n); }
  }

  function Slot(s: State, t: nat): nat
    requires Capacity(s) > 0
  {
    SlotOf(t, Capacity(s))
  }

  predicate Shape(s: State) {
    && Capacity(s) > 0 && |s.pCounts| == |s.cCounts| == Capacity(s)
    && Capacity(s) <= s.pCount + 1 && Capacity(s) <= s.cCount + 1
  }

  predicate IsProducer(x: Thread) { x.PSpin? || x.PStore? || x.PPublish? }

  predicate IsConsumer(x: Thread) { x.CSpin? || x.CRead? || x.CPublish? }

  /** lfqueue(capacity), before any operation: slot i awaits producer ticket i + capacity. */
  function Init(values: seq<Value>, threads: nat): State
    requires |values| > 0
  {
    State(|values| - 1, |values| - 1, values, seq(|values|, i => i), seq(|values|, i => i + |values|),
          seq(threads, _ => Idle), map[], map[], map[], map[])
  }

  // ------------------------------------------------------------------------------------------- steps

  datatype Action = Enqueue(th: nat, v: Value) | Dequeue(th: nat) | Step(th: nat)

  predicate Enabled(s: State, a: Action) {
    && Shape(s) && a.th < |s.threads|
    && match a
       case Enqueue(th, _) => s.threads[th] == Idle
       case Dequeue(th) => s.threads[th] == Idle
       case Step(th) =>
         match s.threads[th]
         case Idle => false
         case PSpin(t, _) => s.cCounts[Slot(s, t)] == t
         case CSpin(t) => s.pCounts[Slot(s, t)] == t
         case _ => true
  }

  function Do(s: State, a: Action): State
    requires Enabled(s, a)
  {
    match a
    case Enqueue(th, v) =>
      var t := s.pCount + 1;
      s.(pCount := t, threads := s.threads[th := PSpin(t, v)], inputs := s.inputs[t := v], pHolder := s.pHolder[t := th])
    case Dequeue(th) =>
      var t := s.cCount + 1;
      s.(cCount := t, threads := s.threads[th := CSpin(t)], cHolder := s.cHolder[t := th])
    case Step(th) =>
      match s.threads[th]
      case Idle => s
      case PSpin(t, v) => s.(threads := s.threads[th := PStore(t, v)])
      case PStore(t, v) => s.(values := s.values[Slot(s, t) := v], threads := s.threads[th := PPublish(t, v)])
      case PPublish(t, _) => s.(pCounts := s.pCounts[Slot(s, t) := t], threads := s.threads[th := Idle])
      case CSpin(t) => s.(threads := s.threads[th := CRead(t)])
      case CRead(t) => s.(threads := s.threads[th := CPublish(t, s.values[Slot(s, t)])])
      case CPublish(t, v) =>
        s.(cCounts := s.cCounts[Slot(s, t) := t + Capacity(s)], threads := s.threads[th := Idle], outputs := s.outputs[t := v])
  }

  // --------------------------------------------------------------------------------------- invariant

  /** A slot is empty and awaits producer ticket C = P + capacity, or is full and awaits consumer ticket C = P. */
  predicate SlotOk(s: State, i: nat)
    requires Shape(s) && i < Capacity(s)
  {
    var P, C := s.pCounts[i], s.cCounts[i];
    && Slot(s, P) == i && Slot(s, C) == i
    && (C == P + Capacity(s)
        || (C == P && Capacity(s) <= P && P in s.inputs && s.values[i] == s.inputs[P]))
    && P <= s.pCount && C <= s.cCount + Capacity(s)
  }

  predicate ThreadOk(s: State, th: nat)
    requires Shape(s) && th < |s.threads|
  {
    match s.threads[th]
    case Idle => true
    case PSpin(t, v) =>
      Capacity(s) <= t <= s.pCount && s.pCounts[Slot(s, t)] < t && Holds(s.pHolder, t, th) && t in s.inputs && s.inputs[t] == v
    case PStore(t, v) =>
      && Capacity(s) <= t <= s.pCount && s.cCounts[Slot(s, t)] == t && s.pCounts[Slot(s, t)] < t
      && Holds(s.pHolder, t, th) && t in s.inputs && s.inputs[t] == v
    case PPublish(t, v) =>
      && Capacity(s) <= t <= s.pCount && s.cCounts[Slot(s, t)] == t && s.pCounts[Slot(s, t)] < t
      && Holds(s.pHolder, t, th) && t in s.inputs && s.inputs[t] == v && s.values[Slot(s, t)] == v
    case CSpin(t) => Capacity(s) <= t <= s.cCount && s.cCounts[Slot(s, t)] <= t && Holds(s.cHolder, t, th)
    case CRead(t) =>
      Capacity(s) <= t <= s.cCount && s.cCounts[Slot(s, t)] == t == s.pCounts[Slot(s, t)] && Holds(s.cHolder, t, th)
    case CPublish(t, v) =>
      && Capacity(s) <= t <= s.cCount && s.cCounts[Slot(s, t)] == t == s.pCounts[Slot(s, t)] && Holds(s.cHolder, t, th)
      && v == s.values[Slot(s, t)]
  }

  predicate Holds(m: map<nat, nat>, t: nat, th: nat) {
    t in m && m[t] == th
  }

  /** A claimed and unpublished producer ticket is in its holder's hands; likewise for a claimed and unread one. */
  predicate TicketOk(s: State, t: nat)
    requires Shape(s)
  {
    && (t in s.inputs <==> Capacity(s) <= t <= s.pCount)
    && (Capacity(s) <= t <= s.pCount && s.pCounts[Slot(s, t)] < t ==>
          t in s.pHolder && s.pHolder[t] < |s.threads| && IsProducer(s.threads[s.pHolder[t]]) && s.threads[s.pHolder[t]].t == t)
    && (Capacity(s) <= t <= s.cCount && s.cCounts[Slot(s, t)] <= t ==>
          t in s.cHolder && s.cHolder[t] < |s.threads| && IsConsumer(s.threads[s.cHolder[t]]) && s.threads[s.cHolder[t]].t == t)
    && (t in s.outputs <==> Capacity(s) <= t < s.cCounts[Slot(s, t)])
    && (t in s.outputs ==> t <= s.pCount && t in s.inputs && s.outputs[t] == s.inputs[t])
  }

  ghost predicate Inv(s: State) {
    && Shape(s)
    && (forall i: nat | i < Capacity(s) :: SlotOk(s, i))
    && (forall th: nat | th < |s.threads| :: ThreadOk(s, th))
    && (forall t: nat :: TicketOk(s, t))
  }

  lemma InitInv(values: seq<Value>, threads: nat)
    requires |values| > 0
    ensures Inv(Init(values, threads))
  {
    var s := Init(values, threads);
    forall i: nat | i < Capacity(s) ensures SlotOk(s, i) {
      assert SlotOf(i + Capacity(s), Capacity(s)) == i;
    }
    forall t: nat ensures TicketOk(s, t) {
      var i := Slot(s, t);
      assert SlotOf(i + Capacity(s), Capacity(s)) == i;
      NotBetween(t, i, Capacity(s));
    }
  }

  // ------------------------------------------------------------------------------ steps keep the invariant

  lemma ClaimThread(s: State, a: Action, th: nat)
    requires Enabled(s, a) && !a.Step? && th < |s.threads| && ThreadOk(s, th)
    requires TicketOk(s, s.pCount + 1) && SlotOk(s, Slot(s, s.pCount + 1)) && SlotOk(s, Slot(s, s.cCount + 1))
    ensures ThreadOk(Do(s, a), th)
  {
    var i := Slot(s, s.cCount + 1);
    if s.cCount + 1 < s.cCounts[i] { SameSlot(s.cCount + 1, s.cCounts[i], Capacity(s)); }
  }

  lemma ClaimTicket(s: State, a: Action, t: nat)
    requires Enabled(s, a) && !a.Step? && TicketOk(s, t) && SlotOk(s, Slot(s, t))
    requires t in s.pHolder && s.pHolder[t] < |s.threads| ==> ThreadOk(s, s.pHolder[t])
    requires t in s.cHolder && s.cHolder[t] < |s.threads| ==> ThreadOk(s, s.cHolder[t])
    ensures TicketOk(Do(s, a), t)
  {
  }

  lemma ClaimKeeps(s: State, a: Action)
    requires Inv(s) && Enabled(s, a) && !a.Step?
    ensures Inv(Do(s, a))
  {
    var n := Do(s, a);
    assert TicketOk(s, s.pCount + 1) && SlotOk(s, Slot(s, s.pCount + 1)) && SlotOk(s, Slot(s, s.cCount + 1));
    forall i: nat | i < Capacity(n) ensures SlotOk(n, i) { assert SlotOk(s, i); }
    forall th: nat | th < |n.threads| ensures ThreadOk(n, th) {
      assert ThreadOk(s, th);
      ClaimThread(s, a, th);
    }
    forall t: nat ensures TicketOk(n, t) {
      assert TicketOk(s, t) && SlotOk(s, Slot(s, t));
      ClaimTicket(s, a, t);
    }
  }

  /** What the invariant says of thread th, its ticket and its slot. */
  ghost predicate StepReady(s: State, th: nat) {
    && Enabled(s, Step(th)) && ThreadOk(s, th)
    && TicketOk(s, s.threads[th].t) && SlotOk(s, Slot(s, s.threads[th].t))
  }

  lemma StepSlot(s: State, th: nat, i: nat)
    requires StepReady(s, th) && i < Capacity(s) && SlotOk(s, i)
    ensures SlotOk(Do(s, Step(th)), i)
  {
    var t := s.threads[th].t;
    assert SlotOf(t + Capacity(s), Capacity(s)) == Slot(s, t);
  }

  lemma PublishedThread(s: State, th: nat, other: nat)
    requires StepReady(s, th) && s.threads[th].PPublish? && other < |s.threads| && ThreadOk(s, other)
    ensures ThreadOk(Do(s, Step(th)), other)
  {
    var x, y := s.threads[th], s.threads[other];
    if other != th && y.PSpin? && Slot(s, x.t) == Slot(s, y.t) {
      SameSlot(s.pCounts[Slot(s, x.t)], y.t, Capacity(s));
    }
  }

  lemma ReadThread(s: State, th: nat, other: nat)
    requires StepReady(s, th) && s.threads[th].CPublish? && other < |s.threads| && ThreadOk(s, other)
    ensures ThreadOk(Do(s, Step(th)), other)
  {
    var x, y := s.threads[th], s.threads[other];
    if other != th && y.CSpin? && Slot(s, x.t) == Slot(s, y.t) && x.t < y.t {
      SameSlot(x.t, y.t, Capacity(s));
    }
  }

  lemma StoredThread(s: State, th: nat, other: nat)
    requires StepReady(s, th) && s.threads[th].PStore? && other < |s.threads| && ThreadOk(s, other)
    ensures ThreadOk(Do(s, Step(th)), other)
  {
  }

  lemma PlainThread(s: State, th: nat, other: nat)
    requires StepReady(s, th) && (s.threads[th].PSpin? || s.threads[th].CSpin? || s.threads[th].CRead?)
    requires other < |s.threads| && ThreadOk(s, other)
    ensures ThreadOk(Do(s, Step(th)), other)
  {
  }

  lemma StepThread(s: State, th: nat, other: nat)
    requires StepReady(s, th) && other < |s.threads| && ThreadOk(s, other)
    ensures ThreadOk(Do(s, Step(th)), other)
  {
    match s.threads[th]
    case PStore(_, _) => StoredThread(s, th, other);
    case PPublish(_, _) => PublishedThread(s, th, other);
    case CPublish(_, _) => ReadThread(s, th, other);
    case _ => PlainThread(s, th, other);
  }

  lemma PublishedTicket(s: State, th: nat, t: nat)
    requires StepReady(s, th) && s.threads[th].PPublish? && TicketOk(s, t) && SlotOk(s, Slot(s, t))
    requires t in s.pHolder && s.pHolder[t] < |s.threads| ==> ThreadOk(s, s.pHolder[t])
    requires t in s.cHolder && s.cHolder[t] < |s.threads| ==> ThreadOk(s, s.cHolder[t])
    ensures TicketOk(Do(s, Step(th)), t)
  {
  }

  lemma ReadTicket(s: State, th: nat, t: nat)
    requires StepReady(s, th) && s.threads[th].CPublish? && TicketOk(s, t) && SlotOk(s, Slot(s, t))
    requires t in s.pHolder && s.pHolder[t] < |s.threads| ==> ThreadOk(s, s.pHolder[t])
    requires t in s.cHolder && s.cHolder[t] < |s.threads| ==> ThreadOk(s, s.cHolder[t])
    ensures TicketOk(Do(s, Step(th)), t)
  {
    var x := s.threads[th];
    if Slot(s, x.t) == Slot(s, t) && x.t < t { SameSlot(x.t, t, Capacity(s)); }
  }

  lemma PlainTicket(s: State, th: nat, t: nat)
    requires StepReady(s, th) && !s.threads[th].PPublish? && !s.threads[th].CPublish? && TicketOk(s, t)
    requires SlotOk(s, Slot(s, t))
    requires t in s.pHolder && s.pHolder[t] < |s.threads| ==> ThreadOk(s, s.pHolder[t])
    requires t in s.cHolder && s.cHolder[t] < |s.threads| ==> ThreadOk(s, s.cHolder[t])
    ensures TicketOk(Do(s, Step(th)), t)
  {
  }

  lemma StepTicket(s: State, th: nat, t: nat)
    requires StepReady(s, th) && TicketOk(s, t) && SlotOk(s, Slot(s, t))
    requires t in s.pHolder && s.pHolder[t] < |s.threads| ==> ThreadOk(s, s.pHolder[t])
    requires t in s.cHolder && s.cHolder[t] < |s.threads| ==> ThreadOk(s, s.cHolder[t])
    ensures TicketOk(Do(s, Step(th)), t)
  {
    match s.threads[th]
    case PPublish(_, _) => PublishedTicket(s, th, t);
    case CPublish(_, _) => ReadTicket(s, th, t);
    case _ => PlainTicket(s, th, t);
  }

  lemma StepKeeps(s: State, th: nat)
    requires Inv(s) && Enabled(s, Step(th))
    ensures Inv(Do(s, Step(th)))
  {
    var n := Do(s, Step(th));
    assert ThreadOk(s, th) && TicketOk(s, s.threads[th].t) && SlotOk(s, Slot(s, s.threads[th].t));
    forall i: nat | i < Capacity(n) ensures SlotOk(n, i) {
      assert SlotOk(s, i);
      StepSlot(s, th, i);
    }
    forall other: nat | other < |n.threads| ensures ThreadOk(n, other) {
      assert ThreadOk(s, other);
      StepThread(s, th, other);
    }
    forall t: nat ensures TicketOk(n, t) {
      assert TicketOk(s, t) && SlotOk(s, Slot(s, t));
      StepTicket(s, th, t);
    }
  }

  // ------------------------------------------------------------------------------------------- runs

  predicate ValidRun(s: State, run: seq<Action>)
    decreases |run|
  {
    run == [] || (Enabled(s, run[0]) && ValidRun(Do(s, run[0]), run[1..]))
  }

  function Exec(s: State, run: seq<Action>): State
    requires ValidRun(s, run)
    decreases |run|
  {
    if run == [] then s else Exec(Do(s, run[0]), run[1..])
  }

  lemma {:induction false} RunKeeps(s: State, run: seq<Action>)
    requires Inv(s) && ValidRun(s, run)
    ensures Inv(Exec(s, run))
    decreases |run|
  {
    if run != [] {
      if run[0].Step? { StepKeeps(s, run[0].th); } else { ClaimKeeps(s, run[0]); }
      RunKeeps(Do(s, run[0]), run[1..]);
    }
  }

  ghost predicate Reachable(s: State) {
    exists values: seq<Value>, threads: nat, run: seq<Action> ::
      |values| > 0 && ValidRun(Init(values, threads), run) && s == Exec(Init(values, threads), run)
  }

  lemma ReachableInv(s: State)
    requires Reachable(s)
    ensures Inv(s)
  {
    var values, threads, run :|
      |values| > 0 && ValidRun(Init(values, threads), run) && s == Exec(Init(values, threads), run);
    InitInv(values, threads);
    RunKeeps(Init(values, threads), run);
  }

  // -------------------------------------------------------------------------------------- theorems

  /** What was enqueued or returned under a ticket is never revised. */
  lemma HistoryStands(s: State, a: Action, t: nat)
    requires Reachable(s) && Enabled(s, a)
    ensures t in s.inputs ==> t in Do(s, a).inputs && Do(s, a).inputs[t] == s.inputs[t]
    ensures t in s.outputs ==> t in Do(s, a).outputs && Do(s, a).outputs[t] == s.outputs[t]
  {
    ReachableInv(s);
    assert TicketOk(s, t);
    if a.Step? && s.threads[a.th].CPublish? {
      assert ThreadOk(s, a.th) && TicketOk(s, s.threads[a.th].t);
    }
  }

  /** The dequeue that held ticket t returned the value of the enqueue that held ticket t. */
  lemma Fifo(s: State, t: nat)
    requires Reachable(s) && t in s.outputs
    ensures t in s.inputs && s.outputs[t] == s.inputs[t]
  {
    ReachableInv(s);
    assert TicketOk(s, t);
  }

  /** A dequeue about to return ticket t returns that ticket's value, and nobody returned it before. */
  lemma ExactlyOnce(s: State, th: nat)
    requires Reachable(s) && Enabled(s, Step(th)) && s.threads[th].CPublish?
    ensures var t := s.threads[th].t;
            t !in s.outputs && t in s.inputs && s.threads[th].v == s.inputs[t]
            && Do(s, Step(th)).outputs == s.outputs[t := s.inputs[t]]
  {
    ReachableInv(s);
    assert ThreadOk(s, th);
    var t := s.threads[th].t;
    assert TicketOk(s, t) && SlotOk(s, Slot(s, t));
  }

  predicate InSlot(x: Thread) { x.PStore? || x.PPublish? || x.CRead? || x.CPublish? }

  /** No two threads are past their spin tests in the same slot. */
  lemma MutualExclusion(s: State, a: nat, b: nat)
    requires Reachable(s) && a < |s.threads| && b < |s.threads| && a != b
    requires InSlot(s.threads[a]) && InSlot(s.threads[b])
    ensures Shape(s) && Slot(s, s.threads[a].t) != Slot(s, s.threads[b].t)
  {
    ReachableInv(s);
    assert ThreadOk(s, a) && ThreadOk(s, b);
  }

  /** A value is stored only over one that has been returned, or into a slot never used. */
  lemma NoOverwrite(s: State, th: nat)
    requires Reachable(s) && th < |s.threads| && s.threads[th].PStore?
    ensures Shape(s) && Capacity(s) <= s.threads[th].t
    ensures s.threads[th].t >= 2 * Capacity(s) ==> s.threads[th].t - Capacity(s) in s.outputs
  {
    ReachableInv(s);
    assert ThreadOk(s, th);
    var t := s.threads[th].t;
    var n := Capacity(s);
    if t >= 2 * n {
      assert SlotOf(t, n) == SlotOf(t - n, n);
      assert TicketOk(s, t - n);
    }
  }

  /** Published but not yet returned. */
  predicate Unread(s: State, t: nat)
    requires Shape(s)
  {
    Capacity(s) <= t && t <= s.pCounts[Slot(s, t)] && t !in s.outputs
  }

  lemma UnreadIsInSlot(s: State, t: nat)
    requires Inv(s) && Unread(s, t)
    ensures s.pCounts[Slot(s, t)] == t == s.cCounts[Slot(s, t)]
  {
    assert TicketOk(s, t) && SlotOk(s, Slot(s, t));
    var P := s.pCounts[Slot(s, t)];
    if t < P { SameSlot(t, P, Capacity(s)); }
  }

  lemma {:induction false} UnreadBelow(s: State, unread: set<nat>, n: nat)
    requires Inv(s) && n <= Capacity(s) && forall t | t in unread :: Unread(s, t) && Slot(s, t) < n
    ensures |unread| <= n
  {
    if n == 0 {
      assert unread == {};
    } else {
      var last := s.pCounts[n - 1];
      forall t | t in unread && Slot(s, t) == n - 1 ensures t == last { UnreadIsInSlot(s, t); }
      UnreadBelow(s, unread - {last}, n - 1);
      if last in unread { assert unread == (unread - {last}) + {last}; } else { assert unread == unread - {last}; }
    }
  }

  /** Values published and not yet returned are never more than the capacity. */
  lemma NeverOverfull(s: State, unread: set<nat>)
    requires Reachable(s) && Shape(s) && forall t | t in unread :: Unread(s, t)
    ensures |unread| <= Capacity(s)
  {
    ReachableInv(s);
    UnreadBelow(s, unread, Capacity(s));
  }

  // ---------------------------------------------------------------------------------------- progress

  /**
   As long as some producer and some consumer both hold unfinished tickets, some ticket holder can move: the producer
   with the smallest ticket, or the consumer that holds up its slot, or the given consumer.
   */
  lemma {:induction false} Progress(s: State, producer: nat, consumer: nat) returns (th: nat)
    requires Reachable(s) && producer < |s.threads| && consumer < |s.threads|
    requires IsProducer(s.threads[producer]) && IsConsumer(s.threads[consumer])
    ensures th < |s.threads| && s.threads[th] != Idle && Enabled(s, Step(th))
    decreases s.threads[producer].t
  {
    ReachableInv(s);
    assert ThreadOk(s, producer) && ThreadOk(s, consumer);
    var t, n := s.threads[producer].t, Capacity(s);
    var i := Slot(s, t);
    assert SlotOk(s, i);
    if Enabled(s, Step(producer)) {
      th := producer;
    } else if Enabled(s, Step(consumer)) {
      th := consumer;
    } else {
      var P, C := s.pCounts[i], s.cCounts[i];
      SameSlot(P, t, n);
      if C != P {
        // an earlier ticket of the same slot is not published yet
        assert TicketOk(s, C);
        th := Progress(s, s.pHolder[C], consumer);
      } else if P <= s.cCount {
        // the slot is full and its reader has a ticket
        assert TicketOk(s, P);
        th := s.cHolder[P];
        assert ThreadOk(s, th);
      } else {
        // the slot's reader has no ticket yet, so the consumer waits for an earlier producer
        var c := s.threads[consumer].t;
        var j := Slot(s, c);
        assert SlotOk(s, j) && TicketOk(s, c);
        th := Progress(s, s.pHolder[c], consumer);
      }
    }
  }
}
