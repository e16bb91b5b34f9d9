/**
 What the ticket queue is for its users: a sequence. Every step of every thread appends a value to it, takes the one at
 its front, hands a value straight to a dequeue that waits, or leaves it alone.
 */
module PlainQueue {
  import opened TicketQueue

  /** A queue, how many dequeues wait for a value, and the values given to dequeues, in the order in which these began. */
  datatype Plain = Plain(queue: seq<Value>, waiting: nat, delivered: seq<Value>)

  function PlainDo(p: Plain, a: Action): Plain {
    match a
    case Enqueue(_, v) =>
      if p.waiting > 0 then p.(waiting := p.waiting - 1, delivered := p.delivered + [v]) else p.(queue := p.queue + [v])
    case Dequeue(_) =>
      if p.queue != [] then p.(queue := p.queue[1..], delivered := p.delivered + [p.queue[0]]) else p.(waiting := p.waiting + 1)
    case Step(_) => p
  }

  /** The values of the tickets after `from` up to `to`. */
  function Values(inputs: map<nat, Value>, from: nat, to: nat): (q: seq<Value>)
    requires from <= to && forall t: nat | from < t <= to :: t in inputs
    ensures |q| == to - from
  {
    seq(to - from, k requires 0 <= k < to - from => inputs[from + 1 + k])
  }

  /** The values enqueued and not dequeued, in ticket order. */
  function Contents(s: State): seq<Value>
    requires s.cCount <= s.pCount && forall t: nat | s.cCount < t <= s.pCount :: t in s.inputs
  {
    Values(s.inputs, s.cCount, s.pCount)
  }

  predicate Known(s: State) {
    Shape(s) && forall t: nat | Capacity(s) <= t <= s.pCount :: t in s.inputs
  }

  /** The plain queue that a state stands for. Tickets start at the capacity. */
  function PlainOf(s: State): Plain
    requires Known(s)
  {
    Plain(if s.cCount <= s.pCount then Contents(s) else [],
          if s.cCount <= s.pCount then 0 else s.cCount - s.pCount,
          Values(s.inputs, Capacity(s) - 1, if s.cCount <= s.pCount then s.cCount else s.pCount))
  }

  lemma ClaimedIsKnown(s: State)
    requires Inv(s)
    ensures Known(s)
  {
    forall t: nat | Capacity(s) <= t <= s.pCount ensures t in s.inputs { assert TicketOk(s, t); }
  }

  lemma InvStep(s: State, a: Action)
    requires Inv(s) && Enabled(s, a)
    ensures Inv(Do(s, a))
  {
    if a.Step? { StepKeeps(s, a.th); } else { ClaimKeeps(s, a); }
  }

  lemma EnqueueIsPlain(s: State, a: Action)
    requires Known(s) && s.pCount + 1 !in s.inputs && Enabled(s, a) && a.Enqueue?
    ensures Known(Do(s, a)) && PlainOf(Do(s, a)) == PlainDo(PlainOf(s), a)
  {
    var n := Do(s, a);
    if s.cCount <= s.pCount {
      assert Contents(n) == Contents(s) + [a.v];
      assert Values(n.inputs, Capacity(s) - 1, s.cCount) == Values(s.inputs, Capacity(s) - 1, s.cCount);
    } else {
      assert Values(n.inputs, Capacity(s) - 1, n.pCount) == Values(s.inputs, Capacity(s) - 1, s.pCount) + [a.v];
    }
  }

  lemma DequeueIsPlain(s: State, a: Action)
    requires Known(s) && Enabled(s, a) && a.Dequeue?
    ensures Known(Do(s, a)) && PlainOf(Do(s, a)) == PlainDo(PlainOf(s), a)
  {
    var n := Do(s, a);
    if s.cCount < s.pCount {
      assert Contents(n) == Contents(s)[1..];
      assert Values(n.inputs, Capacity(s) - 1, n.cCount) == Values(s.inputs, Capacity(s) - 1, s.cCount) + [Contents(s)[0]];
    }
  }

  lemma InsideIsPlain(s: State, th: nat)
    requires Known(s) && Enabled(s, Step(th))
    ensures Known(Do(s, Step(th))) && PlainOf(Do(s, Step(th))) == PlainOf(s)
  {
    var n := Do(s, Step(th));
    assert Shape(n) && Capacity(n) == Capacity(s) && n.inputs == s.inputs && n.pCount == s.pCount && n.cCount == s.cCount;
  }

  /** In every interleaving each step is one of the plain queue: claiming a ticket is when an operation takes effect. */
  lemma StepIsPlain(s: State, a: Action)
    requires Inv(s) && Enabled(s, a)
    ensures Known(s) && Known(Do(s, a)) && PlainOf(Do(s, a)) == PlainDo(PlainOf(s), a)
  {
    ClaimedIsKnown(s);
    match a
    case Enqueue(_, _) => assert TicketOk(s, s.pCount + 1); EnqueueIsPlain(s, a);
    case Dequeue(_) => DequeueIsPlain(s, a);
    case Step(th) => InsideIsPlain(s, th);
  }

  function PlainExec(p: Plain, run: seq<Action>): Plain
    decreases |run|
  {
    if run == [] then p else PlainExec(PlainDo(p, run[0]), run[1..])
  }

  lemma {:induction false} RunIsPlain(s: State, run: seq<Action>)
    requires Inv(s) && ValidRun(s, run)
    ensures Known(s) && Known(Exec(s, run)) && PlainOf(Exec(s, run)) == PlainExec(PlainOf(s), run)
    decreases |run|
  {
    ClaimedIsKnown(s);
    if run != [] {
      StepIsPlain(s, run[0]);
      InvStep(s, run[0]);
      RunIsPlain(Do(s, run[0]), run[1..]);
    }
  }

  /**
   After any run of a new queue, whatever a dequeue has returned is what the plain queue delivered to it, dequeues being
   counted in the order in which they began; the plain queue has delivered to all of them but those that wait.
   */
  lemma ReturnsWhatIsDelivered(values: seq<Value>, threads: nat, run: seq<Action>, t: nat)
    requires |values| > 0 && ValidRun(Init(values, threads), run)
    ensures var s, p := Exec(Init(values, threads), run), PlainExec(Plain([], 0, []), run);
            && |p.delivered| + p.waiting == s.cCount + 1 - |values|
            && (t in s.outputs ==> |values| <= t && t - |values| < |p.delivered| && s.outputs[t] == p.delivered[t - |values|])
  {
    var s0 := Init(values, threads);
    var s := Exec(s0, run);
    InitInv(values, threads);
    RunIsPlain(s0, run);
    assert PlainOf(s0) == Plain([], 0, []);
    RunKeeps(s0, run);
    SameCapacity(s0, run);
    assert TicketOk(s, t);
    if t in s.outputs { ReturnedIsClaimed(s, t); }
  }

  lemma ReturnedIsClaimed(s: State, t: nat)
    requires Inv(s) && t in s.outputs
    ensures Capacity(s) <= t <= s.cCount && t <= s.pCount
  {
    assert TicketOk(s, t) && SlotOk(s, Slot(s, t));
    if t < s.cCounts[Slot(s, t)] { SameSlot(t, s.cCounts[Slot(s, t)], Capacity(s)); }
  }

  lemma {:induction false} SameCapacity(s: State, run: seq<Action>)
    requires ValidRun(s, run)
    ensures Capacity(Exec(s, run)) == Capacity(s)
    decreases |run|
  {
    if run != [] { SameCapacity(Do(s, run[0]), run[1..]); }
  }

  // ------------------------------------------------------------------------- the size, while others are at work

  const UINT32 := 0x1_0000_0000

  /** get_size: the difference of the two counters under a mask that is all ones or 0, cut to 32 bits. */
  function SizeOf(pc: nat, cc: nat): int {
    var mask := if pc >= cc then 1 else 0;
    (pc - cc) * mask % UINT32
  }

  /** is_empty */
  predicate EmptyOf(pc: nat, cc: nat) { pc <= cc }

  /** Whatever operations are in flight, the counters give the size of the plain queue, and 0 while dequeues wait. */
  lemma SizeIsLength(s: State)
    requires Inv(s)
    ensures Known(s) && SizeOf(s.pCount, s.cCount) == |PlainOf(s).queue| % UINT32
    ensures EmptyOf(s.pCount, s.cCount) <==> PlainOf(s).queue == []
  {
    ClaimedIsKnown(s);
  }

  /** u is a state on the way from s to t. */
  ghost predicate Between(s: State, u: State, t: State) {
    exists first: seq<Action>, then': seq<Action> ::
      ValidRun(s, first) && Exec(s, first) == u && ValidRun(u, then') && Exec(u, then') == t
  }

  lemma {:induction false} CountersGrow(s: State, run: seq<Action>)
    requires ValidRun(s, run)
    ensures s.pCount <= Exec(s, run).pCount && s.cCount <= Exec(s, run).cCount
    decreases |run|
  {
    if run != [] { CountersGrow(Do(s, run[0]), run[1..]); }
  }

  /**
   get_size and is_empty load the counter of the producers first and that of the consumers later. Whatever happens in
   between, no state on the way has fewer values than get_size says, and none has any if all that happens is enqueues.
   */
  lemma SizeIsLowerBound(s: State, u: State, t: State)
    requires Inv(s) && Between(s, u, t) && s.pCount < t.cCount + UINT32
    ensures Known(u) && SizeOf(s.pCount, t.cCount) <= |PlainOf(u).queue|
    ensures !EmptyOf(s.pCount, t.cCount) ==> PlainOf(u).queue != []
  {
    var first, then' :| ValidRun(s, first) && Exec(s, first) == u && ValidRun(u, then') && Exec(u, then') == t;
    RunKeeps(s, first);
    CountersGrow(s, first);
    CountersGrow(u, then');
    SizeIsLength(u);
  }
}
