/**
 lfqueue as the object it is: counters and arrays updated in place. A call that is not interrupted takes exactly the
 steps of the ticket queue, which `state` follows, and on a quiescent queue the calls are those of a bounded
 first-in first-out queue.
 */
module LfQueueObject {
  import opened TicketQueue
  import opened PlainQueue

  /** No operation is in flight. */
  predicate Quiescent(s: State) {
    forall th: nat | th < |s.threads| :: s.threads[th] == Idle
  }

  /** In a quiescent queue exactly the claimed tickets are published and exactly the claimed ones are read. */
  lemma QuiescentTicket(s: State, t: nat)
    requires Inv(s) && Quiescent(s) && Capacity(s) <= t
    ensures t <= s.pCount ==> t <= s.pCounts[Slot(s, t)]
    ensures t in s.outputs <==> t <= s.cCount
    ensures s.cCount <= s.pCount <= s.cCount + Capacity(s)
  {
    assert TicketOk(s, t);
    assert TicketOk(s, s.cCount) && TicketOk(s, s.pCount);
    assert SlotOk(s, Slot(s, t)) && SlotOk(s, Slot(s, s.pCount)) && SlotOk(s, Slot(s, s.cCount));
    var C := s.cCounts[Slot(s, t)];
    if t < C { SameSlot(t, C, Capacity(s)); }
  }

  lemma QuiescentContents(s: State)
    requires Inv(s) && Quiescent(s)
    ensures s.cCount <= s.pCount <= s.cCount + Capacity(s)
    ensures forall t: nat | s.cCount < t <= s.pCount :: t in s.inputs
  {
    QuiescentTicket(s, Capacity(s));
    forall t: nat | s.cCount < t <= s.pCount ensures t in s.inputs { assert TicketOk(s, t); }
  }

  /** A quiescent queue with room has the next producer's slot empty. */
  lemma RoomForNext(s: State)
    requires Inv(s) && Quiescent(s) && s.pCount < s.cCount + Capacity(s)
    ensures s.cCounts[Slot(s, s.pCount + 1)] == s.pCount + 1
  {
    var t, n := s.pCount + 1, Capacity(s);
    var i := Slot(s, t);
    assert SlotOk(s, i);
    var P, C := s.pCounts[i], s.cCounts[i];
    SameSlot(P, t, n);
    if P + n < t {
      assert SlotOf(P + n, n) == SlotOf(P, n);
      QuiescentTicket(s, P + n);
    }
    assert TicketOk(s, P);
  }

  /** A quiescent queue that is not empty has the next consumer's slot full. */
  lemma ValueForNext(s: State)
    requires Inv(s) && Quiescent(s) && s.cCount < s.pCount
    ensures s.pCounts[Slot(s, s.cCount + 1)] == s.cCount + 1
  {
    var t := s.cCount + 1;
    QuiescentTicket(s, t);
    assert SlotOk(s, Slot(s, t)) && TicketOk(s, t);
    var P, C := s.pCounts[Slot(s, t)], s.cCounts[Slot(s, t)];
    if t < P { SameSlot(t, P, Capacity(s)); }
  }

  /** The four steps of an uninterrupted call by thread 0. */
  function EnqueueRun(value: Value): seq<Action> {
    [Action.Enqueue(0, value), Step(0), Step(0), Step(0)]
  }

  const DEQUEUE_RUN := [Action.Dequeue(0), Step(0), Step(0), Step(0)]

  lemma SoloEnqueue(s: State, value: Value)
    requires Inv(s) && Quiescent(s) && |s.threads| == 1 && s.pCount < s.cCount + Capacity(s)
    ensures ValidRun(s, EnqueueRun(value))
    ensures var t, i := Exec(s, EnqueueRun(value)), Slot(s, s.pCount + 1);
            && t.values == s.values[i := value] && t.pCounts == s.pCounts[i := s.pCount + 1] && t.cCounts == s.cCounts
            && t.pCount == s.pCount + 1 && t.cCount == s.cCount && t.threads == [Idle]
            && t.inputs == s.inputs[s.pCount + 1 := value]
  {
    RoomForNext(s);
    var run := EnqueueRun(value);
    var s1 := Do(s, run[0]);
    var s2 := Do(s1, run[1]);
    var s3 := Do(s2, run[2]);
    var s4 := Do(s3, run[3]);
    SoloRun(s, run, s1, s2, s3, s4);
  }

  lemma SoloRun(s: State, run: seq<Action>, s1: State, s2: State, s3: State, s4: State)
    requires |run| == 4 && Enabled(s, run[0]) && s1 == Do(s, run[0]) && Enabled(s1, run[1]) && s2 == Do(s1, run[1])
    requires Enabled(s2, run[2]) && s3 == Do(s2, run[2]) && Enabled(s3, run[3]) && s4 == Do(s3, run[3])
    ensures ValidRun(s, run) && Exec(s, run) == s4
  {
    assert run[1..][0] == run[1] && run[1..][1..][0] == run[2] && run[1..][1..][1..][0] == run[3];
    assert run[1..][1..][1..][1..] == [];
    assert ValidRun(s3, run[1..][1..][1..]) && Exec(s3, run[1..][1..][1..]) == s4;
    assert ValidRun(s2, run[1..][1..]) && Exec(s2, run[1..][1..]) == s4;
    assert ValidRun(s1, run[1..]) && Exec(s1, run[1..]) == s4;
  }

  lemma SoloDequeue(s: State)
    requires Inv(s) && Quiescent(s) && |s.threads| == 1 && s.cCount < s.pCount
    ensures ValidRun(s, DEQUEUE_RUN)
    ensures var t, i := Exec(s, DEQUEUE_RUN), Slot(s, s.cCount + 1);
            && t.values == s.values && t.pCounts == s.pCounts && t.cCounts == s.cCounts[i := s.cCount + 1 + Capacity(s)]
            && t.pCount == s.pCount && t.cCount == s.cCount + 1 && t.threads == [Idle] && t.inputs == s.inputs
            && s.cCount + 1 in s.inputs && s.values[i] == s.inputs[s.cCount + 1]
  {
    ValueForNext(s);
    QuiescentTicket(s, s.cCount + 1);
    var run := DEQUEUE_RUN;
    assert SlotOk(s, Slot(s, s.cCount + 1)) && TicketOk(s, s.cCount + 1);
    var s1 := Do(s, run[0]);
    var s2 := Do(s1, run[1]);
    var s3 := Do(s2, run[2]);
    var s4 := Do(s3, run[3]);
    SoloRun(s, run, s1, s2, s3, s4);
  }

  lemma ContentsTail(s: State, t: State)
    requires s.cCount < s.pCount && forall k: nat | s.cCount < k <= s.pCount :: k in s.inputs
    requires t.inputs == s.inputs && t.pCount == s.pCount && t.cCount == s.cCount + 1
    ensures Contents(s) == [s.inputs[s.cCount + 1]] + Contents(t)
  {
  }

  /** Everything that a lone dequeue promises. */
  lemma DequeueEnds(s: State)
    requires Inv(s) && Quiescent(s) && |s.threads| == 1
    ensures s.cCount <= s.pCount && forall k: nat | s.cCount < k <= s.pCount :: k in s.inputs
    ensures Contents(s) != [] ==> ValidRun(s, DEQUEUE_RUN)
    ensures Contents(s) != [] ==>
              var t, i := Exec(s, DEQUEUE_RUN), Slot(s, s.cCount + 1);
              && Inv(t) && Quiescent(t) && |t.threads| == 1 && s.pCounts[i] == s.cCount + 1
              && t.values == s.values && t.pCounts == s.pCounts && t.cCounts == s.cCounts[i := s.cCount + 1 + Capacity(s)]
              && t.pCount == s.pCount && t.cCount == s.cCount + 1 <= t.pCount
              && (forall k: nat | t.cCount < k <= t.pCount :: k in t.inputs) && Contents(s) == [s.values[i]] + Contents(t)
  {
    QuiescentContents(s);
    if Contents(s) != [] {
      ValueForNext(s);
      SoloDequeue(s);
      RunKeeps(s, DEQUEUE_RUN);
      ContentsTail(s, Exec(s, DEQUEUE_RUN));
    }
  }

  class LfQueue {
    var pCount: nat
    var cCount: nat
    const values: array<Value>
    const pCounts: array<nat>
    const cCounts: array<nat>
    const capacity: nat
    ghost var state: State

    ghost predicate Valid()
      reads this, values, pCounts, cCounts
    {
      && Inv(state) && Quiescent(state) && |state.threads| == 1
      && values != pCounts && values != cCounts && pCounts != cCounts
      && capacity == values.Length == pCounts.Length == cCounts.Length
      && pCount == state.pCount && cCount == state.cCount
      && values[..] == state.values && pCounts[..] == state.pCounts && cCounts[..] == state.cCounts
    }

    ghost function Queue(): seq<Value>
      reads this, values, pCounts, cCounts
      requires Valid()
    {
      QuiescentContents(state);
      Contents(state)
    }

    constructor (capacity: nat)
      requires capacity > 0
      ensures Valid() && fresh(values) && fresh(pCounts) && fresh(cCounts) && this.capacity == capacity && Queue() == []
      ensures state == Init(values[..], 1)
    {
      this.capacity := capacity;
      pCount := capacity - 1;
      cCount := capacity - 1;
      values := new Value[capacity];
      pCounts := new nat[capacity](i => i);
      cCounts := new nat[capacity](i => i + capacity);
      new;
      state := Init(values[..], 1);
      InitInv(values[..], 1);
    }

    method Enqueue(value: Value)
      requires Valid() && |Queue()| < capacity
      modifies this, values, pCounts
      ensures Valid() && Queue() == old(Queue()) + [value]
      ensures ValidRun(old(state), EnqueueRun(value)) && state == Exec(old(state), EnqueueRun(value))
    {
      QuiescentContents(state);
      RoomForNext(state);
      SlotIsModulo(pCount + 1, capacity);
      SoloEnqueue(state, value);
      RunKeeps(state, EnqueueRun(value));

      pCount := pCount + 1;
      var p := pCount;
      var mine := false;
      while !mine
        invariant p == cCounts[p % capacity]
        decreases !mine
      {
        mine := p == cCounts[p % capacity];
      }
      values[p % capacity] := value;
      pCounts[p % capacity] := p;
      state := Exec(state, EnqueueRun(value));
      QuiescentContents(state);
    }

    method Dequeue() returns (value: Value)
      requires Valid() && Queue() != []
      modifies this, cCounts
      ensures Valid() && old(Queue()) == [value] + Queue()
      ensures ValidRun(old(state), DEQUEUE_RUN) && state == Exec(old(state), DEQUEUE_RUN)
    {
      DequeueEnds(state);
      SlotIsModulo(cCount + 1, capacity);

      cCount := cCount + 1;
      var c := cCount;
      var mine := false;
      while !mine
        invariant c == pCounts[c % capacity]
        decreases !mine
      {
        mine := c == pCounts[c % capacity];
      }
      value := values[c % capacity];
      cCounts[c % capacity] := c + capacity;
      state := Exec(state, DEQUEUE_RUN);
    }

    /** Nothing is asked of the state: however many operations are in flight, this is what the two counters give. */
    method GetSize() returns (size: int)
      ensures size == SizeOf(pCount, cCount)
      ensures Valid() ==> size == |Queue()| % UINT32
    {
      if Valid() { QuiescentContents(state); }
      var mask := if pCount >= cCount then 1 else 0;
      size := (pCount - cCount) * mask % UINT32;
    }

    method IsEmpty() returns (empty: bool)
      ensures empty <==> EmptyOf(pCount, cCount)
      ensures Valid() ==> (empty <==> Queue() == [])
    {
      if Valid() { QuiescentContents(state); }
      empty := pCount <= cCount;
    }
  }
}
