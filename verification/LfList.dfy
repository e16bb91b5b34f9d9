/**
 lflist as the object it is, for one caller at a time: a call takes steps of the concurrent list, `state` follows them,
 and what the list holds, in append order, changes as a caller expects. Nodes are named by their append index.
 */
module LfListObject {
  import opened LatchFreeList

  // ---------------------------------------------------------------------------------------- mark bits

  const REF_BITS: bv64 := 0x7fff_ffff_ffff_ffff
  const MARK_BIT: bv64 := 0x8000_0000_0000_0000

  function SetMark(p: bv64): bv64 { p | MARK_BIT }

  function GetRef(p: bv64): bv64 { p & REF_BITS }

  function GetMark(p: bv64): bv64 { p & MARK_BIT }

  /** A word holds a reference and a mark side by side: marking keeps the reference, and no two pairs share a word. */
  lemma MarkedWords(p: bv64, q: bv64)
    requires GetMark(p) == 0 && GetMark(q) == 0
    ensures GetRef(p) == p && GetRef(SetMark(p)) == p && GetMark(SetMark(p)) != 0 && SetMark(p) != q
    ensures SetMark(p) == SetMark(q) ==> p == q
  {
    assert GetRef(SetMark(p)) == p && GetRef(SetMark(q)) == q;
  }

  // ------------------------------------------------------------------------------- what the list holds

  /** The data of the live nodes from i up to but not including j. */
  function LiveIn(data: seq<nat>, next: seq<Link>, i: nat, j: nat): seq<nat>
    requires i <= j <= |next| == |data|
  {
    if i == j then [] else LiveIn(data, next, i, j - 1) + (if next[j - 1].marked then [] else [data[j - 1]])
  }

  lemma {:induction false} LiveSplit(data: seq<nat>, next: seq<Link>, i: nat, m: nat, j: nat)
    requires i <= m <= j <= |next| == |data|
    ensures LiveIn(data, next, i, j) == LiveIn(data, next, i, m) + LiveIn(data, next, m, j)
  {
    if m < j { LiveSplit(data, next, i, m, j - 1); }
  }

  lemma {:induction false} LiveSame(data: seq<nat>, next: seq<Link>, data': seq<nat>, next': seq<Link>, i: nat, j: nat)
    requires i <= j <= |next| == |data| && j <= |next'| == |data'|
    requires forall k | i <= k < j :: next'[k].marked == next[k].marked && data'[k] == data[k]
    ensures LiveIn(data', next', i, j) == LiveIn(data, next, i, j)
  {
    if i < j { LiveSame(data, next, data', next', i, j - 1); }
  }

  lemma {:induction false} LiveMisses(data: seq<nat>, next: seq<Link>, i: nat, j: nat, x: nat)
    requires i <= j <= |next| == |data| && forall k | i <= k < j :: next[k].marked || data[k] != x
    ensures x !in LiveIn(data, next, i, j)
  {
    if i < j { LiveMisses(data, next, i, j - 1, x); }
  }

  /** q' is q without its first x. */
  ghost predicate FirstTaken(q: seq<nat>, x: nat, q': seq<nat>) {
    exists i :: 0 <= i < |q| && q[i] == x && x !in q[..i] && q' == q[..i] + q[i + 1..]
  }

  /** What the list holds before and after node m is marked. */
  lemma MarkTakesOne(data: seq<nat>, next: seq<Link>, m: nat, link: Link)
    requires 0 < m < |next| == |data| && !next[m].marked && link.marked
    ensures LiveIn(data, next, 1, |next|) == LiveIn(data, next, 1, m) + [data[m]] + LiveIn(data, next, m + 1, |next|)
    ensures LiveIn(data, next[m := link], 1, |next|) == LiveIn(data, next, 1, m) + LiveIn(data, next, m + 1, |next|)
  {
    var next' := next[m := link];
    LiveSplit(data, next, 1, m + 1, |next|);
    LiveSplit(data, next', 1, m + 1, |next|);
    LiveSame(data, next, data, next', 1, m);
    LiveSame(data, next, data, next', m + 1, |next|);
  }

  /** Marking the first live node that holds x takes the first x out of what the list holds. */
  lemma MarkTakesFirst(data: seq<nat>, next: seq<Link>, m: nat, x: nat, link: Link)
    requires 0 < m < |next| - 1 && |next| == |data| && data[m] == x && !next[m].marked
    requires !next[|next| - 1].marked && link.marked
    requires forall k | 1 <= k < m :: next[k].marked || data[k] != x
    ensures var live := LiveIn(data, next, 1, |next|);
            && live != [] && x in live[..|live| - 1]
            && FirstTaken(live, x, LiveIn(data, next[m := link], 1, |next|))
  {
    var before, after := LiveIn(data, next, 1, m), LiveIn(data, next, m + 1, |next|);
    MarkTakesOne(data, next, m, link);
    LiveMisses(data, next, 1, m, x);
    assert after != [];
    var live := before + [x] + after;
    assert live[..|live| - 1][|before|] == x;
    assert live[..|before|] == before && live[|before| + 1..] == after;
  }

  /** If no live node before the last holds x, x is not in the list, its last element apart. */
  lemma LastApart(data: seq<nat>, next: seq<Link>, x: nat)
    requires 1 < |next| == |data| && !next[|next| - 1].marked
    requires forall k | 1 <= k < |next| - 1 :: next[k].marked || data[k] != x
    ensures var live := LiveIn(data, next, 1, |next|); live != [] && x !in live[..|live| - 1]
  {
    var last := |next| - 1;
    LiveMisses(data, next, 1, last, x);
    var live := LiveIn(data, next, 1, |next|);
    assert live == LiveIn(data, next, 1, last) + [data[last]];
    assert live[..|live| - 1] == LiveIn(data, next, 1, last);
  }

  // --------------------------------------------------------------------------------------- the object

  /** s1 follows s0 by the run. */
  predicate Executes(s0: State, run: seq<Action>, s1: State) {
    ValidRun(s0, run) && Exec(s0, run) == s1
  }

  lemma {:induction false} OneMore(s0: State, run: seq<Action>, s1: State, a: Action)
    requires Executes(s0, run, s1) && Enabled(s1, a)
    ensures Executes(s0, run + [a], Do(s1, a))
    decreases |run|
  {
    if run == [] {
      assert ([a])[1..] == [];
    } else {
      OneMore(Do(s0, run[0]), run[1..], s1, a);
      assert (run + [a])[1..] == run[1..] + [a];
    }
  }

  function AppendCall(x: nat): seq<Action> { [Action.Append(0, x), Step(0), Step(0)] }

  predicate Alone(s: State) {
    |s.threads| == 1 && s.threads[0] == Idle
  }

  lemma AppendRun(s: State, x: nat)
    requires Inv(s) && Alone(s) && x != 0
    ensures ValidRun(s, AppendCall(x))
    ensures var n := Exec(s, AppendCall(x));
            && n.data == s.data + [x] && n.next == (s.next + [Link(Null, false)])[s.tail := Link(To(Size(s)), false)]
            && n.tail == Size(s) && n.count == (s.count + 1) % COUNT_RANGE && Alone(n)
  {
    var s1 := Do(s, Action.Append(0, x));
    var s2 := Do(s1, Step(0));
    var s3 := Do(s2, Step(0));
    OneMore(s, [], s, Action.Append(0, x));
    OneMore(s, [Action.Append(0, x)], s1, Step(0));
    OneMore(s, [Action.Append(0, x), Step(0)], s2, Step(0));
    assert [] + [Action.Append(0, x)] == [Action.Append(0, x)];
    assert [Action.Append(0, x), Step(0)] + [Step(0)] == AppendCall(x);
  }

  lemma AppendIsLive(s: State, x: nat)
    requires Inv(s)
    ensures var next := (s.next + [Link(Null, false)])[s.tail := Link(To(Size(s)), false)];
            LiveIn(s.data + [x], next, 1, Size(s) + 1) == LiveIn(s.data, s.next, 1, Size(s)) + [x]
  {
    assert NodeOk(s, s.tail);
    var next := (s.next + [Link(Null, false)])[s.tail := Link(To(Size(s)), false)];
    LiveSame(s.data, s.next, s.data + [x], next, 1, Size(s));
  }

  /** A lone traversal goes on to a later node, over marked nodes only. */
  lemma PassOn(s: State, call: Call, t: nat)
    requires Inv(s) && t < s.tail && s.threads == [Passing(call, t, s.next[t])]
    requires s.next[t].marked || s.data[t] != call.data
    ensures s.next[t].ref.To? && t < s.next[t].ref.node <= s.tail && AllMarked(s, t, s.next[t].ref.node)
    ensures var u := s.next[t].ref.node;
            var call' := if s.next[t].marked then call else call.(left := To(t), leftNext := To(u));
            Do(s, Step(0)) == s.(threads := [if u == s.tail then Found(call', u) else Arriving(call', u)])
  {
    assert NodeOk(s, t) && NodeOk(s, t + 1);
  }

  /** One iteration of a lone traversal. */
  lemma TravelOn(s0: State, run: seq<Action>, s: State, call: Call, t: nat) returns (run': seq<Action>, s': State)
    requires Inv(s) && t < s.tail && s.threads == [Passing(call, t, s.next[t])] && Executes(s0, run, s)
    requires s.next[t].marked || s.data[t] != call.data
    ensures s.next[t].ref.To? && t < s.next[t].ref.node <= s.tail
    ensures forall k | t < k < s.next[t].ref.node :: s.next[k].marked
    ensures Inv(s') && Executes(s0, run', s')
    ensures var u := s.next[t].ref.node;
            var call' := if s.next[t].marked then call else call.(left := To(t), leftNext := To(u));
            s' == s.(threads := [if u == s.tail then Found(call', u) else Passing(call', u, s.next[u])])
  {
    PassOn(s, call, t);
    Advance(s0, run, s, Step(0));
    run', s' := run + [Step(0)], Do(s, Step(0));
    if s.next[t].ref.node != s.tail {
      Advance(s0, run', s', Step(0));
      run', s' := run' + [Step(0)], Do(s', Step(0));
    }
  }

  lemma Arrive(s0: State, run: seq<Action>, s: State, call: Call, t: nat) returns (run': seq<Action>, s': State)
    requires Inv(s) && t < s.tail && s.threads == [Passing(call, t, s.next[t])] && Executes(s0, run, s)
    requires !s.next[t].marked && s.data[t] == call.data
    ensures Inv(s') && Executes(s0, run', s') && s' == s.(threads := [Found(call, t)])
  {
    Advance(s0, run, s, Step(0));
    run', s' := run + [Step(0)], Do(s, Step(0));
  }

  lemma HeadIsLive(s: State)
    requires Inv(s)
    ensures !s.next[0].marked && s.data[0] == 0
  {
    assert NodeOk(s, 0);
  }

  /** Two steps of a lone caller begin a traversal. */
  lemma Begin(s: State, x: nat, removal: bool)
    requires Inv(s) && Alone(s) && x != 0
    ensures var a := if removal then Remove(0, x) else Search(0, x);
            && Executes(s, [a, Step(0)], s.(threads := [Passing(Call(x, removal, Null, Null), 0, s.next[0])]))
            && Inv(s.(threads := [Passing(Call(x, removal, Null, Null), 0, s.next[0])]))
  {
    var a := if removal then Remove(0, x) else Search(0, x);
    var s1 := Do(s, a);
    var s2 := Do(s1, Step(0));
    OneMore(s, [], s, a);
    assert [] + [a] == [a];
    OneMore(s, [a], s1, Step(0));
    assert [a] + [Step(0)] == [a, Step(0)];
    assert s2.threads == [Passing(Call(x, removal, Null, Null), 0, s.next[0])];
    RunKeeps(s, [a, Step(0)]);
  }

  lemma Advance(s0: State, run: seq<Action>, s: State, a: Action)
    requires Inv(s) && Executes(s0, run, s) && Enabled(s, a)
    ensures Inv(Do(s, a)) && Executes(s0, run + [a], Do(s, a))
  {
    StepKeeps(s, a);
    OneMore(s0, run, s, a);
  }

  lemma {:induction false} RunOn(s0: State, first: seq<Action>, s: State, then': seq<Action>)
    requires Executes(s0, first, s) && ValidRun(s, then')
    ensures Executes(s0, first + then', Exec(s, then'))
    decreases |first|
  {
    if first == [] {
      assert first + then' == then';
    } else {
      RunOn(Do(s0, first[0]), first[1..], s, then');
      assert (first + then')[1..] == first[1..] + then';
    }
  }

  lemma LastIsLive(s: State)
    requires Inv(s)
    ensures !s.next[s.tail].marked && s.next[s.tail].ref == Null
  {
    assert NodeOk(s, s.tail);
  }

  /** The end of a lone search: its swap succeeds, and its right node is live. */
  lemma Settle(s: State, call: Call, right: nat) returns (run: seq<Action>)
    requires Inv(s) && s.threads == [Found(call, right)] && call.left.To? && call.left.node < right < Size(s)
    requires s.next[call.left.node] == Link(call.leftNext, false) && !s.next[right].marked
    ensures ValidRun(s, run) && Inv(Exec(s, run))
    ensures Exec(s, run) == s.(next := s.next[call.left.node := Link(To(right), false)],
                               threads := [if call.removal then Testing(call, right) else Idle])
  {
    var s1 := s;
    run := [];
    if call.leftNext != To(right) {
      Advance(s, run, s1, Step(0));
      run, s1 := run + [Step(0)], Do(s1, Step(0));
    }
    Advance(s, run, s1, Step(0));
    run, s1 := run + [Step(0)], Do(s1, Step(0));
  }

  /** The end of a lone remove that has found a node with a successor: it marks it and takes it off the count. */
  lemma Removal(s: State, call: Call, curr: nat) returns (run: seq<Action>)
    requires Inv(s) && curr < s.tail && s.threads == [Testing(call, curr)]
    requires !s.next[curr].marked && s.data[curr] == call.data
    ensures s.next[curr].ref.To? && ValidRun(s, run) && Inv(Exec(s, run))
    ensures var n := Exec(s, run);
            && n.next == s.next[curr := s.next[curr].(marked := true)] && n.data == s.data && n.tail == s.tail
            && n.count == (s.count + COUNT_RANGE - 1) % COUNT_RANGE && n.threads == [Idle]
  {
    assert NodeOk(s, curr) && NodeOk(s, curr + 1);
    var s1 := Do(s, Step(0));
    var s2 := Do(s1, Step(0));
    var s3 := Do(s2, Step(0));
    Advance(s, [], s, Step(0));
    Advance(s, [] + [Step(0)], s1, Step(0));
    Advance(s, [] + [Step(0)] + [Step(0)], s2, Step(0));
    Advance(s, [] + [Step(0)] + [Step(0)] + [Step(0)], s3, Step(0));
    run := [] + [Step(0)] + [Step(0)] + [Step(0)] + [Step(0)];
  }

  lemma NotFound(s: State, call: Call)
    requires Inv(s) && s.threads == [Testing(call, s.tail)]
    ensures ValidRun(s, [Step(0)]) && Exec(s, [Step(0)]) == s.(threads := [Idle]) && Inv(Exec(s, [Step(0)]))
  {
    LastIsLive(s);
    Advance(s, [], s, Step(0));
    assert [] + [Step(0)] == [Step(0)];
  }

  function LiveOf(s: State): seq<nat>
    requires Shape(s) && Size(s) > 0
  {
    LiveIn(s.data, s.next, 1, Size(s))
  }

  /** The end of a lone remove: what its search found decides the result. */
  lemma RemoveEnds(s: State, call: Call, curr: nat) returns (run: seq<Action>)
    requires Inv(s) && s.threads == [Testing(call, curr)]
    requires 0 < curr <= s.tail && !s.next[curr].marked && (curr < s.tail ==> s.data[curr] == call.data)
    requires forall k | 0 < k < curr :: s.next[k].marked || s.data[k] != call.data
    ensures ValidRun(s, run) && Inv(Exec(s, run)) && Exec(s, run).threads == [Idle]
    ensures s.next[curr].ref.Null? <==> curr == s.tail
    ensures var live := LiveOf(s); live != [] && (call.data in live[..|live| - 1] <==> curr < s.tail)
    ensures curr == s.tail ==> Exec(s, run) == s.(threads := [Idle])
    ensures curr < s.tail ==>
              var n := Exec(s, run);
              && n.next == s.next[curr := s.next[curr].(marked := true)] && n.data == s.data && n.tail == s.tail
              && n.count == (s.count + COUNT_RANGE - 1) % COUNT_RANGE && FirstTaken(LiveOf(s), call.data, LiveOf(n))
  {
    LastIsLive(s);
    if curr == s.tail {
      LastApart(s.data, s.next, call.data);
      NotFound(s, call);
      run := [Step(0)];
    } else {
      MarkTakesFirst(s.data, s.next, curr, call.data, s.next[curr].(marked := true));
      run := Removal(s, call, curr);
    }
  }

  /** remove goes on with the node its search has found. */
  predicate SearchedFor(thread: Thread, x: nat, right: nat) {
    thread.Testing? && thread.call.data == x && thread.curr == right
  }

  /** What a traversal that has come to t has left behind: no live node that holds x, and its left node. */
  predicate Passed(data: seq<nat>, next: seq<Link>, x: nat, left: Ref, leftNext: Ref, t: nat) {
    && t < |next| == |data|
    && (forall k | 0 < k < t :: next[k].marked || data[k] != x)
    && (left.To? ==> left.node < t && next[left.node] == Link(leftNext, false))
    && (t > 0 ==> left.To?)
  }

  lemma PassedOne(data: seq<nat>, next: seq<Link>, x: nat, left: Ref, leftNext: Ref, t: nat, u: nat)
    requires Passed(data, next, x, left, leftNext, t) && (next[t].marked || data[t] != x) && t < u < |next|
    requires next[t].ref == To(u) && (forall k | t < k < u :: next[k].marked) && (t == 0 ==> !next[t].marked)
    ensures if next[t].marked then Passed(data, next, x, left, leftNext, u) else Passed(data, next, x, To(t), next[t].ref, u)
  {
  }

  class LfList {
    var data: seq<nat>
    var next: seq<Link>
    var tail: nat
    var count: nat
    ghost var state: State

    /** The fields are those of the state. */
    ghost predicate Mirrors()
      reads this
    {
      && data == state.data && next == state.next && tail == state.tail && count == state.count
      && Inv(state) && |state.threads| == 1
    }

    ghost predicate Valid()
      reads this
    {
      Mirrors() && state.threads[0] == Idle
    }

    ghost function Live(): seq<nat>
      reads this
      requires Mirrors()
    {
      LiveIn(data, next, 1, |next|)
    }

    constructor ()
      ensures Valid() && Live() == [] && count == 0
    {
      data, next, tail, count := [0], [Link(Null, false)], 0, 0;
      state := Init(1);
      new;
      InitInv(1);
    }

    method Append(x: nat) returns (ghost run: seq<Action>)
      requires Valid() && x != 0
      modifies this
      ensures Valid() && Live() == old(Live()) + [x] && Executes(old(state), run, state)
    {
      AppendRun(state, x);
      AppendIsLive(state, x);
      run := AppendCall(x);

      var node := |data|;
      data, next := data + [x], next + [Link(Null, false)];
      var last := tail;
      tail := node;
      next := next[last := Link(To(node), false)];
      count := (count + 1) % COUNT_RANGE;
      RunKeeps(state, run);
      state := Exec(state, run);
    }

    /** The inner loop of search: the first live node that holds x, or else the last node, and the live node before. */
    method Traverse(x: nat, ghost removal: bool)
      returns (left: Ref, leftNext: Ref, right: nat, ghost run: seq<Action>, ghost s: State)
      requires Valid() && x != 0 && Live() != []
      ensures Inv(s) && Executes(state, run, s)
      ensures s == state.(threads := [Found(Call(x, removal, left, leftNext), right)])
      ensures 0 < right <= tail && (right < tail ==> data[right] == x && !next[right].marked)
      ensures forall k | 0 < k < right :: next[k].marked || data[k] != x
      ensures left.To? && left.node < right && next[left.node] == Link(leftNext, false)
    {
      Begin(state, x, removal);
      run := [if removal then Action.Remove(0, x) else Action.Search(0, x), Step(0)];
      left, leftNext := Null, Null;
      var t: nat, tNext := 0, next[0];
      s := state.(threads := [Passing(Call(x, removal, Null, Null), 0, tNext)]);
      HeadIsLive(state);
      while tNext.marked || data[t] != x
        invariant Inv(s) && Executes(state, run, s) && t < tail && tNext == next[t]
        invariant s == state.(threads := [Passing(Call(x, removal, left, leftNext), t, tNext)])
        invariant Passed(data, next, x, left, leftNext, t)
        decreases tail - t
      {
        run, s := TravelOn(state, run, s, Call(x, removal, left, leftNext), t);
        PassedOne(data, next, x, left, leftNext, t, next[t].ref.node);
        if !tNext.marked {
          left, leftNext := To(t), tNext.ref;
        }
        t := tNext.ref.node;
        if t == tail {
          return left, leftNext, t, run, s;
        }
        tNext := next[t];
      }
      run, s := Arrive(state, run, s, Call(x, removal, left, leftNext), t);
      right := t;
    }

    /** search, alone or on behalf of remove; it takes the marked nodes between its two nodes out of the list. */
    method Search(x: nat, ghost removal: bool) returns (left: Ref, right: nat, ghost run: seq<Action>)
      requires Valid() && x != 0 && Live() != []
      modifies this`next, this`state
      ensures Mirrors() && Live() == old(Live()) && Executes(old(state), run, state)
      ensures 0 < right <= tail && !next[right].marked && (right < tail ==> data[right] == x)
      ensures forall k | 0 < k < right :: next[k].marked || data[k] != x
      ensures left.To? && left.node < right && next == old(next)[left.node := Link(To(right), false)]
      ensures if removal then SearchedFor(state.threads[0], x, right) else state.threads[0] == Idle
    {
      var leftNext;
      ghost var s, settle;
      left, leftNext, right, run, s := Traverse(x, removal);
      LastIsLive(state);
      settle := Settle(s, Call(x, removal, left, leftNext), right);
      RunOn(state, run, s, settle);
      if leftNext != To(right) {
        next := next[left.node := Link(To(right), false)];
      }
      run, state := run + settle, Exec(s, settle);
      LiveSame(old(data), old(next), data, next, 1, |next|);
    }

    /** Marks the first live node that holds x and returns 1, or returns 0; the last node is never removed. */
    method Remove(x: nat) returns (removed: int, ghost run: seq<Action>)
      requires Valid() && x != 0 && Live() != []
      modifies this
      ensures Valid() && Executes(old(state), run, state)
      ensures removed == if x in old(Live()[..|Live()| - 1]) then 1 else 0
      ensures removed == 1 ==> FirstTaken(old(Live()), x, Live())
      ensures removed == 0 ==> Live() == old(Live())
    {
      var left, curr;
      left, curr, run := Search(x, true);
      ghost var rest := RemoveEnds(state, state.threads[0].call, curr);
      RunOn(old(state), run, state, rest);
      run, state := run + rest, Exec(state, rest);
      if next[curr].ref == Null || data[curr] != x {
        return 0, run;
      }
      var succ := next[curr];
      next := next[curr := succ.(marked := true)];
      count := (count + COUNT_RANGE - 1) % COUNT_RANGE;
      removed := 1;
    }
  }
}
