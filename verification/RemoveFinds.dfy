/** A remove returns 0 only if there was nothing for it to find, and a search ends at what it looked for: neither misses a
 node that is there throughout the call. */
module RemoveFinds {
  import opened LatchFreeList

  /** Node m is live, the appends up to the one behind it have stored their links, and so m is not the last node. */
  predicate There(s: State, m: nat) {
    Shape(s) && 0 < m && m + 1 < Size(s) && !s.next[m].marked && AllLinked(s, 0, m + 1)
  }

  predicate Calls(x: Thread) {
    x.Starting? || x.Passing? || x.Arriving? || x.Unlinking? || x.Checking? || x.Testing? || x.Reading? || x.Marking?
  }

  /** The call has not passed node m, which holds its data, and what it has found holds its data too. */
  predicate Toward(s: State, x: Thread, m: nat, removal: bool) {
    && Calls(x) && x.call.removal == removal && (x.Testing? || x.Reading? || x.Marking? ==> removal)
    && m < Size(s) && s.data[m] == x.call.data
    && match x
       case Passing(_, t, tNext) => t <= m && (tNext.ref.To? ==> t < tNext.ref.node)
       case Arriving(_, t) => t <= m
       case Unlinking(call, right) => right <= m && Holds(s, right, call.data)
       case Checking(call, right) => right <= m && Holds(s, right, call.data)
       case Testing(call, curr) => curr <= m && Holds(s, curr, call.data)
       case Reading(_, curr) => curr <= m
       case Marking(_, curr, _) => curr <= m
       case _ => true
  }

  predicate Holds(s: State, i: nat, data: nat) {
    i < Size(s) && s.data[i] == data
  }

  /** Other threads' steps do not change what a call is looking for. */
  lemma OthersKeep(s: State, n: State, x: Thread, m: nat, removal: bool)
    requires Grows(s, n) && Toward(s, x, m, removal)
    ensures Toward(n, x, m, removal)
  {
  }

  /** The search of node m's data ends here, at a live node with the data, no later in the list than m. */
  predicate Ends(s: State, x: Thread, m: nat) {
    && Shape(s) && m < Size(s) && x.Checking? && !x.call.removal && x.call.data == s.data[m]
    && x.right <= m && s.data[x.right] == s.data[m] && !s.next[x.right].marked
  }

  /** What a pointer of node t jumps over is marked, and m is not. */
  lemma NotJumped(s: State, t: nat, ref: Ref, m: nat)
    requires There(s, m) && t < m && ref.To? && Points(s, t, ref)
    ensures ref.node <= m
  {
  }

  lemma PassToward(s: State, th: nat, m: nat, removal: bool)
    requires Inv(s) && Enabled(s, Step(th)) && There(s, m) && s.threads[th].Passing? && Toward(s, s.threads[th], m, removal)
    ensures var x := s.threads[th]; Toward(s, Pass(s, x.call, x.t, x.tNext), m, removal)
  {
    var x := s.threads[th];
    assert ThreadOk(s, th);
    if x.t < m && x.tNext.ref.To? { NotJumped(s, x.t, x.tNext.ref, m); }
  }

  /** Node curr has a node linked behind it. */
  lemma NotLast(s: State, curr: nat, m: nat)
    requires Inv(s) && There(s, m) && curr <= m
    ensures s.next[curr].ref.To?
  {
    assert NodeOk(s, curr) && Linked(s, curr + 1);
  }

  lemma StartToward(s: State, th: nat, m: nat, removal: bool)
    requires Inv(s) && Enabled(s, Step(th)) && There(s, m) && Toward(s, s.threads[th], m, removal)
    requires s.threads[th].Starting? || s.threads[th].Arriving?
    ensures Toward(s, DoStep(s, th).threads[th], m, removal)
  {
    assert ThreadOk(s, th) && NodeOk(s, 0);
    if s.threads[th].Arriving? { assert NodeOk(s, s.threads[th].t); }
  }

  lemma FoundToward(s: State, th: nat, m: nat, removal: bool)
    requires Inv(s) && Enabled(s, Step(th)) && There(s, m) && Toward(s, s.threads[th], m, removal)
    requires s.threads[th].Unlinking? || s.threads[th].Checking? || s.threads[th].Testing? || s.threads[th].Reading?
    ensures var x := DoStep(s, th).threads[th]; Toward(s, x, m, removal) || (x == Idle && Ends(s, s.threads[th], m))
  {
    assert ThreadOk(s, th);
    if s.threads[th].Testing? { NotLast(s, s.threads[th].curr, m); }
  }

  /** A remove is about to return 1, for the node that it has just marked, or a search has ended at what it looked for. */
  predicate Comes(s: State, x: Thread, n: Thread, m: nat, removal: bool) {
    if removal then n.Discounting? else n == Idle && Ends(s, x, m)
  }

  /** One step of the call itself: it goes on looking, or it has found what it was to find. */
  lemma OwnStep(s: State, th: nat, m: nat, removal: bool)
    requires Inv(s) && Enabled(s, Step(th)) && There(s, m) && Toward(s, s.threads[th], m, removal)
    ensures var x := Do(s, Step(th)).threads[th];
            Comes(s, s.threads[th], x, m, removal) || Toward(Do(s, Step(th)), x, m, removal)
  {
    var n := Do(s, Step(th));
    InvReady(s, Step(th));
    StepGrows(s, Step(th));
    assert ThreadOk(s, th);
    if s.threads[th].Passing? {
      PassToward(s, th, m, removal);
    } else if s.threads[th].Starting? || s.threads[th].Arriving? {
      StartToward(s, th, m, removal);
    } else if !s.threads[th].Marking? {
      FoundToward(s, th, m, removal);
    }
    if Toward(s, n.threads[th], m, removal) { OthersKeep(s, n, n.threads[th], m, removal); }
  }

  /** Any thread's step. */
  lemma StepToward(s: State, a: Action, th: nat, m: nat, removal: bool)
    requires Inv(s) && Enabled(s, a) && th < |s.threads| && There(s, m) && Toward(s, s.threads[th], m, removal)
    ensures th < |Do(s, a).threads|
    ensures var x := Do(s, a).threads[th];
            (a == Step(th) && Comes(s, s.threads[th], x, m, removal)) || Toward(Do(s, a), x, m, removal)
  {
    if a == Step(th) {
      OwnStep(s, th, m, removal);
    } else {
      InvReady(s, a);
      StepGrows(s, a);
      OthersKeep(s, Do(s, a), s.threads[th], m, removal);
    }
  }

  /** Node m is there until the call of thread th has marked a node or the run ends. */
  ghost predicate ThereUntilMarked(s: State, run: seq<Action>, th: nat, m: nat)
    requires ValidRun(s, run)
    decreases |run|
  {
    && th < |s.threads|
    && (s.threads[th].Discounting? || (There(s, m) && (run == [] || ThereUntilMarked(Do(s, run[0]), run[1..], th, m))))
  }

  /** In the run the call of thread th marks a node, after which it returns 1. */
  ghost predicate Marks(s: State, run: seq<Action>, th: nat)
    requires ValidRun(s, run)
    decreases |run|
  {
    th < |s.threads| && (s.threads[th].Discounting? || (run != [] && Marks(Do(s, run[0]), run[1..], th)))
  }

  lemma {:induction false} TowardRun(s: State, run: seq<Action>, th: nat, m: nat)
    requires Inv(s) && ValidRun(s, run) && th < |s.threads| && Toward(s, s.threads[th], m, true) && ThereUntilMarked(s, run, th, m)
    ensures Marks(s, run, th) || (th < |Exec(s, run).threads| && Calls(Exec(s, run).threads[th]))
    decreases |run|
  {
    if run != [] {
      var n := Do(s, run[0]);
      StepToward(s, run[0], th, m, true);
      StepKeeps(s, run[0]);
      if !n.threads[th].Discounting? { TowardRun(n, run[1..], th, m); }
    }
  }

  /**
   A remove does not miss a node with its data that is live, linked and not the last throughout the call: as long as it
   has not marked a node, which is when it goes on to return 1, it goes on looking, and so it never returns 0.
   */
  lemma NeverMissed(s: State, run: seq<Action>, th: nat, m: nat)
    requires Reachable(s) && Shape(s) && 0 < m < Size(s) && Enabled(s, Remove(th, s.data[m]))
    requires ValidRun(Do(s, Remove(th, s.data[m])), run)
    requires ThereUntilMarked(Do(s, Remove(th, s.data[m])), run, th, m)
    ensures var n := Do(s, Remove(th, s.data[m]));
            Marks(n, run, th) || (th < |Exec(n, run).threads| && Exec(n, run).threads[th] != Idle)
  {
    ReachableInv(s);
    StepKeeps(s, Remove(th, s.data[m]));
    TowardRun(Do(s, Remove(th, s.data[m])), run, th, m);
  }

  /** Node m is there up to the step with which the search of thread th ends, or to the end of the run. */
  ghost predicate ThereUntilFound(s: State, run: seq<Action>, th: nat, m: nat)
    requires ValidRun(s, run)
    decreases |run|
  {
    && th < |s.threads|
    && (s.threads[th] == Idle || (There(s, m) && (run == [] || ThereUntilFound(Do(s, run[0]), run[1..], th, m))))
  }

  /** The search of thread th ends in the run, at a live node with node m's data, no later in the list than m. */
  ghost predicate FindsFor(s: State, run: seq<Action>, th: nat, m: nat)
    requires ValidRun(s, run)
    decreases |run|
  {
    && run != [] && th < |s.threads|
    && ((run[0] == Step(th) && Do(s, run[0]).threads[th] == Idle && Ends(s, s.threads[th], m))
        || FindsFor(Do(s, run[0]), run[1..], th, m))
  }

  lemma {:induction false} SearchRun(s: State, run: seq<Action>, th: nat, m: nat)
    requires Inv(s) && ValidRun(s, run) && th < |s.threads| && Toward(s, s.threads[th], m, false)
    requires ThereUntilFound(s, run, th, m)
    ensures FindsFor(s, run, th, m) || (th < |Exec(s, run).threads| && Toward(Exec(s, run), Exec(s, run).threads[th], m, false))
    decreases |run|
  {
    if run != [] {
      var n := Do(s, run[0]);
      StepToward(s, run[0], th, m, false);
      StepKeeps(s, run[0]);
      if Toward(n, n.threads[th], m, false) { SearchRun(n, run[1..], th, m); }
    }
  }

  /**
   A search does not miss such a node either: it goes on looking, and when it ends, it ends at a node with its data that is
   live at that moment and stands no later in the list than the one that was there throughout.
   */
  lemma SearchEndsThere(s: State, run: seq<Action>, th: nat, m: nat)
    requires Reachable(s) && Shape(s) && 0 < m < Size(s) && Enabled(s, Search(th, s.data[m]))
    requires ValidRun(Do(s, Search(th, s.data[m])), run)
    requires ThereUntilFound(Do(s, Search(th, s.data[m])), run, th, m)
    ensures var n := Do(s, Search(th, s.data[m]));
            FindsFor(n, run, th, m) || (th < |Exec(n, run).threads| && Exec(n, run).threads[th] != Idle)
  {
    ReachableInv(s);
    StepKeeps(s, Search(th, s.data[m]));
    SearchRun(Do(s, Search(th, s.data[m])), run, th, m);
  }
}
