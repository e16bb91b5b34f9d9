/**
 The AVL tree of one volume as a value: what insert, physical delete, logical delete and the purge do to it.

 Heights are stored, as in the nodes. The functions are total; a rotation without the child it lifts leaves the tree
 as it is, a case the code cannot survive and that does not arise on a balanced tree.
 */
module AvlTree {

  datatype Entry = Entry(lbn: nat, inode: nat, valid: bool)

  datatype Tree = Leaf | Node(left: Tree, entry: Entry, height: int, right: Tree)

  datatype Option<T> = None | Some(value: T)

  function Height(t: Tree): int { if t.Leaf? then 0 else t.height }

  function Max(a: int, b: int): int { if a > b then a else b }

  /** The node with its height brought up to date. */
  function Make(left: Tree, entry: Entry, right: Tree): Tree {
    Node(left, entry, Max(Height(left), Height(right)) + 1, right)
  }

  function Balance(t: Tree): int { if t.Leaf? then 0 else Height(t.left) - Height(t.right) }

  function RotateRight(t: Tree): Tree {
    match t
    case Node(Node(a, x, _, b), y, _, c) => Make(a, x, Make(b, y, c))
    case _ => t
  }

  function RotateLeft(t: Tree): Tree {
    match t
    case Node(a, x, _, Node(b, y, _, c)) => Make(Make(a, x, b), y, c)
    case _ => t
  }

  /** Double rotations. */
  function RotateLeftRight(t: Tree): Tree {
    if t.Leaf? then t else RotateRight(t.(left := RotateLeft(t.left)))
  }

  function RotateRightLeft(t: Tree): Tree {
    if t.Leaf? then t else RotateLeft(t.(right := RotateRight(t.right)))
  }

  /** Rebalancing after an insert tells the cases apart by the inserted key. */
  function FixInsert(t: Tree, lbn: nat): Tree {
    if Balance(t) > 1 && t.left.Node? && lbn < t.left.entry.lbn then RotateRight(t)
    else if Balance(t) > 1 && t.left.Node? && lbn > t.left.entry.lbn then RotateLeftRight(t)
    else if Balance(t) < -1 && t.right.Node? && lbn > t.right.entry.lbn then RotateLeft(t)
    else if Balance(t) < -1 && t.right.Node? && lbn < t.right.entry.lbn then RotateRightLeft(t)
    else t
  }

  function Insert(t: Tree, e: Entry): Tree {
    match t
    case Leaf => Node(Leaf, e, 1, Leaf)
    case Node(l, x, _, r) =>
      FixInsert(if e.lbn < x.lbn then Make(Insert(l, e), x, r) else Make(l, x, Insert(r, e)), e.lbn)
  }

  /** Rebalancing after a delete tells the cases apart by the child's balance. */
  function FixDelete(t: Tree): Tree {
    if Balance(t) > 1 && Balance(t.left) >= 0 then RotateRight(t)
    else if Balance(t) > 1 then RotateLeftRight(t)
    else if Balance(t) < -1 && Balance(t.right) <= 0 then RotateLeft(t)
    else if Balance(t) < -1 then RotateRightLeft(t)
    else t
  }

  function Min(t: Tree): Entry
    requires t.Node?
  {
    if t.left.Leaf? then t.entry else Min(t.left)
  }

  function Delete(t: Tree, lbn: nat): Tree {
    match t
    case Leaf => Leaf
    case Node(l, x, _, r) =>
      if lbn < x.lbn then FixDelete(Make(Delete(l, lbn), x, r))
      else if lbn > x.lbn then FixDelete(Make(l, x, Delete(r, lbn)))
      else if l.Leaf? && r.Leaf? then Leaf
      else if l.Leaf? then FixDelete(Make(r.left, r.entry, r.right))
      else if r.Leaf? then FixDelete(Make(l.left, l.entry, l.right))
      else FixDelete(Make(l, Min(r), Delete(r, Min(r).lbn)))
  }

  /** Logical deletion marks the node of that key, if there is one. */
  function Invalidate(t: Tree, lbn: nat): Tree {
    match t
    case Leaf => Leaf
    case Node(l, x, h, r) =>
      if lbn == x.lbn then Node(l, x.(valid := false), h, r)
      else if lbn < x.lbn then Node(Invalidate(l, lbn), x, h, r)
      else Node(l, x, h, Invalidate(r, lbn))
  }

  function Search(t: Tree, lbn: nat): Option<Entry> {
    match t
    case Leaf => None
    case Node(l, x, _, r) => if lbn == x.lbn then Some(x) else if lbn < x.lbn then Search(l, lbn) else Search(r, lbn)
  }

  /** The first invalid node, roots before children and left before right. */
  function FirstInvalid(t: Tree): Option<Entry> {
    match t
    case Leaf => None
    case Node(l, x, _, r) =>
      if !x.valid then Some(x)
      else if FirstInvalid(l).Some? then FirstInvalid(l)
      else FirstInvalid(r)
  }

  /** Deletes the first invalid node, n times. */
  function Purge(t: Tree, n: nat): Tree
    decreases n
  {
    if n == 0 || FirstInvalid(t).None? then t else Purge(Delete(t, FirstInvalid(t).value.lbn), n - 1)
  }

  // -------------------------------------------------------------------------- contents, in key order

  function InOrder(t: Tree): seq<Entry> {
    if t.Leaf? then [] else InOrder(t.left) + [t.entry] + InOrder(t.right)
  }

  predicate Sorted(q: seq<Entry>) {
    forall a, b | 0 <= a < b < |q| :: q[a].lbn < q[b].lbn
  }

  predicate Below(q: seq<Entry>, lbn: nat) {
    forall a | 0 <= a < |q| :: q[a].lbn < lbn
  }

  predicate Above(q: seq<Entry>, lbn: nat) {
    forall a | 0 <= a < |q| :: q[a].lbn > lbn
  }

  predicate HasKey(q: seq<Entry>, lbn: nat) {
    exists a :: 0 <= a < |q| && q[a].lbn == lbn
  }

  lemma SortedSplit(a: seq<Entry>, x: Entry, b: seq<Entry>)
    ensures Sorted(a + [x] + b) <==> Sorted(a) && Sorted(b) && Below(a, x.lbn) && Above(b, x.lbn)
  {
    var q := a + [x] + b;
    if Sorted(q) {
      forall i | 0 <= i < |a| ensures a[i].lbn < x.lbn { assert q[i] == a[i] && q[|a|] == x; }
      forall i | 0 <= i < |b| ensures b[i].lbn > x.lbn { assert q[|a| + 1 + i] == b[i] && q[|a|] == x; }
      forall i, j | 0 <= i < j < |a| ensures a[i].lbn < a[j].lbn { assert q[i] == a[i] && q[j] == a[j]; }
      forall i, j | 0 <= i < j < |b| ensures b[i].lbn < b[j].lbn {
        assert q[|a| + 1 + i] == b[i] && q[|a| + 1 + j] == b[j];
      }
    }
  }

  /** The tree's contents with e put where its key belongs: after every key that is not larger. */
  function With(q: seq<Entry>, e: Entry): seq<Entry> {
    if q == [] then [e]
    else if e.lbn < q[|q| - 1].lbn then With(q[..|q| - 1], e) + [q[|q| - 1]]
    else q + [e]
  }

  /** The contents without that key. */
  function Without(q: seq<Entry>, lbn: nat): seq<Entry> {
    if q == [] then []
    else Without(q[..|q| - 1], lbn) + if q[|q| - 1].lbn == lbn then [] else [q[|q| - 1]]
  }

  function Valids(q: seq<Entry>): seq<Entry> {
    if q == [] then [] else Valids(q[..|q| - 1]) + if q[|q| - 1].valid then [q[|q| - 1]] else []
  }

  function Invalids(q: seq<Entry>): nat {
    if q == [] then 0 else Invalids(q[..|q| - 1]) + if q[|q| - 1].valid then 0 else 1
  }

  /** What e is not below, e goes behind. */
  lemma {:induction false} WithBehind(a: seq<Entry>, b: seq<Entry>, e: Entry)
    requires forall i | 0 <= i < |a| :: a[i].lbn <= e.lbn
    ensures With(a + b, e) == a + With(b, e)
  {
    if b == [] {
      assert a + b == a;
    } else {
      var m := |b| - 1;
      assert (a + b)[..|a + b| - 1] == a + b[..m];
      if e.lbn < b[m].lbn {
        WithBehind(a, b[..m], e);
        assert a + With(b[..m], e) + [b[m]] == a + (With(b[..m], e) + [b[m]]);
      } else {
        assert a + b + [e] == a + (b + [e]);
      }
    }
  }

  /** What e is below, e goes before. */
  lemma {:induction false} WithBefore(a: seq<Entry>, b: seq<Entry>, e: Entry)
    requires Above(b, e.lbn)
    ensures With(a + b, e) == With(a, e) + b
  {
    if b == [] {
      assert a + b == a;
    } else {
      var m := |b| - 1;
      assert (a + b)[..|a + b| - 1] == a + b[..m];
      WithBefore(a, b[..m], e);
      assert With(a, e) + b[..m] + [b[m]] == With(a, e) + b;
    }
  }

  lemma WithSplit(a: seq<Entry>, x: Entry, b: seq<Entry>, e: Entry)
    requires Sorted(a + [x] + b)
    ensures With(a + [x] + b, e) == if e.lbn < x.lbn then With(a, e) + [x] + b else a + [x] + With(b, e)
  {
    SortedSplit(a, x, b);
    if e.lbn < x.lbn {
      assert a + [x] + b == a + ([x] + b) && With(a, e) + [x] + b == With(a, e) + ([x] + b);
      WithBefore(a, [x] + b, e);
    } else {
      WithBehind(a + [x], b, e);
    }
  }

  lemma {:induction false} WithoutAdd(a: seq<Entry>, b: seq<Entry>, lbn: nat)
    ensures Without(a + b, lbn) == Without(a, lbn) + Without(b, lbn)
  {
    if b == [] {
      assert a + b == a;
    } else {
      var m := |b| - 1;
      WithoutAdd(a, b[..m], lbn);
      assert (a + b)[..|a + b| - 1] == a + b[..m];
    }
  }

  lemma {:induction false} WithoutNone(q: seq<Entry>, lbn: nat)
    requires !HasKey(q, lbn)
    ensures Without(q, lbn) == q
  {
    if q != [] { WithoutNone(q[..|q| - 1], lbn); }
  }

  lemma WithoutOne(x: Entry, lbn: nat)
    ensures Without([x], lbn) == if x.lbn == lbn then [] else [x]
  {
    assert [x][..0] == [];
  }

  lemma WithoutSplit(a: seq<Entry>, x: Entry, b: seq<Entry>, lbn: nat)
    requires Sorted(a + [x] + b)
    ensures lbn < x.lbn ==> Without(a + [x] + b, lbn) == Without(a, lbn) + [x] + b
    ensures lbn > x.lbn ==> Without(a + [x] + b, lbn) == a + [x] + Without(b, lbn)
    ensures lbn == x.lbn ==> Without(a + [x] + b, lbn) == a + b
  {
    SortedSplit(a, x, b);
    WithoutAdd(a + [x], b, lbn);
    WithoutAdd(a, [x], lbn);
    WithoutOne(x, lbn);
    if lbn <= x.lbn { WithoutNone(b, lbn); }
    if lbn >= x.lbn { WithoutNone(a, lbn); }
  }

  // -------------------------------------------------------------------------------- contents change

  lemma RotationsKeepOrder(t: Tree)
    ensures InOrder(RotateRight(t)) == InOrder(t) == InOrder(RotateLeft(t))
    ensures InOrder(RotateLeftRight(t)) == InOrder(t) == InOrder(RotateRightLeft(t))
  {
    OneRotation(t);
    if t.Node? {
      OneRotation(t.left);
      OneRotation(t.right);
      OneRotation(t.(left := RotateLeft(t.left)));
      OneRotation(t.(right := RotateRight(t.right)));
    }
  }

  lemma FixesKeepOrder(l: Tree, x: Entry, r: Tree, lbn: nat)
    ensures InOrder(FixInsert(Make(l, x, r), lbn)) == InOrder(l) + [x] + InOrder(r)
    ensures InOrder(FixDelete(Make(l, x, r))) == InOrder(l) + [x] + InOrder(r)
  {
    RotationsKeepOrder(Make(l, x, r));
  }

  lemma OneRotation(t: Tree)
    ensures InOrder(RotateRight(t)) == InOrder(t) == InOrder(RotateLeft(t))
  {
    match t
    case Leaf =>
    case Node(l, x, _, r) =>
      if l.Node? {
        var a, b, c := InOrder(l.left), InOrder(l.right), InOrder(r);
        assert a + [l.entry] + (b + [x] + c) == (a + [l.entry] + b) + [x] + c;
      }
      if r.Node? {
        var a, b, c := InOrder(l), InOrder(r.left), InOrder(r.right);
        assert (a + [x] + b) + [r.entry] + c == a + [x] + (b + [r.entry] + c);
      }
  }

  /** Insert adds its entry where its key belongs and changes nothing else, whatever the shape of the tree. */
  lemma {:induction false} InsertAdds(t: Tree, e: Entry)
    requires Sorted(InOrder(t))
    ensures InOrder(Insert(t, e)) == With(InOrder(t), e)
  {
    match t
    case Leaf =>
      assert InOrder(Insert(t, e)) == [e];
    case Node(l, x, _, r) =>
      SortedSplit(InOrder(l), x, InOrder(r));
      WithSplit(InOrder(l), x, InOrder(r), e);
      if e.lbn < x.lbn {
        InsertAdds(l, e);
        FixesKeepOrder(Insert(l, e), x, r, e.lbn);
      } else {
        InsertAdds(r, e);
        FixesKeepOrder(l, x, Insert(r, e), e.lbn);
      }
  }

  lemma {:induction false} WithKeys(q: seq<Entry>, e: Entry)
    requires Sorted(q)
    ensures Sorted(With(q, e)) <==> !HasKey(q, e.lbn)
    ensures forall k :: HasKey(With(q, e), k) <==> HasKey(q, k) || k == e.lbn
  {
    if q == [] {
      assert With(q, e)[0] == e;
    } else {
      var n := |q| - 1;
      var rest, last := q[..n], q[n];
      assert q == rest + [last] + [];
      SortedSplit(rest, last, []);
      KeysAdd(rest, last);
      if e.lbn < last.lbn {
        WithKeys(rest, e);
        KeysAdd(With(rest, e), last);
        assert With(rest, e) + [last] == With(rest, e) + [last] + [];
        SortedSplit(With(rest, e), last, []);
        BelowWith(rest, e, last.lbn);
      } else {
        KeysAdd(q, e);
        assert q + [e] == q + [e] + [];
        SortedSplit(q, e, []);
        if e.lbn == last.lbn { assert !Below(q, e.lbn) && HasKey(q, e.lbn); }
      }
    }
  }

  lemma KeysAdd(q: seq<Entry>, x: Entry)
    ensures forall k :: HasKey(q + [x], k) <==> HasKey(q, k) || k == x.lbn
  {
    forall k ensures HasKey(q + [x], k) <==> HasKey(q, k) || k == x.lbn {
      if HasKey(q, k) {
        var a :| 0 <= a < |q| && q[a].lbn == k;
        assert (q + [x])[a].lbn == k;
      }
      if k == x.lbn { assert (q + [x])[|q|].lbn == k; }
    }
  }

  lemma {:induction false} BelowWith(q: seq<Entry>, e: Entry, lbn: nat)
    requires Below(q, lbn) && e.lbn < lbn
    ensures Below(With(q, e), lbn)
  {
    if q != [] && e.lbn < q[|q| - 1].lbn { BelowWith(q[..|q| - 1], e, lbn); }
  }

  /** Insert keeps the keys strictly ordered if and only if its key is not there yet, valid or not. */
  lemma InsertOrderedIff(t: Tree, e: Entry)
    requires Sorted(InOrder(t))
    ensures Sorted(InOrder(Insert(t, e))) <==> !HasKey(InOrder(t), e.lbn)
  {
    InsertAdds(t, e);
    WithKeys(InOrder(t), e);
  }

  lemma {:induction false} MinIsFirst(t: Tree)
    requires t.Node?
    ensures InOrder(t) != [] && Min(t) == InOrder(t)[0]
  {
    if t.left.Node? { MinIsFirst(t.left); }
  }

  /** Taking the smallest entry out of b, which comes first. */
  lemma WithoutFirst(b: seq<Entry>)
    requires Sorted(b) && b != []
    ensures Without(b, b[0].lbn) == b[1..]
  {
    assert b == [] + [b[0]] + b[1..];
    WithoutSplit([], b[0], b[1..], b[0].lbn);
  }

  /** A node with two children takes over the smallest entry of the right one, which is deleted there: rest is left. */
  lemma DeleteCopies(l: Tree, r: Tree, rest: Tree)
    requires l.Node? && r.Node? && Sorted(InOrder(r)) && InOrder(rest) == Without(InOrder(r), Min(r).lbn)
    ensures InOrder(FixDelete(Make(l, Min(r), rest))) == InOrder(l) + InOrder(r)
  {
    var m, a, b := Min(r), InOrder(l), InOrder(r);
    MinIsFirst(r);
    WithoutFirst(b);
    PutBack(a, b);
    FixesKeepOrder(l, m, rest, 0);
  }

  lemma PutBack(a: seq<Entry>, b: seq<Entry>)
    requires b != []
    ensures a + [b[0]] + b[1..] == a + b
  {
  }

  /** A node with at most one child is replaced by the child. */
  lemma DeleteLifts(l: Tree, x: Entry, r: Tree)
    requires l.Leaf? || r.Leaf?
    ensures forall h :: InOrder(Delete(Node(l, x, h, r), x.lbn)) == InOrder(l) + InOrder(r)
  {
    if r.Node? {
      FixesKeepOrder(r.left, r.entry, r.right, 0);
    } else if l.Node? {
      FixesKeepOrder(l.left, l.entry, l.right, 0);
    }
  }

  /** Delete takes out exactly the entry of its key, whatever the shape of the tree. */
  lemma {:induction false} DeleteRemoves(t: Tree, lbn: nat)
    requires Sorted(InOrder(t))
    ensures InOrder(Delete(t, lbn)) == Without(InOrder(t), lbn)
  {
    match t
    case Leaf =>
    case Node(l, x, _, r) =>
      var a, b := InOrder(l), InOrder(r);
      SortedSplit(a, x, b);
      WithoutSplit(a, x, b, lbn);
      if lbn < x.lbn {
        DeleteRemoves(l, lbn);
        FixesKeepOrder(Delete(l, lbn), x, r, lbn);
      } else if lbn > x.lbn {
        DeleteRemoves(r, lbn);
        FixesKeepOrder(l, x, Delete(r, lbn), lbn);
      } else if l.Node? && r.Node? {
        DeleteRemoves(r, Min(r).lbn);
        DeleteCopies(l, r, Delete(r, Min(r).lbn));
      } else {
        DeleteLifts(l, x, r);
      }
  }

  // ------------------------------------------------------------------------------ heights and balance

  /** Every stored height is the height. */
  predicate Exact(t: Tree) {
    t.Leaf? || (t.height == Max(Height(t.left), Height(t.right)) + 1 && Exact(t.left) && Exact(t.right))
  }

  predicate Balanced(t: Tree) {
    t.Leaf? || (-1 <= Balance(t) <= 1 && Balanced(t.left) && Balanced(t.right))
  }

  function Depth(t: Tree): nat {
    if t.Leaf? then 0 else 1 + if Depth(t.left) > Depth(t.right) then Depth(t.left) else Depth(t.right)
  }

  lemma {:induction false} ExactIsDepth(t: Tree)
    requires Exact(t)
    ensures Height(t) == Depth(t)
  {
    if t.Node? {
      ExactIsDepth(t.left);
      ExactIsDepth(t.right);
    }
  }

  /** The search for lbn does not meet it. */
  predicate Misses(t: Tree, lbn: nat) {
    t.Leaf? || (lbn != t.entry.lbn && if lbn < t.entry.lbn then Misses(t.left, lbn) else Misses(t.right, lbn))
  }

  lemma {:induction false} MetIsThere(t: Tree, lbn: nat)
    requires !Misses(t, lbn)
    ensures HasKey(InOrder(t), lbn)
  {
    var a, x, b := InOrder(t.left), t.entry, InOrder(t.right);
    var q := a + [x] + b;
    if lbn == x.lbn {
      assert q[|a|] == x;
    } else if lbn < x.lbn {
      MetIsThere(t.left, lbn);
      var i :| 0 <= i < |a| && a[i].lbn == lbn;
      assert q[i] == a[i];
    } else {
      MetIsThere(t.right, lbn);
      var i :| 0 <= i < |b| && b[i].lbn == lbn;
      assert q[|a| + 1 + i] == b[i];
    }
  }

  predicate Shaped(t: Tree) { Exact(t) && Balanced(t) }

  /** A subtree that has grown by an insert leans to the side of the inserted key. */
  predicate Leans(t: Tree, lbn: nat) {
    t.Node? && (lbn < t.entry.lbn ==> Balance(t) == 1) && (lbn > t.entry.lbn ==> Balance(t) == -1) && lbn != t.entry.lbn
  }

  lemma ExactIsNat(t: Tree)
    requires Exact(t)
    ensures Height(t) >= 0 && (Height(t) == 0 <==> t.Leaf?)
  {
    ExactIsDepth(t);
  }

  lemma MakeShaped(l: Tree, x: Entry, r: Tree)
    requires Shaped(l) && Shaped(r) && -1 <= Height(l) - Height(r) <= 1
    ensures Shaped(Make(l, x, r))
  {
  }

  /** What the rotations make of a left side, or a right side, that is two higher. */
  lemma LiftLeft(l: Tree, x: Entry, r: Tree)
    requires Shaped(l) && Shaped(r) && Height(l) == Height(r) + 2
    ensures l.Node?
    ensures var t := RotateRight(Make(l, x, r));
            Balance(l) >= 0 ==> Shaped(t) && Height(t) == if Balance(l) == 0 then Height(l) + 1 else Height(l)
    ensures var t := RotateLeftRight(Make(l, x, r)); Balance(l) < 0 ==> Shaped(t) && Height(t) == Height(l)
  {
    ExactIsNat(r);
    ExactIsNat(l);
    ExactIsNat(l.right);
    if Balance(l) >= 0 {
      assert RotateRight(Make(l, x, r)) == Make(l.left, l.entry, Make(l.right, x, r));
    } else {
      var m := l.right;
      assert Shaped(m);
      MakeShaped(l.left, l.entry, m.left);
      MakeShaped(m.right, x, r);
      MakeShaped(Make(l.left, l.entry, m.left), m.entry, Make(m.right, x, r));
      assert RotateLeftRight(Make(l, x, r)) == Make(Make(l.left, l.entry, m.left), m.entry, Make(m.right, x, r));
    }
  }

  lemma LiftRight(l: Tree, x: Entry, r: Tree)
    requires Shaped(l) && Shaped(r) && Height(r) == Height(l) + 2
    ensures r.Node?
    ensures var t := RotateLeft(Make(l, x, r));
            Balance(r) <= 0 ==> Shaped(t) && Height(t) == if Balance(r) == 0 then Height(r) + 1 else Height(r)
    ensures var t := RotateRightLeft(Make(l, x, r)); Balance(r) > 0 ==> Shaped(t) && Height(t) == Height(r)
  {
    ExactIsNat(l);
    ExactIsNat(r);
    ExactIsNat(r.left);
    if Balance(r) <= 0 {
      assert RotateLeft(Make(l, x, r)) == Make(Make(l, x, r.left), r.entry, r.right);
    } else {
      var m := r.left;
      assert Shaped(m);
      MakeShaped(l, x, m.left);
      MakeShaped(m.right, r.entry, r.right);
      MakeShaped(Make(l, x, m.left), m.entry, Make(m.right, r.entry, r.right));
      assert RotateRightLeft(Make(l, x, r)) == Make(Make(l, x, m.left), m.entry, Make(m.right, r.entry, r.right));
    }
  }

  /** Rebalancing on the left: l, which leans towards the key, is two higher than r. */
  lemma FixInsertLeft(l: Tree, x: Entry, r: Tree, lbn: nat)
    requires Shaped(l) && Shaped(r) && Height(l) == Height(r) + 2 && Leans(l, lbn)
    ensures var t := FixInsert(Make(l, x, r), lbn); Shaped(t) && Height(t) == Height(l)
  {
    LiftLeft(l, x, r);
  }

  lemma FixInsertRight(l: Tree, x: Entry, r: Tree, lbn: nat)
    requires Shaped(l) && Shaped(r) && Height(r) == Height(l) + 2 && Leans(r, lbn)
    ensures var t := FixInsert(Make(l, x, r), lbn); Shaped(t) && Height(t) == Height(r)
  {
    LiftRight(l, x, r);
  }

  /** Insert keeps heights exact and the tree balanced, and the tree grows by at most one level. */
  lemma {:induction false} InsertShape(t: Tree, e: Entry)
    requires Shaped(t) && Misses(t, e.lbn)
    ensures Shaped(Insert(t, e)) && Height(t) <= Height(Insert(t, e)) <= Height(t) + 1
    ensures Height(Insert(t, e)) == Height(t) + 1 && t.Node? ==> Leans(Insert(t, e), e.lbn)
  {
    if t.Node? {
      var l, x, r := t.left, t.entry, t.right;
      ExactIsNat(l);
      ExactIsNat(r);
      if e.lbn < x.lbn {
        InsertShape(l, e);
        if Height(Insert(l, e)) == Height(r) + 2 { FixInsertLeft(Insert(l, e), x, r, e.lbn); }
      } else {
        InsertShape(r, e);
        if Height(Insert(r, e)) == Height(l) + 2 { FixInsertRight(l, x, Insert(r, e), e.lbn); }
      }
    }
  }

  /** Rebalancing after a delete mends a difference of two. */
  lemma FixDeleteShape(l: Tree, x: Entry, r: Tree)
    requires Shaped(l) && Shaped(r) && -2 <= Height(l) - Height(r) <= 2
    ensures var t, h := FixDelete(Make(l, x, r)), Max(Height(l), Height(r));
            Shaped(t) && h <= Height(t) <= h + 1 && (-1 <= Height(l) - Height(r) <= 1 ==> Height(t) == h + 1)
  {
    if Height(l) == Height(r) + 2 { LiftLeft(l, x, r); }
    if Height(r) == Height(l) + 2 { LiftRight(l, x, r); }
  }

  /** Delete keeps heights exact and the tree balanced, and the tree shrinks by at most one level. */
  lemma {:induction false} DeleteShape(t: Tree, lbn: nat)
    requires Shaped(t)
    ensures Shaped(Delete(t, lbn)) && Height(t) - 1 <= Height(Delete(t, lbn)) <= Height(t)
  {
    if t.Node? {
      var l, x, r := t.left, t.entry, t.right;
      assert Shaped(l) && Shaped(r);
      ExactIsNat(l);
      ExactIsNat(r);
      if lbn < x.lbn {
        DeleteShape(l, lbn);
        FixDeleteShape(Delete(l, lbn), x, r);
      } else if lbn > x.lbn {
        DeleteShape(r, lbn);
        FixDeleteShape(l, x, Delete(r, lbn));
      } else if l.Node? && r.Node? {
        DeleteShape(r, Min(r).lbn);
        FixDeleteShape(l, Min(r), Delete(r, Min(r).lbn));
      } else if r.Node? {
        assert Shaped(r.left) && Shaped(r.right);
        FixDeleteShape(r.left, r.entry, r.right);
      } else if l.Node? {
        assert Shaped(l.left) && Shaped(l.right);
        FixDeleteShape(l.left, l.entry, l.right);
      }
    }
  }

  function Fib(n: nat): nat { if n < 2 then n else Fib(n - 1) + Fib(n - 2) }

  /** A tree of height h holds at least Fib(h + 2) - 1 entries. */
  lemma {:induction false} FibonacciBound(t: Tree)
    requires Shaped(t)
    ensures Height(t) >= 0 && Fib(Height(t) + 2) <= |InOrder(t)| + 1
  {
    if t.Leaf? {
      assert Fib(2) == 1;
    } else {
      FibonacciBound(t.left);
      FibonacciBound(t.right);
      var h := t.height;
      FibGrows(h);
      if Height(t.left) < h - 1 { assert Height(t.left) == h - 2; }
      if Height(t.right) < h - 1 { assert Height(t.right) == h - 2; }
    }
  }

  lemma {:induction false} FibGrows(n: nat)
    ensures Fib(n) <= Fib(n + 1)
  {
    if n > 1 {
      FibGrows(n - 1);
      FibGrows(n - 2);
    }
  }

  function Pow2(n: nat): nat { if n == 0 then 1 else 2 * Pow2(n - 1) }

  lemma {:induction false} FibDoubles(n: nat)
    ensures Pow2(n) <= Fib(2 * n + 2)
  {
    if n > 0 {
      FibDoubles(n - 1);
      FibGrows(2 * n);
      assert Fib(2 * n + 2) == Fib(2 * n + 1) + Fib(2 * n);
    }
  }

  /** The height is at most twice the binary logarithm of the number of entries, plus one. */
  lemma {:induction false} HeightIsLogarithmic(t: Tree)
    requires Shaped(t)
    ensures Height(t) >= 0 && Pow2(Height(t) / 2) <= |InOrder(t)| + 1
  {
    FibonacciBound(t);
    var k := Height(t) / 2;
    FibDoubles(k);
    if Height(t) != 2 * k {
      assert Height(t) + 2 == 2 * k + 3;
      FibGrows(2 * k + 2);
    }
  }

  // ------------------------------------------------------------------------------------ the AVL tree

  predicate Avl(t: Tree) { Sorted(InOrder(t)) && Shaped(t) }

  /** Insert of a new key keeps everything and adds just that entry; of any other key it makes no AVL tree. */
  lemma InsertKeepsAvl(t: Tree, e: Entry)
    requires Avl(t)
    ensures Avl(Insert(t, e)) <==> !HasKey(InOrder(t), e.lbn)
    ensures InOrder(Insert(t, e)) == With(InOrder(t), e)
    ensures !HasKey(InOrder(t), e.lbn) ==> Height(t) <= Height(Insert(t, e)) <= Height(t) + 1
  {
    InsertAdds(t, e);
    InsertOrderedIff(t, e);
    if !HasKey(InOrder(t), e.lbn) {
      if !Misses(t, e.lbn) { MetIsThere(t, e.lbn); }
      InsertShape(t, e);
    }
  }

  /** Equal keys also go unbalanced: three inserts of one key make a list. */
  lemma EqualKeysUnbalance(e: Entry)
    ensures !Balanced(Insert(Insert(Insert(Leaf, e), e), e))
  {
    var one := Insert(Leaf, e);
    var two := Insert(one, e);
    assert two == Node(Leaf, e, 2, one);
    assert Insert(two, e) == Node(Leaf, e, 3, Node(Leaf, e, 2, one));
  }

  lemma {:induction false} WithoutBelow(q: seq<Entry>, lbn: nat, limit: nat)
    requires Below(q, limit)
    ensures Below(Without(q, lbn), limit)
  {
    if q != [] { WithoutBelow(q[..|q| - 1], lbn, limit); }
  }

  lemma {:induction false} WithoutLacks(q: seq<Entry>, lbn: nat)
    ensures !HasKey(Without(q, lbn), lbn)
  {
    if q != [] { WithoutLacks(q[..|q| - 1], lbn); }
  }

  lemma {:induction false} WithoutSorted(q: seq<Entry>, lbn: nat)
    requires Sorted(q)
    ensures Sorted(Without(q, lbn))
  {
    if q != [] {
      var rest, last := q[..|q| - 1], q[|q| - 1];
      WithoutSorted(rest, lbn);
      WithoutBelow(rest, lbn, last.lbn);
    }
  }

  /** Delete keeps everything and takes out just the entry of that key. */
  lemma DeleteKeepsAvl(t: Tree, lbn: nat)
    requires Avl(t)
    ensures Avl(Delete(t, lbn)) && InOrder(Delete(t, lbn)) == Without(InOrder(t), lbn)
    ensures !HasKey(InOrder(Delete(t, lbn)), lbn)
    ensures Height(t) - 1 <= Height(Delete(t, lbn)) <= Height(t)
  {
    DeleteRemoves(t, lbn);
    DeleteShape(t, lbn);
    WithoutSorted(InOrder(t), lbn);
    WithoutLacks(InOrder(t), lbn);
  }

  lemma KeysSplit(a: seq<Entry>, x: Entry, b: seq<Entry>, k: nat)
    ensures HasKey(a + [x] + b, k) <==> HasKey(a, k) || k == x.lbn || HasKey(b, k)
  {
    var q := a + [x] + b;
    if HasKey(a, k) {
      var i :| 0 <= i < |a| && a[i].lbn == k;
      assert q[i] == a[i];
    }
    if k == x.lbn { assert q[|a|] == x; }
    if HasKey(b, k) {
      var i :| 0 <= i < |b| && b[i].lbn == k;
      assert q[|a| + 1 + i] == b[i];
    }
  }

  /** Search finds the entry of the key if and only if there is one. */
  lemma {:induction false} SearchFinds(t: Tree, lbn: nat)
    requires Sorted(InOrder(t))
    ensures Search(t, lbn).Some? <==> HasKey(InOrder(t), lbn)
    ensures Search(t, lbn).Some? ==> Search(t, lbn).value in InOrder(t) && Search(t, lbn).value.lbn == lbn
  {
    if t.Node? {
      var a, x, b := InOrder(t.left), t.entry, InOrder(t.right);
      SortedSplit(a, x, b);
      KeysSplit(a, x, b, lbn);
      if lbn < x.lbn {
        SearchFinds(t.left, lbn);
      } else if lbn > x.lbn {
        SearchFinds(t.right, lbn);
      }
    }
  }

  // ------------------------------------------------------------------------- lazy deletion and purge

  /** The contents with the entry of that key marked. */
  function Marked(q: seq<Entry>, lbn: nat): seq<Entry> {
    seq(|q|, i requires 0 <= i < |q| => if q[i].lbn == lbn then q[i].(valid := false) else q[i])
  }

  lemma MarkedSplit(a: seq<Entry>, x: Entry, b: seq<Entry>, lbn: nat)
    requires Sorted(a + [x] + b)
    ensures lbn == x.lbn ==> Marked(a + [x] + b, lbn) == a + [x.(valid := false)] + b
    ensures lbn < x.lbn ==> Marked(a + [x] + b, lbn) == Marked(a, lbn) + [x] + b
    ensures lbn > x.lbn ==> Marked(a + [x] + b, lbn) == a + [x] + Marked(b, lbn)
  {
    SortedSplit(a, x, b);
  }

  /** Logical deletion marks the entry of that key and changes nothing else. */
  lemma {:induction false} InvalidateMarks(t: Tree, lbn: nat)
    requires Sorted(InOrder(t))
    ensures InOrder(Invalidate(t, lbn)) == Marked(InOrder(t), lbn)
  {
    if t.Node? {
      var a, x, b := InOrder(t.left), t.entry, InOrder(t.right);
      SortedSplit(a, x, b);
      MarkedSplit(a, x, b, lbn);
      if lbn < x.lbn {
        InvalidateMarks(t.left, lbn);
      } else if lbn > x.lbn {
        InvalidateMarks(t.right, lbn);
      }
    }
  }

  /** It leaves the tree's shape and heights alone. */
  lemma {:induction false} InvalidateShape(t: Tree, lbn: nat)
    ensures Height(Invalidate(t, lbn)) == Height(t) && (Shaped(t) ==> Shaped(Invalidate(t, lbn)))
  {
    if t.Node? {
      InvalidateShape(t.left, lbn);
      InvalidateShape(t.right, lbn);
    }
  }

  lemma {:induction false} InvalidsAdd(a: seq<Entry>, b: seq<Entry>)
    ensures Invalids(a + b) == Invalids(a) + Invalids(b)
  {
    if b == [] {
      assert a + b == a;
    } else {
      InvalidsAdd(a, b[..|b| - 1]);
      assert (a + b)[..|a + b| - 1] == a + b[..|b| - 1];
    }
  }

  /** The walk finds an invalid entry whenever there is one. */
  lemma {:induction false} FirstInvalidFinds(t: Tree)
    ensures FirstInvalid(t).Some? <==> Invalids(InOrder(t)) > 0
    ensures FirstInvalid(t).Some? ==> FirstInvalid(t).value in InOrder(t) && !FirstInvalid(t).value.valid
  {
    if t.Node? {
      FirstInvalidFinds(t.left);
      FirstInvalidFinds(t.right);
      var a, x, b := InOrder(t.left), t.entry, InOrder(t.right);
      InvalidsAdd(a + [x], b);
      InvalidsAdd(a, [x]);
      assert Invalids([x]) == if x.valid then 0 else 1 by { assert [x][..0] == []; }
    }
  }

  /** Taking out an invalid entry leaves the valid ones as they are. */
  lemma {:induction false} WithoutInvalid(q: seq<Entry>, e: Entry)
    requires Sorted(q) && e in q && !e.valid
    ensures Valids(Without(q, e.lbn)) == Valids(q) && Invalids(Without(q, e.lbn)) == Invalids(q) - 1
    ensures |Without(q, e.lbn)| == |q| - 1
  {
    var n := |q| - 1;
    var rest, last := q[..n], q[n];
    assert q == rest + [last];
    if last == e {
      forall i | 0 <= i < n ensures rest[i].lbn != e.lbn { assert rest[i] == q[i]; }
      WithoutNone(rest, e.lbn);
      assert Without(q, e.lbn) == rest && Valids(q) == Valids(rest);
    } else {
      assert e in rest && last.lbn != e.lbn;
      WithoutInvalid(rest, e);
      var w := Without(rest, e.lbn);
      assert Without(q, e.lbn) == w + [last] && (w + [last])[..|w|] == w;
    }
  }

  /** One round of the purge. */
  lemma PurgeOne(t: Tree, n: nat) returns (rest: Tree)
    requires Avl(t) && n == Invalids(InOrder(t)) > 0
    ensures Purge(t, n) == Purge(rest, n - 1)
    ensures Avl(rest) && Invalids(InOrder(rest)) == n - 1 && |InOrder(rest)| == |InOrder(t)| - 1
    ensures Valids(InOrder(rest)) == Valids(InOrder(t))
    ensures FirstInvalid(t).Some? && rest == Delete(t, FirstInvalid(t).value.lbn)
  {
    FirstInvalidFinds(t);
    var e := FirstInvalid(t).value;
    rest := Delete(t, e.lbn);
    DeleteKeepsAvl(t, e.lbn);
    WithoutInvalid(InOrder(t), e);
  }

  lemma {:induction false} NoneInvalid(q: seq<Entry>)
    requires Invalids(q) == 0
    ensures Valids(q) == q
  {
    if q != [] { NoneInvalid(q[..|q| - 1]); }
  }

  /** With the number of invalid entries right, the purge leaves the valid entries, as they were, in an AVL tree. */
  lemma {:induction false} PurgeLeavesValid(t: Tree, n: nat)
    requires Avl(t) && n == Invalids(InOrder(t))
    ensures Avl(Purge(t, n)) && InOrder(Purge(t, n)) == Valids(InOrder(t)) && Invalids(InOrder(Purge(t, n))) == 0
    ensures |InOrder(Purge(t, n))| == |InOrder(t)| - n
    decreases n
  {
    if n == 0 {
      NoneInvalid(InOrder(t));
    } else {
      var rest := PurgeOne(t, n);
      PurgeLeavesValid(rest, n - 1);
    }
  }
}
