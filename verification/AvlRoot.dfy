/** tree_root: a volume's AVL tree with its two counts, and what its operations do to the entries. */
module AvlRoot {
  import opened AvlTree
  import opened AvlNodes
  import opened AvlPurge
  import opened AvlSearch

  lemma {:induction false} WithCounts(q: seq<Entry>, e: Entry)
    ensures |With(q, e)| == |q| + 1 && Invalids(With(q, e)) == Invalids(q) + if e.valid then 0 else 1
  {
    if q == [] {
      InvalidsAdd([], [e]);
      assert [] + [e] == [e] && [e][..0] == [];
    } else if e.lbn < q[|q| - 1].lbn {
      var rest, last := q[..|q| - 1], [q[|q| - 1]];
      WithCounts(rest, e);
      InvalidsAdd(With(rest, e), last);
      InvalidsAdd(rest, last);
      assert rest + last == q;
    } else {
      InvalidsAdd(q, [e]);
      assert [e][..0] == [];
    }
  }

  /** Marking an entry keeps the keys in order. */
  lemma MarkedSorted(q: seq<Entry>, lbn: nat)
    requires Sorted(q)
    ensures Sorted(Marked(q, lbn)) && |Marked(q, lbn)| == |q|
  {
    forall i, j | 0 <= i < j < |q| ensures Marked(q, lbn)[i].lbn < Marked(q, lbn)[j].lbn {
      assert q[i].lbn < q[j].lbn;
    }
  }

  lemma HasValidMore(rest: seq<Entry>, last: Entry, lbn: nat)
    ensures HasValid(rest + [last], lbn) <==> HasValid(rest, lbn) || (last.lbn == lbn && last.valid)
  {
    var q := rest + [last];
    if HasValid(rest, lbn) {
      var i :| 0 <= i < |rest| && rest[i].lbn == lbn && rest[i].valid;
      assert q[i] == rest[i];
    }
    assert q[|rest|] == last;
  }

  lemma MarkedMore(rest: seq<Entry>, last: Entry, lbn: nat)
    ensures Marked(rest + [last], lbn) == Marked(rest, lbn) + [if last.lbn == lbn then last.(valid := false) else last]
  {
  }

  lemma InvalidsMore(rest: seq<Entry>, last: Entry)
    ensures Invalids(rest + [last]) == Invalids(rest) + if last.valid then 0 else 1
  {
    assert (rest + [last])[..|rest|] == rest;
  }

  lemma LastIsAlone(rest: seq<Entry>, last: Entry, lbn: nat)
    requires Sorted(rest + [last]) && last.lbn == lbn
    ensures !HasValid(rest, lbn)
  {
    forall i | 0 <= i < |rest| ensures rest[i].lbn < lbn { assert (rest + [last])[i] == rest[i] && (rest + [last])[|rest|] == last; }
  }

  /** Marking an entry counts one more invalid entry if it was valid. */
  lemma {:induction false} MarkedCounts(q: seq<Entry>, lbn: nat)
    requires Sorted(q)
    ensures Invalids(Marked(q, lbn)) == Invalids(q) + if HasValid(q, lbn) then 1 else 0
  {
    if q != [] {
      var n := |q| - 1;
      var rest, last := q[..n], q[n];
      assert q == rest + [last];
      MarkedCounts(rest, lbn);
      HasValidMore(rest, last, lbn);
      MarkedMore(rest, last, lbn);
      InvalidsMore(rest, last);
      InvalidsMore(Marked(rest, lbn), if last.lbn == lbn then last.(valid := false) else last);
      if last.lbn == lbn { LastIsAlone(rest, last, lbn); }
    }
  }

  predicate HasValid(q: seq<Entry>, lbn: nat) {
    exists i :: 0 <= i < |q| && q[i].lbn == lbn && q[i].valid
  }

  /** The search for a key ends at a valid node if and only if the contents have a valid entry of that key. */
  lemma SearchValid(t: Tree, lbn: nat)
    requires Sorted(InOrder(t))
    ensures HasValid(InOrder(t), lbn) <==> Search(t, lbn).Some? && Search(t, lbn).value.valid
  {
    var q := InOrder(t);
    SearchFinds(t, lbn);
    if HasValid(q, lbn) {
      var i :| 0 <= i < |q| && q[i].lbn == lbn && q[i].valid;
      assert HasKey(q, lbn);
      var j :| 0 <= j < |q| && q[j] == Search(t, lbn).value;
      assert i == j;
    }
  }

  /** Everything that Insert promises of the tree. */
  lemma NewEntry(t: Tree, e: Entry)
    requires Avl(t) && e.valid && !HasKey(InOrder(t), e.lbn)
    ensures Misses(t, e.lbn) && Avl(Insert(t, e)) && InOrder(Insert(t, e)) == With(InOrder(t), e)
    ensures |InOrder(Insert(t, e))| == |InOrder(t)| + 1 && Invalids(InOrder(Insert(t, e))) == Invalids(InOrder(t))
    ensures Height(t) <= Height(Insert(t, e)) <= Height(t) + 1
  {
    InsertKeepsAvl(t, e);
    WithCounts(InOrder(t), e);
    if !Misses(t, e.lbn) { MetIsThere(t, e.lbn); }
  }

  /** Everything that one round of the purge promises of the tree. */
  lemma PurgedEntry(t: Tree, n: nat, e: Entry)
    requires Avl(t) && n == Invalids(InOrder(t)) > 0 && FirstInvalid(t) == Some(e)
    ensures var rest := Delete(t, e.lbn);
            && Purge(rest, n - 1) == Purge(t, n) && Avl(rest)
            && Invalids(InOrder(rest)) == n - 1 && |InOrder(rest)| == |InOrder(t)| - 1
  {
    var rest := PurgeOne(t, n);
  }

  /** Everything that a logical delete promises of the tree. */
  lemma MarkedEntry(t: Tree, lbn: nat)
    requires Avl(t)
    ensures var n := Invalidate(t, lbn);
            && Avl(n) && InOrder(n) == Marked(InOrder(t), lbn) && |InOrder(n)| == |InOrder(t)| && Height(n) == Height(t)
            && Invalids(InOrder(n)) ==
               Invalids(InOrder(t)) + (if Search(t, lbn).Some? && Search(t, lbn).value.valid then 1 else 0)
  {
    SearchValid(t, lbn);
    InvalidateMarks(t, lbn);
    InvalidateShape(t, lbn);
    MarkedSorted(InOrder(t), lbn);
    MarkedCounts(InOrder(t), lbn);
  }

  /** u answers every search as t does, but for key lbn. */
  ghost predicate Answers(t: Tree, u: Tree, lbn: nat, found: Option<Entry>) {
    forall k: nat :: Search(u, k) == if k == lbn then found else Search(t, k)
  }

  lemma InsertAnswers(t: Tree, e: Entry)
    requires Avl(t) && !HasKey(InOrder(t), e.lbn)
    ensures Answers(t, Insert(t, e), e.lbn, Some(e)) && Search(t, e.lbn) == None
  {
    forall k: nat ensures Search(Insert(t, e), k) == if k == e.lbn then Some(e) else Search(t, k) { SearchInserted(t, e, k); }
    SearchFinds(t, e.lbn);
  }

  lemma MarkAnswers(t: Tree, lbn: nat)
    ensures Answers(t, Invalidate(t, lbn), lbn, MarkOf(Search(t, lbn)))
  {
    forall k: nat ensures Search(Invalidate(t, lbn), k) == if k == lbn then MarkOf(Search(t, k)) else Search(t, k) {
      SearchInvalidated(t, lbn, k);
    }
  }

  lemma PurgeAnswers(t: Tree, n: nat)
    requires Avl(t) && n == Invalids(InOrder(t))
    ensures forall k: nat :: Search(Purge(t, n), k) == ValidOnly(Search(t, k))
  {
    forall k: nat ensures Search(Purge(t, n), k) == ValidOnly(Search(t, k)) { SearchPurged(t, n, k); }
  }

  class TreeRoot {
    var root: TreeNode?
    var countTotal: int
    var countInvalid: int

    ghost predicate Valid()
      reads this, root, Nodes(root)
    {
      && Ok(root) && Avl(ModelOf(root))
      && countTotal == |Entries()| && countInvalid == Invalids(Entries())
    }

    ghost function Entries(): seq<Entry>
      requires Ok(root)
      reads this, root, Nodes(root)
    {
      InOrder(ModelOf(root))
    }

    constructor ()
      ensures Valid() && Entries() == []
    {
      root, countTotal, countInvalid := null, 0, 0;
    }

    /** search_tree_node: the node of that key, valid or not. */
    method SearchTree(lbn: nat) returns (r: TreeNode?)
      requires Valid()
      ensures r != null <==> HasKey(Entries(), lbn)
      ensures r != null ==> r in Nodes(root) && r.EntryOf() in Entries() && r.lbn == lbn
      ensures Search(ModelOf(root), lbn) == if r == null then None else Some(r.EntryOf())
    {
      r := SearchNode(root, lbn);
      FindIsSearch(root, lbn);
      SearchFinds(ModelOf(root), lbn);
    }

    method AddNode(node: TreeNode)
      requires Ok(root) && Shaped(ModelOf(root)) && Misses(ModelOf(root), node.lbn) && Single(node) && node !in Nodes(root)
      modifies this`root, Nodes(root), node
      ensures Ok(root) && Nodes(root) == old(Nodes(root)) + {node}
      ensures ModelOf(root) == AvlTree.Insert(old(ModelOf(root)), old(node.EntryOf()))
    {
      root := InsertNode(root, node);
    }

    /** insert_tree_node of a key that no node has, valid or not. */
    method Insert(node: TreeNode)
      requires Valid() && Single(node) && node.valid && node !in Nodes(root) && !HasKey(Entries(), node.lbn)
      modifies this, Nodes(root), node
      ensures Valid() && Entries() == With(old(Entries()), old(node.EntryOf()))
      ensures Answers(old(ModelOf(root)), ModelOf(root), old(node.lbn), Some(old(node.EntryOf())))
      ensures Nodes(root) == old(Nodes(root)) + {node}
      ensures Height(old(ModelOf(root))) <= Height(ModelOf(root)) <= Height(old(ModelOf(root))) + 1
    {
      ghost var t, e := ModelOf(root), node.EntryOf();
      NewEntry(t, e);
      InsertAnswers(t, e);
      AddNode(node);
      countTotal := countTotal + 1;
    }

    /** logical_delete_tree_node */
    method LogicalDelete(node: TreeNode)
      requires Valid()
      modifies this`countInvalid, Nodes(root)
      ensures Valid() && Entries() == Marked(old(Entries()), old(node.lbn))
      ensures Answers(old(ModelOf(root)), ModelOf(root), old(node.lbn), MarkOf(Search(old(ModelOf(root)), old(node.lbn))))
      ensures Height(ModelOf(root)) == Height(old(ModelOf(root)))
    {
      ghost var t := ModelOf(root);
      var lbn := node.lbn;
      FindIsSearch(root, lbn);
      MarkedEntry(t, lbn);
      MarkAnswers(t, lbn);
      var marked := MarkInvalid(root, lbn);
      if marked {
        countInvalid := countInvalid + 1;
      }
    }

    method RemoveInvalid()
      requires Ok(root) && Shaped(ModelOf(root)) && FirstInvalid(ModelOf(root)).Some?
      modifies this`root, Nodes(root)
      ensures Ok(root) && Nodes(root) <= old(Nodes(root))
      ensures ModelOf(root) == Delete(old(ModelOf(root)), FirstInvalid(old(ModelOf(root))).value.lbn)
    {
      var invalid := FindInvalid(root);
      root := PhysicalDelete(root, invalid);
    }

    /** One round of the purge: the first invalid node of the walk goes. */
    method PurgeNode()
      requires Valid() && countInvalid > 0
      modifies this, Nodes(root)
      ensures Valid() && Nodes(root) <= old(Nodes(root))
      ensures Purge(ModelOf(root), countInvalid) == old(Purge(ModelOf(root), countInvalid))
      ensures countTotal == old(countTotal) - 1 && countInvalid == old(countInvalid) - 1
    {
      ghost var t, n: nat := ModelOf(root), countInvalid;
      FirstInvalidFinds(t);
      PurgedEntry(t, n, FirstInvalid(t).value);
      RemoveInvalid();
      countTotal, countInvalid := countTotal - 1, countInvalid - 1;
    }

    /** rebalance_tree_node: afterwards the tree holds exactly the valid entries, as they were. */
    method Rebalance()
      requires Valid()
      modifies this, Nodes(root)
      ensures Valid() && Entries() == Valids(old(Entries())) && countInvalid == 0
      ensures countTotal == old(countTotal) - old(countInvalid)
      ensures forall k: nat :: Search(ModelOf(root), k) == ValidOnly(Search(old(ModelOf(root)), k))
    {
      PurgeAnswers(ModelOf(root), countInvalid);
      PurgeLeavesValid(ModelOf(root), countInvalid);
      ghost var nodes, clean := Nodes(root), Purge(ModelOf(root), countInvalid);
      while countInvalid > 0
        invariant Valid() && Nodes(root) <= nodes
        invariant Purge(ModelOf(root), countInvalid) == clean
        invariant countTotal - countInvalid == old(countTotal) - old(countInvalid)
      {
        PurgeNode();
      }
    }
  }
}
