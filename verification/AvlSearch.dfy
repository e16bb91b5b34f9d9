/**
 What a user of the tree sees: which entry a search finds after each operation, and which entries there are. Nothing here
 depends on how the contents are put together.
 */
module AvlSearch {
  import opened AvlTree

  /** In an ordered tree the search for an entry's key finds that entry. */
  lemma {:induction false} SearchIs(t: Tree, x: Entry)
    requires Sorted(InOrder(t)) && x in InOrder(t)
    ensures Search(t, x.lbn) == Some(x)
  {
    var q := InOrder(t);
    var i :| 0 <= i < |q| && q[i] == x;
    assert HasKey(q, x.lbn);
    SearchFinds(t, x.lbn);
    var j :| 0 <= j < |q| && q[j] == Search(t, x.lbn).value;
    assert i == j;
  }

  /** Two ordered trees give the same answer for a key if they have the same entries of that key. */
  lemma SameSearch(t: Tree, u: Tree, k: nat)
    requires Sorted(InOrder(t)) && Sorted(InOrder(u))
    requires forall x: Entry | x.lbn == k :: x in InOrder(t) <==> x in InOrder(u)
    ensures Search(u, k) == Search(t, k)
  {
    SearchFinds(t, k);
    SearchFinds(u, k);
    if Search(t, k).Some? {
      SearchIs(u, Search(t, k).value);
    } else if Search(u, k).Some? {
      SearchIs(t, Search(u, k).value);
    }
  }

  // ------------------------------------------------------------------------------------------ insert

  lemma {:induction false} WithAll(q: seq<Entry>, e: Entry)
    ensures multiset(With(q, e)) == multiset(q) + multiset{e}
  {
    if q != [] && e.lbn < q[|q| - 1].lbn {
      assert q == q[..|q| - 1] + [q[|q| - 1]];
      WithAll(q[..|q| - 1], e);
    }
  }

  /** Insert adds its entry, once, and loses and changes no other. */
  lemma InsertAll(t: Tree, e: Entry)
    requires Sorted(InOrder(t))
    ensures multiset(InOrder(Insert(t, e))) == multiset(InOrder(t)) + multiset{e}
  {
    InsertAdds(t, e);
    WithAll(InOrder(t), e);
  }

  lemma Members(q: seq<Entry>, x: Entry)
    ensures x in q <==> x in multiset(q)
  {
  }

  /** After the insert of a new key, the search for it finds the entry inserted, and every other search what it found. */
  lemma SearchInserted(t: Tree, e: Entry, k: nat)
    requires Sorted(InOrder(t)) && !HasKey(InOrder(t), e.lbn)
    ensures Search(Insert(t, e), k) == if k == e.lbn then Some(e) else Search(t, k)
  {
    var n := Insert(t, e);
    InsertAll(t, e);
    InsertOrderedIff(t, e);
    forall x: Entry ensures x in InOrder(n) <==> x in InOrder(t) || x == e {
      Members(InOrder(n), x);
      Members(InOrder(t), x);
    }
    if k == e.lbn { SearchIs(n, e); } else { SameSearch(t, n, k); }
  }

  // ------------------------------------------------------------------------------------------ delete

  lemma {:induction false} WithoutMembers(q: seq<Entry>, lbn: nat, x: Entry)
    ensures x in Without(q, lbn) <==> x in q && x.lbn != lbn
  {
    if q != [] {
      var rest, last := q[..|q| - 1], q[|q| - 1];
      assert q == rest + [last];
      WithoutMembers(rest, lbn, x);
    }
  }

  /** After a delete the search for its key finds nothing, and every other search what it found. */
  lemma SearchDeleted(t: Tree, lbn: nat, k: nat)
    requires Sorted(InOrder(t))
    ensures Sorted(InOrder(Delete(t, lbn)))
    ensures Search(Delete(t, lbn), k) == if k == lbn then None else Search(t, k)
  {
    var n := Delete(t, lbn);
    DeleteRemoves(t, lbn);
    WithoutSorted(InOrder(t), lbn);
    forall x: Entry ensures x in InOrder(n) <==> x in InOrder(t) && x.lbn != lbn { WithoutMembers(InOrder(t), lbn, x); }
    SearchFinds(n, k);
    if k != lbn { SameSearch(t, n, k); }
  }

  /** What is left after the mark of logical deletion. */
  function MarkOf(found: Option<Entry>): Option<Entry> {
    match found
    case None => None
    case Some(Entry(lbn, inode, _)) => Some(Entry(lbn, inode, false))
  }

  /** After a logical delete the search for its key finds the same entry, invalid, and every other search what it found. */
  lemma {:induction false} SearchInvalidated(t: Tree, lbn: nat, k: nat)
    ensures Search(Invalidate(t, lbn), k) == if k == lbn then MarkOf(Search(t, k)) else Search(t, k)
  {
    if t.Node? {
      SearchInvalidated(t.left, lbn, k);
      SearchInvalidated(t.right, lbn, k);
    }
  }

  // ------------------------------------------------------------------------------------------- purge

  /** The entries, every root before its children and left before right. */
  function PreOrder(t: Tree): seq<Entry> {
    if t.Leaf? then [] else [t.entry] + PreOrder(t.left) + PreOrder(t.right)
  }

  /** The first invalid entry of a sequence. */
  function FirstIn(q: seq<Entry>): Option<Entry> {
    if q == [] then None else if !q[0].valid then Some(q[0]) else FirstIn(q[1..])
  }

  lemma {:induction false} FirstInMore(a: seq<Entry>, b: seq<Entry>)
    ensures FirstIn(a + b) == if FirstIn(a).Some? then FirstIn(a) else FirstIn(b)
  {
    if a == [] {
      assert a + b == b;
    } else {
      FirstInMore(a[1..], b);
      assert (a + b)[1..] == a[1..] + b;
    }
  }

  /** The walk finds the first invalid entry in preorder. */
  lemma {:induction false} FirstInvalidIsFirst(t: Tree)
    ensures FirstInvalid(t) == FirstIn(PreOrder(t))
  {
    if t.Node? {
      FirstInvalidIsFirst(t.left);
      FirstInvalidIsFirst(t.right);
      var l, r := PreOrder(t.left), PreOrder(t.right);
      FirstInMore([t.entry] + l, r);
      FirstInMore([t.entry], l);
      assert [t.entry][1..] == [];
    }
  }

  /** What a search is to find when only valid entries are left. */
  function ValidOnly(found: Option<Entry>): Option<Entry> {
    if found.Some? && found.value.valid then found else None
  }

  lemma {:induction false} ValidsMembers(q: seq<Entry>, x: Entry)
    ensures x in Valids(q) <==> x in q && x.valid
  {
    if q != [] {
      var rest, last := q[..|q| - 1], q[|q| - 1];
      assert q == rest + [last];
      ValidsMembers(rest, x);
    }
  }

  /** After the purge every search finds what it found before if that was valid, and otherwise nothing. */
  lemma SearchPurged(t: Tree, n: nat, k: nat)
    requires Avl(t) && n == Invalids(InOrder(t))
    ensures Search(Purge(t, n), k) == ValidOnly(Search(t, k))
  {
    var p := Purge(t, n);
    PurgeLeavesValid(t, n);
    forall x: Entry ensures x in InOrder(p) <==> x in InOrder(t) && x.valid { ValidsMembers(InOrder(t), x); }
    SearchFinds(t, k);
    SearchFinds(p, k);
    if Search(p, k).Some? {
      SearchIs(t, Search(p, k).value);
    } else if ValidOnly(Search(t, k)).Some? {
      SearchIs(p, Search(t, k).value);
    }
  }
}
