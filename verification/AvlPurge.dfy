/** Deletion in the AVL tree, in place: by copy at once, or by a mark and a later purge. */
module AvlPurge {
  import opened AvlTree
  import opened AvlNodes

  /** min_value_node */
  method MinNode(node: TreeNode) returns (current: TreeNode)
    requires node.Valid()
    ensures current in node.repr && current.EntryOf() == Min(node.Model())
  {
    current := node;
    while current.left != null
      invariant current.Valid() && current.repr <= node.repr && Min(current.Model()) == Min(node.Model())
      decreases current.repr
    {
      current := current.left;
    }
  }

  /** The tree after the deletion in a child or by copy, before rebalancing; nothing if the node itself goes. */
  function Deleted(t: Tree, lbn: nat): Tree
    requires t.Node?
  {
    var l, x, r := t.left, t.entry, t.right;
    if lbn < x.lbn then Make(Delete(l, lbn), x, r)
    else if lbn > x.lbn then Make(l, x, Delete(r, lbn))
    else if l.Node? && r.Node? then Make(l, Min(r), Delete(r, Min(r).lbn))
    else if l.Node? then Make(l.left, l.entry, l.right)
    else if r.Node? then Make(r.left, r.entry, r.right)
    else Leaf
  }

  lemma DeleteCanFix(t: Tree, lbn: nat)
    requires Shaped(t) && t.Node? && Deleted(t, lbn).Node?
    ensures CanFixDelete(Deleted(t, lbn)) && Delete(t, lbn) == FixDelete(Deleted(t, lbn))
  {
    var l, x, r := t.left, t.entry, t.right;
    assert Shaped(l) && Shaped(r);
    if lbn < x.lbn {
      DeleteShape(l, lbn);
      CanLift(Delete(l, lbn), x, r);
    } else if lbn > x.lbn {
      DeleteShape(r, lbn);
      CanLift(l, x, Delete(r, lbn));
    } else if l.Node? && r.Node? {
      DeleteShape(r, Min(r).lbn);
      CanLift(l, Min(r), Delete(r, Min(r).lbn));
    } else if l.Node? {
      assert Shaped(l.left) && Shaped(l.right);
      CanLift(l.left, l.entry, l.right);
    } else {
      assert Shaped(r.left) && Shaped(r.right);
      CanLift(r.left, r.entry, r.right);
    }
  }

  lemma CanLift(l: Tree, x: Entry, r: Tree)
    requires Shaped(l) && Shaped(r)
    ensures CanFixDelete(Make(l, x, r))
  {
    ExactIsNat(l);
    ExactIsNat(r);
    if l.Node? { ExactIsNat(l.left); ExactIsNat(l.right); }
    if r.Node? { ExactIsNat(r.left); ExactIsNat(r.right); }
  }

  /** physical_delete_tree_node: deletes the node with the key of `node`, which may be a node of the tree itself. */
  method PhysicalDelete(root: TreeNode?, node: TreeNode) returns (r: TreeNode?)
    requires Ok(root) && Shaped(ModelOf(root))
    modifies Nodes(root)
    ensures Ok(r) && Nodes(r) <= old(Nodes(root)) && ModelOf(r) == Delete(old(ModelOf(root)), old(node.lbn))
    decreases Nodes(root), 1
  {
    if root == null {
      return null;
    }
    ghost var t, lbn := root.Model(), node.lbn;
    if node.lbn < root.lbn {
      DeleteLeft(root, node);
    } else if node.lbn > root.lbn {
      DeleteRight(root, node);
    } else if root.left == null || root.right == null {
      var temp := if root.left != null then root.left else root.right;
      if temp == null {
        return null;
      }
      Lift(root, temp);
    } else {
      DeleteByCopy(root);
    }
    DeleteCanFix(t, lbn);
    r := FixAfterDelete(root);
  }

  method DeleteLeft(root: TreeNode, node: TreeNode)
    requires root.Valid() && Shaped(root.Model()) && node.lbn < root.lbn
    modifies root.repr
    ensures root.Valid() && root.repr == old(root.repr) && root.Model() == Deleted(old(root.Model()), old(node.lbn))
    decreases root.repr, 0
  {
    var l := PhysicalDelete(root.left, node);
    root.left := l;
    UpdateHeight(root, root.repr);
  }

  method DeleteRight(root: TreeNode, node: TreeNode)
    requires root.Valid() && Shaped(root.Model()) && node.lbn > root.lbn
    modifies root.repr
    ensures root.Valid() && root.repr == old(root.repr) && root.Model() == Deleted(old(root.Model()), old(node.lbn))
    decreases root.repr, 0
  {
    var l := PhysicalDelete(root.right, node);
    root.right := l;
    UpdateHeight(root, root.repr);
  }

  /** Copies the only child over its parent; the child's memory is given back. */
  method Lift(root: TreeNode, temp: TreeNode)
    requires root.Valid() && (root.left == null || root.right == null)
    requires temp == if root.left != null then root.left else root.right
    modifies root
    ensures root.Valid() && root.repr < old(root.repr) && root.Model() == Deleted(old(root.Model()), old(root.lbn))
  {
    root.inode, root.lbn, root.valid := temp.inode, temp.lbn, temp.valid;
    root.left, root.right, root.height := temp.left, temp.right, temp.height;
    UpdateHeight(root, root.repr - {temp});
  }

  function WithEntry(t: Tree, e: Entry): Tree {
    if t.Leaf? then t else t.(entry := e)
  }

  method CopyEntry(root: TreeNode, temp: TreeNode)
    requires root.Valid() && temp != root
    modifies root`inode, root`lbn, root`valid
    ensures root.Valid() && root.Model() == WithEntry(old(root.Model()), old(temp.EntryOf()))
  {
    root.inode, root.lbn, root.valid := temp.inode, temp.lbn, temp.valid;
  }

  /** Copies the smallest entry of the right subtree to the node and deletes it there. */
  method DeleteByCopy(root: TreeNode)
    requires root.Valid() && Shaped(root.Model()) && root.left != null && root.right != null
    modifies root.repr
    ensures root.Valid() && root.repr == old(root.repr) && root.Model() == Deleted(old(root.Model()), old(root.lbn))
    decreases root.repr, 0
  {
    var temp := MinNode(root.right);
    CopyEntry(root, temp);
    var r := PhysicalDelete(root.right, temp);
    root.right := r;
    UpdateHeight(root, root.repr);
  }

  // ------------------------------------------------------------------------- the walk for an invalid node

  /** The first invalid entry of a stack of trees, from its top down. */
  function FirstOf(trees: seq<Tree>): Option<Entry> {
    if trees == [] then None
    else if FirstInvalid(trees[|trees| - 1]).Some? then FirstInvalid(trees[|trees| - 1])
    else FirstOf(trees[..|trees| - 1])
  }

  function Weight(t: Tree): nat { if t.Leaf? then 1 else 1 + Weight(t.left) + Weight(t.right) }

  function Load(trees: seq<Tree>): nat {
    if trees == [] then 0 else Load(trees[..|trees| - 1]) + Weight(trees[|trees| - 1])
  }

  lemma Push(trees: seq<Tree>, t: Tree)
    ensures FirstOf(trees + [t]) == if FirstInvalid(t).Some? then FirstInvalid(t) else FirstOf(trees)
    ensures Load(trees + [t]) == Load(trees) + Weight(t)
  {
    assert (trees + [t])[..|trees|] == trees;
  }

  /** Leaves, which are never pushed, change nothing. */
  function Pushed(trees: seq<Tree>, t: Tree): seq<Tree> {
    if t.Leaf? then trees else trees + [t]
  }

  /** Replacing a valid root on the top by its children. */
  lemma Walk(trees: seq<Tree>, t: Tree)
    requires t.Node?
    ensures t.entry.valid ==> FirstOf(Pushed(Pushed(trees, t.right), t.left)) == FirstOf(trees + [t])
    ensures Load(Pushed(Pushed(trees, t.right), t.left)) < Load(trees + [t])
  {
    Push(trees, t);
    Push(trees, t.right);
    Push(Pushed(trees, t.right), t.left);
  }

  /** The nodes on the stack and the trees they are the roots of, all within one tree. */
  ghost predicate OnStack(stack: seq<TreeNode>, trees: seq<Tree>, all: set<TreeNode>)
    reads all
  {
    && |stack| == |trees|
    && forall i | 0 <= i < |stack| ::
         stack[i] in all && stack[i].repr <= all && stack[i].Valid() && stack[i].Model() == trees[i]
  }

  lemma PushOn(stack: seq<TreeNode>, trees: seq<Tree>, all: set<TreeNode>, n: TreeNode)
    requires OnStack(stack, trees, all) && n in all && n.repr <= all && n.Valid()
    ensures OnStack(stack + [n], trees + [n.Model()], all)
  {
  }

  /** find_invalid_tree_node, with its stack */
  method FindInvalid(node: TreeNode?) returns (r: TreeNode?)
    requires Ok(node)
    ensures r == null <==> FirstInvalid(ModelOf(node)).None?
    ensures r != null ==> r in Nodes(node) && FirstInvalid(ModelOf(node)) == Some(r.EntryOf())
  {
    if node == null {
      // the walk ends on the null pointer pushed first
      return null;
    }
    var stack: seq<TreeNode> := [node];
    ghost var trees := [node.Model()];
    Push([], node.Model());
    assert [] + [node.Model()] == trees;
    while stack != []
      invariant OnStack(stack, trees, node.repr)
      invariant FirstOf(trees) == FirstInvalid(node.Model())
      decreases Load(trees)
    {
      var tnode := stack[|stack| - 1];
      ghost var t, rest := tnode.Model(), trees[..|trees| - 1];
      assert trees == rest + [t];
      Walk(rest, t);
      stack, trees := stack[..|stack| - 1], rest;
      if !tnode.valid {
        Push(rest, t);
        return tnode;
      }
      if tnode.right != null {
        PushOn(stack, trees, node.repr, tnode.right);
        var right: TreeNode := tnode.right;
        stack, trees := stack + [right], trees + [right.Model()];
      }
      if tnode.left != null {
        PushOn(stack, trees, node.repr, tnode.left);
        var left: TreeNode := tnode.left;
        stack, trees := stack + [left], trees + [left.Model()];
      }
    }
    r := null;
  }

  // ------------------------------------------------------------------------------- search and mark

  /** Where the search for a key ends. */
  ghost function Find(n: TreeNode?, lbn: nat): (r: TreeNode?)
    requires Ok(n)
    reads n, Nodes(n)
    ensures r != null ==> r in Nodes(n) && r.lbn == lbn
    decreases Nodes(n)
  {
    if n == null || n.lbn == lbn then n else if lbn < n.lbn then Find(n.left, lbn) else Find(n.right, lbn)
  }

  lemma {:induction false} FindIsSearch(n: TreeNode?, lbn: nat)
    requires Ok(n)
    ensures Search(ModelOf(n), lbn) == if Find(n, lbn) == null then None else Some(Find(n, lbn).EntryOf())
    decreases Nodes(n)
  {
    if n != null {
      FindIsSearch(n.left, lbn);
      FindIsSearch(n.right, lbn);
    }
  }

  /** search_tree_node */
  method SearchNode(root: TreeNode?, lbn: nat) returns (r: TreeNode?)
    requires Ok(root)
    ensures r == Find(root, lbn)
  {
    r := root;
    while r != null
      invariant Ok(r) && Find(r, lbn) == Find(root, lbn)
      decreases Nodes(r)
    {
      if lbn == r.lbn {
        return;
      } else if lbn < r.lbn {
        r := r.left;
      } else {
        r := r.right;
      }
    }
  }

  /** The nodes the search for lbn passes, from a root down to its last one. */
  ghost predicate Path(path: seq<TreeNode>, lbn: nat)
    reads path
  {
    && path != []
    && forall i | 0 <= i < |path| - 1 ::
         if lbn < path[i].lbn then path[i + 1] == path[i].left else lbn > path[i].lbn && path[i + 1] == path[i].right
  }

  lemma PathGoesOn(path: seq<TreeNode>, lbn: nat)
    requires Path(path, lbn)
    ensures var n := path[|path| - 1];
            && (lbn < n.lbn && n.left != null ==> Path(path + [n.left], lbn))
            && (lbn > n.lbn && n.right != null ==> Path(path + [n.right], lbn))
  {
    var n := path[|path| - 1];
    if lbn < n.lbn && n.left != null { PathAnd(path, n.left, lbn); }
    if lbn > n.lbn && n.right != null { PathAnd(path, n.right, lbn); }
  }

  lemma PathAnd(path: seq<TreeNode>, m: TreeNode, lbn: nat)
    requires Path(path, lbn)
    requires var n := path[|path| - 1]; if lbn < n.lbn then m == n.left else lbn > n.lbn && m == n.right
    ensures Path(path + [m], lbn)
  {
    var longer := path + [m];
    forall i | 0 <= i < |longer| - 1
      ensures if lbn < longer[i].lbn then longer[i + 1] == longer[i].left else lbn > longer[i].lbn && longer[i + 1] == longer[i].right
    {
      assert longer[i] == path[i];
      if i + 1 < |path| { assert longer[i + 1] == path[i + 1]; }
    }
  }

  /** Marking the last node of a search that has met its key, seen from every node of the path. */
  method MarkLast(ghost path: seq<TreeNode>, target: TreeNode)
    requires Path(path, target.lbn) && path[|path| - 1] == target
    requires forall i | 0 <= i < |path| :: path[i].Valid() && target in path[i].repr
    modifies target`valid
    ensures path[0].Valid() && path[0].Model() == Invalidate(old(path[0].Model()), target.lbn)
  {
    target.valid := false;
    ghost var i := |path| - 1;
    while i > 0
      invariant 0 <= i < |path| && path[i].Valid() && path[i].Model() == Invalidate(old(path[i].Model()), target.lbn)
      modifies {}
    {
      i := i - 1;
      ghost var n := path[i];
      assert old(n.Valid()) && target in path[i + 1].repr && target != n;
      if target.lbn < n.lbn {
        assert Ok(n.right) && ModelOf(n.right) == old(ModelOf(n.right));
      } else {
        assert Ok(n.left) && ModelOf(n.left) == old(ModelOf(n.left));
      }
    }
  }

  /** The loop of logical_delete_tree_node. */
  method MarkInvalid(root: TreeNode?, lbn: nat) returns (marked: bool)
    requires Ok(root)
    modifies Nodes(root)
    ensures Ok(root) && Nodes(root) == old(Nodes(root)) && ModelOf(root) == Invalidate(old(ModelOf(root)), lbn)
    ensures marked <==> old(Find(root, lbn)) != null && old(Find(root, lbn).valid)
  {
    var local := root;
    ghost var path: seq<TreeNode> := [];
    marked := false;
    FindIsSearch(root, lbn);
    while local != null
      invariant !marked && Ok(root) && unchanged(old(Nodes(root)))
      invariant Ok(local) && Find(local, lbn) == Find(root, lbn) && Nodes(local) <= Nodes(root)
      invariant local != null ==> Path(path + [local], lbn) && (path + [local])[0] == root
      invariant forall i | 0 <= i < |path| :: path[i].Valid() && Nodes(local) <= path[i].repr
      decreases Nodes(local)
    {
      if local.lbn == lbn {
        if local.valid {
          MarkLast(path + [local], local);
          marked := true;
        } else {
          KnownInvalid(ModelOf(root), lbn);
        }
        return;
      }
      PathGoesOn(path + [local], lbn);
      path := path + [local];
      local := if lbn < local.lbn then local.left else local.right;
    }
    UnknownKey(ModelOf(root), lbn);
  }

  lemma {:induction false} KnownInvalid(t: Tree, lbn: nat)
    requires Search(t, lbn).Some? && !Search(t, lbn).value.valid
    ensures Invalidate(t, lbn) == t
  {
    if lbn < t.entry.lbn { KnownInvalid(t.left, lbn); } else if lbn > t.entry.lbn { KnownInvalid(t.right, lbn); }
  }

  lemma {:induction false} UnknownKey(t: Tree, lbn: nat)
    requires Search(t, lbn).None?
    ensures Invalidate(t, lbn) == t
  {
    if t.Node? {
      if lbn < t.entry.lbn { UnknownKey(t.left, lbn); } else { UnknownKey(t.right, lbn); }
    }
  }
}
