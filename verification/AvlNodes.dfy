/** The nodes of the AVL tree in memory, changed in place as the functions of AvlTree say. */
module AvlNodes {
  import opened AvlTree

  class TreeNode {
    var inode: nat
    var lbn: nat
    var valid: bool
    var left: TreeNode?
    var right: TreeNode?
    var height: int
    ghost var repr: set<TreeNode>

    ghost predicate Valid()
      reads this, repr
      ensures Valid() ==> this in repr
      decreases repr
    {
      && this in repr
      && (left != null ==> left in repr && left.repr <= repr && this !in left.repr && left.Valid())
      && (right != null ==> right in repr && right.repr <= repr && this !in right.repr && right.Valid())
      && (left != null && right != null ==> left.repr !! right.repr)
    }

    ghost function Model(): Tree
      requires Valid()
      reads this, repr
      ensures Model().Node?
      decreases repr
    {
      Tree.Node(if left == null then Leaf else left.Model(), EntryOf(), height, if right == null then Leaf else right.Model())
    }

    function EntryOf(): Entry
      reads this
    {
      Entry(lbn, inode, valid)
    }

    /** init_tree_node */
    constructor (inode: nat, lbn: nat)
      ensures Valid() && repr == {this} && Model() == Tree.Node(Leaf, Entry(lbn, inode, true), 1, Leaf)
    {
      this.inode, this.lbn, this.valid := inode, lbn, true;
      left, right, height := null, null, 1;
      repr := {this};
    }
  }

  ghost function Nodes(n: TreeNode?): set<TreeNode>
    reads n
  {
    if n == null then {} else n.repr
  }

  ghost predicate Ok(n: TreeNode?)
    reads n, Nodes(n)
  {
    n == null || n.Valid()
  }

  ghost function ModelOf(n: TreeNode?): Tree
    requires Ok(n)
    reads n, Nodes(n)
  {
    if n == null then Leaf else n.Model()
  }

  function GetHeight(n: TreeNode?): (h: int)
    reads n
  {
    if n == null then 0 else n.height
  }

  function GetBalance(n: TreeNode?): int
    reads n, if n == null then {} else {n.left, n.right}
  {
    if n == null then 0 else GetHeight(n.left) - GetHeight(n.right)
  }

  lemma BalanceOf(n: TreeNode?)
    requires Ok(n)
    ensures GetBalance(n) == Balance(ModelOf(n))
  {
    if n != null {
      HeightOf(n.left);
      HeightOf(n.right);
    }
  }

  lemma HeightOf(n: TreeNode?)
    requires Ok(n)
    ensures GetHeight(n) == Height(ModelOf(n))
  {
  }

  /** Puts the height of a node, whose children are in place, up to date. */
  method UpdateHeight(n: TreeNode, ghost all: set<TreeNode>)
    requires Ok(n.left) && Ok(n.right) && n !in Nodes(n.left) && n !in Nodes(n.right) && Nodes(n.left) !! Nodes(n.right)
    requires n in all && Nodes(n.left) <= all && Nodes(n.right) <= all
    modifies n`height, n`repr
    ensures n.Valid() && n.repr == all
    ensures n.Model() == Make(old(ModelOf(n.left)), old(n.EntryOf()), old(ModelOf(n.right)))
  {
    n.height := Max(GetHeight(n.left), GetHeight(n.right)) + 1;
    n.repr := all;
  }

  method RightRotate(y: TreeNode) returns (x: TreeNode)
    requires y.Valid() && y.left != null
    modifies y, y.left
    ensures x.Valid() && x.repr == old(y.repr) && x.Model() == RotateRight(old(y.Model()))
  {
    x := y.left;
    var t2 := x.right;
    x.right := y;
    y.left := t2;
    UpdateHeight(y, y.repr - {x} - Nodes(x.left));
    UpdateHeight(x, old(y.repr));
  }

  method LeftRotate(x: TreeNode) returns (y: TreeNode)
    requires x.Valid() && x.right != null
    modifies x, x.right
    ensures y.Valid() && y.repr == old(x.repr) && y.Model() == RotateLeft(old(x.Model()))
  {
    y := x.right;
    var t2 := y.left;
    y.left := x;
    x.right := t2;
    UpdateHeight(x, x.repr - {y} - Nodes(y.right));
    UpdateHeight(y, old(x.repr));
  }

  /** The double rotations. */
  method LeftRightRotate(root: TreeNode) returns (r: TreeNode)
    requires root.Valid() && root.left != null && root.left.right != null
    modifies root.repr
    ensures r.Valid() && r.repr == old(root.repr) && r.Model() == RotateLeftRight(old(root.Model()))
  {
    var l := LeftRotate(root.left);
    root.left := l;
    r := RightRotate(root);
  }

  method RightLeftRotate(root: TreeNode) returns (r: TreeNode)
    requires root.Valid() && root.right != null && root.right.left != null
    modifies root.repr
    ensures r.Valid() && r.repr == old(root.repr) && r.Model() == RotateRightLeft(old(root.Model()))
  {
    var l := RightRotate(root.right);
    root.right := l;
    r := LeftRotate(root);
  }

  /** The children that rebalancing after an insert lifts are there. */
  predicate CanFixInsert(t: Tree, lbn: nat) {
    && t.Node?
    && (Balance(t) > 1 ==> t.left.Node? && (lbn > t.left.entry.lbn ==> t.left.right.Node?))
    && (Balance(t) < -1 ==> t.right.Node? && (lbn < t.right.entry.lbn ==> t.right.left.Node?))
  }

  method FixAfterInsert(root: TreeNode, lbn: nat) returns (r: TreeNode)
    requires root.Valid() && CanFixInsert(root.Model(), lbn)
    modifies root.repr
    ensures r.Valid() && r.repr == old(root.repr) && r.Model() == FixInsert(old(root.Model()), lbn)
  {
    BalanceOf(root);
    var balance := GetBalance(root);
    if balance > 1 && lbn < root.left.lbn {
      r := RightRotate(root);
    } else if balance > 1 && lbn > root.left.lbn {
      r := LeftRightRotate(root);
    } else if balance < -1 && lbn > root.right.lbn {
      r := LeftRotate(root);
    } else if balance < -1 && lbn < root.right.lbn {
      r := RightLeftRotate(root);
    } else {
      r := root;
    }
  }

  /** The children that rebalancing after a delete lifts are there. */
  predicate CanFixDelete(t: Tree) {
    && t.Node?
    && (Balance(t) > 1 ==> t.left.Node? && (Balance(t.left) < 0 ==> t.left.right.Node?))
    && (Balance(t) < -1 ==> t.right.Node? && (Balance(t.right) > 0 ==> t.right.left.Node?))
  }

  method FixAfterDelete(root: TreeNode) returns (r: TreeNode)
    requires root.Valid() && CanFixDelete(root.Model())
    modifies root.repr
    ensures r.Valid() && r.repr == old(root.repr) && r.Model() == FixDelete(old(root.Model()))
  {
    BalanceOf(root.left);
    BalanceOf(root.right);
    var balance := GetBalance(root);
    if balance > 1 && GetBalance(root.left) >= 0 {
      r := RightRotate(root);
    } else if balance > 1 {
      r := LeftRightRotate(root);
    } else if balance < -1 && GetBalance(root.right) <= 0 {
      r := LeftRotate(root);
    } else if balance < -1 {
      r := RightLeftRotate(root);
    } else {
      r := root;
    }
  }

  /** The tree after the insert into a child, before rebalancing. */
  function Inserted(t: Tree, e: Entry): Tree
    requires t.Node?
  {
    if e.lbn < t.entry.lbn then Make(Insert(t.left, e), t.entry, t.right) else Make(t.left, t.entry, Insert(t.right, e))
  }

  /** A node that is not in any tree yet. */
  ghost predicate Single(node: TreeNode)
    reads node
  {
    node.repr == {node} && node.left == null == node.right && node.height == 1
  }

  /** insert_tree_node, below the root */
  method InsertNode(root: TreeNode?, node: TreeNode) returns (r: TreeNode)
    requires Ok(root) && Shaped(ModelOf(root)) && Misses(ModelOf(root), node.lbn) && Single(node)
    requires node !in Nodes(root)
    modifies Nodes(root), node
    ensures r.Valid() && r.repr == old(Nodes(root)) + {node}
    ensures r.Model() == Insert(old(ModelOf(root)), old(node.EntryOf()))
    decreases Nodes(root), 1
  {
    if root == null {
      return node;
    }
    var lbn := node.lbn;
    InsertCanFix(root.Model(), node.EntryOf());
    if lbn < root.lbn {
      InsertLeft(root, node);
    } else {
      InsertRight(root, node);
    }
    r := FixAfterInsert(root, lbn);
  }

  method InsertLeft(root: TreeNode, node: TreeNode)
    requires root.Valid() && Shaped(root.Model()) && Misses(root.Model(), node.lbn) && Single(node)
    requires node !in root.repr
    requires node.lbn < root.lbn
    modifies root.repr, node
    ensures root.Valid() && root.repr == old(root.repr) + {node}
    ensures root.Model() == Inserted(old(root.Model()), old(node.EntryOf()))
    decreases root.repr, 0
  {
    ghost var all := root.repr + {node};
    var l := InsertNode(root.left, node);
    root.left := l;
    UpdateHeight(root, all);
  }

  method InsertRight(root: TreeNode, node: TreeNode)
    requires root.Valid() && Shaped(root.Model()) && Misses(root.Model(), node.lbn) && Single(node)
    requires node !in root.repr
    requires node.lbn > root.lbn
    modifies root.repr, node
    ensures root.Valid() && root.repr == old(root.repr) + {node}
    ensures root.Model() == Inserted(old(root.Model()), old(node.EntryOf()))
    decreases root.repr, 0
  {
    ghost var all := root.repr + {node};
    var l := InsertNode(root.right, node);
    root.right := l;
    UpdateHeight(root, all);
  }

  lemma InsertCanFix(t: Tree, e: Entry)
    requires Shaped(t) && Misses(t, e.lbn) && t.Node?
    ensures CanFixInsert(Inserted(t, e), e.lbn) && Insert(t, e) == FixInsert(Inserted(t, e), e.lbn)
  {
    var l, r := t.left, t.right;
    ExactIsNat(l);
    ExactIsNat(r);
    if e.lbn < t.entry.lbn {
      InsertShape(l, e);
      var l' := Insert(l, e);
      ExactIsNat(l');
      if l'.Node? { ExactIsNat(l'.left); ExactIsNat(l'.right); }
    } else {
      InsertShape(r, e);
      var r' := Insert(r, e);
      ExactIsNat(r');
      if r'.Node? { ExactIsNat(r'.left); ExactIsNat(r'.right); }
    }
  }
}
