/** The GUI's tree widget, seen only through the two queries the selection logic makes of it:
    `tree.parent(iid)` and `tree.get_children(iid)`, where "" names the invisible root.
    Every item also carries its depth (distance from the root) and its height (longest path
    down to a leaf); together they say the item links form a finite tree. */
module Trees {

  datatype Tree = Tree(parent: map<string, string>, children: map<string, seq<string>>,
                       depth: map<string, nat>, height: map<string, nat>)

  /** tree.parent(iid): "" for a top-level item (and for an item the tree does not know). */
  function ParentOf(t: Tree, x: string): string
  {
    if x in t.parent then t.parent[x] else ""
  }

  /** tree.get_children(iid); ChildrenOf(t, "") are the top-level items. */
  function ChildrenOf(t: Tree, x: string): seq<string>
  {
    if x in t.children then t.children[x] else []
  }

  /** A parent is one level above its child, a child's parent is the item listing it, an
      item is listed by its parent, and a child is lower than its parent. */
  ghost predicate Valid(t: Tree)
  {
    (forall x :: x in t.parent && t.parent[x] != "" ==>
       x in t.depth && t.parent[x] in t.depth && t.depth[t.parent[x]] < t.depth[x]) &&
    (forall p, i :: p in t.children && 0 <= i < |t.children[p]| ==> ParentOf(t, t.children[p][i]) == p) &&
    (forall x :: x in t.parent && t.parent[x] != "" ==> x in ChildrenOf(t, t.parent[x])) &&
    (forall p, i :: p in t.children && 0 <= i < |t.children[p]| ==>
       p in t.height && t.children[p][i] in t.height && t.height[t.children[p][i]] < t.height[p])
  }

  /** The measure the upward walk `parent = tree.parent(parent)` decreases. */
  function Depth(t: Tree, x: string): nat
  {
    if x in t.depth then t.depth[x] else 0
  }

  /** The measure a recursion over `tree.get_children(iid)` decreases. */
  function Height(t: Tree, x: string): nat
  {
    if x in t.height then t.height[x] else 0
  }

  /** The items met by `parent = tree.parent(iid); while parent: ...; parent = tree.parent(parent)`. */
  ghost function Ancestors(t: Tree, x: string): set<string>
    requires Valid(t)
    decreases Depth(t, x)
  {
    var p := ParentOf(t, x);
    if p == "" then {} else {p} + Ancestors(t, p)
  }

  /** A child's parent is the item that lists it, and it is one step higher up. */
  lemma ChildLink(t: Tree, p: string, i: nat)
    requires Valid(t) && i < |ChildrenOf(t, p)|
    ensures ParentOf(t, ChildrenOf(t, p)[i]) == p
    ensures Height(t, ChildrenOf(t, p)[i]) < Height(t, p)
  {
  }

  /** The invisible root is nobody's ancestor. */
  lemma {:induction false} RootNotAncestor(t: Tree, x: string)
    requires Valid(t)
    ensures "" !in Ancestors(t, x)
    decreases Depth(t, x)
  {
    var p := ParentOf(t, x);
    if p != "" {
      RootNotAncestor(t, p);
    }
  }

  /** The items of x's subtree, x included. */
  ghost function Subtree(t: Tree, x: string): set<string>
    requires Valid(t)
    decreases Height(t, x), 1, 0
  {
    {x} + Forest(t, x, |ChildrenOf(t, x)|)
  }

  /** The subtrees of the first k children of p. */
  ghost function Forest(t: Tree, p: string, k: nat): set<string>
    requires Valid(t) && k <= |ChildrenOf(t, p)|
    decreases Height(t, p), 0, k
  {
    if k == 0 then {}
    else
      ChildLink(t, p, k - 1);
      Forest(t, p, k - 1) + Subtree(t, ChildrenOf(t, p)[k - 1])
  }

  /** Every item shown in the tree: the subtrees of the top-level items. */
  ghost function Items(t: Tree): set<string>
    requires Valid(t)
  {
    Forest(t, "", |ChildrenOf(t, "")|)
  }

  /** No item is its own child. */
  lemma NotOwnChild(t: Tree, x: string, i: nat)
    requires Valid(t) && x != "" && i < |ChildrenOf(t, x)|
    ensures ChildrenOf(t, x)[i] != x
  {
  }
}
