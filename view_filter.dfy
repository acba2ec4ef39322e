/** view_filter.py: the tree view's "all" / "enabled" / "disabled" filter. Outside "all",
    an item is kept when its own checkbox state passes the mode's test or some child of it is
    kept; every other item is deleted from the tree together with its meta and its state. */
module ViewFilter {
  import opened OrderedMaps
  import opened Trees
  import opened TreeStates

  /** keep_me: in "enabled" mode a checked item is kept, in "disabled" mode an unchecked
      one; either way so is an item with a kept child. A missing state counts as unchecked. */
  predicate Kept(t: Tree, c: OrderedMap<bool>, enabled: bool, x: string)
    requires Valid(t)
    decreases Height(t, x)
  {
    var checked := CheckedIn(c, x, false);
    var cs := ChildrenOf(t, x);
    (if enabled then checked else !checked) ||
    exists i :: 0 <= i < |cs| && Kept(t, c, enabled, cs[i])
  }

  /** The kept items among s. */
  ghost function KeptIn(t: Tree, c: OrderedMap<bool>, enabled: bool, s: set<string>): set<string>
    requires Valid(t)
  {
    set y | y in s && Kept(t, c, enabled, y)
  }

  /** The items among s that are not kept. */
  ghost function DroppedIn(s: set<string>, keep: set<string>): set<string>
  {
    set y | y in s && y !in keep
  }

  lemma KeptInUnion(t: Tree, c: OrderedMap<bool>, enabled: bool, a: set<string>, b: set<string>)
    requires Valid(t)
    ensures KeptIn(t, c, enabled, a + b) == KeptIn(t, c, enabled, a) + KeptIn(t, c, enabled, b)
  {
  }

  lemma DroppedInUnion(a: set<string>, b: set<string>, keep: set<string>)
    ensures DroppedIn(a + b, keep) == DroppedIn(a, keep) + DroppedIn(b, keep)
  {
  }

  /** One more child's subtree joins the forest. */
  lemma ForestStep(t: Tree, x: string, i: nat)
    requires Valid(t) && i < |ChildrenOf(t, x)|
    ensures Forest(t, x, i + 1) == Forest(t, x, i) + Subtree(t, ChildrenOf(t, x)[i])
  {
  }

  /** A subtree is its root and its children's subtrees. */
  lemma SubtreeSplit(t: Tree, x: string)
    requires Valid(t)
    ensures Subtree(t, x) == {x} + Forest(t, x, |ChildrenOf(t, x)|)
  {
  }

  /** Whether one of the first i children of x is kept. */
  predicate AnyKept(t: Tree, c: OrderedMap<bool>, enabled: bool, x: string, i: nat)
    requires Valid(t) && i <= |ChildrenOf(t, x)|
    decreases Height(t, x), 0, i
  {
    if i == 0 then false
    else
      ChildLink(t, x, i - 1);
      AnyKept(t, c, enabled, x, i - 1) || Kept(t, c, enabled, ChildrenOf(t, x)[i - 1])
  }

  lemma {:induction false} AnyKeptExists(t: Tree, c: OrderedMap<bool>, enabled: bool, x: string, i: nat)
    requires Valid(t) && i <= |ChildrenOf(t, x)|
    ensures AnyKept(t, c, enabled, x, i) <==>
      exists j :: 0 <= j < i && Kept(t, c, enabled, ChildrenOf(t, x)[j])
  {
    if i > 0 {
      AnyKeptExists(t, c, enabled, x, i - 1);
    }
  }

  /** keep_me in terms of the children scanned one by one. */
  lemma KeptByScan(t: Tree, c: OrderedMap<bool>, enabled: bool, x: string)
    requires Valid(t)
    ensures Kept(t, c, enabled, x) ==
      ((if enabled then CheckedIn(c, x, false) else !CheckedIn(c, x, false)) ||
       AnyKept(t, c, enabled, x, |ChildrenOf(t, x)|))
  {
    AnyKeptExists(t, c, enabled, x, |ChildrenOf(t, x)|);
  }

  /** One child's dfs extends the kept items of the forest scanned so far. */
  lemma KeepStep(t: Tree, c: OrderedMap<bool>, enabled: bool, x: string, i: nat,
                 keep0: set<string>, keep: set<string>, keep': set<string>)
    requires Valid(t) && i < |ChildrenOf(t, x)|
    requires keep == keep0 + KeptIn(t, c, enabled, Forest(t, x, i))
    requires keep' == keep + KeptIn(t, c, enabled, Subtree(t, ChildrenOf(t, x)[i]))
    ensures keep' == keep0 + KeptIn(t, c, enabled, Forest(t, x, i + 1))
  {
    ForestStep(t, x, i);
    KeptInUnion(t, c, enabled, Forest(t, x, i), Subtree(t, ChildrenOf(t, x)[i]));
  }

  /** After the children, x itself joins the kept items when it is kept. */
  lemma KeepEnd(t: Tree, c: OrderedMap<bool>, enabled: bool, x: string,
                keep0: set<string>, keep: set<string>, keepMe: bool)
    requires Valid(t)
    requires keep == keep0 + KeptIn(t, c, enabled, Forest(t, x, |ChildrenOf(t, x)|))
    requires keepMe == Kept(t, c, enabled, x)
    ensures (if keepMe then keep + {x} else keep) == keep0 + KeptIn(t, c, enabled, Subtree(t, x))
  {
    SubtreeSplit(t, x);
    KeptInUnion(t, c, enabled, {x}, Forest(t, x, |ChildrenOf(t, x)|));
  }

  /** One child's prune extends the items deleted from the forest scanned so far. */
  lemma DropStep(t: Tree, x: string, i: nat, keep: set<string>, deleted: set<string>, d: set<string>)
    requires Valid(t) && i < |ChildrenOf(t, x)|
    requires deleted == DroppedIn(Forest(t, x, i), keep)
    requires d == DroppedIn(Subtree(t, ChildrenOf(t, x)[i]), keep)
    ensures deleted + d == DroppedIn(Forest(t, x, i + 1), keep)
  {
    ForestStep(t, x, i);
    DroppedInUnion(Forest(t, x, i), Subtree(t, ChildrenOf(t, x)[i]), keep);
  }

  /** After the children, x itself is deleted when it is not kept. */
  lemma DropEnd(t: Tree, x: string, keep: set<string>, deleted: set<string>)
    requires Valid(t)
    requires deleted == DroppedIn(Forest(t, x, |ChildrenOf(t, x)|), keep)
    ensures (if x !in keep then deleted + {x} else deleted) == DroppedIn(Subtree(t, x), keep)
  {
    SubtreeSplit(t, x);
    DroppedInUnion({x}, Forest(t, x, |ChildrenOf(t, x)|), keep);
  }

  /** Deleting what is not among the kept items of s deletes exactly the items of s not kept. */
  lemma DroppedNotKept(t: Tree, c: OrderedMap<bool>, enabled: bool, s: set<string>)
    requires Valid(t)
    ensures DroppedIn(s, KeptIn(t, c, enabled, s)) == set y | y in s && !Kept(t, c, enabled, y)
  {
  }

  /** A kept item's parent is kept. */
  lemma ParentKept(t: Tree, c: OrderedMap<bool>, enabled: bool, x: string)
    requires Valid(t) && Kept(t, c, enabled, x) && ParentOf(t, x) != ""
    ensures Kept(t, c, enabled, ParentOf(t, x))
  {
    var p := ParentOf(t, x);
    var cs := ChildrenOf(t, p);
    assert x in cs;
    var i :| 0 <= i < |cs| && cs[i] == x;
    assert Kept(t, c, enabled, cs[i]);
  }

  /** Every ancestor of a kept item is kept. */
  lemma {:induction false} AncestorsKept(t: Tree, c: OrderedMap<bool>, enabled: bool, x: string)
    requires Valid(t) && Kept(t, c, enabled, x)
    ensures forall y :: y in Ancestors(t, x) ==> Kept(t, c, enabled, y)
    decreases Depth(t, x)
  {
    var p := ParentOf(t, x);
    if p != "" {
      ParentKept(t, c, enabled, x);
      AncestorsKept(t, c, enabled, p);
    }
  }

  /** An item that is not kept has no kept item below it, so deleting it from the tree
      deletes nothing that is kept. */
  lemma {:induction false} DroppedSubtree(t: Tree, c: OrderedMap<bool>, enabled: bool, x: string)
    requires Valid(t) && !Kept(t, c, enabled, x)
    ensures forall y :: y in Subtree(t, x) ==> !Kept(t, c, enabled, y)
    decreases Height(t, x), 1, 0
  {
    DroppedForest(t, c, enabled, x, |ChildrenOf(t, x)|);
  }

  lemma {:induction false} DroppedForest(t: Tree, c: OrderedMap<bool>, enabled: bool, x: string, k: nat)
    requires Valid(t) && !Kept(t, c, enabled, x) && k <= |ChildrenOf(t, x)|
    ensures forall y :: y in Forest(t, x, k) ==> !Kept(t, c, enabled, y)
    decreases Height(t, x), 0, k
  {
    if k > 0 {
      var cs := ChildrenOf(t, x);
      ChildLink(t, x, k - 1);
      assert !Kept(t, c, enabled, cs[k - 1]);
      DroppedForest(t, c, enabled, x, k - 1);
      DroppedSubtree(t, c, enabled, cs[k - 1]);
    }
  }

  /** dfs(iid): whether the item is kept, with the kept items of its subtree added to `keep`. */
  method Dfs(t: Tree, c: OrderedMap<bool>, enabled: bool, x: string, keep0: set<string>)
    returns (keepMe: bool, keep: set<string>)
    requires Valid(t)
    ensures keepMe == Kept(t, c, enabled, x)
    ensures keep == keep0 + KeptIn(t, c, enabled, Subtree(t, x))
    decreases Height(t, x), 1
  {
    var checked := CheckedIn(c, x, false);
    var cs := ChildrenOf(t, x);
    var anyChild := false;
    keep := keep0;
    var i := 0;
    while i < |cs|
      invariant i <= |cs|
      invariant anyChild == AnyKept(t, c, enabled, x, i)
      invariant keep == keep0 + KeptIn(t, c, enabled, Forest(t, x, i))
    {
      ChildLink(t, x, i);
      var k, keep' := Dfs(t, c, enabled, cs[i], keep);
      KeepStep(t, c, enabled, x, i, keep0, keep, keep');
      anyChild := anyChild || k;
      keep := keep';
      i := i + 1;
    }
    keepMe := if enabled then checked || anyChild else !checked || anyChild;
    KeptByScan(t, c, enabled, x);
    KeepEnd(t, c, enabled, x, keep0, keep, keepMe);
    if keepMe {
      keep := keep + {x};
    }
  }

  /** prune(iid): the subtree's items that are not kept are deleted, children first, each
      with its meta and its state. */
  method Prune(t: Tree, x: string, keep: set<string>, state: TreeState) returns (deleted: set<string>)
    requires Valid(t)
    modifies state
    ensures deleted == DroppedIn(Subtree(t, x), keep)
    ensures state.meta == Drop(old(state.meta), deleted)
    ensures state.checks == Drop(old(state.checks), deleted)
    ensures state.keyIndex == old(state.keyIndex)
    decreases Height(t, x)
  {
    var cs := ChildrenOf(t, x);
    deleted := {};
    DropNothing(state.meta);
    DropNothing(state.checks);
    var i := 0;
    while i < |cs|
      invariant i <= |cs|
      invariant deleted == DroppedIn(Forest(t, x, i), keep)
      invariant state.meta == Drop(old(state.meta), deleted)
      invariant state.checks == Drop(old(state.checks), deleted)
      invariant state.keyIndex == old(state.keyIndex)
    {
      ChildLink(t, x, i);
      var d := Prune(t, cs[i], keep, state);
      DropStep(t, x, i, keep, deleted, d);
      DropTwice(old(state.meta), deleted, d);
      DropTwice(old(state.checks), deleted, d);
      deleted := deleted + d;
      i := i + 1;
    }
    DropEnd(t, x, keep, deleted);
    if x !in keep {
      RemoveIsDrop(state.meta, x);
      RemoveIsDrop(state.checks, x);
      DropTwice(old(state.meta), deleted, {x});
      DropTwice(old(state.checks), deleted, {x});
      state.meta := Remove(state.meta, x);
      state.checks := Remove(state.checks, x);
      deleted := deleted + {x};
    }
  }

  /** The dfs over every top-level item: the kept items of the whole tree. */
  method KeepAll(t: Tree, c: OrderedMap<bool>, enabled: bool) returns (keep: set<string>)
    requires Valid(t)
    ensures keep == KeptIn(t, c, enabled, Items(t))
  {
    var roots := ChildrenOf(t, "");
    keep := {};
    var i := 0;
    while i < |roots|
      invariant i <= |roots|
      invariant keep == {} + KeptIn(t, c, enabled, Forest(t, "", i))
    {
      ChildLink(t, "", i);
      var _, k := Dfs(t, c, enabled, roots[i], keep);
      KeepStep(t, c, enabled, "", i, {}, keep, k);
      keep := k;
      i := i + 1;
    }
    assert {} + KeptIn(t, c, enabled, Items(t)) == KeptIn(t, c, enabled, Items(t));
  }

  /** The prune over every top-level item: each item of the tree outside `keep` is deleted. */
  method PruneAll(t: Tree, keep: set<string>, state: TreeState) returns (deleted: set<string>)
    requires Valid(t)
    modifies state
    ensures deleted == DroppedIn(Items(t), keep)
    ensures state.meta == Drop(old(state.meta), deleted)
    ensures state.checks == Drop(old(state.checks), deleted)
    ensures state.keyIndex == old(state.keyIndex)
  {
    var roots := ChildrenOf(t, "");
    deleted := {};
    DropNothing(state.meta);
    DropNothing(state.checks);
    var i := 0;
    while i < |roots|
      invariant i <= |roots|
      invariant deleted == DroppedIn(Forest(t, "", i), keep)
      invariant state.meta == Drop(old(state.meta), deleted)
      invariant state.checks == Drop(old(state.checks), deleted)
      invariant state.keyIndex == old(state.keyIndex)
    {
      ChildLink(t, "", i);
      var d := Prune(t, roots[i], keep, state);
      DropStep(t, "", i, keep, deleted, d);
      DropTwice(old(state.meta), deleted, d);
      DropTwice(old(state.checks), deleted, d);
      deleted := deleted + d;
      i := i + 1;
    }
  }

  /** apply_filter(tree, state, mode): the set of items deleted from the tree. */
  method ApplyFilter(t: Tree, state: TreeState, mode: string) returns (deleted: set<string>)
    requires Valid(t)
    modifies state
    ensures mode == "all" ==> deleted == {} && state.meta == old(state.meta) && state.checks == old(state.checks)
    ensures mode != "all" ==>
      deleted == set y | y in Items(t) && !Kept(t, old(state.checks), mode == "enabled", y)
    ensures state.meta == Drop(old(state.meta), deleted)
    ensures state.checks == Drop(old(state.checks), deleted)
    ensures state.keyIndex == old(state.keyIndex)
  {
    if mode == "all" {
      DropNothing(state.meta);
      DropNothing(state.checks);
      return {};
    }
    var enabled := mode == "enabled";
    var keep := KeepAll(t, state.checks, enabled);
    DroppedNotKept(t, state.checks, enabled, Items(t));
    deleted := PruneAll(t, keep, state);
  }
}
