/** tree_state.py: the metadata and checkbox state behind the GUI's tree. Every tree item
    (an iid) may carry a TreeNodeMeta naming its logical type, its name and its parent's
    name; its checkbox state lives in a separate dictionary; and a logical key
    (type name, name, parent) lets the states outlive the iids, which change from one run to
    the next, when they are saved and restored. */
module TreeStates {
  import opened OrderedMaps
  import opened Trees

  /** models.MemberType: the kinds of tree item. */
  datatype MemberType =
    | Header | RootUdt | RootAoi | RootControllerTags | RootProgramTags | Udt | Aoi | UdtMember
    | AoiParameter | AoiLocalTag | ParamsHeader | LocalsHeader | Tag

  /** MemberType.name, the enum member's identifier. */
  function TypeName(t: MemberType): string
  {
    match t
    case Header => "HEADER"
    case RootUdt => "ROOT_UDT"
    case RootAoi => "ROOT_AOI"
    case RootControllerTags => "ROOT_CONTROLLER_TAGS"
    case RootProgramTags => "ROOT_PROGRAM_TAGS"
    case Udt => "UDT"
    case Aoi => "AOI"
    case UdtMember => "UDT_MEMBER"
    case AoiParameter => "AOI_PARAMETER"
    case AoiLocalTag => "AOI_LOCAL_TAG"
    case ParamsHeader => "PARAMS_HEADER"
    case LocalsHeader => "LOCALS_HEADER"
    case Tag => "TAG"
  }

  /** Enum names tell the kinds apart, so a logical key determines its item's kind. */
  lemma TypeNameInjective(a: MemberType, b: MemberType)
    requires TypeName(a) == TypeName(b)
    ensures a == b
  {
  }

  /** TreeNodeMeta(node_type, name, parent). */
  datatype NodeMeta = NodeMeta(nodeType: MemberType, name: string, parent: Option<string>)

  /** The logical key (node_type.name, name, parent). */
  datatype Key = Key(nodeType: string, name: string, parent: Option<string>)

  function KeyOf(m: NodeMeta): Key
  {
    Key(TypeName(m.nodeType), m.name, m.parent)
  }

  /** A saved entry {"node_type", "name", "parent", "state"}; a missing field reads as None,
      a missing state as False. */
  datatype Entry = Entry(nodeType: Option<string>, name: Option<string>, parent: Option<string>, state: bool)

  /** (entry.get("node_type"), entry.get("name"), entry.get("parent")). */
  datatype SavedKey = SavedKey(nodeType: Option<string>, name: Option<string>, parent: Option<string>)

  function SavedKeyOf(e: Entry): SavedKey
  {
    SavedKey(e.nodeType, e.name, e.parent)
  }

  /** The tuple a logical key is when it is looked up among the saved keys. */
  function AsSaved(k: Key): SavedKey
  {
    SavedKey(Some(k.nodeType), Some(k.name), k.parent)
  }

  /** The entry serialize writes for an item. */
  function EntryOf(m: NodeMeta, state: bool): (e: Entry)
    ensures SavedKeyOf(e) == AsSaved(KeyOf(m)) && e.state == state
  {
    Entry(Some(TypeName(m.nodeType)), Some(m.name), m.parent, state)
  }

  /** get_checked over a state dictionary: the stored state, else the default. */
  function CheckedIn(c: OrderedMap<bool>, iid: string, default: bool): (r: bool)
    ensures iid in c.vals ==> r == c.vals[iid]
    ensures iid !in c.vals ==> r == default
  {
    if iid in c.vals then c.vals[iid] else default
  }

  // ---------------------------------------------------------------- serialize

  /** The iids of ks that have meta, in their order. */
  function WithMeta(ks: seq<string>, meta: map<string, NodeMeta>): (r: seq<string>)
    ensures |r| <= |ks|
    ensures forall k :: k in r <==> k in ks && k in meta
    decreases |ks|
  {
    if ks == [] then []
    else WithMeta(ks[..|ks| - 1], meta) + (if ks[|ks| - 1] in meta then [ks[|ks| - 1]] else [])
  }

  /** Dropping items keeps distinct iids distinct. */
  lemma {:induction false} WithMetaDistinct(ks: seq<string>, meta: map<string, NodeMeta>)
    requires Distinct(ks)
    ensures Distinct(WithMeta(ks, meta))
    decreases |ks|
  {
    if ks != [] {
      var init := ks[..|ks| - 1];
      WithMetaDistinct(init, meta);
      var r0 := WithMeta(init, meta);
      var last := ks[|ks| - 1];
      assert last !in init;
      assert last !in r0;
      var r := WithMeta(ks, meta);
      assert r == r0 + (if last in meta then [last] else []);
      forall i, j | 0 <= i < j < |r| ensures r[i] != r[j] {
        if j < |r0| {
          assert r[i] == r0[i] && r[j] == r0[j];
        } else {
          assert r[i] in r0 && r[j] == last;
        }
      }
    }
  }

  /** What serialize returns: one entry per iid in `checks` that has meta, in `checks` order,
      carrying its key and its state. */
  function Serialized(meta: map<string, NodeMeta>, ks: seq<string>, vals: map<string, bool>): (r: seq<Entry>)
    requires forall k :: k in ks ==> k in vals
    ensures var w := WithMeta(ks, meta);
      |r| == |w| && forall i :: 0 <= i < |r| ==> r[i] == EntryOf(meta[w[i]], vals[w[i]])
    decreases |ks|
  {
    if ks == [] then []
    else
      var k := ks[|ks| - 1];
      Serialized(meta, ks[..|ks| - 1], vals) + (if k in meta then [EntryOf(meta[k], vals[k])] else [])
  }

  // ---------------------------------------------------------------- restore

  /** The dict comprehension over the saved entries: a later entry overrides an earlier one
      with the same key. */
  function Target(saved: seq<Entry>): (r: map<SavedKey, bool>)
    ensures forall k :: k in r <==> exists i :: 0 <= i < |saved| && SavedKeyOf(saved[i]) == k
    decreases |saved|
  {
    if saved == [] then map[]
    else
      var init := saved[..|saved| - 1];
      var e := saved[|saved| - 1];
      var r0 := Target(init);
      assert forall i :: 0 <= i < |init| ==> init[i] == saved[i];
      r0[SavedKeyOf(e) := e.state]
  }

  /** The entry that decides a key's target state is the last one holding that key. */
  lemma {:induction false} TargetLast(saved: seq<Entry>, i: nat)
    requires i < |saved|
    requires forall j :: i < j < |saved| ==> SavedKeyOf(saved[j]) != SavedKeyOf(saved[i])
    ensures SavedKeyOf(saved[i]) in Target(saved) && Target(saved)[SavedKeyOf(saved[i])] == saved[i].state
    decreases |saved|
  {
    if i < |saved| - 1 {
      var init := saved[..|saved| - 1];
      assert init[i] == saved[i];
      TargetLast(init, i);
    }
  }

  /** The restore loop over the meta iids ks: an item whose key was saved gets the saved
      state; all others keep theirs. */
  function Restored(c: OrderedMap<bool>, ks: seq<string>, meta: map<string, NodeMeta>, target: map<SavedKey, bool>)
    : (r: OrderedMap<bool>)
    requires forall k :: k in ks ==> k in meta
    ensures forall x :: x in r.vals <==> x in c.vals || (x in ks && AsSaved(KeyOf(meta[x])) in target)
    ensures forall x :: x in r.vals ==>
      r.vals[x] == if x in ks && AsSaved(KeyOf(meta[x])) in target then target[AsSaved(KeyOf(meta[x]))] else c.vals[x]
    decreases |ks|
  {
    if ks == [] then c
    else
      var k := ks[|ks| - 1];
      var r0 := Restored(c, ks[..|ks| - 1], meta, target);
      var key := AsSaved(KeyOf(meta[k]));
      if key in target then Put(r0, k, target[key]) else r0
  }

  // ---------------------------------------------------------------- bubbling states up

  /** any(get_checked(ch, False) for ch in children). */
  predicate AnyChecked(c: OrderedMap<bool>, cs: seq<string>)
  {
    exists k :: 0 <= k < |cs| && CheckedIn(c, cs[k], false)
  }

  /** An item's state is the OR of its children's states. */
  ghost predicate Consistent(t: Tree, c: OrderedMap<bool>, q: string)
  {
    CheckedIn(c, q, false) == AnyChecked(c, ChildrenOf(t, q))
  }

  /** The ancestors of every iid of ks. */
  ghost function AncestorsOfAll(t: Tree, ks: seq<string>): set<string>
    requires Valid(t)
    decreases |ks|
  {
    if ks == [] then {} else AncestorsOfAll(t, ks[..|ks| - 1]) + Ancestors(t, ks[|ks| - 1])
  }

  /** Setting one item's state leaves the OR of any list not holding it unchanged. */
  lemma AnyFrame(c: OrderedMap<bool>, x: string, v: bool, cs: seq<string>)
    requires x !in cs
    ensures AnyChecked(Put(c, x, v), cs) == AnyChecked(c, cs)
  {
    var c' := Put(c, x, v);
    if AnyChecked(c, cs) {
      var k :| 0 <= k < |cs| && CheckedIn(c, cs[k], false);
      assert CheckedIn(c', cs[k], false);
    }
    if AnyChecked(c', cs) {
      var k :| 0 <= k < |cs| && CheckedIn(c', cs[k], false);
      assert CheckedIn(c, cs[k], false);
    }
  }

  /** Setting x's state breaks the consistency of no item but x's parent. */
  lemma PutKeepsConsistent(t: Tree, c: OrderedMap<bool>, x: string, v: bool, q: string)
    requires Valid(t) && q != x && ParentOf(t, x) != q && Consistent(t, c, q)
    ensures Consistent(t, Put(c, x, v), q)
  {
    var cs := ChildrenOf(t, q);
    forall i | 0 <= i < |cs| ensures cs[i] != x {
      ChildLink(t, q, i);
    }
    AnyFrame(c, x, v, cs);
  }

  /** Setting x's state to the OR of its children makes x consistent. */
  lemma PutMakesConsistent(t: Tree, c: OrderedMap<bool>, x: string)
    requires Valid(t) && x != ""
    ensures Consistent(t, Put(c, x, AnyChecked(c, ChildrenOf(t, x))), x)
  {
    var cs := ChildrenOf(t, x);
    forall i | 0 <= i < |cs| ensures cs[i] != x {
      NotOwnChild(t, x, i);
    }
    AnyFrame(c, x, AnyChecked(c, cs), cs);
  }

  /** One round of the upward walk: after x takes the OR of its children, every item that was
      consistent, and x itself, is consistent, except possibly x's parent. */
  lemma SetStep(t: Tree, c: OrderedMap<bool>, x: string, s: set<string>)
    requires Valid(t) && x != ""
    requires forall q :: q in s && q != x ==> Consistent(t, c, q)
    ensures var c' := Put(c, x, AnyChecked(c, ChildrenOf(t, x)));
      forall q :: q in s + {x} && q != ParentOf(t, x) ==> Consistent(t, c', q)
  {
    var v := AnyChecked(c, ChildrenOf(t, x));
    PutMakesConsistent(t, c, x);
    forall q | q in s && q != x && q != ParentOf(t, x) ensures Consistent(t, Put(c, x, v), q) {
      PutKeepsConsistent(t, c, x, v, q);
    }
  }

  /** The first loop of restore: the saved state of each key, a later entry overriding. */
  method BuildTarget(saved: seq<Entry>) returns (target: map<SavedKey, bool>)
    ensures target == Target(saved)
  {
    target := map[];
    var j := 0;
    while j < |saved|
      invariant j <= |saved|
      invariant target == Target(saved[..j])
    {
      assert saved[..j + 1][..j] == saved[..j];
      target := target[SavedKeyOf(saved[j]) := saved[j].state];
      j := j + 1;
    }
    assert saved[..|saved|] == saved;
  }

  /** The second loop of restore: every item whose logical key was saved takes its state. */
  method RestoreFrom(c0: OrderedMap<bool>, ks: seq<string>, meta: map<string, NodeMeta>, target: map<SavedKey, bool>)
    returns (c: OrderedMap<bool>)
    requires forall k :: k in ks ==> k in meta
    ensures c == Restored(c0, ks, meta, target)
  {
    c := c0;
    var i := 0;
    while i < |ks|
      invariant i <= |ks| && forall k :: k in ks[..i] ==> k in meta
      invariant c == Restored(c0, ks[..i], meta, target)
    {
      RestoredStep(c0, ks, meta, target, i);
      var key := AsSaved(KeyOf(meta[ks[i]]));
      if key in target {
        c := Put(c, ks[i], target[key]);
      }
      i := i + 1;
    }
    assert ks[..|ks|] == ks;
  }

  lemma RestoredStep(c0: OrderedMap<bool>, ks: seq<string>, meta: map<string, NodeMeta>, target: map<SavedKey, bool>, i: nat)
    requires i < |ks| && forall k :: k in ks ==> k in meta
    ensures var r0 := Restored(c0, ks[..i], meta, target);
      var key := AsSaved(KeyOf(meta[ks[i]]));
      Restored(c0, ks[..i + 1], meta, target) == if key in target then Put(r0, ks[i], target[key]) else r0
  {
    assert ks[..i + 1][..i] == ks[..i];
  }

  /** The outer loop of update_parent_states: a walk up from each item in turn. */
  method WalkAll(tree: Tree, c0: OrderedMap<bool>, ks: seq<string>) returns (c: OrderedMap<bool>)
    requires Valid(tree)
    ensures forall q :: q in AncestorsOfAll(tree, ks) ==> Consistent(tree, c, q)
    ensures forall x :: x !in AncestorsOfAll(tree, ks) ==> Get(c, x) == Get(c0, x)
  {
    c := c0;
    var i := 0;
    while i < |ks|
      invariant i <= |ks|
      invariant forall q :: q in AncestorsOfAll(tree, ks[..i]) ==> Consistent(tree, c, q)
      invariant forall x :: x !in AncestorsOfAll(tree, ks[..i]) ==> Get(c, x) == Get(c0, x)
      invariant "" !in AncestorsOfAll(tree, ks[..i])
    {
      assert ks[..i + 1][..i] == ks[..i];
      RootNotAncestor(tree, ks[i]);
      c := WalkUp(tree, c, ks[i], AncestorsOfAll(tree, ks[..i]));
      i := i + 1;
    }
    assert ks[..|ks|] == ks;
  }

  /** The inner `while parent:` loop for one item, over the state dictionary: every
      ancestor of the item takes the OR of its children, bottom up, and is written only when
      that changes its state (set_checked). */
  method WalkUp(tree: Tree, c0: OrderedMap<bool>, iid: string, ghost goal: set<string>) returns (c: OrderedMap<bool>)
    requires Valid(tree)
    requires forall q :: q in goal ==> Consistent(tree, c0, q)
    requires "" !in goal
    ensures forall q :: q in goal + Ancestors(tree, iid) ==> Consistent(tree, c, q)
    ensures forall x :: x !in Ancestors(tree, iid) ==> Get(c, x) == Get(c0, x)
  {
    c := c0;
    var parent := ParentOf(tree, iid);
    ghost var done: set<string> := {};
    while parent != ""
      invariant parent != "" ==> parent in tree.depth
      invariant Ancestors(tree, iid) == done + (if parent == "" then {} else {parent} + Ancestors(tree, parent))
      invariant forall q :: q in goal + done && q != parent ==> Consistent(tree, c, q)
      invariant forall x :: x !in done ==> Get(c, x) == Get(c0, x)
      invariant "" !in done
      decreases if parent == "" then 0 else Depth(tree, parent) + 1
    {
      c := BubbleOne(tree, c, parent, goal + done);
      done := done + {parent};
      parent := ParentOf(tree, parent);
    }
  }

  /** The body of the `while parent:` loop: the item takes the OR of its children's states,
      written only when that changes its state. */
  method BubbleOne(tree: Tree, c: OrderedMap<bool>, parent: string, ghost s: set<string>) returns (c': OrderedMap<bool>)
    requires Valid(tree) && parent != ""
    requires forall q :: q in s && q != parent ==> Consistent(tree, c, q)
    ensures forall q :: q in s + {parent} && q != ParentOf(tree, parent) ==> Consistent(tree, c', q)
    ensures forall x :: x != parent ==> Get(c', x) == Get(c, x)
  {
    var newState := AnyChecked(c, ChildrenOf(tree, parent));
    c' := c;
    if CheckedIn(c, parent, false) != newState {
      SetStep(tree, c, parent, s);
      c' := Put(c, parent, newState);
    }
  }

  // ---------------------------------------------------------------- the state object

  class TreeState {
    var meta: OrderedMap<NodeMeta>
    var checks: OrderedMap<bool>
    var keyIndex: map<Key, string>

    constructor()
      ensures meta == Empty() && checks == Empty() && keyIndex == map[]
    {
      meta := Empty();
      checks := Empty();
      keyIndex := map[];
    }

    /** reset: all three dictionaries are emptied. */
    method Reset()
      modifies this
      ensures meta == Empty() && checks == Empty() && keyIndex == map[]
    {
      meta := Empty();
      checks := Empty();
      keyIndex := map[];
    }

    /** set_meta: the meta is stored under the iid and its logical key indexes the iid. */
    method SetMeta(iid: string, m: NodeMeta)
      modifies this
      ensures meta == Put(old(meta), iid, m)
      ensures keyIndex == old(keyIndex)[KeyOf(m) := iid]
      ensures checks == old(checks)
    {
      meta := Put(meta, iid, m);
      var key := LogicalKeyForIid(iid);
      if key.Some? {
        keyIndex := keyIndex[key.value := iid];
      }
    }

    /** get_meta. */
    function GetMeta(iid: string): (r: Option<NodeMeta>)
      reads this
      ensures r.Some? <==> iid in meta.vals
      ensures r.Some? ==> r.value == meta.vals[iid]
    {
      Get(meta, iid)
    }

    /** set_checked. */
    method SetChecked(iid: string, state: bool)
      modifies this
      ensures checks == Put(old(checks), iid, state)
      ensures meta == old(meta) && keyIndex == old(keyIndex)
    {
      checks := Put(checks, iid, state);
    }

    /** get_checked: the stored state, else the default. */
    function GetChecked(iid: string, default: bool): (r: bool)
      reads this
      ensures iid in checks.vals ==> r == checks.vals[iid]
      ensures iid !in checks.vals ==> r == default
    {
      CheckedIn(checks, iid, default)
    }

    /** logical_key_for_iid: the (type name, name, parent) key of a known item, else None. */
    function LogicalKeyForIid(iid: string): (r: Option<Key>)
      reads this
      ensures r.Some? <==> iid in meta.vals
      ensures r.Some? ==> r.value == KeyOf(meta.vals[iid])
    {
      match GetMeta(iid)
      case None => None
      case Some(m) => Some(KeyOf(m))
    }

    /** serialize: the checks with a logical key, in `checks` order. */
    method Serialize() returns (out: seq<Entry>)
      ensures out == Serialized(meta.vals, checks.keys, checks.vals)
    {
      var ks := checks.keys;
      out := [];
      var i := 0;
      while i < |ks|
        invariant i <= |ks|
        invariant out == Serialized(meta.vals, ks[..i], checks.vals)
      {
        assert ks[..i + 1][..i] == ks[..i];
        var key := LogicalKeyForIid(ks[i]);
        if key.Some? {
          out := out + [EntryOf(meta.vals[ks[i]], checks.vals[ks[i]])];
        }
        i := i + 1;
      }
      assert ks[..|ks|] == ks;
    }

    /** restore: every item whose logical key was saved takes the saved state. */
    method Restore(saved: seq<Entry>)
      modifies this
      ensures checks == Restored(old(checks), meta.keys, meta.vals, Target(saved))
      ensures meta == old(meta) && keyIndex == old(keyIndex)
    {
      var target := BuildTarget(saved);
      checks := RestoreFrom(checks, meta.keys, meta.vals, target);
    }

    /** update_parent_states: walking up from every item with meta, each ancestor is set to
      the OR of its children; the selected item's new state is returned. */
    method UpdateParentStates(tree: Tree, selected: Option<string>) returns (r: Option<bool>)
      requires Valid(tree)
      modifies this
      ensures forall q :: q in AncestorsOfAll(tree, meta.keys) ==> Consistent(tree, checks, q)
      ensures forall x :: x !in AncestorsOfAll(tree, meta.keys) ==> Get(checks, x) == Get(old(checks), x)
      ensures meta == old(meta) && keyIndex == old(keyIndex)
      ensures r == if selected.Some? && selected.value != "" then Some(CheckedIn(checks, selected.value, false)) else None
    {
      checks := WalkAll(tree, checks, meta.keys);
      if selected.Some? && selected.value != "" {
        r := Some(GetChecked(selected.value, false));
      } else {
        r := None;
      }
    }
  }

  // ---------------------------------------------------------------- round trip

  /** No two items with meta share a logical key. */
  ghost predicate KeysDistinct(meta: map<string, NodeMeta>)
  {
    forall a, b :: a in meta && b in meta && KeyOf(meta[a]) == KeyOf(meta[b]) ==> a == b
  }

  /** Two entries written for two different items hold different keys. */
  lemma SavedKeysDiffer(meta: map<string, NodeMeta>, w: seq<string>, vals: map<string, bool>, saved: seq<Entry>,
                        i: nat, j: nat)
    requires KeysDistinct(meta) && i < j < |w| == |saved| && w[i] != w[j]
    requires w[i] in meta && w[j] in meta && w[i] in vals && w[j] in vals
    requires saved[i] == EntryOf(meta[w[i]], vals[w[i]]) && saved[j] == EntryOf(meta[w[j]], vals[w[j]])
    ensures SavedKeyOf(saved[i]) != SavedKeyOf(saved[j])
  {
    assert KeyOf(meta[w[i]]) != KeyOf(meta[w[j]]);
  }

  /** Restoring what serialize wrote, into any state dictionary over the same meta, gives
      every item the state it was saved with and leaves the items that were not saved alone. */
  lemma RestoreSerialized(meta: OrderedMap<NodeMeta>, checks: OrderedMap<bool>, other: OrderedMap<bool>)
    requires KeysDistinct(meta.vals)
    ensures var r := Restored(other, meta.keys, meta.vals, Target(Serialized(meta.vals, checks.keys, checks.vals)));
      (forall x :: x in meta.vals && x in checks.vals ==> x in r.vals && r.vals[x] == checks.vals[x]) &&
      (forall x :: x in meta.vals && x !in checks.vals ==> Get(r, x) == Get(other, x))
  {
    forall x | x in meta.vals && x in checks.vals
      ensures AsSaved(KeyOf(meta.vals[x])) in Target(Serialized(meta.vals, checks.keys, checks.vals)) &&
              Target(Serialized(meta.vals, checks.keys, checks.vals))[AsSaved(KeyOf(meta.vals[x]))] == checks.vals[x]
    {
      SavedStateFound(meta, checks, x);
    }
    forall x | x in meta.vals && x !in checks.vals
      ensures AsSaved(KeyOf(meta.vals[x])) !in Target(Serialized(meta.vals, checks.keys, checks.vals))
    {
      UnsavedStateMissing(meta, checks, x);
    }
  }

  /** The saved data holds the state of every item with meta and a state. */
  lemma SavedStateFound(meta: OrderedMap<NodeMeta>, checks: OrderedMap<bool>, x: string)
    requires KeysDistinct(meta.vals) && x in meta.vals && x in checks.vals
    ensures var t := Target(Serialized(meta.vals, checks.keys, checks.vals));
      AsSaved(KeyOf(meta.vals[x])) in t && t[AsSaved(KeyOf(meta.vals[x]))] == checks.vals[x]
  {
    var saved := Serialized(meta.vals, checks.keys, checks.vals);
    var w := WithMeta(checks.keys, meta.vals);
    WithMetaDistinct(checks.keys, meta.vals);
    assert x in w;
    var i :| 0 <= i < |w| && w[i] == x;
    forall j | i < j < |saved| ensures SavedKeyOf(saved[j]) != SavedKeyOf(saved[i]) {
      SavedKeysDiffer(meta.vals, w, checks.vals, saved, i, j);
    }
    TargetLast(saved, i);
  }

  /** The saved data holds no key of an item that had no state. */
  lemma UnsavedStateMissing(meta: OrderedMap<NodeMeta>, checks: OrderedMap<bool>, x: string)
    requires KeysDistinct(meta.vals) && x in meta.vals && x !in checks.vals
    ensures AsSaved(KeyOf(meta.vals[x])) !in Target(Serialized(meta.vals, checks.keys, checks.vals))
  {
    var saved := Serialized(meta.vals, checks.keys, checks.vals);
    var w := WithMeta(checks.keys, meta.vals);
    forall i | 0 <= i < |saved| ensures SavedKeyOf(saved[i]) != AsSaved(KeyOf(meta.vals[x])) {
      assert w[i] in w;
      assert w[i] != x;
    }
  }
}
