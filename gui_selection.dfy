/** gui.py `_build_selection_structure`: the checked tree items become the SelectionDict the
    exporter reads. Every checked item that has meta contributes according to its kind; an
    unchecked item, or one without meta, contributes nothing. */
module GuiSelection {
  import opened OrderedMaps
  import opened TreeStates
  import Models

  /** `parent` is truthy: present and not empty. */
  predicate HasParent(m: NodeMeta)
  {
    m.parent.Some? && m.parent.value != ""
  }

  function NoSelection(): Models.Selection
  {
    Models.Selection({}, map[], {}, map[], map[], {}, map[])
  }

  /** `d.setdefault(k, set()).add(x)`. */
  function AddTo(d: map<string, set<string>>, k: string, x: string): map<string, set<string>>
  {
    d[k := Models.Chosen(d, k) + {x}]
  }

  /** What one checked item with meta adds to the selection. */
  function AddNode(s: Models.Selection, m: NodeMeta): Models.Selection
  {
    match m.nodeType
    case Tag =>
      if HasParent(m) then s.(programTags := AddTo(s.programTags, m.parent.value, m.name))
      else s.(tags := s.tags + {m.name})
    case Udt => s.(udts := s.udts + {m.name})
    case UdtMember =>
      if HasParent(m) then
        s.(udtMembers := AddTo(s.udtMembers, m.parent.value, m.name), udts := s.udts + {m.parent.value})
      else s
    case Aoi => s.(aois := s.aois + {m.name})
    case AoiParameter =>
      if HasParent(m) then
        s.(aoiParameters := AddTo(s.aoiParameters, m.parent.value, m.name), aois := s.aois + {m.parent.value})
      else s
    case AoiLocalTag =>
      if HasParent(m) then
        s.(aoiLocaltags := AddTo(s.aoiLocaltags, m.parent.value, m.name), aois := s.aois + {m.parent.value})
      else s
    case _ => s
  }

  /** The metas of the checked items among ks that have meta, in `checks` order. */
  function CheckedMetas(ks: seq<string>, checks: map<string, bool>, meta: map<string, NodeMeta>): seq<NodeMeta>
  {
    if ks == [] then []
    else
      var k := ks[|ks| - 1];
      var r := CheckedMetas(ks[..|ks| - 1], checks, meta);
      if k in checks && checks[k] && k in meta then r + [meta[k]] else r
  }

  /** The selection gathered from a sequence of checked metas. */
  function SelectionOf(ms: seq<NodeMeta>): Models.Selection
  {
    if ms == [] then NoSelection()
    else AddNode(SelectionOf(ms[..|ms| - 1]), ms[|ms| - 1])
  }

  /** The selection dictionary's set-valued entries. */
  datatype SetField = Udts | Aois | Tags

  function SetOf(s: Models.Selection, f: SetField): set<string>
  {
    match f
    case Udts => s.udts
    case Aois => s.aois
    case Tags => s.tags
  }

  /** Which items name x in a set-valued entry: a UDT (AOI) by its own name, and as their
      parent a checked member (parameter or local tag); a global tag, one without a parent. */
  predicate GivesName(m: NodeMeta, f: SetField, x: string)
  {
    match f
    case Udts =>
      (m.nodeType == Udt && m.name == x) ||
      (m.nodeType == UdtMember && HasParent(m) && m.parent.value == x)
    case Aois =>
      (m.nodeType == Aoi && m.name == x) ||
      ((m.nodeType == AoiParameter || m.nodeType == AoiLocalTag) && HasParent(m) && m.parent.value == x)
    case Tags => m.nodeType == Tag && !HasParent(m) && m.name == x
  }

  /** The selection dictionary's per-parent entries. */
  datatype MapField = UdtMembers | AoiParameters | AoiLocaltags | ProgramTags

  function MapOf(s: Models.Selection, f: MapField): map<string, set<string>>
  {
    match f
    case UdtMembers => s.udtMembers
    case AoiParameters => s.aoiParameters
    case AoiLocaltags => s.aoiLocaltags
    case ProgramTags => s.programTags
  }

  /** The kind of item listed in a per-parent entry; program tags are TAG items with a parent. */
  function FieldKind(f: MapField): MemberType
  {
    match f
    case UdtMembers => UdtMember
    case AoiParameters => AoiParameter
    case AoiLocaltags => AoiLocalTag
    case ProgramTags => Tag
  }

  predicate GivesChild(m: NodeMeta, f: MapField, p: string, x: string)
  {
    m.nodeType == FieldKind(f) && HasParent(m) && m.parent.value == p && m.name == x
  }

  lemma ChosenAddTo(d: map<string, set<string>>, k: string, x: string, p: string, y: string)
    ensures y in Models.Chosen(AddTo(d, k, x), p) <==> y in Models.Chosen(d, p) || (p == k && y == x)
  {
  }

  lemma AddNodeSet(s: Models.Selection, m: NodeMeta, f: SetField, x: string)
    ensures x in SetOf(AddNode(s, m), f) <==> x in SetOf(s, f) || GivesName(m, f, x)
  {
  }

  /** The per-parent entry an item of the entry's kind with a parent adds to; every other
      item leaves the entry alone. */
  lemma AddNodeMapShape(s: Models.Selection, m: NodeMeta, f: MapField)
    ensures MapOf(AddNode(s, m), f) ==
      if m.nodeType == FieldKind(f) && HasParent(m) then AddTo(MapOf(s, f), m.parent.value, m.name)
      else MapOf(s, f)
  {
  }

  lemma AddNodeMap(s: Models.Selection, m: NodeMeta, f: MapField, p: string, x: string)
    ensures x in Models.Chosen(MapOf(AddNode(s, m), f), p) <==>
      x in Models.Chosen(MapOf(s, f), p) || GivesChild(m, f, p, x)
  {
    AddNodeMapShape(s, m, f);
    if m.nodeType == FieldKind(f) && HasParent(m) {
      ChosenAddTo(MapOf(s, f), m.parent.value, m.name, p, x);
    }
  }

  /** A name is in a set-valued entry exactly when some checked item gives it. */
  lemma {:induction false} SelectionSets(ms: seq<NodeMeta>, f: SetField, x: string)
    ensures x in SetOf(SelectionOf(ms), f) <==> exists i :: 0 <= i < |ms| && GivesName(ms[i], f, x)
  {
    if ms != [] {
      var n := |ms| - 1;
      SelectionSets(ms[..n], f, x);
      AddNodeSet(SelectionOf(ms[..n]), ms[n], f, x);
      if x in SetOf(SelectionOf(ms), f) && !GivesName(ms[n], f, x) {
        var i :| 0 <= i < n && GivesName(ms[..n][i], f, x);
        assert ms[i] == ms[..n][i];
      }
      if exists i :: 0 <= i < |ms| && GivesName(ms[i], f, x) {
        var i :| 0 <= i < |ms| && GivesName(ms[i], f, x);
        if i < n {
          assert ms[..n][i] == ms[i];
        }
      }
    }
  }

  /** A name is listed under parent p exactly when some checked item of that kind with
      parent p gives it. */
  lemma {:induction false} SelectionMaps(ms: seq<NodeMeta>, f: MapField, p: string, x: string)
    ensures x in Models.Chosen(MapOf(SelectionOf(ms), f), p) <==>
      exists i :: 0 <= i < |ms| && GivesChild(ms[i], f, p, x)
  {
    if ms != [] {
      var n := |ms| - 1;
      SelectionMaps(ms[..n], f, p, x);
      AddNodeMap(SelectionOf(ms[..n]), ms[n], f, p, x);
      if x in Models.Chosen(MapOf(SelectionOf(ms), f), p) && !GivesChild(ms[n], f, p, x) {
        var i :| 0 <= i < n && GivesChild(ms[..n][i], f, p, x);
        assert ms[i] == ms[..n][i];
      }
      if exists i :: 0 <= i < |ms| && GivesChild(ms[i], f, p, x) {
        var i :| 0 <= i < |ms| && GivesChild(ms[i], f, p, x);
        if i < n {
          assert ms[..n][i] == ms[i];
        }
      }
    }
  }

  /** The gathered metas are exactly those of the checked items that have meta. */
  lemma {:induction false} CheckedMetasExactly(ks: seq<string>, checks: map<string, bool>, meta: map<string, NodeMeta>, m: NodeMeta)
    ensures m in CheckedMetas(ks, checks, meta) <==> exists j :: CheckedAt(ks, checks, meta, j) && meta[ks[j]] == m
  {
    if ks != [] {
      var n := |ks| - 1;
      var init := ks[..n];
      CheckedMetasExactly(init, checks, meta, m);
      if m in CheckedMetas(init, checks, meta) {
        var j :| CheckedAt(init, checks, meta, j) && meta[init[j]] == m;
        assert init[j] == ks[j];
        assert CheckedAt(ks, checks, meta, j);
      }
      if exists j :: CheckedAt(ks, checks, meta, j) && meta[ks[j]] == m {
        var j :| CheckedAt(ks, checks, meta, j) && meta[ks[j]] == m;
        if j < n {
          assert init[j] == ks[j];
          assert CheckedAt(init, checks, meta, j);
        }
      }
    }
  }

  /** A checked item that has meta, named by its position in `checks`. */
  predicate CheckedAt(ks: seq<string>, checks: map<string, bool>, meta: map<string, NodeMeta>, j: int)
  {
    0 <= j < |ks| && ks[j] in checks && checks[ks[j]] && ks[j] in meta
  }

  /** A set-valued entry of the built selection names x exactly when some checked item with
      meta gives x; unchecked items and items without meta give nothing. */
  lemma StateSets(ks: seq<string>, checks: map<string, bool>, meta: map<string, NodeMeta>, f: SetField, x: string)
    ensures x in SetOf(SelectionOf(CheckedMetas(ks, checks, meta)), f) <==>
      exists j :: CheckedAt(ks, checks, meta, j) && GivesName(meta[ks[j]], f, x)
  {
    var ms := CheckedMetas(ks, checks, meta);
    SelectionSets(ms, f, x);
    if x in SetOf(SelectionOf(ms), f) {
      var i :| 0 <= i < |ms| && GivesName(ms[i], f, x);
      CheckedMetasExactly(ks, checks, meta, ms[i]);
      var j :| CheckedAt(ks, checks, meta, j) && meta[ks[j]] == ms[i];
    }
    if exists j :: CheckedAt(ks, checks, meta, j) && GivesName(meta[ks[j]], f, x) {
      var j :| CheckedAt(ks, checks, meta, j) && GivesName(meta[ks[j]], f, x);
      CheckedMetasExactly(ks, checks, meta, meta[ks[j]]);
      var i :| 0 <= i < |ms| && ms[i] == meta[ks[j]];
      assert GivesName(ms[i], f, x);
    }
  }

  /** A per-parent entry of the built selection lists x under p exactly when some checked
      item with meta of that kind and with parent p is named x. */
  lemma StateMaps(ks: seq<string>, checks: map<string, bool>, meta: map<string, NodeMeta>, f: MapField, p: string, x: string)
    ensures x in Models.Chosen(MapOf(SelectionOf(CheckedMetas(ks, checks, meta)), f), p) <==>
      exists j :: CheckedAt(ks, checks, meta, j) && GivesChild(meta[ks[j]], f, p, x)
  {
    var ms := CheckedMetas(ks, checks, meta);
    SelectionMaps(ms, f, p, x);
    if x in Models.Chosen(MapOf(SelectionOf(ms), f), p) {
      var i :| 0 <= i < |ms| && GivesChild(ms[i], f, p, x);
      CheckedMetasExactly(ks, checks, meta, ms[i]);
      var j :| CheckedAt(ks, checks, meta, j) && meta[ks[j]] == ms[i];
    }
    if exists j :: CheckedAt(ks, checks, meta, j) && GivesChild(meta[ks[j]], f, p, x) {
      var j :| CheckedAt(ks, checks, meta, j) && GivesChild(meta[ks[j]], f, p, x);
      CheckedMetasExactly(ks, checks, meta, meta[ks[j]]);
      var i :| 0 <= i < |ms| && ms[i] == meta[ks[j]];
      assert GivesChild(ms[i], f, p, x);
    }
  }

  /** The body of the loop for one checked item with meta: the source's if-chain. */
  method AddChecked(sel0: Models.Selection, m: NodeMeta) returns (sel: Models.Selection)
    ensures sel == AddNode(sel0, m)
  {
    sel := sel0;
    var name := m.name;
    if m.nodeType == Tag && !HasParent(m) {
      sel := sel.(tags := sel.tags + {name});
    } else if m.nodeType == Udt {
      sel := sel.(udts := sel.udts + {name});
    } else if m.nodeType == UdtMember && HasParent(m) {
      sel := sel.(udtMembers := AddTo(sel.udtMembers, m.parent.value, name), udts := sel.udts + {m.parent.value});
    } else if m.nodeType == Aoi {
      sel := sel.(aois := sel.aois + {name});
    } else if m.nodeType == AoiParameter && HasParent(m) {
      sel := sel.(aoiParameters := AddTo(sel.aoiParameters, m.parent.value, name), aois := sel.aois + {m.parent.value});
    } else if m.nodeType == AoiLocalTag && HasParent(m) {
      sel := sel.(aoiLocaltags := AddTo(sel.aoiLocaltags, m.parent.value, name), aois := sel.aois + {m.parent.value});
    } else if m.nodeType == Tag && HasParent(m) {
      sel := sel.(programTags := AddTo(sel.programTags, m.parent.value, name));
    }
  }

  lemma CheckedMetasStep(ks: seq<string>, i: nat, checks: map<string, bool>, meta: map<string, NodeMeta>)
    requires i < |ks|
    ensures CheckedMetas(ks[..i + 1], checks, meta) ==
      if ks[i] in checks && checks[ks[i]] && ks[i] in meta then CheckedMetas(ks[..i], checks, meta) + [meta[ks[i]]]
      else CheckedMetas(ks[..i], checks, meta)
  {
    assert ks[..i + 1][..i] == ks[..i];
  }

  /** _build_selection_structure over the tree state's `checks` and `meta`. */
  method BuildSelection(checks: OrderedMap<bool>, meta: OrderedMap<NodeMeta>) returns (sel: Models.Selection)
    ensures sel == SelectionOf(CheckedMetas(checks.keys, checks.vals, meta.vals))
  {
    var ks := checks.keys;
    sel := NoSelection();
    var i := 0;
    while i < |ks|
      invariant i <= |ks|
      invariant sel == SelectionOf(CheckedMetas(ks[..i], checks.vals, meta.vals))
    {
      var iid := ks[i];
      CheckedMetasStep(ks, i, checks.vals, meta.vals);
      if checks.vals[iid] && iid in meta.vals {
        sel := AddChecked(sel, meta.vals[iid]);
      }
      i := i + 1;
    }
    assert ks[..i] == ks;
  }

  /** The GUI's entry point: the selection built from the tree state. */
  method BuildSelectionStructure(state: TreeState) returns (sel: Models.Selection)
    ensures sel == SelectionOf(CheckedMetas(state.checks.keys, state.checks.vals, state.meta.vals))
  {
    sel := BuildSelection(state.checks, state.meta);
  }
}
