/** gui.py's merge of an updated L5K into the loaded project: the logical keys of the two
    projects are compared (`_merge_updated_l5k`), the differences are offered sorted, and the
    chosen additions and removals are applied to the loaded project (`_apply_merge_changes`). */
module GuiMerge {
  import opened OrderedMaps
  import opened Models
  import opened GuiKeys

  // ---------------------------------------------------------------- sorted(...)

  /** Python's `<` on str: code point by code point, a proper prefix first. */
  predicate StrLess(a: string, b: string)
    decreases |a|
  {
    if a == [] then b != []
    else if b == [] then false
    else if a[0] != b[0] then a[0] < b[0]
    else StrLess(a[1..], b[1..])
  }

  lemma {:induction false} StrLessIrreflexive(a: string)
    ensures !StrLess(a, a)
    decreases |a|
  {
    if a != [] {
      StrLessIrreflexive(a[1..]);
    }
  }

  lemma {:induction false} StrLessTransitive(a: string, b: string, c: string)
    requires StrLess(a, b) && StrLess(b, c)
    ensures StrLess(a, c)
    decreases |a|
  {
    if a != [] && a[0] == b[0] && b[0] == c[0] {
      StrLessTransitive(a[1..], b[1..], c[1..]);
    }
  }

  lemma {:induction false} StrLessTotal(a: string, b: string)
    requires a != b
    ensures StrLess(a, b) || StrLess(b, a)
    decreases |a|
  {
    if a != [] && b != [] && a[0] == b[0] {
      assert a == [a[0]] + a[1..] && b == [b[0]] + b[1..];
      StrLessTotal(a[1..], b[1..]);
    }
  }

  /** The parent component: None before any name (keys of one kind never mix the two). */
  predicate ParentLess(a: Option<string>, b: Option<string>)
  {
    match a
    case None => b.Some?
    case Some(x) => b.Some? && StrLess(x, b.value)
  }

  /** Tuple order on (kind, name, parent). */
  predicate KeyLess(a: Key, b: Key)
  {
    StrLess(a.nodeType, b.nodeType) ||
    (a.nodeType == b.nodeType &&
     (StrLess(a.name, b.name) || (a.name == b.name && ParentLess(a.parent, b.parent))))
  }

  lemma KeyLessIrreflexive(a: Key)
    ensures !KeyLess(a, a)
  {
    StrLessIrreflexive(a.nodeType);
    StrLessIrreflexive(a.name);
    if a.parent.Some? {
      StrLessIrreflexive(a.parent.value);
    }
  }

  lemma KeyLessTransitive(a: Key, b: Key, c: Key)
    requires KeyLess(a, b) && KeyLess(b, c)
    ensures KeyLess(a, c)
  {
    if StrLess(a.nodeType, b.nodeType) && StrLess(b.nodeType, c.nodeType) {
      StrLessTransitive(a.nodeType, b.nodeType, c.nodeType);
    } else if a.nodeType == b.nodeType && b.nodeType == c.nodeType {
      if StrLess(a.name, b.name) && StrLess(b.name, c.name) {
        StrLessTransitive(a.name, b.name, c.name);
      } else if a.name == b.name && b.name == c.name && a.parent.Some? {
        StrLessTransitive(a.parent.value, b.parent.value, c.parent.value);
      }
    }
  }

  lemma KeyLessTotal(a: Key, b: Key)
    requires a != b
    ensures KeyLess(a, b) || KeyLess(b, a)
  {
    if a.nodeType != b.nodeType {
      StrLessTotal(a.nodeType, b.nodeType);
    } else if a.name != b.name {
      StrLessTotal(a.name, b.name);
    } else if a.parent.Some? && b.parent.Some? {
      StrLessTotal(a.parent.value, b.parent.value);
    }
  }

  /** Strictly increasing, hence also free of duplicates. */
  ghost predicate Sorted(s: seq<Key>)
  {
    forall i, j :: 0 <= i < j < |s| ==> KeyLess(s[i], s[j])
  }

  lemma SortedCons(x: Key, s: seq<Key>)
    requires Sorted(s) && forall k :: k in s ==> KeyLess(x, k)
    ensures Sorted([x] + s)
  {
    var r := [x] + s;
    forall i, j | 0 <= i < j < |r|
      ensures KeyLess(r[i], r[j])
    {
      if i > 0 {
        assert r[i] == s[i - 1] && r[j] == s[j - 1];
      } else {
        assert r[j] == s[j - 1];
      }
    }
  }

  /** The sorted list with x taken in at its place. */
  function Insert(s: seq<Key>, x: Key): (r: seq<Key>)
    requires Sorted(s) && x !in s
    ensures Sorted(r) && |r| == |s| + 1
    ensures forall k :: k in r <==> k in s || k == x
  {
    if s == [] then [x]
    else if KeyLess(x, s[0]) then
      assert forall k :: k in s ==> KeyLess(x, k) by {
        forall k | k in s
          ensures KeyLess(x, k)
        {
          var j :| 0 <= j < |s| && s[j] == k;
          if j > 0 {
            KeyLessTransitive(x, s[0], k);
          }
        }
      }
      SortedCons(x, s);
      [x] + s
    else
      assert Sorted(s[1..]) by {
        forall i, j | 0 <= i < j < |s[1..]|
          ensures KeyLess(s[1..][i], s[1..][j])
        {
          assert s[1..][i] == s[i + 1] && s[1..][j] == s[j + 1];
        }
      }
      var t := Insert(s[1..], x);
      assert forall k :: k in t ==> KeyLess(s[0], k) by {
        forall k | k in t
          ensures KeyLess(s[0], k)
        {
          if k == x {
            KeyLessTotal(x, s[0]);
          } else {
            var j :| 0 <= j < |s[1..]| && s[1..][j] == k;
            assert s[j + 1] == k;
          }
        }
      }
      SortedCons(s[0], t);
      assert forall k :: k in s <==> k == s[0] || k in s[1..] by {
        assert s == [s[0]] + s[1..];
      }
      [s[0]] + t
  }

  /** sorted(keys): the keys in increasing order, each once. */
  method SortedKeys(keys: set<Key>) returns (r: seq<Key>)
    ensures Sorted(r) && |r| == |keys|
    ensures forall k :: k in r <==> k in keys
  {
    var rest := keys;
    r := [];
    while rest != {}
      invariant rest <= keys && Sorted(r) && |r| + |rest| == |keys|
      invariant forall k :: k in r <==> k in keys && k !in rest
      decreases |rest|
    {
      var x :| x in rest;
      r := Insert(r, x);
      rest := rest - {x};
    }
  }

  /** `added = sorted(new_keys - previous_keys)`, `removed = sorted(previous_keys - new_keys)`. */
  method MergeDiff(previous: set<Key>, next: set<Key>) returns (added: seq<Key>, removed: seq<Key>)
    ensures Sorted(added) && Sorted(removed)
    ensures forall k :: k in added <==> k in next && k !in previous
    ensures forall k :: k in removed <==> k in previous && k !in next
    ensures forall k :: k in added ==> k !in removed
  {
    added := SortedKeys(next - previous);
    removed := SortedKeys(previous - next);
  }

  /** The preview's lists: the keys only the updated project has and the keys only the loaded
      one has, each sorted. */
  method MergeKeys(p: Project, n: Project) returns (added: seq<Key>, removed: seq<Key>)
    ensures Sorted(added) && Sorted(removed)
    ensures forall k :: k in added <==> IsProjectKey(n, k) && !IsProjectKey(p, k)
    ensures forall k :: k in removed <==> IsProjectKey(p, k) && !IsProjectKey(n, k)
  {
    var previous := KeysForProject(p);
    var next := KeysForProject(n);
    added, removed := MergeDiff(previous, next);
  }

  // ---------------------------------------------------------------- _apply_merge_changes

  /** `parent` is truthy: present and not empty. */
  predicate Truthy(parent: Option<string>)
  {
    parent.Some? && parent.value != ""
  }

  /** One selected addition: what the new project has under the key is copied in. A member,
      parameter or local tag needs its parent in both projects; a program tag whose program
      the loaded project lacks brings the whole program. */
  function AddEntry(p: Project, n: Project, k: Key): Project
  {
    var name := k.name;
    if k.nodeType == UdtKind && name in n.udts.vals then
      p.(udts := Put(p.udts, name, n.udts.vals[name]))
    else if k.nodeType == MemberKind && Truthy(k.parent) && k.parent.value in n.udts.vals && k.parent.value in p.udts.vals then
      var u := k.parent.value;
      if name in n.udts.vals[u].members.vals then
        var pu := p.udts.vals[u];
        p.(udts := Put(p.udts, u, pu.(members := Put(pu.members, name, n.udts.vals[u].members.vals[name]))))
      else p
    else if k.nodeType == AoiKind && name in n.aois.vals then
      p.(aois := Put(p.aois, name, n.aois.vals[name]))
    else if k.nodeType == ParamKind && Truthy(k.parent) && k.parent.value in n.aois.vals && k.parent.value in p.aois.vals then
      var a := k.parent.value;
      if name in n.aois.vals[a].parameters.vals then
        var pa := p.aois.vals[a];
        p.(aois := Put(p.aois, a, pa.(parameters := Put(pa.parameters, name, n.aois.vals[a].parameters.vals[name]))))
      else p
    else if k.nodeType == LocalKind && Truthy(k.parent) && k.parent.value in n.aois.vals && k.parent.value in p.aois.vals then
      var a := k.parent.value;
      if name in n.aois.vals[a].localtags.vals then
        var pa := p.aois.vals[a];
        p.(aois := Put(p.aois, a, pa.(localtags := Put(pa.localtags, name, n.aois.vals[a].localtags.vals[name]))))
      else p
    else if k.nodeType == TagKind && name in n.tags.vals then
      p.(tags := Put(p.tags, name, n.tags.vals[name]))
    else if k.nodeType == ProgramTagKind && Truthy(k.parent) && k.parent.value in n.programs.vals then
      var g := k.parent.value;
      if g !in p.programs.vals then p.(programs := Put(p.programs, g, n.programs.vals[g]))
      else if name in n.programs.vals[g].tags.vals then
        var pg := p.programs.vals[g];
        p.(programs := Put(p.programs, g, pg.(tags := Put(pg.tags, name, n.programs.vals[g].tags.vals[name]))))
      else p
    else p
  }

  /** `m.children.pop(x, None)` on every member of a UDT. */
  function PopChild(ms: OrderedMap<UdtMember>, x: string): (r: OrderedMap<UdtMember>)
    ensures r.keys == ms.keys && r.vals.Keys == ms.vals.Keys
  {
    OMap(ms.keys, map j | j in ms.vals :: ms.vals[j].(children := Remove(ms.vals[j].children, x)))
  }

  /** One selected removal: the entry is popped if present. Removing a UDT member also drops
      that name from the children of every member of the UDT. */
  function RemoveEntry(p: Project, k: Key): Project
  {
    var name := k.name;
    if k.nodeType == UdtKind then p.(udts := Remove(p.udts, name))
    else if k.nodeType == MemberKind && Truthy(k.parent) && k.parent.value in p.udts.vals then
      var u := k.parent.value;
      var pu := p.udts.vals[u];
      p.(udts := Put(p.udts, u, pu.(members := PopChild(Remove(pu.members, name), name))))
    else if k.nodeType == AoiKind then p.(aois := Remove(p.aois, name))
    else if k.nodeType == ParamKind && Truthy(k.parent) && k.parent.value in p.aois.vals then
      var a := k.parent.value;
      var pa := p.aois.vals[a];
      p.(aois := Put(p.aois, a, pa.(parameters := Remove(pa.parameters, name))))
    else if k.nodeType == LocalKind && Truthy(k.parent) && k.parent.value in p.aois.vals then
      var a := k.parent.value;
      var pa := p.aois.vals[a];
      p.(aois := Put(p.aois, a, pa.(localtags := Remove(pa.localtags, name))))
    else if k.nodeType == TagKind then p.(tags := Remove(p.tags, name))
    else if k.nodeType == ProgramTagKind && Truthy(k.parent) && k.parent.value in p.programs.vals then
      var g := k.parent.value;
      var pg := p.programs.vals[g];
      p.(programs := Put(p.programs, g, pg.(tags := Remove(pg.tags, name))))
    else p
  }

  function AddAll(p: Project, n: Project, ks: seq<Key>): Project
  {
    if ks == [] then p else AddEntry(AddAll(p, n, ks[..|ks| - 1]), n, ks[|ks| - 1])
  }

  function RemoveAll(p: Project, ks: seq<Key>): Project
  {
    if ks == [] then p else RemoveEntry(RemoveAll(p, ks[..|ks| - 1]), ks[|ks| - 1])
  }

  /** The merged project: every addition in turn, then every removal in turn. */
  function Merged(p: Project, n: Project, added: seq<Key>, removed: seq<Key>): Project
  {
    RemoveAll(AddAll(p, n, added), removed)
  }

  method ApplyAdditions(p0: Project, n: Project, added: seq<Key>) returns (p: Project)
    ensures p == AddAll(p0, n, added)
  {
    p := p0;
    var i := 0;
    while i < |added|
      invariant i <= |added|
      invariant p == AddAll(p0, n, added[..i])
    {
      assert added[..i + 1][..i] == added[..i];
      p := AddEntry(p, n, added[i]);
      i := i + 1;
    }
    assert added[..i] == added;
  }

  method ApplyRemovals(p0: Project, removed: seq<Key>) returns (p: Project)
    ensures p == RemoveAll(p0, removed)
  {
    p := p0;
    var i := 0;
    while i < |removed|
      invariant i <= |removed|
      invariant p == RemoveAll(p0, removed[..i])
    {
      assert removed[..i + 1][..i] == removed[..i];
      p := RemoveEntry(p, removed[i]);
      i := i + 1;
    }
    assert removed[..i] == removed;
  }

  // ---------------------------------------------------------------- what a merge does

  /** Entries are stored under their own names (add_member, add_child, add_parameter and
      add_localtag key by name). */
  ghost predicate MemberWellKeyed(m: UdtMember)
  {
    forall c :: c in m.children.vals ==> m.children.vals[c].name == c
  }

  ghost predicate UdtWellKeyed(u: Udt)
  {
    forall j :: j in u.members.vals ==> u.members.vals[j].name == j && MemberWellKeyed(u.members.vals[j])
  }

  ghost predicate AoiWellKeyed(a: Aoi)
  {
    (forall j :: j in a.parameters.vals ==> a.parameters.vals[j].name == j) &&
    (forall j :: j in a.localtags.vals ==> a.localtags.vals[j].name == j)
  }

  ghost predicate WellKeyed(p: Project)
  {
    (forall u :: u in p.udts.vals ==> UdtWellKeyed(p.udts.vals[u])) &&
    (forall a :: a in p.aois.vals ==> AoiWellKeyed(p.aois.vals[a]))
  }

  /** The shape of the keys _keys_for_project makes: no parent for UDTs, AOIs and controller
      tags, a non-empty one for everything else. */
  predicate KeyShape(k: Key)
  {
    (k.nodeType == UdtKind || k.nodeType == AoiKind || k.nodeType == TagKind ==> k.parent == None) &&
    (k.nodeType == MemberKind || k.nodeType == ParamKind || k.nodeType == LocalKind || k.nodeType == ProgramTagKind ==>
       Truthy(k.parent))
  }

  /** A member-level addition is a no-op unless the parent is in both projects. */
  lemma AddNeedsParents(p: Project, n: Project, k: Key)
    requires k.nodeType == MemberKind || k.nodeType == ParamKind || k.nodeType == LocalKind
    requires !Truthy(k.parent) ||
      (k.nodeType == MemberKind && (k.parent.value !in n.udts.vals || k.parent.value !in p.udts.vals)) ||
      (k.nodeType != MemberKind && (k.parent.value !in n.aois.vals || k.parent.value !in p.aois.vals))
    ensures AddEntry(p, n, k) == p
  {
  }

  /** A key under a hidden word (a BIT child, not itself a member) is not added on its own. */
  lemma AddChildKeyIgnored(p: Project, n: Project, k: Key)
    requires k.nodeType == MemberKind && Truthy(k.parent) && k.parent.value in n.udts.vals
    requires k.name !in n.udts.vals[k.parent.value].members.vals
    ensures AddEntry(p, n, k) == p
  {
  }

  /** A program tag whose program is missing brings the whole program; otherwise only the tag
      is copied and the program keeps its other tags. */
  lemma AddProgramTag(p: Project, n: Project, k: Key)
    requires k.nodeType == ProgramTagKind && Truthy(k.parent) && k.parent.value in n.programs.vals
    ensures var g := k.parent.value;
      g !in p.programs.vals ==> Get(AddEntry(p, n, k).programs, g) == Get(n.programs, g)
    ensures var g := k.parent.value;
      g in p.programs.vals && k.name in n.programs.vals[g].tags.vals ==>
        AddEntry(p, n, k).programs.vals[g].tags == Put(p.programs.vals[g].tags, k.name, n.programs.vals[g].tags.vals[k.name])
    ensures AddEntry(p, n, k).udts == p.udts && AddEntry(p, n, k).aois == p.aois && AddEntry(p, n, k).tags == p.tags
  {
  }

  /** An applicable addition: a top-level entry, a direct entry of a parent the loaded
      project has, or a program tag. */
  ghost predicate Applies(p: Project, n: Project, k: Key)
  {
    (k.nodeType == MemberKind ==>
       Truthy(k.parent) && k.parent.value in p.udts.vals && k.parent.value in n.udts.vals &&
       k.name in n.udts.vals[k.parent.value].members.vals) &&
    (k.nodeType == ParamKind || k.nodeType == LocalKind ==> Truthy(k.parent) && k.parent.value in p.aois.vals) &&
    (k.nodeType == ProgramTagKind ==> Truthy(k.parent))
  }

  /** An applicable addition of a key of the new project makes it a key of the loaded one. */
  lemma AddEntryAdds(p: Project, n: Project, k: Key)
    requires WellKeyed(n) && IsProjectKey(n, k) && Applies(p, n, k)
    ensures IsProjectKey(AddEntry(p, n, k), k)
  {
    var r := AddEntry(p, n, k);
    if k.nodeType == MemberKind {
      var u := k.parent.value;
      var m := n.udts.vals[u].members.vals[k.name];
      assert UdtWellKeyed(n.udts.vals[u]);
      assert r.udts.vals[u].members.vals[k.name] == m;
      assert MemberGives(m, k.name);
      assert InUdt(r.udts.vals[u], k.name);
    } else if k.nodeType == ParamKind {
      var a := k.parent.value;
      assert AoiWellKeyed(n.aois.vals[a]);
      var j :| j in n.aois.vals[a].parameters.vals && ParamName(n.aois.vals[a].parameters.vals[j]) == k.name;
      assert j == k.name;
      assert ParamName(r.aois.vals[a].parameters.vals[j]) == k.name;
    } else if k.nodeType == LocalKind {
      var a := k.parent.value;
      assert AoiWellKeyed(n.aois.vals[a]);
      var j :| j in n.aois.vals[a].localtags.vals && LocalName(n.aois.vals[a].localtags.vals[j]) == k.name;
      assert j == k.name;
      assert LocalName(r.aois.vals[a].localtags.vals[j]) == k.name;
    }
  }

  /** Popping a name no member or child of a well-keyed UDT has changes nothing. */
  lemma PopAbsent(pu: Udt, x: string)
    requires UdtWellKeyed(pu) && !InUdt(pu, x)
    ensures pu.(members := PopChild(Remove(pu.members, x), x)) == pu
  {
    assert x in pu.members.vals ==> MemberGives(pu.members.vals[x], x);
    var ms := Remove(pu.members, x);
    assert ms == pu.members;
    forall j | j in ms.vals
      ensures Remove(ms.vals[j].children, x) == ms.vals[j].children
    {
      assert MemberWellKeyed(ms.vals[j]);
      assert x in ms.vals[j].children.vals ==> MemberName(ms.vals[j].children.vals[x]) == x;
    }
    assert PopChild(ms, x).vals == ms.vals;
  }

  /** Removing an entry the loaded project lacks changes nothing. */
  lemma RemoveAbsent(p: Project, k: Key)
    requires WellKeyed(p) && KeyShape(k) && !IsProjectKey(p, k)
    ensures RemoveEntry(p, k) == p
  {
    if k.nodeType == MemberKind && k.parent.value in p.udts.vals {
      assert UdtWellKeyed(p.udts.vals[k.parent.value]);
      PopAbsent(p.udts.vals[k.parent.value], k.name);
    } else if k.nodeType == ParamKind && k.parent.value in p.aois.vals {
      var a := k.parent.value;
      assert AoiWellKeyed(p.aois.vals[a]);
      assert k.name in p.aois.vals[a].parameters.vals ==>
        ParamName(p.aois.vals[a].parameters.vals[k.name]) == k.name;
    } else if k.nodeType == LocalKind && k.parent.value in p.aois.vals {
      var a := k.parent.value;
      assert AoiWellKeyed(p.aois.vals[a]);
      assert k.name in p.aois.vals[a].localtags.vals ==>
        LocalName(p.aois.vals[a].localtags.vals[k.name]) == k.name;
    }
  }

  /** Removing a UDT member takes the name out of the member dictionary and out of the
      children of every member left. */
  lemma RemoveMemberEverywhere(p: Project, k: Key)
    requires k.nodeType == MemberKind && Truthy(k.parent) && k.parent.value in p.udts.vals
    ensures var ms := RemoveEntry(p, k).udts.vals[k.parent.value].members;
      k.name !in ms.vals && forall j :: j in ms.vals ==> k.name !in ms.vals[j].children.vals
  {
  }

  /** Popping x from the members of a well-keyed UDT and from their children leaves no member
      or child named x. */
  lemma PopGone(pu: Udt, x: string)
    requires UdtWellKeyed(pu)
    ensures !InUdt(pu.(members := PopChild(Remove(pu.members, x), x)), x)
  {
    var ms := PopChild(Remove(pu.members, x), x);
    forall j | j in ms.vals
      ensures !MemberGives(ms.vals[j], x)
    {
      var was := pu.members.vals[j];
      assert MemberWellKeyed(was);
      assert ms.vals[j].name == j;
      forall c | c in ms.vals[j].children.vals
        ensures MemberName(ms.vals[j].children.vals[c]) != x
      {
        assert was.children.vals[c].name == c;
      }
    }
  }

  /** Removing a key from a dictionary of well-keyed entries leaves no entry of that name. */
  lemma RemoveNamedGone<V>(m: OrderedMap<V>, name: V -> string, x: string)
    requires forall j :: j in m.vals ==> name(m.vals[j]) == j
    ensures !Named(Remove(m, x), name, x)
  {
  }

  /** After a removal of a well-shaped key its key is gone from the loaded project. */
  lemma RemoveEntryRemoves(p: Project, k: Key)
    requires WellKeyed(p) && KeyShape(k)
    ensures !IsProjectKey(RemoveEntry(p, k), k)
  {
    if k.nodeType == MemberKind && k.parent.value in p.udts.vals {
      assert UdtWellKeyed(p.udts.vals[k.parent.value]);
      PopGone(p.udts.vals[k.parent.value], k.name);
    } else if k.nodeType == ParamKind && k.parent.value in p.aois.vals {
      var pa := p.aois.vals[k.parent.value];
      assert AoiWellKeyed(pa);
      RemoveNamedGone(pa.parameters, ParamName, k.name);
    } else if k.nodeType == LocalKind && k.parent.value in p.aois.vals {
      var pa := p.aois.vals[k.parent.value];
      assert AoiWellKeyed(pa);
      RemoveNamedGone(pa.localtags, LocalName, k.name);
    }
  }

  /** Popping x from a UDT's members and their children leaves no name it did not give. */
  lemma PopShrinks(pu: Udt, x: string, y: string)
    requires InUdt(pu.(members := PopChild(Remove(pu.members, x), x)), y)
    ensures InUdt(pu, y)
  {
    var ms := PopChild(Remove(pu.members, x), x);
    var j :| j in ms.vals && MemberGives(ms.vals[j], y);
    var was := pu.members.vals[j];
    if ms.vals[j].name != y {
      var c :| c in ms.vals[j].children.vals && MemberName(ms.vals[j].children.vals[c]) == y;
      assert MemberName(was.children.vals[c]) == y;
    }
    assert MemberGives(was, y);
  }

  /** A removal from a dictionary leaves no name it did not give. */
  lemma RemoveNamedShrinks<V>(m: OrderedMap<V>, name: V -> string, x: string, y: string)
    requires Named(Remove(m, x), name, y)
    ensures Named(m, name, y)
  {
    var j :| j in Remove(m, x).vals && name(Remove(m, x).vals[j]) == y;
    assert j in m.vals;
  }

  /** Removing a UDT member brings no key in. */
  lemma MemberRemovalShrinks(p: Project, k: Key, k': Key)
    requires k.nodeType == MemberKind && Truthy(k.parent) && k.parent.value in p.udts.vals
    requires IsProjectKey(RemoveEntry(p, k), k')
    ensures IsProjectKey(p, k')
  {
    var u := k.parent.value;
    if k'.nodeType == MemberKind && k'.parent == Some(u) {
      PopShrinks(p.udts.vals[u], k.name, k'.name);
    }
  }

  /** Removing an AOI parameter or local tag brings no key in. */
  lemma AoiEntryRemovalShrinks(p: Project, k: Key, k': Key)
    requires k.nodeType == ParamKind || k.nodeType == LocalKind
    requires Truthy(k.parent) && k.parent.value in p.aois.vals
    requires IsProjectKey(RemoveEntry(p, k), k')
    ensures IsProjectKey(p, k')
  {
    var a := k.parent.value;
    if k.nodeType == ParamKind && k'.nodeType == ParamKind && k'.parent == Some(a) {
      RemoveNamedShrinks(p.aois.vals[a].parameters, ParamName, k.name, k'.name);
    } else if k.nodeType == LocalKind && k'.nodeType == LocalKind && k'.parent == Some(a) {
      RemoveNamedShrinks(p.aois.vals[a].localtags, LocalName, k.name, k'.name);
    }
  }

  /** A removal never brings a key in. */
  lemma RemoveEntryShrinks(p: Project, k: Key, k': Key)
    requires IsProjectKey(RemoveEntry(p, k), k')
    ensures IsProjectKey(p, k')
  {
    if k.nodeType == MemberKind && Truthy(k.parent) && k.parent.value in p.udts.vals {
      MemberRemovalShrinks(p, k, k');
    } else if (k.nodeType == ParamKind || k.nodeType == LocalKind) && Truthy(k.parent) && k.parent.value in p.aois.vals {
      AoiEntryRemovalShrinks(p, k, k');
    }
  }

  /** Removals keep entries stored under their own names. */
  lemma RemoveEntryWellKeyed(p: Project, k: Key)
    requires WellKeyed(p)
    ensures WellKeyed(RemoveEntry(p, k))
  {
    var r := RemoveEntry(p, k);
    if k.nodeType == MemberKind && Truthy(k.parent) && k.parent.value in p.udts.vals {
      var u := k.parent.value;
      assert UdtWellKeyed(p.udts.vals[u]);
      var ms := r.udts.vals[u].members;
      forall j | j in ms.vals
        ensures ms.vals[j].name == j && MemberWellKeyed(ms.vals[j])
      {
        assert MemberWellKeyed(p.udts.vals[u].members.vals[j]);
      }
      assert UdtWellKeyed(r.udts.vals[u]);
    } else if k.nodeType == ParamKind && Truthy(k.parent) && k.parent.value in p.aois.vals {
      assert AoiWellKeyed(p.aois.vals[k.parent.value]);
    } else if k.nodeType == LocalKind && Truthy(k.parent) && k.parent.value in p.aois.vals {
      assert AoiWellKeyed(p.aois.vals[k.parent.value]);
    }
  }

  /** After the removals, none of the removed keys is left. */
  lemma {:induction false} RemoveAllRemoves(p: Project, ks: seq<Key>)
    requires WellKeyed(p) && forall i :: 0 <= i < |ks| ==> KeyShape(ks[i])
    ensures WellKeyed(RemoveAll(p, ks))
    ensures forall i :: 0 <= i < |ks| ==> !IsProjectKey(RemoveAll(p, ks), ks[i])
  {
    if ks != [] {
      var n := |ks| - 1;
      var q := RemoveAll(p, ks[..n]);
      RemoveAllRemoves(p, ks[..n]);
      RemoveEntryWellKeyed(q, ks[n]);
      RemoveEntryRemoves(q, ks[n]);
      forall i | 0 <= i < n
        ensures !IsProjectKey(RemoveEntry(q, ks[n]), ks[i])
      {
        assert ks[..n][i] == ks[i];
        if IsProjectKey(RemoveEntry(q, ks[n]), ks[i]) {
          RemoveEntryShrinks(q, ks[n], ks[i]);
        }
      }
    }
  }

  /** L5KTunerApp's project as `_apply_merge_changes` sees it. */
  class TunerApp {
    var project: Option<Project>

    constructor(initial: Option<Project>)
      ensures project == initial
    {
      project := initial;
    }

    /** _apply_merge_changes: nothing without a loaded project; otherwise the additions and
        then the removals are applied to it. */
    method ApplyMergeChanges(n: Project, added: seq<Key>, removed: seq<Key>)
      modifies this
      ensures old(project).None? ==> project.None?
      ensures old(project).Some? ==> project == Some(Merged(old(project).value, n, added, removed))
    {
      if project.None? {
        return;
      }
      var p := ApplyAdditions(project.value, n, added);
      p := ApplyRemovals(p, removed);
      project := Some(p);
    }
  }
}
