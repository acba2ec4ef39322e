/** gui.py `_keys_for_project`: the logical keys (kind, name, parent) of everything a project
    holds, compared before and after a merge. UDT members and the BIT children of hidden words
    are keyed under their UDT, parameters and local tags under their AOI, program tags under
    their program; UDTs, AOIs and controller tags have no parent. */
module GuiKeys {
  import opened OrderedMaps
  import opened Models
  import TreeStates

  type Key = TreeStates.Key

  /** The kinds in the keys _keys_for_project makes. */
  const UdtKind := "UDT"
  const MemberKind := "UDT_MEMBER"
  const AoiKind := "AOI"
  const ParamKind := "AOI_PARAMETER"
  const LocalKind := "AOI_LOCAL_TAG"
  const TagKind := "TAG"
  const ProgramTagKind := "PROGRAM_TAG"

  function MemberName(m: UdtMember): string { m.name }
  function ParamName(p: AoiParameter): string { p.name }
  function LocalName(t: AoiLocalTag): string { t.name }
  function TagName(t: Tag): string { t.name }
  function UdtName(u: Udt): string { u.name }
  function AoiName(a: Aoi): string { a.name }
  function ProgramName(p: Program): string { p.name }
  function SameName(s: string): string { s }

  /** One key per entry of vs, named by `name`, of one kind and under one parent. */
  function NamedKeys<V>(kind: string, vs: seq<V>, name: V -> string, parent: Option<string>): set<Key>
  {
    if vs == [] then {}
    else NamedKeys(kind, vs[..|vs| - 1], name, parent) + {TreeStates.Key(kind, name(vs[|vs| - 1]), parent)}
  }

  /** The keys of one member of UDT u and of its hidden-word children. */
  function MemberPart(u: string, m: UdtMember): set<Key>
  {
    {TreeStates.Key(MemberKind, m.name, Some(u))} + NamedKeys(MemberKind, Values(m.children), MemberName, Some(u))
  }

  /** The keys of a UDT's members and of their hidden-word children. */
  function MemberKeys(u: string, ms: seq<UdtMember>): set<Key>
  {
    if ms == [] then {}
    else MemberKeys(u, ms[..|ms| - 1]) + MemberPart(u, ms[|ms| - 1])
  }

  /** The keys of the UDT stored under `name`. */
  function UdtPart(name: string, u: Udt): set<Key>
  {
    {TreeStates.Key(UdtKind, name, None)} + MemberKeys(name, Values(u.members))
  }

  function UdtKeys(ks: seq<string>, udts: map<string, Udt>): set<Key>
    requires forall i :: 0 <= i < |ks| ==> ks[i] in udts
  {
    if ks == [] then {}
    else UdtKeys(ks[..|ks| - 1], udts) + UdtPart(ks[|ks| - 1], udts[ks[|ks| - 1]])
  }

  /** The keys of the AOI stored under `name`. */
  function AoiPart(name: string, a: Aoi): set<Key>
  {
    {TreeStates.Key(AoiKind, name, None)} +
    NamedKeys(ParamKind, Values(a.parameters), ParamName, Some(name)) +
    NamedKeys(LocalKind, Values(a.localtags), LocalName, Some(name))
  }

  function AoiKeys(ks: seq<string>, aois: map<string, Aoi>): set<Key>
    requires forall i :: 0 <= i < |ks| ==> ks[i] in aois
  {
    if ks == [] then {}
    else AoiKeys(ks[..|ks| - 1], aois) + AoiPart(ks[|ks| - 1], aois[ks[|ks| - 1]])
  }

  function ProgramKeys(ks: seq<string>, programs: map<string, Program>): set<Key>
    requires forall i :: 0 <= i < |ks| ==> ks[i] in programs
  {
    if ks == [] then {}
    else
      var k := ks[|ks| - 1];
      ProgramKeys(ks[..|ks| - 1], programs) + NamedKeys(ProgramTagKind, programs[k].tags.keys, SameName, Some(k))
  }

  /** The keys of a project, in the order the source visits them. */
  function ProjectKeys(p: Project): set<Key>
  {
    UdtKeys(p.udts.keys, p.udts.vals) + AoiKeys(p.aois.keys, p.aois.vals) +
    NamedKeys(TagKind, p.tags.keys, SameName, None) + ProgramKeys(p.programs.keys, p.programs.vals)
  }

  // ---------------------------------------------------------------- what a key means

  /** Some entry of a dictionary has this name. */
  ghost predicate Named<V>(m: OrderedMap<V>, name: V -> string, x: string)
  {
    exists j :: j in m.vals && name(m.vals[j]) == x
  }

  /** The member is named x, or one of its children is. */
  ghost predicate MemberGives(m: UdtMember, x: string)
  {
    m.name == x || Named(m.children, MemberName, x)
  }

  /** Some member of the UDT, or some child of one of its members, is named x. */
  ghost predicate InUdt(u: Udt, x: string)
  {
    exists j :: j in u.members.vals && MemberGives(u.members.vals[j], x)
  }

  /** The keys of a project, stated entity by entity. */
  ghost predicate IsProjectKey(p: Project, k: Key)
  {
    (k.nodeType == UdtKind && k.parent == None && k.name in p.udts.vals) ||
    (k.nodeType == MemberKind && k.parent.Some? && k.parent.value in p.udts.vals &&
     InUdt(p.udts.vals[k.parent.value], k.name)) ||
    (k.nodeType == AoiKind && k.parent == None && k.name in p.aois.vals) ||
    (k.nodeType == ParamKind && k.parent.Some? && k.parent.value in p.aois.vals &&
     Named(p.aois.vals[k.parent.value].parameters, ParamName, k.name)) ||
    (k.nodeType == LocalKind && k.parent.Some? && k.parent.value in p.aois.vals &&
     Named(p.aois.vals[k.parent.value].localtags, LocalName, k.name)) ||
    (k.nodeType == TagKind && k.parent == None && k.name in p.tags.vals) ||
    (k.nodeType == ProgramTagKind && k.parent.Some? && k.parent.value in p.programs.vals &&
     k.name in p.programs.vals[k.parent.value].tags.vals)
  }

  lemma {:induction false} NamedKeysIff<V>(kind: string, vs: seq<V>, name: V -> string, parent: Option<string>, k: Key)
    ensures k in NamedKeys(kind, vs, name, parent) <==>
      k.nodeType == kind && k.parent == parent && exists i :: 0 <= i < |vs| && name(vs[i]) == k.name
  {
    if vs != [] {
      var n := |vs| - 1;
      NamedKeysIff(kind, vs[..n], name, parent, k);
      if k in NamedKeys(kind, vs[..n], name, parent) {
        var i :| 0 <= i < n && name(vs[..n][i]) == k.name;
        assert vs[i] == vs[..n][i];
      }
      if exists i :: 0 <= i < |vs| && name(vs[i]) == k.name {
        var i :| 0 <= i < |vs| && name(vs[i]) == k.name;
        if i < n {
          assert vs[..n][i] == vs[i];
        }
      }
    }
  }

  /** A value in d.values() order is named x exactly when some entry is. */
  lemma ValuesNamed<V>(m: OrderedMap<V>, name: V -> string, x: string)
    ensures (exists i :: 0 <= i < |Values(m)| && name(Values(m)[i]) == x) <==> Named(m, name, x)
  {
    var vs := Values(m);
    if Named(m, name, x) {
      var j :| j in m.vals && name(m.vals[j]) == x;
      assert j in m.keys;
      var i :| 0 <= i < |m.keys| && m.keys[i] == j;
      assert name(vs[i]) == x;
    }
  }

  /** A name key of an ordered dictionary's keys: exactly a key of that dictionary. */
  lemma KeysNamed<V>(kind: string, m: OrderedMap<V>, parent: Option<string>, k: Key)
    ensures k in NamedKeys(kind, m.keys, SameName, parent) <==> k.nodeType == kind && k.parent == parent && k.name in m.vals
  {
    NamedKeysIff(kind, m.keys, SameName, parent, k);
    if k.name in m.vals {
      assert k.name in m.keys;
      var i :| 0 <= i < |m.keys| && m.keys[i] == k.name;
      assert SameName(m.keys[i]) == k.name;
    }
  }

  lemma MemberPartIff(u: string, m: UdtMember, k: Key)
    ensures k in MemberPart(u, m) <==> k.nodeType == MemberKind && k.parent == Some(u) && MemberGives(m, k.name)
  {
    NamedKeysIff(MemberKind, Values(m.children), MemberName, Some(u), k);
    ValuesNamed(m.children, MemberName, k.name);
  }

  /** Some member among ms gives x. */
  ghost predicate SomeMemberGives(ms: seq<UdtMember>, x: string)
  {
    exists i :: 0 <= i < |ms| && MemberGives(ms[i], x)
  }

  lemma SomeMemberGivesSnoc(ms: seq<UdtMember>, x: string)
    requires ms != []
    ensures SomeMemberGives(ms, x) <==> SomeMemberGives(ms[..|ms| - 1], x) || MemberGives(ms[|ms| - 1], x)
  {
    var n := |ms| - 1;
    if SomeMemberGives(ms[..n], x) {
      var i :| 0 <= i < n && MemberGives(ms[..n][i], x);
      assert ms[i] == ms[..n][i];
    }
    if SomeMemberGives(ms, x) {
      var i :| 0 <= i < |ms| && MemberGives(ms[i], x);
      if i < n {
        assert ms[..n][i] == ms[i];
      }
    }
  }

  lemma {:induction false} MemberKeysIff(u: string, ms: seq<UdtMember>, k: Key)
    ensures k in MemberKeys(u, ms) <==>
      k.nodeType == MemberKind && k.parent == Some(u) && SomeMemberGives(ms, k.name)
  {
    if ms != [] {
      var n := |ms| - 1;
      MemberKeysIff(u, ms[..n], k);
      MemberPartIff(u, ms[n], k);
      SomeMemberGivesSnoc(ms, k.name);
    }
  }

  /** The member keys of a UDT are those of InUdt. */
  lemma UdtMembersIff(name: string, u: Udt, k: Key)
    ensures k in MemberKeys(name, Values(u.members)) <==>
      k.nodeType == MemberKind && k.parent == Some(name) && InUdt(u, k.name)
  {
    var ms := Values(u.members);
    MemberKeysIff(name, ms, k);
    if SomeMemberGives(ms, k.name) {
      var i :| 0 <= i < |ms| && MemberGives(ms[i], k.name);
      assert u.members.keys[i] in u.members.vals;
    }
    if InUdt(u, k.name) {
      var j :| j in u.members.vals && MemberGives(u.members.vals[j], k.name);
      assert j in u.members.keys;
      var i :| 0 <= i < |u.members.keys| && u.members.keys[i] == j;
      assert ms[i] == u.members.vals[j];
      assert SomeMemberGives(ms, k.name);
    }
  }

  /** The entity whose keys a top-level key k belongs to: k names it, or k's parent does. */
  lemma {:induction false} UdtKeysIff(ks: seq<string>, udts: map<string, Udt>, k: Key)
    requires forall i :: 0 <= i < |ks| ==> ks[i] in udts
    ensures k in UdtKeys(ks, udts) <==>
      (k.nodeType == UdtKind && k.parent == None && k.name in ks) ||
      (k.nodeType == MemberKind && k.parent.Some? && k.parent.value in ks && InUdt(udts[k.parent.value], k.name))
  {
    if ks != [] {
      var n := |ks| - 1;
      var x := ks[n];
      UdtKeysIff(ks[..n], udts, k);
      UdtMembersIff(x, udts[x], k);
      assert ks == ks[..n] + [x];
    }
  }

  lemma {:induction false} AoiKeysIff(ks: seq<string>, aois: map<string, Aoi>, k: Key)
    requires forall i :: 0 <= i < |ks| ==> ks[i] in aois
    ensures k in AoiKeys(ks, aois) <==>
      (k.nodeType == AoiKind && k.parent == None && k.name in ks) ||
      (k.nodeType == ParamKind && k.parent.Some? && k.parent.value in ks &&
       Named(aois[k.parent.value].parameters, ParamName, k.name)) ||
      (k.nodeType == LocalKind && k.parent.Some? && k.parent.value in ks &&
       Named(aois[k.parent.value].localtags, LocalName, k.name))
  {
    if ks != [] {
      var n := |ks| - 1;
      var x := ks[n];
      AoiKeysIff(ks[..n], aois, k);
      NamedKeysIff(ParamKind, Values(aois[x].parameters), ParamName, Some(x), k);
      ValuesNamed(aois[x].parameters, ParamName, k.name);
      NamedKeysIff(LocalKind, Values(aois[x].localtags), LocalName, Some(x), k);
      ValuesNamed(aois[x].localtags, LocalName, k.name);
      assert ks == ks[..n] + [x];
    }
  }

  lemma {:induction false} ProgramKeysIff(ks: seq<string>, programs: map<string, Program>, k: Key)
    requires forall i :: 0 <= i < |ks| ==> ks[i] in programs
    ensures k in ProgramKeys(ks, programs) <==>
      k.nodeType == ProgramTagKind && k.parent.Some? && k.parent.value in ks &&
      k.name in programs[k.parent.value].tags.vals
  {
    if ks != [] {
      var n := |ks| - 1;
      var x := ks[n];
      ProgramKeysIff(ks[..n], programs, k);
      KeysNamed(ProgramTagKind, programs[x].tags, Some(x), k);
      assert ks == ks[..n] + [x];
    }
  }

  /** _keys_for_project yields exactly the keys of IsProjectKey: one per UDT, UDT member and
      hidden-word child, AOI, AOI parameter, AOI local tag, controller tag and program tag. */
  lemma ProjectKeysIff(p: Project, k: Key)
    ensures k in ProjectKeys(p) <==> IsProjectKey(p, k)
  {
    UdtKeysIff(p.udts.keys, p.udts.vals, k);
    AoiKeysIff(p.aois.keys, p.aois.vals, k);
    KeysNamed(TagKind, p.tags, None, k);
    ProgramKeysIff(p.programs.keys, p.programs.vals, k);
  }

  // ---------------------------------------------------------------- the loops

  /** `for v in vs: keys.add((kind, v.name, parent))`. */
  method AddNamedKeys<V>(keys0: set<Key>, kind: string, vs: seq<V>, name: V -> string, parent: Option<string>)
    returns (keys: set<Key>)
    ensures keys == keys0 + NamedKeys(kind, vs, name, parent)
  {
    keys := keys0;
    var i := 0;
    while i < |vs|
      invariant i <= |vs|
      invariant keys == keys0 + NamedKeys(kind, vs[..i], name, parent)
    {
      assert vs[..i + 1][..i] == vs[..i];
      keys := keys + {TreeStates.Key(kind, name(vs[i]), parent)};
      i := i + 1;
    }
    assert vs[..i] == vs;
  }

  lemma UnionAssoc(a: set<Key>, b: set<Key>, c: set<Key>)
    ensures a + b + c == a + (b + c)
  {
  }

  method AddMemberKeys(keys0: set<Key>, u: string, ms: seq<UdtMember>) returns (keys: set<Key>)
    ensures keys == keys0 + MemberKeys(u, ms)
  {
    keys := keys0;
    var i := 0;
    while i < |ms|
      invariant i <= |ms|
      invariant keys == keys0 + MemberKeys(u, ms[..i])
    {
      assert ms[..i + 1][..i] == ms[..i];
      var part := AddNamedKeys({TreeStates.Key(MemberKind, ms[i].name, Some(u))}, MemberKind, Values(ms[i].children), MemberName, Some(u));
      UnionAssoc(keys0, MemberKeys(u, ms[..i]), part);
      keys := keys + part;
      i := i + 1;
    }
    assert ms[..i] == ms;
  }

  method AddUdtKeys(keys0: set<Key>, udts: OrderedMap<Udt>) returns (keys: set<Key>)
    ensures keys == keys0 + UdtKeys(udts.keys, udts.vals)
  {
    var ks := udts.keys;
    keys := keys0;
    var i := 0;
    while i < |ks|
      invariant i <= |ks|
      invariant keys == keys0 + UdtKeys(ks[..i], udts.vals)
    {
      assert ks[..i + 1][..i] == ks[..i];
      var name := ks[i];
      var part := AddMemberKeys({TreeStates.Key(UdtKind, name, None)}, name, Values(udts.vals[name].members));
      UnionAssoc(keys0, UdtKeys(ks[..i], udts.vals), part);
      keys := keys + part;
      i := i + 1;
    }
    assert ks[..i] == ks;
  }

  method AddAoiKeys(keys0: set<Key>, aois: OrderedMap<Aoi>) returns (keys: set<Key>)
    ensures keys == keys0 + AoiKeys(aois.keys, aois.vals)
  {
    var ks := aois.keys;
    keys := keys0;
    var i := 0;
    while i < |ks|
      invariant i <= |ks|
      invariant keys == keys0 + AoiKeys(ks[..i], aois.vals)
    {
      assert ks[..i + 1][..i] == ks[..i];
      var name := ks[i];
      var part := AddNamedKeys({TreeStates.Key(AoiKind, name, None)}, ParamKind, Values(aois.vals[name].parameters), ParamName, Some(name));
      part := AddNamedKeys(part, LocalKind, Values(aois.vals[name].localtags), LocalName, Some(name));
      UnionAssoc(keys0, AoiKeys(ks[..i], aois.vals), part);
      keys := keys + part;
      i := i + 1;
    }
    assert ks[..i] == ks;
  }

  method AddProgramKeys(keys0: set<Key>, programs: OrderedMap<Program>) returns (keys: set<Key>)
    ensures keys == keys0 + ProgramKeys(programs.keys, programs.vals)
  {
    var ks := programs.keys;
    keys := keys0;
    var i := 0;
    while i < |ks|
      invariant i <= |ks|
      invariant keys == keys0 + ProgramKeys(ks[..i], programs.vals)
    {
      assert ks[..i + 1][..i] == ks[..i];
      var pname := ks[i];
      var part := AddNamedKeys({}, ProgramTagKind, programs.vals[pname].tags.keys, SameName, Some(pname));
      UnionAssoc(keys0, ProgramKeys(ks[..i], programs.vals), part);
      keys := keys + part;
      i := i + 1;
    }
    assert ks[..i] == ks;
  }

  /** _keys_for_project. */
  method KeysForProject(p: Project) returns (keys: set<Key>)
    ensures keys == ProjectKeys(p)
    ensures forall k :: k in keys <==> IsProjectKey(p, k)
  {
    keys := AddUdtKeys({}, p.udts);
    keys := AddAoiKeys(keys, p.aois);
    keys := AddNamedKeys(keys, TagKind, p.tags.keys, SameName, None);
    keys := AddProgramKeys(keys, p.programs);
    forall k {
      ProjectKeysIff(p, k);
    }
  }
}
