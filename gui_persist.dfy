/** Saving and reopening a tuning session: gui.py turns the project into plain JSON-ready
    records (`_project_to_dict`) and rebuilds a project from them (`_project_from_dict`).
    The records are typed here; reading and writing the JSON file is not modelled. */
module GuiPersist {
  import opened OrderedMaps
  import opened Models
  import opened GuiKeys
  import opened GuiMerge

  // ---------------------------------------------------------------- the saved records

  /** The nine member fields a saved member (and each of its children) carries. */
  datatype MemberFields = MemberFields(
    name: string, dataType: string, description: string, definition: Option<string>,
    isHiddenParent: bool, isBit: bool, parentWord: Option<string>, bitIndex: Option<nat>,
    nameDims: string)

  /** A saved member: its fields and the fields of its children (no deeper level). */
  datatype MemberData = MemberData(fields: MemberFields, children: seq<MemberFields>)

  datatype UdtData = UdtData(name: string, description: string, familyType: string,
                             members: seq<MemberData>)

  /** A saved AOI parameter: `is_corrected` is not among the saved fields. */
  datatype ParamData = ParamData(name: string, dataType: string, description: string,
                                 definition: Option<string>, isBitAlias: bool)

  /** The four fields saved for an AOI local tag, a controller tag and a program tag. */
  datatype TagData = TagData(name: string, dataType: string, description: string,
                             definition: Option<string>)

  datatype AoiData = AoiData(name: string, description: string, parameters: seq<ParamData>,
                             localtags: seq<TagData>)

  datatype ProgramData = ProgramData(name: string, description: string, tags: seq<TagData>)

  datatype ProjectData = ProjectData(header: string, udts: seq<UdtData>, aois: seq<AoiData>,
                                     tags: seq<TagData>, programs: seq<ProgramData>)

  // ---------------------------------------------------------------- _project_to_dict

  /** `[f(v) for v in vs]`. */
  function SeqMap<V, D>(vs: seq<V>, f: V -> D): (r: seq<D>)
    ensures |r| == |vs| && forall i :: 0 <= i < |vs| ==> r[i] == f(vs[i])
  {
    seq(|vs|, i requires 0 <= i < |vs| => f(vs[i]))
  }

  function FieldsOf(m: UdtMember): MemberFields
  {
    MemberFields(m.name, m.dataType, m.description, m.definition, m.isHiddenParent, m.isBit,
                 m.parentWord, m.bitIndex, m.nameDims)
  }

  function MemberDataOf(m: UdtMember): MemberData
  {
    MemberData(FieldsOf(m), SeqMap(Values(m.children), FieldsOf))
  }

  function UdtDataOf(u: Udt): UdtData
  {
    UdtData(u.name, u.description, u.familyType, SeqMap(Values(u.members), MemberDataOf))
  }

  function ParamDataOf(p: AoiParameter): ParamData
  {
    ParamData(p.name, p.dataType, p.description, p.definition, p.isBitAlias)
  }

  function LocalDataOf(t: AoiLocalTag): TagData
  {
    TagData(t.name, t.dataType, t.description, t.definition)
  }

  function TagDataOf(t: Tag): TagData
  {
    TagData(t.name, t.dataType, t.description, t.definition)
  }

  function AoiDataOf(a: Aoi): AoiData
  {
    AoiData(a.name, a.description, SeqMap(Values(a.parameters), ParamDataOf),
            SeqMap(Values(a.localtags), LocalDataOf))
  }

  function ProgramDataOf(g: Program): ProgramData
  {
    ProgramData(g.name, g.description, SeqMap(Values(g.tags), TagDataOf))
  }

  /** The saved form of a project: no header is saved as "". */
  function ToData(p: Project): ProjectData
  {
    ProjectData(if p.header.Some? then p.header.value else "",
                SeqMap(Values(p.udts), UdtDataOf), SeqMap(Values(p.aois), AoiDataOf),
                SeqMap(Values(p.tags), TagDataOf), SeqMap(Values(p.programs), ProgramDataOf))
  }

  /** r holds f of the first i values of m, in key order. */
  ghost predicate MappedPrefix<V, D>(r: seq<D>, m: OrderedMap<V>, f: V -> D, i: nat)
  {
    i <= |m.keys| && |r| == i && forall j :: 0 <= j < i ==> r[j] == f(m.vals[m.keys[j]])
  }

  lemma MappedStep<V, D>(r: seq<D>, m: OrderedMap<V>, f: V -> D, i: nat, d: D)
    requires MappedPrefix(r, m, f, i) && i < |m.keys|
    requires m.keys[i] in m.vals && d == f(m.vals[m.keys[i]])
    ensures MappedPrefix(r + [d], m, f, i + 1)
  {
  }

  lemma MappedAll<V, D>(r: seq<D>, m: OrderedMap<V>, f: V -> D)
    requires MappedPrefix(r, m, f, |m.keys|)
    ensures r == SeqMap(Values(m), f)
  {
  }

  /** `for v in m.values(): out.append(f(v))`. */
  method Collect<V, D>(m: OrderedMap<V>, f: V -> D) returns (r: seq<D>)
    ensures r == SeqMap(Values(m), f)
  {
    r := [];
    var i := 0;
    while i < |m.keys|
      invariant MappedPrefix(r, m, f, i)
    {
      assert m.keys[i] in m.keys;
      MappedStep(r, m, f, i, f(m.vals[m.keys[i]]));
      r := r + [f(m.vals[m.keys[i]])];
      i := i + 1;
    }
    MappedAll(r, m, f);
  }

  /** One UDT's record: its member loop. */
  method UdtDict(u: Udt) returns (d: UdtData)
    ensures d == UdtDataOf(u)
  {
    var members := Collect(u.members, MemberDataOf);
    d := UdtData(u.name, u.description, u.familyType, members);
  }

  /** One AOI's record: its parameter and local-tag loops. */
  method AoiDict(a: Aoi) returns (d: AoiData)
    ensures d == AoiDataOf(a)
  {
    var params := Collect(a.parameters, ParamDataOf);
    var locals := Collect(a.localtags, LocalDataOf);
    d := AoiData(a.name, a.description, params, locals);
  }

  /** One program's record: its tag loop. */
  method ProgramDict(g: Program) returns (d: ProgramData)
    ensures d == ProgramDataOf(g)
  {
    var tags := Collect(g.tags, TagDataOf);
    d := ProgramData(g.name, g.description, tags);
  }

  /** The UDT loop of _project_to_dict, with its member loop inside. */
  method UdtDicts(udts: OrderedMap<Udt>) returns (r: seq<UdtData>)
    ensures r == SeqMap(Values(udts), UdtDataOf)
  {
    r := [];
    var i := 0;
    while i < |udts.keys|
      invariant MappedPrefix(r, udts, UdtDataOf, i)
    {
      assert udts.keys[i] in udts.keys;
      var d := UdtDict(udts.vals[udts.keys[i]]);
      MappedStep(r, udts, UdtDataOf, i, d);
      r := r + [d];
      i := i + 1;
    }
    MappedAll(r, udts, UdtDataOf);
  }

  /** The AOI loop, with its parameter and local-tag loops inside. */
  method AoiDicts(aois: OrderedMap<Aoi>) returns (r: seq<AoiData>)
    ensures r == SeqMap(Values(aois), AoiDataOf)
  {
    r := [];
    var i := 0;
    while i < |aois.keys|
      invariant MappedPrefix(r, aois, AoiDataOf, i)
    {
      assert aois.keys[i] in aois.keys;
      var d := AoiDict(aois.vals[aois.keys[i]]);
      MappedStep(r, aois, AoiDataOf, i, d);
      r := r + [d];
      i := i + 1;
    }
    MappedAll(r, aois, AoiDataOf);
  }

  /** The program loop, with its tag loop inside. */
  method ProgramDicts(programs: OrderedMap<Program>) returns (r: seq<ProgramData>)
    ensures r == SeqMap(Values(programs), ProgramDataOf)
  {
    r := [];
    var i := 0;
    while i < |programs.keys|
      invariant MappedPrefix(r, programs, ProgramDataOf, i)
    {
      assert programs.keys[i] in programs.keys;
      var d := ProgramDict(programs.vals[programs.keys[i]]);
      MappedStep(r, programs, ProgramDataOf, i, d);
      r := r + [d];
      i := i + 1;
    }
    MappedAll(r, programs, ProgramDataOf);
  }

  /** _project_to_dict. */
  method ProjectToDict(p: Project) returns (d: ProjectData)
    ensures d == ToData(p)
  {
    var udts := UdtDicts(p.udts);
    var aois := AoiDicts(p.aois);
    var tags := Collect(p.tags, TagDataOf);
    var programs := ProgramDicts(p.programs);
    d := ProjectData(if p.header.Some? then p.header.value else "", udts, aois, tags, programs);
  }

  // ---------------------------------------------------------------- _project_from_dict

  /** `for d in ds: v = g(d); out[name(v)] = v`, starting from an empty dictionary. */
  function PutEach<D, V>(ds: seq<D>, g: D -> V, name: V -> string): OrderedMap<V>
  {
    if ds == [] then Empty()
    else
      var v := g(ds[|ds| - 1]);
      Put(PutEach(ds[..|ds| - 1], g, name), name(v), v)
  }

  /** A member rebuilt from its saved fields, with no children yet. */
  function MemberFromFields(f: MemberFields): UdtMember
  {
    UdtMember(f.name, f.dataType, f.description, f.definition, f.isHiddenParent, f.isBit,
              f.parentWord, f.bitIndex, f.nameDims, Empty())
  }

  function MemberFrom(d: MemberData): UdtMember
  {
    MemberFromFields(d.fields).(children := PutEach(d.children, MemberFromFields, MemberName))
  }

  function UdtFrom(d: UdtData): Udt
  {
    Udt(d.name, d.description, d.familyType, PutEach(d.members, MemberFrom, MemberName))
  }

  /** A rebuilt parameter starts uncorrected. */
  function ParamFrom(d: ParamData): AoiParameter
  {
    AoiParameter(d.name, d.dataType, d.description, d.definition, d.isBitAlias, false)
  }

  function LocalFrom(d: TagData): AoiLocalTag
  {
    AoiLocalTag(d.name, d.dataType, d.description, d.definition)
  }

  function TagFrom(d: TagData): Tag
  {
    Tag(d.name, d.dataType, d.description, d.definition)
  }

  function AoiFrom(d: AoiData): Aoi
  {
    Aoi(d.name, d.description, PutEach(d.parameters, ParamFrom, ParamName),
        PutEach(d.localtags, LocalFrom, LocalName))
  }

  function ProgramFrom(d: ProgramData): Program
  {
    Program(d.name, d.description, PutEach(d.tags, TagFrom, TagName))
  }

  /** The project rebuilt from its saved form: an empty header means none. */
  function FromData(d: ProjectData): Project
  {
    Project(if d.header != "" then Some(d.header) else None,
            PutEach(d.tags, TagFrom, TagName), PutEach(d.udts, UdtFrom, UdtName),
            PutEach(d.aois, AoiFrom, AoiName), PutEach(d.programs, ProgramFrom, ProgramName))
  }

  /** The loops of _project_from_dict whose body rebuilds one entry and stores it under its
      name: children, parameters, local tags, controller tags and program tags. */
  method PutEachM<D, V>(ds: seq<D>, g: D -> V, name: V -> string) returns (m: OrderedMap<V>)
    ensures m == PutEach(ds, g, name)
  {
    m := Empty();
    var i := 0;
    while i < |ds|
      invariant i <= |ds| && m == PutEach(ds[..i], g, name)
    {
      assert ds[..i + 1][..i] == ds[..i];
      var v := g(ds[i]);
      m := Put(m, name(v), v);
      i := i + 1;
    }
    assert ds[..i] == ds;
  }

  /** One saved member: `member.add_child(child)` for each saved child. */
  method MemberFromDict(d: MemberData) returns (m: UdtMember)
    ensures m == MemberFrom(d)
  {
    var base := MemberFromFields(d.fields);
    m := base;
    var i := 0;
    while i < |d.children|
      invariant i <= |d.children|
      invariant m == base.(children := PutEach(d.children[..i], MemberFromFields, MemberName))
    {
      ChildStep(base, d.children, i);
      m := AddChild(m, MemberFromFields(d.children[i]));
      i := i + 1;
    }
    assert d.children[..i] == d.children;
  }

  lemma ChildStep(base: UdtMember, cs: seq<MemberFields>, i: nat)
    requires i < |cs|
    ensures AddChild(base.(children := PutEach(cs[..i], MemberFromFields, MemberName)), MemberFromFields(cs[i])) ==
            base.(children := PutEach(cs[..i + 1], MemberFromFields, MemberName))
  {
    assert cs[..i + 1][..i] == cs[..i];
  }

  /** One saved UDT: `udt.add_member(member)` for each saved member. */
  method UdtFromDict(d: UdtData) returns (u: Udt)
    ensures u == UdtFrom(d)
  {
    u := Udt(d.name, d.description, d.familyType, Empty());
    var i := 0;
    while i < |d.members|
      invariant i <= |d.members|
      invariant u == Udt(d.name, d.description, d.familyType, PutEach(d.members[..i], MemberFrom, MemberName))
    {
      assert d.members[..i + 1][..i] == d.members[..i];
      var m := MemberFromDict(d.members[i]);
      u := AddMember(u, m);
      i := i + 1;
    }
    assert d.members[..i] == d.members;
  }

  /** The UDT loop of _project_from_dict: `proj.udts[udt.name] = udt`. */
  method UdtsFromDicts(ds: seq<UdtData>) returns (m: OrderedMap<Udt>)
    ensures m == PutEach(ds, UdtFrom, UdtName)
  {
    m := Empty();
    var i := 0;
    while i < |ds|
      invariant i <= |ds| && m == PutEach(ds[..i], UdtFrom, UdtName)
    {
      assert ds[..i + 1][..i] == ds[..i];
      var u := UdtFromDict(ds[i]);
      m := Put(m, u.name, u);
      i := i + 1;
    }
    assert ds[..i] == ds;
  }

  /** The AOI loop: parameters, then local tags, then `proj.aois[aoi.name] = aoi`. */
  method AoisFromDicts(ds: seq<AoiData>) returns (m: OrderedMap<Aoi>)
    ensures m == PutEach(ds, AoiFrom, AoiName)
  {
    m := Empty();
    var i := 0;
    while i < |ds|
      invariant i <= |ds| && m == PutEach(ds[..i], AoiFrom, AoiName)
    {
      assert ds[..i + 1][..i] == ds[..i];
      var params := PutEachM(ds[i].parameters, ParamFrom, ParamName);
      var locals := PutEachM(ds[i].localtags, LocalFrom, LocalName);
      var a := Aoi(ds[i].name, ds[i].description, params, locals);
      m := Put(m, a.name, a);
      i := i + 1;
    }
    assert ds[..i] == ds;
  }

  /** The program loop: its tags, then `proj.programs[prog.name] = prog`. */
  method ProgramsFromDicts(ds: seq<ProgramData>) returns (m: OrderedMap<Program>)
    ensures m == PutEach(ds, ProgramFrom, ProgramName)
  {
    m := Empty();
    var i := 0;
    while i < |ds|
      invariant i <= |ds| && m == PutEach(ds[..i], ProgramFrom, ProgramName)
    {
      assert ds[..i + 1][..i] == ds[..i];
      var tags := PutEachM(ds[i].tags, TagFrom, TagName);
      var g := Program(ds[i].name, ds[i].description, tags);
      m := Put(m, g.name, g);
      i := i + 1;
    }
    assert ds[..i] == ds;
  }

  /** _project_from_dict. */
  method ProjectFromDict(d: ProjectData) returns (p: Project)
    ensures p == FromData(d)
  {
    var udts := UdtsFromDicts(d.udts);
    var aois := AoisFromDicts(d.aois);
    var tags := PutEachM(d.tags, TagFrom, TagName);
    var programs := ProgramsFromDicts(d.programs);
    p := Project(if d.header != "" then Some(d.header) else None, tags, udts, aois, programs);
  }

  // ---------------------------------------------------------------- the round trip

  /** Every entry put through h, in place. */
  function MapVals<V>(m: OrderedMap<V>, h: V -> V): (r: OrderedMap<V>)
    ensures r.keys == m.keys && r.vals.Keys == m.vals.Keys
    ensures forall k :: k in m.vals ==> r.vals[k] == h(m.vals[k])
  {
    OMap(m.keys, map k | k in m.vals :: h(m.vals[k]))
  }

  /** Saving then rebuilding a dictionary whose entries are stored under the names the
      rebuilt entries carry gives each entry through the combined step, in the same order. */
  lemma {:induction false} PutEachPrefix<V, D>(m: OrderedMap<V>, f: V -> D, g: D -> V,
                                               name: V -> string, h: V -> V, ds: seq<D>)
    requires |ds| <= |m.keys| && forall j :: 0 <= j < |ds| ==> ds[j] == f(m.vals[m.keys[j]])
    requires forall k :: k in m.vals ==> g(f(m.vals[k])) == h(m.vals[k]) && name(h(m.vals[k])) == k
    ensures var r := PutEach(ds, g, name);
      r.keys == m.keys[..|ds|] && forall k :: k in r.vals <==> k in m.keys[..|ds|]
    ensures var r := PutEach(ds, g, name);
      forall k :: k in r.vals ==> k in m.vals && r.vals[k] == h(m.vals[k])
  {
    var i := |ds|;
    if i > 0 {
      PutEachPrefix(m, f, g, name, h, ds[..i - 1]);
      var k := m.keys[i - 1];
      assert k in m.keys;
      assert g(ds[i - 1]) == h(m.vals[k]);
      NotInPrefix(m, i);
      PutKeysStep(PutEach(ds[..i - 1], g, name), m.keys, i, h(m.vals[k]));
    }
  }

  /** Keys are distinct: none occurs before its own position. */
  lemma NotInPrefix<V>(m: OrderedMap<V>, i: nat)
    requires 0 < i <= |m.keys|
    ensures m.keys[i - 1] !in m.keys[..i - 1]
  {
    assert m.Valid();
    forall j | 0 <= j < i - 1
      ensures m.keys[j] != m.keys[i - 1]
    {
    }
  }

  /** Putting the next key of ks extends a dictionary holding the keys before it by one. */
  lemma PutKeysStep<V>(r0: OrderedMap<V>, ks: seq<string>, i: nat, v: V)
    requires 0 < i <= |ks| && r0.keys == ks[..i - 1] && ks[i - 1] !in ks[..i - 1]
    requires forall k :: k in r0.vals <==> k in ks[..i - 1]
    ensures Put(r0, ks[i - 1], v).keys == ks[..i]
    ensures forall k :: k in Put(r0, ks[i - 1], v).vals <==> k in ks[..i]
  {
    assert ks[..i] == ks[..i - 1] + [ks[i - 1]];
  }

  /** The whole dictionary: its keys in order, each entry through h. */
  lemma PutEachAll<V, D>(m: OrderedMap<V>, f: V -> D, g: D -> V, name: V -> string, h: V -> V)
    requires forall k :: k in m.vals ==> g(f(m.vals[k])) == h(m.vals[k]) && name(h(m.vals[k])) == k
    ensures var r := PutEach(SeqMap(Values(m), f), g, name);
      r.keys == m.keys && r.vals.Keys == m.vals.Keys && forall k :: k in r.vals ==> r.vals[k] == h(m.vals[k])
  {
    var ds := SeqMap(Values(m), f);
    SavedInOrder(m, f);
    PutEachPrefix(m, f, g, name, h, ds);
    PutEachFinish(m, PutEach(ds, g, name), h);
  }

  lemma SavedInOrder<V, D>(m: OrderedMap<V>, f: V -> D)
    ensures var ds := SeqMap(Values(m), f);
      |ds| == |m.keys| && forall j :: 0 <= j < |ds| ==> ds[j] == f(m.vals[m.keys[j]])
  {
  }

  lemma PutEachFinish<V>(m: OrderedMap<V>, r: OrderedMap<V>, h: V -> V)
    requires r.keys == m.keys[..|m.keys|]
    requires forall k :: k in r.vals ==> k in m.vals && r.vals[k] == h(m.vals[k])
    ensures r.keys == m.keys && r.vals.Keys == m.vals.Keys && forall k :: k in r.vals ==> r.vals[k] == h(m.vals[k])
  {
    assert m.keys[..|m.keys|] == m.keys;
    assert forall k :: k in r.vals <==> k in m.vals;
  }

  /** Two ordered dictionaries with the same keys in the same order and the same entries. */
  lemma SameMap<V>(a: OrderedMap<V>, b: OrderedMap<V>)
    requires a.keys == b.keys && a.vals.Keys == b.vals.Keys
    requires forall k :: k in a.vals ==> a.vals[k] == b.vals[k]
    ensures a == b
  {
    assert a.vals == b.vals;
  }

  lemma RoundTripMap<V, D>(m: OrderedMap<V>, f: V -> D, g: D -> V, name: V -> string, h: V -> V)
    requires forall k :: k in m.vals ==> g(f(m.vals[k])) == h(m.vals[k]) && name(h(m.vals[k])) == k
    ensures PutEach(SeqMap(Values(m), f), g, name) == MapVals(m, h)
  {
    PutEachAll(m, f, g, name, h);
    SameMap(PutEach(SeqMap(Values(m), f), g, name), MapVals(m, h));
  }

  lemma MapValsFixed<V>(m: OrderedMap<V>, h: V -> V)
    requires forall k :: k in m.vals ==> h(m.vals[k]) == m.vals[k]
    ensures MapVals(m, h) == m
  {
    SameMap(MapVals(m, h), m);
  }

  /** A child as saved and rebuilt: its own children are not saved. */
  function Flat(c: UdtMember): UdtMember { c.(children := Empty()) }

  function NormMember(m: UdtMember): UdtMember { m.(children := MapVals(m.children, Flat)) }

  function NormUdt(u: Udt): Udt { u.(members := MapVals(u.members, NormMember)) }

  function NormParam(p: AoiParameter): AoiParameter { p.(isCorrected := false) }

  function NormAoi(a: Aoi): Aoi { a.(parameters := MapVals(a.parameters, NormParam)) }

  function Same<V>(v: V): V { v }

  /** What a save and reload keeps: everything but grandchildren of members, the corrected
      flag of parameters, and an empty header (which comes back as none). */
  function Normalized(p: Project): Project
  {
    Project(if p.header == Some("") then None else p.header, p.tags,
            MapVals(p.udts, NormUdt), MapVals(p.aois, NormAoi), p.programs)
  }

  ghost predicate UdtsNamed(us: OrderedMap<Udt>)
  {
    forall k :: k in us.vals ==> us.vals[k].name == k && UdtWellKeyed(us.vals[k])
  }

  ghost predicate AoisNamed(as_: OrderedMap<Aoi>)
  {
    forall k :: k in as_.vals ==> as_.vals[k].name == k && AoiWellKeyed(as_.vals[k])
  }

  ghost predicate TagsNamed(ts: OrderedMap<Tag>)
  {
    forall k :: k in ts.vals ==> ts.vals[k].name == k
  }

  ghost predicate ProgramsNamed(gs: OrderedMap<Program>)
  {
    forall k :: k in gs.vals ==> gs.vals[k].name == k && TagsNamed(gs.vals[k].tags)
  }

  /** Every dictionary of the project stores its entries under their own names. */
  ghost predicate WellNamed(p: Project)
  {
    UdtsNamed(p.udts) && AoisNamed(p.aois) && TagsNamed(p.tags) && ProgramsNamed(p.programs)
  }

  lemma MemberRoundTrip(m: UdtMember)
    requires MemberWellKeyed(m)
    ensures MemberFrom(MemberDataOf(m)) == NormMember(m)
  {
    RoundTripMap(m.children, FieldsOf, MemberFromFields, MemberName, Flat);
  }

  lemma UdtRoundTrip(u: Udt)
    requires UdtWellKeyed(u)
    ensures UdtFrom(UdtDataOf(u)) == NormUdt(u)
  {
    forall k | k in u.members.vals
      ensures MemberFrom(MemberDataOf(u.members.vals[k])) == NormMember(u.members.vals[k])
    {
      MemberRoundTrip(u.members.vals[k]);
    }
    RoundTripMap(u.members, MemberDataOf, MemberFrom, MemberName, NormMember);
  }

  lemma AoiRoundTrip(a: Aoi)
    requires AoiWellKeyed(a)
    ensures AoiFrom(AoiDataOf(a)) == NormAoi(a)
  {
    RoundTripMap(a.parameters, ParamDataOf, ParamFrom, ParamName, NormParam);
    RoundTripMap(a.localtags, LocalDataOf, LocalFrom, LocalName, Same);
    MapValsFixed(a.localtags, Same);
  }

  lemma TagsRoundTrip(ts: OrderedMap<Tag>)
    requires TagsNamed(ts)
    ensures PutEach(SeqMap(Values(ts), TagDataOf), TagFrom, TagName) == ts
  {
    RoundTripMap(ts, TagDataOf, TagFrom, TagName, Same);
    MapValsFixed(ts, Same);
  }

  lemma UdtsRoundTrip(us: OrderedMap<Udt>)
    requires UdtsNamed(us)
    ensures PutEach(SeqMap(Values(us), UdtDataOf), UdtFrom, UdtName) == MapVals(us, NormUdt)
  {
    forall k | k in us.vals
      ensures UdtFrom(UdtDataOf(us.vals[k])) == NormUdt(us.vals[k])
    {
      UdtRoundTrip(us.vals[k]);
    }
    RoundTripMap(us, UdtDataOf, UdtFrom, UdtName, NormUdt);
  }

  lemma AoisRoundTrip(as_: OrderedMap<Aoi>)
    requires AoisNamed(as_)
    ensures PutEach(SeqMap(Values(as_), AoiDataOf), AoiFrom, AoiName) == MapVals(as_, NormAoi)
  {
    forall k | k in as_.vals
      ensures AoiFrom(AoiDataOf(as_.vals[k])) == NormAoi(as_.vals[k])
    {
      AoiRoundTrip(as_.vals[k]);
    }
    RoundTripMap(as_, AoiDataOf, AoiFrom, AoiName, NormAoi);
  }

  lemma ProgramsRoundTrip(gs: OrderedMap<Program>)
    requires ProgramsNamed(gs)
    ensures PutEach(SeqMap(Values(gs), ProgramDataOf), ProgramFrom, ProgramName) == gs
  {
    forall k | k in gs.vals
      ensures ProgramFrom(ProgramDataOf(gs.vals[k])) == gs.vals[k]
    {
      TagsRoundTrip(gs.vals[k].tags);
    }
    RoundTripMap(gs, ProgramDataOf, ProgramFrom, ProgramName, Same);
    MapValsFixed(gs, Same);
  }

  /** Saving a session's project and opening it again gives the project back, up to what the
      saved records leave out. */
  lemma SaveLoadRoundTrip(p: Project)
    requires WellNamed(p)
    ensures FromData(ToData(p)) == Normalized(p)
  {
    UdtsRoundTrip(p.udts);
    AoisRoundTrip(p.aois);
    TagsRoundTrip(p.tags);
    ProgramsRoundTrip(p.programs);
  }

  /** Nothing the saved records drop: children have no children, no parameter is marked
      corrected, and the header is absent or non-empty. */
  ghost predicate Plain(p: Project)
  {
    p.header != Some("") &&
    (forall u :: u in p.udts.vals ==> UdtPlain(p.udts.vals[u])) &&
    (forall a :: a in p.aois.vals ==> AoiPlain(p.aois.vals[a]))
  }

  ghost predicate UdtPlain(u: Udt)
  {
    forall j :: j in u.members.vals ==> ChildrenPlain(u.members.vals[j])
  }

  ghost predicate ChildrenPlain(m: UdtMember)
  {
    forall c :: c in m.children.vals ==> m.children.vals[c].children == Empty()
  }

  ghost predicate AoiPlain(a: Aoi)
  {
    forall j :: j in a.parameters.vals ==> !a.parameters.vals[j].isCorrected
  }

  lemma UdtPlainFixed(u: Udt)
    requires UdtPlain(u)
    ensures NormUdt(u) == u
  {
    forall j | j in u.members.vals
      ensures NormMember(u.members.vals[j]) == u.members.vals[j]
    {
      assert ChildrenPlain(u.members.vals[j]);
      MapValsFixed(u.members.vals[j].children, Flat);
    }
    MapValsFixed(u.members, NormMember);
  }

  lemma AoiPlainFixed(a: Aoi)
    requires AoiPlain(a)
    ensures NormAoi(a) == a
  {
    MapValsFixed(a.parameters, NormParam);
  }

  /** Normalizing a project with nothing to drop changes nothing. */
  lemma NormalizedPlain(p: Project)
    requires Plain(p)
    ensures Normalized(p) == p
  {
    forall u | u in p.udts.vals
      ensures NormUdt(p.udts.vals[u]) == p.udts.vals[u]
    {
      UdtPlainFixed(p.udts.vals[u]);
    }
    MapValsFixed(p.udts, NormUdt);
    forall a | a in p.aois.vals
      ensures NormAoi(p.aois.vals[a]) == p.aois.vals[a]
    {
      AoiPlainFixed(p.aois.vals[a]);
    }
    MapValsFixed(p.aois, NormAoi);
  }

  /** For such a project the save and reload is the identity. */
  lemma SaveLoadIdentity(p: Project)
    requires WellNamed(p) && Plain(p)
    ensures FromData(ToData(p)) == p
  {
    SaveLoadRoundTrip(p);
    NormalizedPlain(p);
  }

  /** The saved header: the header's content, or "" without one. */
  lemma HeaderSaved(p: Project)
    ensures ToData(p).header == (if p.header.Some? then p.header.value else "")
    ensures FromData(ToData(p)).header == (if p.header == Some("") then None else p.header)
  {
  }
}
