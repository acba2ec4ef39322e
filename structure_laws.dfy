/** What every turn of the _parse_structures loop keeps: the structure being filled is one the
    project holds, every dictionary entry is stored under its own name, dictionaries only gain
    keys (an existing key keeps its place), the file header is left alone, the CONTROLLER
    header is captured at most once, and the log only gains "Unballanced parens" entries. */
module StructureLaws {
  import opened Text
  import opened OrderedMaps
  import opened Models
  import opened TagFields
  import opened Structures
  import Capture
  import Patterns

  // ---------------------------------------------------------------- invariants

  /** current_struct is the UDT or AOI the project holds under that name. */
  predicate CurrentValid(m: Machine)
  {
    (m.cur.CurUdt? ==> m.cur.name in m.project.udts.vals) &&
    (m.cur.CurAoi? ==> m.cur.name in m.project.aois.vals)
  }

  predicate ChildrenKeyed(cs: OrderedMap<UdtMember>)
  {
    forall k :: k in cs.vals ==> cs.vals[k].name == k
  }

  predicate MembersKeyed(ms: OrderedMap<UdtMember>)
  {
    forall k :: k in ms.vals ==> ms.vals[k].name == k && ChildrenKeyed(ms.vals[k].children)
  }

  predicate ParamsKeyed(ps: OrderedMap<AoiParameter>)
  {
    forall k :: k in ps.vals ==> ps.vals[k].name == k
  }

  predicate LocalsKeyed(ls: OrderedMap<AoiLocalTag>)
  {
    forall k :: k in ls.vals ==> ls.vals[k].name == k
  }

  predicate TagsKeyed(ts: OrderedMap<Tag>)
  {
    forall k :: k in ts.vals ==> ts.vals[k].name == k
  }

  predicate UdtKeyed(u: Udt) { MembersKeyed(u.members) }

  predicate AoiKeyed(a: Aoi) { ParamsKeyed(a.parameters) && LocalsKeyed(a.localtags) }

  predicate UdtsKeyed(us: OrderedMap<Udt>)
  {
    forall k :: k in us.vals ==> us.vals[k].name == k && UdtKeyed(us.vals[k])
  }

  predicate AoisKeyed(aois: OrderedMap<Aoi>)
  {
    forall k :: k in aois.vals ==> aois.vals[k].name == k && AoiKeyed(aois.vals[k])
  }

  predicate ProgramsKeyed(ps: OrderedMap<Program>)
  {
    forall k :: k in ps.vals ==> ps.vals[k].name == k && TagsKeyed(ps.vals[k].tags)
  }

  /** Every entry, at every level, is stored under its own name. */
  predicate Keyed(p: Project)
  {
    TagsKeyed(p.tags) && UdtsKeyed(p.udts) && AoisKeyed(p.aois) && ProgramsKeyed(p.programs)
  }

  /** Dictionaries only gain keys, existing keys keep their places, the header stays. */
  predicate Grows(a: Project, b: Project)
  {
    a.header == b.header &&
    a.tags.keys <= b.tags.keys && a.udts.keys <= b.udts.keys &&
    a.aois.keys <= b.aois.keys && a.programs.keys <= b.programs.keys
  }

  /** The log is extended, and only by entries about unbalanced DATATYPE headers. */
  predicate LogGrows(a: seq<string>, b: seq<string>)
  {
    a <= b && forall k :: |a| <= k < |b| ==> StartsWith(b[k], UnbalancedPrefix)
  }

  /** What one turn, and so the whole loop, keeps. */
  predicate Keeps(a: Machine, b: Machine)
  {
    (CurrentValid(a) ==> CurrentValid(b)) &&
    (Keyed(a.project) ==> Keyed(b.project)) &&
    Grows(a.project, b.project) &&
    LogGrows(a.log, b.log) &&
    (a.ctrlHeader != [] ==> b.ctrlHeader == a.ctrlHeader && b.ctrlName == a.ctrlName)
  }

  lemma KeepsTrans(a: Machine, b: Machine, c: Machine)
    requires Keeps(a, b) && Keeps(b, c)
    ensures Keeps(a, c)
  {
    assert forall k :: |a.log| <= k < |c.log| ==> StartsWith(c.log[k], UnbalancedPrefix) by {
      forall k | |a.log| <= k < |c.log| ensures StartsWith(c.log[k], UnbalancedPrefix) {
        if k < |b.log| { assert c.log[k] == b.log[k]; }
      }
    }
  }

  lemma KeepsRefl(a: Machine)
    ensures Keeps(a, a)
  {
  }


  // ---------------------------------------------------------------- dictionary updates

  lemma PutTagKeyed(ts: OrderedMap<Tag>, t: Tag)
    requires TagsKeyed(ts)
    ensures TagsKeyed(Put(ts, t.name, t))
  {
  }

  /** A UDT stored under its own name. */
  lemma UdtPut(p: Project, n: string, u: Udt)
    requires Keyed(p) ==> u.name == n && UdtKeyed(u)
    ensures var q := p.(udts := Put(p.udts, n, u));
      Grows(p, q) && (Keyed(p) ==> Keyed(q)) && n in q.udts.vals && q.aois == p.aois &&
      (forall k :: k in p.udts.vals ==> k in q.udts.vals)
  {
  }

  /** An AOI stored under its own name. */
  lemma AoiPut(p: Project, n: string, a: Aoi)
    requires Keyed(p) ==> a.name == n && AoiKeyed(a)
    ensures var q := p.(aois := Put(p.aois, n, a));
      Grows(p, q) && (Keyed(p) ==> Keyed(q)) && n in q.aois.vals && q.udts == p.udts &&
      (forall k :: k in p.aois.vals ==> k in q.aois.vals)
  {
  }

  lemma OpenProgramKeeps(progs: OrderedMap<Program>, name: string, desc: string)
    ensures progs.keys <= OpenProgram(progs, name, desc).keys
    ensures ProgramsKeyed(progs) ==> ProgramsKeyed(OpenProgram(progs, name, desc))
  {
  }

  lemma EmitTagKeeps(p: Project, buf: string)
    ensures var q := EmitTag(p, buf);
      Grows(p, q) && (Keyed(p) ==> Keyed(q)) && q.udts == p.udts && q.aois == p.aois
  {
    match ParseTagFields(buf, false)
    case None =>
    case Some(f) => StoreTagKeeps(p, f);
  }

  lemma StoreTagKeeps(p: Project, f: TagFields)
    ensures var q := StoreTag(p, f);
      Grows(p, q) && (Keyed(p) ==> Keyed(q)) && q.udts == p.udts && q.aois == p.aois
  {
    if Keyed(p) { PutTagKeyed(p.tags, FieldsTag(f)); }
  }

  lemma StoreProgTagKeeps(p: Project, prog: string, f: TagFields)
    requires prog in p.programs.vals
    ensures var q := StoreProgTag(p, prog, f);
      Grows(p, q) && (Keyed(p) ==> Keyed(q)) && q.udts == p.udts && q.aois == p.aois
  {
    var pr := p.programs.vals[prog];
    if Keyed(p) {
      PutTagKeyed(pr.tags, FieldsTag(f));
    }
  }

  lemma EmitProgTagKeeps(p: Project, prog: Option<string>, buf: string)
    ensures var q := EmitProgTag(p, prog, buf);
      Grows(p, q) && (Keyed(p) ==> Keyed(q)) && q.udts == p.udts && q.aois == p.aois
  {
    if IsSet(prog) && prog.value in p.programs.vals {
      match ParseTagFields(buf, true)
      case None =>
      case Some(f) => StoreProgTagKeeps(p, prog.value, f);
    }
  }

  lemma AddParameterKeyed(a: Aoi, p: AoiParameter)
    requires AoiKeyed(a)
    ensures AoiKeyed(AddParameter(a, p)) && AddParameter(a, p).name == a.name
  {
  }

  lemma AddLocalTagKeyed(a: Aoi, t: AoiLocalTag)
    requires AoiKeyed(a)
    ensures AoiKeyed(AddLocalTag(a, t)) && AddLocalTag(a, t).name == a.name
  {
  }

  lemma AddMemberKeyed(u: Udt, x: UdtMember)
    requires UdtKeyed(u) && ChildrenKeyed(x.children)
    ensures UdtKeyed(AddMember(u, x)) && AddMember(u, x).name == u.name
  {
  }

  // ---------------------------------------------------------------- hidden words and BIT aliases

  /** A hidden word is stored under its own name: a new one carries no children, an updated
      one keeps everything but its type, its definition and the hidden flag. */
  lemma HiddenWordSpec(existing: Option<UdtMember>, name: string, def: string)
    requires existing.Some? ==> existing.value.name == name
    ensures var w := HiddenWord(existing, name, def);
      w.name == name && w.dataType == "SINT" && w.isHiddenParent &&
      w.definition == Some(Strip(def)) &&
      (existing.None? ==> w.children.keys == [] && !w.isBit && w.description == L5kAttributes.GetDesc(def)) &&
      (existing.Some? ==> w == existing.value.(dataType := "SINT", definition := Some(Strip(def)), isHiddenParent := true))
  {
  }

  /** A hidden SINT line never duplicates its word: a member already stored under that name
      is replaced in place, keeping its place and its children; a new word goes last. */
  lemma HiddenWordInPlace(u: Udt, name: string, def: string)
    requires UdtKeyed(u)
    ensures var r := AddMember(u, HiddenWord(Get(u.members, name), name, def));
      UdtKeyed(r) && r.name == u.name &&
      (HasKey(u.members, name) ==>
         r.members.keys == u.members.keys && r.members.vals[name].children == u.members.vals[name].children) &&
      (!HasKey(u.members, name) ==> r.members.keys == u.members.keys + [name])
  {
    var w := HiddenWord(Get(u.members, name), name, def);
    HiddenWordSpec(Get(u.members, name), name, def);
    AddMemberKeyed(u, w);
  }

  /** The word a BIT line links to carries the word's name. */
  lemma BitWordKeyed(u: Udt, word: string, def: string)
    requires UdtKeyed(u)
    ensures var w := BitWord(u, word, def);
      w.name == word && ChildrenKeyed(w.children) &&
      (HasKey(u.members, word) ==> w == u.members.vals[word]) &&
      (!HasKey(u.members, word) ==> w.dataType == "SINT" && w.isHiddenParent && w.definition.None? &&
                                    w.children.keys == [])
  {
  }

  lemma BitAliasKeyed(u: Udt, b: Patterns.BitAliasMatch, def: string)
    requires UdtKeyed(u)
    ensures UdtKeyed(AddBitAlias(u, b, def)) && AddBitAlias(u, b, def).name == u.name
  {
    var child := BitMember(b, def);
    var u1 := AddMember(u, child);
    AddMemberKeyed(u, child);
    BitWordKeyed(u1, b.word, def);
    var w := BitWord(u1, b.word, def);
    AddChildKeyed(w, child);
    AddMemberKeyed(u1, AddChild(w, child));
  }

  lemma AddChildKeyed(w: UdtMember, c: UdtMember)
    requires ChildrenKeyed(w.children)
    ensures ChildrenKeyed(AddChild(w, c).children) && AddChild(w, c).name == w.name
  {
  }

  /** A BIT line stores the alias as a BOOL bit member naming its word and bit; the word is
      present afterwards with the alias among its children; an existing word keeps everything
      but its children; a missing word is created as a hidden SINT without a definition; no
      other member changes. (An alias naming its own word is the case left out.) */
  lemma BitAliasSpec(u: Udt, b: Patterns.BitAliasMatch, def: string)
    requires UdtKeyed(u) && b.alias != b.word
    ensures var r := AddBitAlias(u, b, def);
      var child := BitMember(b, def);
      Get(r.members, b.alias) == Some(child) &&
      child.dataType == "BOOL" && child.isBit && child.parentWord == Some(b.word) &&
      child.bitIndex == Some(b.bit) &&
      HasKey(r.members, b.word) &&
      Get(r.members.vals[b.word].children, b.alias) == Some(child) &&
      (HasKey(u.members, b.word) ==>
         r.members.vals[b.word] == u.members.vals[b.word].(children := r.members.vals[b.word].children)) &&
      (!HasKey(u.members, b.word) ==>
         (var w := r.members.vals[b.word];
          w.dataType == "SINT" && w.isHiddenParent && w.definition.None? && w.children.keys == [b.alias])) &&
      (forall k :: k != b.alias && k != b.word ==> Get(r.members, k) == Get(u.members, k))
  {
    var child := BitMember(b, def);
    var u1 := AddMember(u, child);
    BitWordKeyed(u1, b.word, def);
    assert Get(u1.members, b.word) == Get(u.members, b.word);
  }

  // ---------------------------------------------------------------- the branches

  lemma OnControllerKeeps(lines: seq<string>, i: nat, m: Machine)
    requires i < |lines|
    ensures Keeps(m, OnController(lines, i, m).1)
  {
  }

  /** The first CONTROLLER line reached captures the header: the lines from it up to where
      its parentheses close, and the controller name its first line declares. */
  lemma OnControllerCaptures(lines: seq<string>, i: nat, m: Machine)
    requires i < |lines| && m.ctrlHeader == []
    ensures var r := OnController(lines, i, m);
      r.0 == Capture.ControllerEnd(lines, i) && r.1.ctrlHeader == lines[i..r.0] &&
      r.1.ctrlName == Patterns.ControllerHeader(Strip(lines[i]))
  {
  }

  lemma CloseTagsKeeps(m: Machine)
    ensures Keeps(m, CloseTags(m))
  {
    EmitTagKeeps(m.project, Join(m.tagBuf.parts, " "));
  }

  lemma FlushProgTagsKeeps(m: Machine)
    ensures Keeps(m, FlushProgTags(m))
  {
    EmitProgTagKeeps(m.project, m.flags.curProgram, Join(m.progBuf.parts, " "));
  }

  lemma ProgChunkKeeps(t: string, m: Machine)
    ensures Keeps(m, ProgChunk(t, m))
  {
    EmitProgTagKeeps(m.project, m.flags.curProgram, Join(FeedBuf(m.progBuf, t).parts, " "));
  }

  lemma TagChunkKeeps(t: string, m: Machine)
    ensures Keeps(m, TagChunkStep(t, m))
  {
    EmitTagKeeps(m.project, Join(FeedBuf(m.tagBuf, t).parts, " "));
  }

  lemma OnProgramKeeps(raw: string, m: Machine)
    ensures Keeps(m, OnProgram(raw, m))
  {
    var name := ProgramName(raw);
    var desc := if name != "" then L5kAttributes.GetDesc(raw) else "";
    OpenProgramKeeps(m.project.programs, name, desc);
  }

  lemma PrefixOfAppend(a: string, b: string)
    ensures StartsWith(a + b, a)
  {
    assert (a + b)[..|a|] == a;
  }

  lemma LogAppend(log: seq<string>, n: nat)
    ensures LogGrows(log, log + [UnbalancedHeader(n)])
  {
    PrefixOfAppend(UnbalancedPrefix, Decimal(n));
  }

  lemma LogGrowsRefl(log: seq<string>)
    ensures LogGrows(log, log)
  {
  }

  /** What a DATATYPE line does, with the new UDT and log as plain values. */
  lemma OnDatatypeParts(lines: seq<string>, i: nat, m: Machine) returns (named: bool, n: string, u: Udt)
    requires i < |lines|
    ensures var r := OnDatatype(lines, i, m).1;
      LogGrows(m.log, r.log) && r.ctrlHeader == m.ctrlHeader && r.ctrlName == m.ctrlName &&
      (!named ==> r.project == m.project && r.cur == m.cur) &&
      (named ==> u.name == n && u.members.keys == [] &&
                 r.project == m.project.(udts := Put(m.project.udts, n, u)) && r.cur == CurUdt(n))
  {
    var e := Capture.DatatypeHeaderEnd(lines, i);
    var hdr := lines[i..e];
    var blob := Join(StripEach(hdr), " ");
    LogAppend(m.log, i + 1);
    LogGrowsRefl(m.log);
    var name := Utils.ExtractBlockName(Strip(lines[i]), "DATATYPE");
    named := IsSet(name);
    if named {
      n := name.value;
      var ft := Patterns.FamilyType(blob);
      var u0 := NewUdt(n).(description := L5kAttributes.SetDesc("", blob));
      u := if IsSet(ft) then u0.(familyType := ft.value) else u0;
    } else {
      n := "";
      u := NewUdt("");
    }
  }

  lemma OnDatatypeKeeps(lines: seq<string>, i: nat, m: Machine)
    requires i < |lines|
    ensures Keeps(m, OnDatatype(lines, i, m).1)
  {
    var named, n, u := OnDatatypeParts(lines, i, m);
    if named { UdtPut(m.project, n, u); }
  }

  lemma OnAoiKeeps(t: string, m: Machine)
    ensures Keeps(m, OnAoi(t, m))
  {
    var name := Utils.ExtractBlockName(t, "ADD_ON_INSTRUCTION_DEFINITION");
    if IsSet(name) {
      AoiPut(m.project, name.value, NewAoi(name.value).(description := L5kAttributes.SetDesc("", t)));
    }
  }

  /** What an ENCODED_DATA line does, with the new AOI as a plain value. */
  lemma OnEncodedParts(lines: seq<string>, i: nat, m: Machine) returns (named: bool, n: string, a: Aoi)
    requires i < |lines|
    ensures var r := OnEncoded(lines, i, m).1;
      r.log == m.log && r.ctrlHeader == m.ctrlHeader && r.ctrlName == m.ctrlName &&
      (!named ==> r.project == m.project && r.cur == m.cur) &&
      (named ==> a.name == n && a.parameters.keys == [] && a.localtags.keys == [] &&
                 r.project == m.project.(aois := Put(m.project.aois, n, a)) && r.cur == CurAoi(n))
  {
    var e := Capture.MetaEnd(lines, i + 1);
    var blob := Join(StripEach(lines[i..e]), " ");
    named, n, a := OpenEncodedParts(blob, m);
  }

  lemma OpenEncodedParts(blob: string, m: Machine) returns (named: bool, n: string, a: Aoi)
    ensures var r := OpenEncoded(blob, m);
      r.log == m.log && r.ctrlHeader == m.ctrlHeader && r.ctrlName == m.ctrlName &&
      (!named ==> r.project == m.project && r.cur == m.cur) &&
      (named ==> a.name == n && a.parameters.keys == [] && a.localtags.keys == [] &&
                 r.project == m.project.(aois := Put(m.project.aois, n, a)) && r.cur == CurAoi(n))
  {
    var name := EncodedAoiName(blob);
    named := IsSet(name);
    if named {
      n := name.value;
      a := NewAoi(n).(description := L5kAttributes.SetDesc("", blob));
    } else {
      n := "";
      a := NewAoi("");
    }
  }

  lemma OnEncodedKeeps(lines: seq<string>, i: nat, m: Machine)
    requires i < |lines|
    ensures Keeps(m, OnEncoded(lines, i, m).1)
  {
    var named, n, a := OnEncodedParts(lines, i, m);
    if named { AoiPut(m.project, n, a); }
  }

  /** The UDT a data line leaves behind (the UDT itself when the line declares nothing). */
  function UdtAfterData(u: Udt, t: string, def: string): Udt
  {
    var tf := Patterns.UdtTypeFirst(t);
    if tf.Some? && tf.value.dtype == "SINT" && StartsWith(tf.value.name, HiddenPrefix) then
      AddMember(u, HiddenWord(Get(u.members, tf.value.name), tf.value.name, def))
    else
      match Patterns.UdtBitAlias(t)
      case Some(b) => AddBitAlias(u, b, def)
      case None => if tf.Some? then AddMember(u, TypedMember(tf.value, def)) else u
  }

  lemma UdtAfterDataKeyed(u: Udt, t: string, def: string)
    requires UdtKeyed(u)
    ensures UdtKeyed(UdtAfterData(u, t, def)) && UdtAfterData(u, t, def).name == u.name
  {
    var tf := Patterns.UdtTypeFirst(t);
    if tf.Some? && tf.value.dtype == "SINT" && StartsWith(tf.value.name, HiddenPrefix) {
      HiddenWordInPlace(u, tf.value.name, def);
    } else {
      match Patterns.UdtBitAlias(t)
      case Some(b) => BitAliasKeyed(u, b, def);
      case None =>
        if tf.Some? { AddMemberKeyed(u, TypedMember(tf.value, def)); }
    }
  }

  lemma UdtAfterDataName(u: Udt, t: string, def: string)
    ensures UdtAfterData(u, t, def).name == u.name
  {
  }

  /** A data line in a UDT replaces the current UDT by UdtAfterData of it. */
  lemma OnUdtDataParts(lines: seq<string>, i: nat, t: string, m: Machine) returns (u: Udt)
    requires i < |lines| && m.cur.CurUdt? && m.cur.name in m.project.udts.vals
    ensures u == UdtAfterData(m.project.udts.vals[m.cur.name], t,
                              Capture.BlockText(lines[i..Capture.BlockEnd(lines, i)]))
    ensures OnUdtData(lines, i, t, m).1 == m.(project := m.project.(udts := Put(m.project.udts, m.cur.name, u)))
  {
    var n := m.cur.name;
    var v := m.project.udts.vals[n];
    var def := Capture.BlockText(lines[i..Capture.BlockEnd(lines, i)]);
    u := UdtAfterData(v, t, def);
    var tf := Patterns.UdtTypeFirst(t);
    if !(tf.Some? && tf.value.dtype == "SINT" && StartsWith(tf.value.name, HiddenPrefix)) &&
       Patterns.UdtBitAlias(t).None? && tf.None? {
      assert Put(m.project.udts, n, v) == m.project.udts;
    }
  }

  lemma OnUdtDataKeeps(lines: seq<string>, i: nat, t: string, m: Machine)
    requires i < |lines| && m.cur.CurUdt?
    ensures Keeps(m, OnUdtData(lines, i, t, m).1)
  {
    var n := m.cur.name;
    if n in m.project.udts.vals {
      var v := m.project.udts.vals[n];
      var u := OnUdtDataParts(lines, i, t, m);
      var def := Capture.BlockText(lines[i..Capture.BlockEnd(lines, i)]);
      UdtAfterDataName(v, t, def);
      if Keyed(m.project) {
        assert v.name == n && UdtKeyed(v);
        UdtAfterDataKeyed(v, t, def);
      }
      UdtPut(m.project, n, u);
    }
  }

  /** A parameter line the PARAMETERS pattern does not match changes nothing. */
  lemma OnParamDataSkips(lines: seq<string>, i: nat, t: string, m: Machine)
    requires i < |lines| && m.cur.CurAoi? && Patterns.AoiParam(t).None?
    ensures OnParamData(lines, i, t, m).1 == m
  {
  }

  /** A matching parameter line adds the line's parameter to the current AOI: the matched name
      and type path, the description found in its definition, and as definition the
      declaration capture_block took, DefaultData stripped; the loop goes on after it. */
  lemma OnParamDataAdds(lines: seq<string>, i: nat, t: string, m: Machine) returns (p: AoiParameter)
    requires i < |lines| && m.cur.CurAoi? && m.cur.name in m.project.aois.vals && Patterns.AoiParam(t).Some?
    ensures OnParamData(lines, i, t, m).1 ==
            PutAoi(m, m.cur.name, AddParameter(m.project.aois.vals[m.cur.name], p))
    ensures var e := Capture.BlockEnd(lines, i);
      var def := L5kAttributes.StripAttrs(Capture.BlockText(lines[i..e]));
      OnParamData(lines, i, t, m).0 == e &&
      p.name == Patterns.AoiParam(t).value.name && p.dataType == Patterns.AoiParam(t).value.path &&
      p.description == L5kAttributes.GetDesc(def) && p.definition == Some(def) &&
      !p.isBitAlias && !p.isCorrected
  {
    var np := Patterns.AoiParam(t).value;
    var e := Capture.BlockEnd(lines, i);
    var def := L5kAttributes.StripAttrs(Capture.BlockText(lines[i..e]));
    p := AoiParameter(np.name, np.path, L5kAttributes.GetDesc(def), Some(def), false, false);
  }

  lemma OnParamDataKeeps(lines: seq<string>, i: nat, t: string, m: Machine)
    requires i < |lines| && m.cur.CurAoi?
    ensures Keeps(m, OnParamData(lines, i, t, m).1)
  {
    var n := m.cur.name;
    if n in m.project.aois.vals && Patterns.AoiParam(t).Some? {
      var a := m.project.aois.vals[n];
      var p := OnParamDataAdds(lines, i, t, m);
      if Keyed(m.project) { AddParameterKeyed(a, p); }
      AoiPut(m.project, n, AddParameter(a, p));
    } else if n in m.project.aois.vals {
      OnParamDataSkips(lines, i, t, m);
    }
  }

  /** A local tag line the LOCAL_TAGS pattern does not match changes nothing. */
  lemma OnLocalDataSkips(lines: seq<string>, i: nat, t: string, m: Machine)
    requires i < |lines| && m.cur.CurAoi? && Patterns.AoiLocalTag(t).None?
    ensures OnLocalData(lines, i, t, m).1 == m
  {
  }

  /** A matching local tag line adds the line's local tag to the current AOI: the matched name
      and type, the description found in its definition, and as definition the declaration
      capture_block took, DefaultData stripped; the loop goes on after it. */
  lemma OnLocalDataAdds(lines: seq<string>, i: nat, t: string, m: Machine) returns (l: AoiLocalTag)
    requires i < |lines| && m.cur.CurAoi? && m.cur.name in m.project.aois.vals && Patterns.AoiLocalTag(t).Some?
    ensures OnLocalData(lines, i, t, m).1 ==
            PutAoi(m, m.cur.name, AddLocalTag(m.project.aois.vals[m.cur.name], l))
    ensures var e := Capture.BlockEnd(lines, i);
      var def := L5kAttributes.StripAttrs(Capture.BlockText(lines[i..e]));
      OnLocalData(lines, i, t, m).0 == e &&
      l.name == Patterns.AoiLocalTag(t).value.name && l.dataType == Patterns.AoiLocalTag(t).value.path &&
      l.description == L5kAttributes.GetDesc(def) && l.definition == Some(def)
  {
    var np := Patterns.AoiLocalTag(t).value;
    var e := Capture.BlockEnd(lines, i);
    var def := L5kAttributes.StripAttrs(Capture.BlockText(lines[i..e]));
    l := AoiLocalTag(np.name, np.path, L5kAttributes.GetDesc(def), Some(def));
  }

  lemma OnLocalDataKeeps(lines: seq<string>, i: nat, t: string, m: Machine)
    requires i < |lines| && m.cur.CurAoi?
    ensures Keeps(m, OnLocalData(lines, i, t, m).1)
  {
    var n := m.cur.name;
    if n in m.project.aois.vals && Patterns.AoiLocalTag(t).Some? {
      var a := m.project.aois.vals[n];
      var l := OnLocalDataAdds(lines, i, t, m);
      if Keyed(m.project) { AddLocalTagKeyed(a, l); }
      AoiPut(m.project, n, AddLocalTag(a, l));
    } else if n in m.project.aois.vals {
      OnLocalDataSkips(lines, i, t, m);
    }
  }

  // ---------------------------------------------------------------- the loop

  /** Every branch keeps the invariants. */
  lemma DispatchKeeps(lines: seq<string>, i: nat, t: string, k: LineKind, m: Machine)
    requires i < |lines|
    requires k == UdtData ==> m.cur.CurUdt?
    requires k == ParamData || k == LocalData ==> m.cur.CurAoi?
    ensures Keeps(m, Dispatch(lines, i, t, k, m).1)
  {
    match k
    case ControllerLine => OnControllerKeeps(lines, i, m);
    case TagClose => CloseTagsKeeps(m);
    case ProgTagClose => FlushProgTagsKeeps(m);
    case DatatypeLine => OnDatatypeKeeps(lines, i, m);
    case AoiLine => OnAoiKeeps(t, m);
    case EncodedLine => OnEncodedKeeps(lines, i, m);
    case ProgramLine => OnProgramKeeps(lines[i], m);
    case EndProgram => FlushProgTagsKeeps(m);
    case ProgTagChunk => ProgChunkKeeps(t, m);
    case TagChunk => TagChunkKeeps(t, m);
    case UdtData => OnUdtDataKeeps(lines, i, t, m);
    case ParamData => OnParamDataKeeps(lines, i, t, m);
    case LocalData => OnLocalDataKeeps(lines, i, t, m);
    case _ =>
  }

  /** Only a CONTROLLER line touches the captured controller header. */
  lemma DispatchCtrl(lines: seq<string>, i: nat, t: string, k: LineKind, m: Machine)
    requires i < |lines| && k != ControllerLine
    requires k == UdtData ==> m.cur.CurUdt?
    requires k == ParamData || k == LocalData ==> m.cur.CurAoi?
    ensures var r := Dispatch(lines, i, t, k, m).1;
      r.ctrlHeader == m.ctrlHeader && r.ctrlName == m.ctrlName
  {
  }

  lemma StepKeeps(lines: seq<string>, i: nat, m: Machine)
    requires i < |lines|
    ensures Keeps(m, Step(lines, i, m).1)
    ensures var t := Strip(lines[i]);
      Classify(t, m.flags, m.cur) != ControllerLine ==>
        Step(lines, i, m).1.ctrlHeader == m.ctrlHeader && Step(lines, i, m).1.ctrlName == m.ctrlName
  {
    var t := Strip(lines[i]);
    var k := Classify(t, m.flags, m.cur);
    DispatchKeeps(lines, i, t, k, m);
    if k != ControllerLine { DispatchCtrl(lines, i, t, k, m); }
  }

  /** The whole loop keeps the invariants: from a state where the current structure is held
      by the project and every entry is stored under its own name, so is the final state;
      the dictionaries only grew, the header is the one the loop started with, and the log
      only gained unbalanced-header entries. */
  lemma {:induction false} RunKeeps(lines: seq<string>, i: nat, m: Machine)
    requires i <= |lines|
    ensures Keeps(m, Run(lines, i, m))
    decreases |lines| - i
  {
    if i == |lines| {
      KeepsRefl(m);
    } else {
      var r := Step(lines, i, m);
      StepKeeps(lines, i, m);
      RunKeeps(lines, r.0, r.1);
      KeepsTrans(m, r.1, Run(lines, r.0, r.1));
    }
  }

  /** The controller header the loop ends with: the one it started with, or, when that was
      empty, the lines of some CONTROLLER line at or after i up to where its parentheses close,
      with the name that line declares (OnControllerCaptures says it is the first one). */
  predicate CapturedFrom(lines: seq<string>, i: nat, m: Machine, r: Machine)
  {
    (r.ctrlHeader == m.ctrlHeader && r.ctrlName == m.ctrlName) ||
    (m.ctrlHeader == [] &&
     exists j :: i <= j < |lines| && StartsWith(Strip(lines[j]), "CONTROLLER") &&
       r.ctrlHeader == lines[j..Capture.ControllerEnd(lines, j)] &&
       r.ctrlName == Patterns.ControllerHeader(Strip(lines[j])))
  }

  lemma StepCaptures(lines: seq<string>, i: nat, m: Machine)
    requires i < |lines|
    ensures CapturedFrom(lines, i, m, Step(lines, i, m).1)
  {
    var t := Strip(lines[i]);
    var k := Classify(t, m.flags, m.cur);
    StepKeeps(lines, i, m);
    if k == ControllerLine && m.ctrlHeader == [] {
      OnControllerCaptures(lines, i, m);
      assert Step(lines, i, m) == OnController(lines, i, m);
      CapturedAt(lines, i, i, m, Step(lines, i, m).1);
    }
  }

  lemma CapturedAt(lines: seq<string>, i: nat, j: nat, m: Machine, r: Machine)
    requires i <= j < |lines| && StartsWith(Strip(lines[j]), "CONTROLLER") && m.ctrlHeader == []
    requires r.ctrlHeader == lines[j..Capture.ControllerEnd(lines, j)]
    requires r.ctrlName == Patterns.ControllerHeader(Strip(lines[j]))
    ensures CapturedFrom(lines, i, m, r)
  {
  }

  lemma {:induction false} RunCaptures(lines: seq<string>, i: nat, m: Machine)
    requires i <= |lines|
    ensures CapturedFrom(lines, i, m, Run(lines, i, m))
    decreases |lines| - i
  {
    if i < |lines| {
      var r := Step(lines, i, m);
      StepCaptures(lines, i, m);
      StepKeeps(lines, i, m);
      RunCaptures(lines, r.0, r.1);
      RunKeeps(lines, r.0, r.1);
    }
  }
}
