/** The project model of models.py (UDTs with their members, AOIs with parameters and
    local tags, controller and program tags) and its L5K renderers (`to_l5k`).
    Entities are values; `add_*` returns the updated entity. */
module Models {
  import opened Text
  import opened OrderedMaps
  import opened Patterns

  // ---------------------------------------------------------------- entities

  /** A UDT member; a hidden SINT word keeps its BIT aliases in `children`. */
  datatype UdtMember = UdtMember(
    name: string, dataType: string, description: string, definition: Option<string>,
    isHiddenParent: bool, isBit: bool, parentWord: Option<string>, bitIndex: Option<nat>,
    nameDims: string, children: OrderedMap<UdtMember>)

  datatype Udt = Udt(name: string, description: string, familyType: string,
                     members: OrderedMap<UdtMember>)

  datatype AoiParameter = AoiParameter(
    name: string, dataType: string, description: string, definition: Option<string>,
    isBitAlias: bool, isCorrected: bool)

  datatype AoiLocalTag = AoiLocalTag(name: string, dataType: string, description: string,
                                     definition: Option<string>)

  datatype Aoi = Aoi(name: string, description: string,
                     parameters: OrderedMap<AoiParameter>, localtags: OrderedMap<AoiLocalTag>)

  datatype Tag = Tag(name: string, dataType: string, description: string, definition: Option<string>)

  datatype Program = Program(name: string, description: string, tags: OrderedMap<Tag>)

  /** L5KProject; `header` is the content of the L5KHeader, when there is one. */
  datatype Project = Project(header: Option<string>, tags: OrderedMap<Tag>, udts: OrderedMap<Udt>,
                             aois: OrderedMap<Aoi>, programs: OrderedMap<Program>)

  /** SelectionDict of l5k_types.py; a key the dictionary lacks is an empty set or map. */
  datatype Selection = Selection(
    udts: set<string>, udtMembers: map<string, set<string>>, aois: set<string>,
    aoiParameters: map<string, set<string>>, aoiLocaltags: map<string, set<string>>,
    tags: set<string>, programTags: map<string, set<string>>)

  /** `d.get(k, set())` on one of the selection's per-parent maps. */
  function Chosen(m: map<string, set<string>>, k: string): set<string>
  {
    if k in m then m[k] else {}
  }

  function NewUdt(name: string): (r: Udt)
    ensures r.name == name && r.description == "" && r.familyType == "NoFamily"
    ensures r.members.keys == []
  {
    Udt(name, "", "NoFamily", Empty())
  }

  function NewAoi(name: string): (r: Aoi)
    ensures r.name == name && r.description == ""
    ensures r.parameters.keys == [] && r.localtags.keys == []
  {
    Aoi(name, "", Empty(), Empty())
  }

  function EmptyProject(): (r: Project)
    ensures r.header.None? && r.tags.keys == [] && r.udts.keys == [] && r.aois.keys == []
    ensures r.programs.keys == []
  {
    Project(None, Empty(), Empty(), Empty(), Empty())
  }

  // ---------------------------------------------------------------- add_*

  /** UDT.add_member: stored under the member's name; an existing entry is overwritten in
      place, a new one goes last, nothing else changes. */
  function AddMember(u: Udt, m: UdtMember): (r: Udt)
    ensures Get(r.members, m.name) == Some(m)
    ensures forall k :: k != m.name ==> Get(r.members, k) == Get(u.members, k)
    ensures HasKey(u.members, m.name) ==> r.members.keys == u.members.keys
    ensures !HasKey(u.members, m.name) ==> r.members.keys == u.members.keys + [m.name]
    ensures r.name == u.name && r.description == u.description && r.familyType == u.familyType
  {
    u.(members := Put(u.members, m.name, m))
  }

  /** UDTMember.add_child. */
  function AddChild(parent: UdtMember, c: UdtMember): (r: UdtMember)
    ensures Get(r.children, c.name) == Some(c)
    ensures forall k :: k != c.name ==> Get(r.children, k) == Get(parent.children, k)
    ensures HasKey(parent.children, c.name) ==> r.children.keys == parent.children.keys
    ensures !HasKey(parent.children, c.name) ==> r.children.keys == parent.children.keys + [c.name]
    ensures r == parent.(children := r.children)
  {
    parent.(children := Put(parent.children, c.name, c))
  }

  /** AOI.add_parameter. */
  function AddParameter(a: Aoi, p: AoiParameter): (r: Aoi)
    ensures Get(r.parameters, p.name) == Some(p)
    ensures forall k :: k != p.name ==> Get(r.parameters, k) == Get(a.parameters, k)
    ensures HasKey(a.parameters, p.name) ==> r.parameters.keys == a.parameters.keys
    ensures !HasKey(a.parameters, p.name) ==> r.parameters.keys == a.parameters.keys + [p.name]
    ensures r == a.(parameters := r.parameters)
  {
    a.(parameters := Put(a.parameters, p.name, p))
  }

  /** AOI.add_localtag. */
  function AddLocalTag(a: Aoi, t: AoiLocalTag): (r: Aoi)
    ensures Get(r.localtags, t.name) == Some(t)
    ensures forall k :: k != t.name ==> Get(r.localtags, k) == Get(a.localtags, k)
    ensures HasKey(a.localtags, t.name) ==> r.localtags.keys == a.localtags.keys
    ensures !HasKey(a.localtags, t.name) ==> r.localtags.keys == a.localtags.keys + [t.name]
    ensures r == a.(localtags := r.localtags)
  {
    a.(localtags := Put(a.localtags, t.name, t))
  }

  /** UDTMember.display_name: the base name with any array declarator captured on it. */
  function DisplayName(m: UdtMember): (r: string)
    ensures StartsWith(r, m.name) && |r| == |m.name| + |m.nameDims|
    ensures m.nameDims == "" ==> r == m.name
  {
    m.name + m.nameDims
  }

  // ---------------------------------------------------------------- line helpers

  /** Python truthiness of an optional definition: present and non-empty. */
  predicate HasText(d: Option<string>) { d.Some? && d.value != "" }

  /** `def_text or ""`. */
  function TextOf(d: Option<string>): string { if d.Some? then d.value else "" }

  /** `l.strip() == ""`, written as a scan (BlankStrip relates the two). */
  predicate Blank(l: string)
  {
    l == [] || (IsSpace(l[0]) && Blank(l[1..]))
  }

  lemma {:induction false} BlankStrip(l: string)
    ensures Blank(l) <==> Strip(l) == ""
  {
    if l != [] && IsSpace(l[0]) {
      BlankStrip(l[1..]);
    }
  }

  /** The lines whose strip() is non-empty, in order. */
  function KeepNonBlank(ls: seq<string>): seq<string>
  {
    if ls == [] then []
    else if Blank(ls[0]) then KeepNonBlank(ls[1..])
    else [ls[0]] + KeepNonBlank(ls[1..])
  }

  /** KeepNonBlank keeps exactly the non-blank lines. */
  lemma {:induction false} KeepNonBlankSpec(ls: seq<string>)
    ensures var r := KeepNonBlank(ls);
      |r| <= |ls| &&
      (forall i :: 0 <= i < |r| ==> !Blank(r[i]) && r[i] in ls) &&
      (forall l :: l in ls && !Blank(l) ==> l in r)
  {
    if ls != [] {
      var rest := KeepNonBlank(ls[1..]);
      KeepNonBlankSpec(ls[1..]);
      assert forall l :: l in ls[1..] ==> l in ls;
      assert forall l :: l in ls ==> l == ls[0] || l in ls[1..];
      if !Blank(ls[0]) {
        var r := [ls[0]] + rest;
        assert forall i :: 1 <= i < |r| ==> r[i] == rest[i - 1];
      }
    }
  }

  /** KeepNonBlank works line by line: the lines of a + b are those of a, then those of b,
      and one line is kept exactly when it is not blank. Together these fix the order and
      the number of copies of every kept line. */
  lemma {:induction false} KeepNonBlankConcat(a: seq<string>, b: seq<string>)
    ensures KeepNonBlank(a + b) == KeepNonBlank(a) + KeepNonBlank(b)
    ensures forall l :: KeepNonBlank([l]) == if Blank(l) then [] else [l]
  {
    forall l ensures KeepNonBlank([l]) == if Blank(l) then [] else [l] {
      assert [l][1..] == [];
    }
    if a == [] {
      assert a + b == b;
    } else {
      assert (a + b)[0] == a[0];
      assert (a + b)[1..] == a[1..] + b;
      KeepNonBlankConcat(a[1..], b);
    }
  }

  /** models._dedent_lines: the non-blank lines of the definition. */
  function NonBlankLines(text: string): seq<string>
  {
    KeepNonBlank(SplitLines(text))
  }

  /** `indent * level`. */
  function Prefix(indent: string, level: nat): string { Repeat(indent, level) }

  /** models._indent_lines. */
  function IndentLines(lines: seq<string>, level: nat, indent: string): seq<string>
  {
    if lines == [] then []
    else [Prefix(indent, level) + RStrip(lines[0])] + IndentLines(lines[1..], level, indent)
  }

  /** _indent_lines keeps the line count and puts the prefix before each right-trimmed line. */
  lemma {:induction false} IndentLinesSpec(lines: seq<string>, level: nat, indent: string)
    ensures var r := IndentLines(lines, level, indent);
      |r| == |lines| && forall i :: 0 <= i < |r| ==> r[i] == Prefix(indent, level) + RStrip(lines[i])
  {
    if lines != [] {
      IndentLinesSpec(lines[1..], level, indent);
    }
  }

  /** A line that ends in a non-blank character is its own right-trim. */
  lemma RStripKeeps(s: string)
    requires s != [] && !IsSpace(s[|s| - 1])
    ensures RStrip(s) == s
  {
  }

  /** Indenting distributes over concatenation of line lists. */
  lemma {:induction false} IndentLinesAppend(a: seq<string>, b: seq<string>, level: nat, indent: string)
    ensures IndentLines(a + b, level, indent) == IndentLines(a, level, indent) + IndentLines(b, level, indent)
  {
    if a == [] {
      assert a + b == b;
    } else {
      assert (a + b)[1..] == a[1..] + b;
      IndentLinesAppend(a[1..], b, level, indent);
    }
  }

  /** Indenting one line that ends in ';'. */
  lemma IndentStatement(s: string, level: nat, indent: string)
    requires s != [] && s[|s| - 1] == ';'
    ensures IndentLines([s], level, indent) == [Prefix(indent, level) + s]
  {
    RStripKeeps(s);
    assert [s][1..] == [];
  }

  /** `_indent_lines(_dedent_lines(definition), level, indent)`, the rendering of a stored
      definition shared by members, parameters and local tags. */
  function DefinitionLines(d: string, level: nat, indent: string): seq<string>
  {
    IndentLines(NonBlankLines(d), level, indent)
  }

  /** A stored definition renders as its non-blank lines, in order, each right-trimmed behind
      the prefix; no non-blank line is lost. */
  lemma DefinitionLinesSpec(d: string, level: nat, indent: string)
    ensures var nb := NonBlankLines(d);
      var r := DefinitionLines(d, level, indent);
      |r| == |nb| &&
      (forall i :: 0 <= i < |r| ==>
         r[i] == Prefix(indent, level) + RStrip(nb[i]) && !Blank(nb[i]) && nb[i] in SplitLines(d)) &&
      (forall l :: l in SplitLines(d) && !Blank(l) ==> l in nb)
  {
    KeepNonBlankSpec(SplitLines(d));
    IndentLinesSpec(NonBlankLines(d), level, indent);
  }

  /** The line lists of a sequence of entities, concatenated in order. */
  function Flatten(xs: seq<seq<string>>): (r: seq<string>)
  {
    if xs == [] then [] else Flatten(xs[..|xs| - 1]) + xs[|xs| - 1]
  }

  /** One round of `lines.extend(part)`: the output so far gains the next part. */
  lemma FlattenStep(init: seq<string>, xs: seq<seq<string>>, i: nat, lines: seq<string>, next: seq<string>)
    requires i < |xs| && next == xs[i]
    requires lines == init + Flatten(xs[..i])
    ensures lines + next == init + Flatten(xs[..i + 1])
  {
    assert xs[..i + 1][..i] == xs[..i];
  }

  /** After the last round the output holds every part. */
  lemma FlattenDone(init: seq<string>, xs: seq<seq<string>>, lines: seq<string>)
    requires lines == init + Flatten(xs[..|xs|])
    ensures lines == init + Flatten(xs)
  {
    assert xs[..|xs|] == xs;
  }

  // ---------------------------------------------------------------- UDTMember.to_l5k

  /** The type-first statement a member without definition falls back to. */
  function MemberStatement(m: UdtMember): string { m.dataType + " " + m.name + ";" }

  /** UDTMember.to_l5k. */
  function MemberLines(m: UdtMember, level: nat, indent: string): seq<string>
  {
    if HasText(m.definition) then DefinitionLines(m.definition.value, level, indent)
    else IndentLines([MemberStatement(m)], level, indent)
  }

  /** Without a definition a member renders as exactly one `<type> <name>;` line; with one,
      as its non-blank lines, each behind the prefix and right-trimmed. */
  lemma MemberLinesCases(m: UdtMember, level: nat, indent: string)
    ensures !HasText(m.definition) ==>
      MemberLines(m, level, indent) == [Prefix(indent, level) + m.dataType + " " + m.name + ";"]
    ensures HasText(m.definition) ==>
      var nb := NonBlankLines(m.definition.value);
      var r := MemberLines(m, level, indent);
      |r| == |nb| &&
      forall i :: 0 <= i < |r| ==> r[i] == Prefix(indent, level) + RStrip(nb[i]) && !Blank(nb[i])
  {
    if !HasText(m.definition) {
      IndentStatement(MemberStatement(m), level, indent);
      assert Prefix(indent, level) + MemberStatement(m) == Prefix(indent, level) + m.dataType + " " + m.name + ";";
    } else {
      DefinitionLinesSpec(m.definition.value, level, indent);
    }
  }

  // ---------------------------------------------------------------- UDT.to_l5k

  /** The attribute list of a DATATYPE header: Description only when non-empty, then the
      FamilyType, NoFamily when unset. */
  function UdtAttrs(u: Udt): (r: seq<string>)
    ensures |r| == (if u.description != "" then 2 else 1)
    ensures r[|r| - 1] == "FamilyType := " + (if u.familyType == "" then "NoFamily" else u.familyType)
    ensures u.description != "" ==> r[0] == "Description := \"" + u.description + "\""
  {
    (if u.description != "" then ["Description := \"" + u.description + "\""] else []) +
    ["FamilyType := " + (if u.familyType == "" then "NoFamily" else u.familyType)]
  }

  /** `<indent>DATATYPE <name> (<attrs>)`, shared by UDT.to_l5k and the source-line filter. */
  function UdtHeader(u: Udt, indent: string): string
  {
    indent + "DATATYPE " + u.name + " (" + Join(UdtAttrs(u), ", ") + ")"
  }

  /** Each member's to_l5k, in order. */
  function MemberParts(ms: seq<UdtMember>, level: nat, indent: string): seq<seq<string>>
  {
    if ms == [] then [] else [MemberLines(ms[0], level, indent)] + MemberParts(ms[1..], level, indent)
  }

  lemma {:induction false} MemberPartsAt(ms: seq<UdtMember>, level: nat, indent: string, i: nat)
    requires i < |ms|
    ensures |MemberParts(ms, level, indent)| == |ms|
    ensures MemberParts(ms, level, indent)[i] == MemberLines(ms[i], level, indent)
  {
    if i > 0 { MemberPartsAt(ms[1..], level, indent, i - 1); }
    else if |ms| > 1 { MemberPartsAt(ms[1..], level, indent, 0); }
  }

  lemma {:induction false} MemberPartsLength(ms: seq<UdtMember>, level: nat, indent: string)
    ensures |MemberParts(ms, level, indent)| == |ms|
  {
    if ms != [] { MemberPartsLength(ms[1..], level, indent); }
  }

  function MembersLines(ms: seq<UdtMember>, level: nat, indent: string): seq<string>
  {
    Flatten(MemberParts(ms, level, indent))
  }

  /** UDT.to_l5k as a value. */
  function UdtLines(u: Udt, indent: string): seq<string>
  {
    [UdtHeader(u, indent)] + MembersLines(Values(u.members), 2, indent) + [indent + "END_DATATYPE"]
  }

  /** UDT.to_l5k: the header, each member's lines in insertion order, END_DATATYPE. */
  method RenderUdt(u: Udt, indent: string) returns (lines: seq<string>)
    ensures lines == UdtLines(u, indent)
  {
    var ms := Values(u.members);
    ghost var parts := MemberParts(ms, 2, indent);
    MemberPartsLength(ms, 2, indent);
    lines := [UdtHeader(u, indent)];
    var i := 0;
    while i < |ms|
      invariant 0 <= i <= |ms|
      invariant lines == [UdtHeader(u, indent)] + Flatten(parts[..i])
    {
      MemberPartsAt(ms, 2, indent, i);
      FlattenStep([UdtHeader(u, indent)], parts, i, lines, MemberLines(ms[i], 2, indent));
      lines := lines + MemberLines(ms[i], 2, indent);
      i := i + 1;
    }
    FlattenDone([UdtHeader(u, indent)], parts, lines);
    lines := lines + [indent + "END_DATATYPE"];
  }

  /** Adding a member under a new name appends exactly its lines before END_DATATYPE. */
  lemma UdtLinesAddMember(u: Udt, m: UdtMember, indent: string)
    requires !HasKey(u.members, m.name)
    ensures var before := UdtLines(u, indent);
      UdtLines(AddMember(u, m), indent) ==
        before[..|before| - 1] + MemberLines(m, 2, indent) + [indent + "END_DATATYPE"]
  {
    var ms := Values(u.members);
    ValuesPutNew(u.members, m.name, m);
    MembersLinesSnoc(ms, m, 2, indent);
    InsertBeforeLast([UdtHeader(u, indent)], MembersLines(ms, 2, indent), MemberLines(m, 2, indent),
                     indent + "END_DATATYPE");
  }

  lemma MembersLinesSnoc(ms: seq<UdtMember>, m: UdtMember, level: nat, indent: string)
    ensures MembersLines(ms + [m], level, indent) == MembersLines(ms, level, indent) + MemberLines(m, level, indent)
  {
    MemberPartsSnoc(ms, m, level, indent);
    FlattenSnoc(MemberParts(ms, level, indent), MemberLines(m, level, indent));
  }

  lemma InsertBeforeLast(h: seq<string>, a: seq<string>, x: seq<string>, e: string)
    ensures var before := h + a + [e];
      h + (a + x) + [e] == before[..|before| - 1] + x + [e]
  {
    var before := h + a + [e];
    assert before[..|before| - 1] == h + a;
  }

  /** Appending one part to the list appends its lines to the flattening. */
  lemma FlattenSnoc(ps: seq<seq<string>>, x: seq<string>)
    ensures Flatten(ps + [x]) == Flatten(ps) + x
  {
    assert (ps + [x])[..|ps|] == ps;
  }

  lemma {:induction false} MemberPartsSnoc(ms: seq<UdtMember>, m: UdtMember, level: nat, indent: string)
    ensures MemberParts(ms + [m], level, indent) == MemberParts(ms, level, indent) + [MemberLines(m, level, indent)]
  {
    if ms == [] {
      assert [m][1..] == [];
    } else {
      assert (ms + [m])[1..] == ms[1..] + [m];
      MemberPartsSnoc(ms[1..], m, level, indent);
    }
  }

  /** The header line carries Description exactly when the UDT has one, and always ends
      with the FamilyType attribute. */
  lemma UdtHeaderAttrs(u: Udt, indent: string)
    ensures var lead := indent + "DATATYPE " + u.name + " (";
      var h := UdtHeader(u, indent);
      var ft := if u.familyType == "" then "NoFamily" else u.familyType;
      StartsWith(h, lead) &&
      (StartsWith(h[|lead|..], "Description := \"") <==> u.description != "") &&
      EndsWith(h, "FamilyType := " + ft + ")")
  {
    var lead := indent + "DATATYPE " + u.name + " (";
    var attrs := UdtAttrs(u);
    var ft := if u.familyType == "" then "NoFamily" else u.familyType;
    var body := Join(attrs, ", ") + ")";
    var h := UdtHeader(u, indent);
    Assoc(lead, Join(attrs, ", "), ")");
    AppendParts(lead, body, h);
    var key := "Description := \"";
    if u.description != "" {
      PrefixOfAppend(key, u.description);
      PrefixExtend(key + u.description, "\"", key);
      PrefixExtend(attrs[0], ", ", key);
      PrefixExtend(attrs[0] + ", ", Join(attrs[1..], ", "), key);
      PrefixExtend(Join(attrs, ", "), ")", key);
    } else {
      FirstDiffers(body, key);
    }
    JoinEndsWith(attrs, ", ");
    EndsWithExtend(Join(attrs, ", "), attrs[|attrs| - 1], ")");
    EndsWithPrepend(lead, body, "FamilyType := " + ft + ")");
  }

  lemma Assoc(a: string, b: string, c: string)
    ensures (a + b) + c == a + (b + c)
  {
  }

  lemma AppendParts(a: string, b: string, s: string)
    requires s == a + b
    ensures StartsWith(s, a) && s[|a|..] == b
  {
    assert s[..|a|] == a;
  }

  lemma PrefixOfAppend(p: string, x: string)
    ensures StartsWith(p + x, p)
  {
    assert (p + x)[..|p|] == p;
  }

  lemma PrefixExtend(a: string, b: string, p: string)
    requires StartsWith(a, p)
    ensures StartsWith(a + b, p)
  {
    assert (a + b)[..|p|] == a[..|p|];
  }

  lemma FirstDiffers(s: string, p: string)
    requires s != [] && p != [] && s[0] != p[0]
    ensures !StartsWith(s, p)
  {
    if |p| <= |s| { assert s[..|p|][0] == s[0]; }
  }

  lemma EndsWithExtend(s: string, p: string, t: string)
    requires EndsWith(s, p)
    ensures EndsWith(s + t, p + t)
  {
    assert (s + t)[|s + t| - |p + t|..] == s[|s| - |p|..] + t;
  }

  lemma EndsWithPrepend(a: string, s: string, p: string)
    requires EndsWith(s, p)
    ensures EndsWith(a + s, p)
  {
    assert (a + s)[|a + s| - |p|..] == s[|s| - |p|..];
  }

  /** A non-empty join ends with its last part. */
  lemma JoinEndsWith(parts: seq<string>, sep: string)
    requires parts != []
    ensures EndsWith(Join(parts, sep), parts[|parts| - 1])
  {
    if |parts| > 1 {
      JoinEndsWith(parts[1..], sep);
      assert Join(parts, sep) == (parts[0] + sep) + Join(parts[1..], sep);
    }
  }

  // ---------------------------------------------------------------- AOIParameter.to_l5k

  /** The attribute group of `^\s*(\w+)\s+(OF|:)\s+([\w.:]+)\s*\((.*)\)\s*;?\s*$` (DOTALL),
      the parameter header pattern of models.py. */
  function ParamHeaderAttrs(s: string): Option<string>
  {
    var x := LStrip(s);
    var n := Run(x, Word);
    if n == [] then None else ParamAfterName(x[|n|..])
  }

  /** `\s+(OF|:)\s+` after the name. */
  function ParamAfterName(y: string): Option<string>
  {
    var w := LStrip(y);
    if |w| == |y| then None
    else if StartsWith(w, "OF") then ParamAfterCat(w[2..])
    else if StartsWith(w, ":") then ParamAfterCat(w[1..])
    else None
  }

  /** `\s+([\w.:]+)\s*\(` after the category. */
  function ParamAfterCat(z: string): Option<string>
  {
    var v := LStrip(z);
    if |v| == |z| then None
    else
      var rhs := Run(v, Path);
      if rhs == [] then None
      else
        var u := LStrip(v[|rhs|..]);
        if u == [] || u[0] != '(' then None else AttrsGroup(u[1..])
  }

  /** `(.*)\)\s*;?\s*$`: the greedy group ends at the last ')' that only blanks and at most
      one ';' follow. */
  function AttrsGroup(t: string): (r: Option<string>)
    ensures r.Some? ==> StartsWith(t, r.value) && |r.value| < |t| && t[|r.value|] == ')'
  {
    var q := RStrip(t);
    if q != [] && q[|q| - 1] == ')' then Some(t[..|q| - 1])
    else if q != [] && q[|q| - 1] == ';' then
      var q2 := RStrip(q[..|q| - 1]);
      if q2 != [] && q2[|q2| - 1] == ')' then Some(t[..|q2| - 1]) else None
    else None
  }

  /** The attribute text a bit-alias parameter keeps: the group of its stripped definition. */
  function SalvagedAttrs(p: AoiParameter): string
  {
    if HasText(p.definition) then
      match ParamHeaderAttrs(Strip(p.definition.value))
      case Some(a) => a
      case None => ""
    else ""
  }

  /** The attribute lines of `_emit_plain_bool`, each behind `level + 1` indents. */
  function PlainBoolBody(body: seq<string>, level: nat, indent: string): seq<string>
  {
    if body == [] then []
    else
      var last := body[|body| - 1];
      PlainBoolBody(body[..|body| - 1], level, indent) +
        (if last != "" then [Prefix(indent, level + 1) + RStrip(last)] else [])
  }

  /** The `<name> : BOOL (` ... `);` block around the attribute lines. */
  function BoolBlock(name: string, body: seq<string>, level: nat, indent: string): seq<string>
  {
    [Prefix(indent, level) + name + " : BOOL ("] +
    PlainBoolBody(body, level, indent) +
    [Prefix(indent, level) + ");"]
  }

  /** AOIParameter._emit_plain_bool as a value. */
  function PlainBoolLines(p: AoiParameter, level: nat, indent: string): seq<string>
  {
    BoolBlock(p.name, NonBlankLines(SalvagedAttrs(p)), level, indent)
  }

  /** AOIParameter._emit_plain_bool: salvage the attribute text, then write the block. */
  method EmitPlainBool(p: AoiParameter, level: nat, indent: string) returns (out: seq<string>)
    ensures out == PlainBoolLines(p, level, indent)
  {
    var body := NonBlankLines(SalvagedAttrs(p));
    out := EmitBoolBlock(p.name, body, level, indent);
  }

  /** The output loop of _emit_plain_bool: the opening line, every non-empty attribute
      line right-trimmed one level deeper, the closing line. */
  method EmitBoolBlock(name: string, body: seq<string>, level: nat, indent: string) returns (out: seq<string>)
    ensures out == BoolBlock(name, body, level, indent)
  {
    var head := [Prefix(indent, level) + name + " : BOOL ("];
    out := head;
    var i := 0;
    while i < |body|
      invariant 0 <= i <= |body|
      invariant out == head + PlainBoolBody(body[..i], level, indent)
    {
      PlainBoolStep(head, body, i, level, indent, out);
      var a := body[i];
      if a != "" {
        out := out + [Prefix(indent, level + 1) + RStrip(a)];
      }
      i := i + 1;
    }
    assert body[..i] == body;
    out := out + [Prefix(indent, level) + ");"];
  }

  /** One round of the attribute loop. */
  lemma PlainBoolStep(head: seq<string>, body: seq<string>, i: nat, level: nat, indent: string, out: seq<string>)
    requires i < |body| && out == head + PlainBoolBody(body[..i], level, indent)
    ensures out + (if body[i] != "" then [Prefix(indent, level + 1) + RStrip(body[i])] else []) ==
      head + PlainBoolBody(body[..i + 1], level, indent)
  {
    assert body[..i + 1][..i] == body[..i];
  }

  /** Every non-blank attribute line gives exactly one body line, in order. */
  lemma {:induction false} PlainBoolBodyAll(body: seq<string>, level: nat, indent: string)
    requires forall i :: 0 <= i < |body| ==> !Blank(body[i])
    ensures var r := PlainBoolBody(body, level, indent);
      |r| == |body| && forall i :: 0 <= i < |r| ==> r[i] == Prefix(indent, level + 1) + RStrip(body[i])
  {
    if body != [] {
      var init := body[..|body| - 1];
      var last := body[|body| - 1];
      assert forall i :: 0 <= i < |init| ==> init[i] == body[i];
      PlainBoolBodyAll(init, level, indent);
      assert !Blank(last);
      assert last != "";
      var r0 := PlainBoolBody(init, level, indent);
      var r := PlainBoolBody(body, level, indent);
      assert r == r0 + [Prefix(indent, level + 1) + RStrip(last)];
    }
  }

  /** A bit-alias parameter renders as `<name> : BOOL (`, one line per non-blank attribute
      line of its definition, and `);`. */
  lemma PlainBoolShape(p: AoiParameter, level: nat, indent: string)
    ensures var body := NonBlankLines(SalvagedAttrs(p));
      var r := PlainBoolLines(p, level, indent);
      |r| == |body| + 2 &&
      r[0] == Prefix(indent, level) + p.name + " : BOOL (" &&
      r[|r| - 1] == Prefix(indent, level) + ");" &&
      forall i :: 0 < i < |r| - 1 ==> r[i] == Prefix(indent, level + 1) + RStrip(body[i - 1])
  {
    var body := NonBlankLines(SalvagedAttrs(p));
    KeepNonBlankSpec(SplitLines(SalvagedAttrs(p)));
    PlainBoolBodyAll(body, level, indent);
    Bracketed(Prefix(indent, level) + p.name + " : BOOL (", PlainBoolBody(body, level, indent),
              Prefix(indent, level) + ");");
  }

  /** The positions of a line list between a first and a last line. */
  lemma Bracketed(h: string, mid: seq<string>, e: string)
    ensures var r := [h] + mid + [e];
      |r| == |mid| + 2 && r[0] == h && r[|r| - 1] == e &&
      forall i :: 0 < i < |r| - 1 ==> r[i] == mid[i - 1]
  {
  }

  /** AOIParameter.to_l5k. */
  function ParamLines(p: AoiParameter, level: nat, indent: string): seq<string>
  {
    if p.isBitAlias then PlainBoolLines(p, level, indent)
    else if HasText(p.definition) then DefinitionLines(p.definition.value, level, indent)
    else IndentLines([p.name + " : " + p.dataType + " ();"], level, indent)
  }

  /** The three cases of a parameter's rendering. */
  lemma ParamLinesCases(p: AoiParameter, level: nat, indent: string)
    ensures p.isBitAlias ==> ParamLines(p, level, indent)[0] == Prefix(indent, level) + p.name + " : BOOL ("
    ensures !p.isBitAlias && !HasText(p.definition) ==>
      ParamLines(p, level, indent) == [Prefix(indent, level) + p.name + " : " + p.dataType + " ();"]
    ensures !p.isBitAlias && HasText(p.definition) ==>
      |ParamLines(p, level, indent)| == |NonBlankLines(p.definition.value)|
  {
    var pre := Prefix(indent, level);
    if p.isBitAlias {
      Bracketed(pre + p.name + " : BOOL (", PlainBoolBody(NonBlankLines(SalvagedAttrs(p)), level, indent),
                pre + ");");
    } else if !HasText(p.definition) {
      IndentStatement(p.name + " : " + p.dataType + " ();", level, indent);
      assert pre + (p.name + " : " + p.dataType + " ();") == pre + p.name + " : " + p.dataType + " ();";
    } else {
      DefinitionLinesSpec(p.definition.value, level, indent);
    }
  }

  // ---------------------------------------------------------------- AOILocalTag / Tag

  /** AOILocalTag.to_l5k. */
  function LocalLines(t: AoiLocalTag, level: nat, indent: string): seq<string>
  {
    if HasText(t.definition) then DefinitionLines(t.definition.value, level, indent)
    else IndentLines([t.name + " : " + t.dataType + " ();"], level, indent)
  }

  lemma LocalLinesFallback(t: AoiLocalTag, level: nat, indent: string)
    ensures !HasText(t.definition) ==>
      LocalLines(t, level, indent) == [Prefix(indent, level) + t.name + " : " + t.dataType + " ();"]
    ensures HasText(t.definition) ==> |LocalLines(t, level, indent)| == |NonBlankLines(t.definition.value)|
  {
    if !HasText(t.definition) {
      var pre := Prefix(indent, level);
      IndentStatement(t.name + " : " + t.dataType + " ();", level, indent);
      assert pre + (t.name + " : " + t.dataType + " ();") == pre + t.name + " : " + t.dataType + " ();";
    } else {
      DefinitionLinesSpec(t.definition.value, level, indent);
    }
  }

  /** The value-free declaration of a tag. */
  function TagStatement(t: Tag): string
  {
    if t.description != "" then t.name + " : " + t.dataType + " (Description := \"" + t.description + "\");"
    else t.name + " : " + t.dataType + ";"
  }

  /** Tag.to_l5k. */
  function TagLines(t: Tag, level: nat, indent: string): seq<string>
  {
    IndentLines([TagStatement(t)], level, indent)
  }

  /** A tag renders as one line with its name, type and (only when present) description; the
      stored definition, which may hold the value, is never used. */
  lemma TagLinesShape(t: Tag, level: nat, indent: string, d: Option<string>)
    ensures var pre := Prefix(indent, level) + t.name + " : " + t.dataType;
      TagLines(t, level, indent) ==
        [if t.description != "" then pre + " (Description := \"" + t.description + "\");" else pre + ";"]
    ensures TagLines(t.(definition := d), level, indent) == TagLines(t, level, indent)
  {
    var s := TagStatement(t);
    var pre := Prefix(indent, level);
    IndentStatement(s, level, indent);
    if t.description != "" {
      assert pre + s == pre + t.name + " : " + t.dataType + " (Description := \"" + t.description + "\");";
    } else {
      assert pre + s == pre + t.name + " : " + t.dataType + ";";
    }
  }

  // ---------------------------------------------------------------- AOI.to_l5k

  /** Each parameter's to_l5k, in order. */
  function ParamParts(ps: seq<AoiParameter>, level: nat, indent: string): seq<seq<string>>
  {
    if ps == [] then [] else [ParamLines(ps[0], level, indent)] + ParamParts(ps[1..], level, indent)
  }

  lemma {:induction false} ParamPartsAt(ps: seq<AoiParameter>, level: nat, indent: string, i: nat)
    requires i < |ps|
    ensures |ParamParts(ps, level, indent)| == |ps|
    ensures ParamParts(ps, level, indent)[i] == ParamLines(ps[i], level, indent)
  {
    if i > 0 { ParamPartsAt(ps[1..], level, indent, i - 1); }
    else if |ps| > 1 { ParamPartsAt(ps[1..], level, indent, 0); }
  }

  lemma {:induction false} ParamPartsLength(ps: seq<AoiParameter>, level: nat, indent: string)
    ensures |ParamParts(ps, level, indent)| == |ps|
  {
    if ps != [] { ParamPartsLength(ps[1..], level, indent); }
  }

  function ParamsLines(ps: seq<AoiParameter>, level: nat, indent: string): seq<string>
  {
    Flatten(ParamParts(ps, level, indent))
  }

  /** Each local tag's to_l5k, in order. */
  function LocalParts(ts: seq<AoiLocalTag>, level: nat, indent: string): seq<seq<string>>
  {
    if ts == [] then [] else [LocalLines(ts[0], level, indent)] + LocalParts(ts[1..], level, indent)
  }

  lemma {:induction false} LocalPartsAt(ts: seq<AoiLocalTag>, level: nat, indent: string, i: nat)
    requires i < |ts|
    ensures |LocalParts(ts, level, indent)| == |ts|
    ensures LocalParts(ts, level, indent)[i] == LocalLines(ts[i], level, indent)
  {
    if i > 0 { LocalPartsAt(ts[1..], level, indent, i - 1); }
    else if |ts| > 1 { LocalPartsAt(ts[1..], level, indent, 0); }
  }

  lemma {:induction false} LocalPartsLength(ts: seq<AoiLocalTag>, level: nat, indent: string)
    ensures |LocalParts(ts, level, indent)| == |ts|
  {
    if ts != [] { LocalPartsLength(ts[1..], level, indent); }
  }

  function LocalsLines(ts: seq<AoiLocalTag>, level: nat, indent: string): seq<string>
  {
    Flatten(LocalParts(ts, level, indent))
  }

  function EdgePad(indent: string): string
  {
    Prefix(indent, 2) + "__EdgePad : BOOL (Description := \"Edge placeholder\");"
  }

  /** AOI.to_l5k as a value. */
  function AoiLines(a: Aoi, indent: string, placeholder: bool): seq<string>
  {
    ["ADD_ON_INSTRUCTION_DEFINITION " + a.name] +
    (if a.parameters.keys != [] then
       [indent + "PARAMETERS"] + ParamsLines(Values(a.parameters), 2, indent) + [indent + "END_PARAMETERS"]
     else []) +
    [indent + "LOCAL_TAGS"] + LocalsLines(Values(a.localtags), 2, indent) +
    (if placeholder && a.localtags.keys == [] then [EdgePad(indent)] else []) +
    [indent + "END_LOCAL_TAGS", "END_ADD_ON_INSTRUCTION_DEFINITION"]
  }

  /** AOI.to_l5k, counting the emitted local tags. */
  method RenderAoi(a: Aoi, indent: string, placeholder: bool) returns (lines: seq<string>, localsEmitted: nat)
    ensures lines == AoiLines(a, indent, placeholder)
    ensures localsEmitted == |a.localtags.keys|
  {
    var head := "ADD_ON_INSTRUCTION_DEFINITION " + a.name;
    lines := [head];
    ghost var sec: seq<string> := [];
    if a.parameters.keys != [] {
      lines := lines + [indent + "PARAMETERS"];
      lines := ExtendParams(lines, Values(a.parameters), indent);
      lines := lines + [indent + "END_PARAMETERS"];
      sec := [indent + "PARAMETERS"] + ParamsLines(Values(a.parameters), 2, indent) + [indent + "END_PARAMETERS"];
      SectionAssoc(head, indent + "PARAMETERS", ParamsLines(Values(a.parameters), 2, indent),
                   indent + "END_PARAMETERS");
    } else {
      assert [head] + sec == [head];
    }
    assert lines == [head] + sec;
    lines := lines + [indent + "LOCAL_TAGS"];
    ghost var before := lines;
    lines, localsEmitted := ExtendLocals(lines, Values(a.localtags), indent);
    ghost var pad: seq<string> := [];
    if placeholder && localsEmitted == 0 {
      lines := lines + [EdgePad(indent)];
      pad := [EdgePad(indent)];
    }
    assert localsEmitted == 0 <==> a.localtags.keys == [];
    ghost var mid := lines;
    lines := lines + [indent + "END_LOCAL_TAGS"];
    lines := lines + ["END_ADD_ON_INSTRUCTION_DEFINITION"];
    AoiTail(before, LocalsLines(Values(a.localtags), 2, indent), pad, mid,
            indent + "END_LOCAL_TAGS", "END_ADD_ON_INSTRUCTION_DEFINITION", lines);
    AoiLinesIs(a, indent, placeholder, sec, pad);
  }

  lemma SectionAssoc(h: string, open: string, body: seq<string>, close: string)
    ensures [h] + [open] + body + [close] == [h] + ([open] + body + [close])
  {
  }

  lemma AoiTail(before: seq<string>, body: seq<string>, pad: seq<string>, mid: seq<string>,
                e1: string, e2: string, lines: seq<string>)
    requires mid == before + body + pad
    requires lines == mid + [e1] + [e2]
    ensures lines == before + body + pad + [e1, e2]
  {
  }

  /** AoiLines split into its optional PARAMETERS section and optional pad line. */
  lemma AoiLinesIs(a: Aoi, indent: string, placeholder: bool, sec: seq<string>, pad: seq<string>)
    requires sec == if a.parameters.keys != [] then
        [indent + "PARAMETERS"] + ParamsLines(Values(a.parameters), 2, indent) + [indent + "END_PARAMETERS"]
      else []
    requires pad == if placeholder && a.localtags.keys == [] then [EdgePad(indent)] else []
    ensures AoiLines(a, indent, placeholder) ==
      ["ADD_ON_INSTRUCTION_DEFINITION " + a.name] + sec + [indent + "LOCAL_TAGS"] +
      LocalsLines(Values(a.localtags), 2, indent) + pad + [indent + "END_LOCAL_TAGS", "END_ADD_ON_INSTRUCTION_DEFINITION"]
  {
  }

  /** `for p in self.parameters.values(): lines.extend(p.to_l5k(level=2, indent=indent))`. */
  method ExtendParams(init: seq<string>, ps: seq<AoiParameter>, indent: string) returns (lines: seq<string>)
    ensures lines == init + ParamsLines(ps, 2, indent)
  {
    lines := init;
    ghost var parts := ParamParts(ps, 2, indent);
    ParamPartsLength(ps, 2, indent);
    var i := 0;
    while i < |ps|
      invariant 0 <= i <= |ps|
      invariant lines == init + Flatten(parts[..i])
    {
      ParamPartsAt(ps, 2, indent, i);
      FlattenStep(init, parts, i, lines, ParamLines(ps[i], 2, indent));
      lines := lines + ParamLines(ps[i], 2, indent);
      i := i + 1;
    }
    FlattenDone(init, parts, lines);
  }

  /** The local-tag loop, counting the tags it writes. */
  method ExtendLocals(init: seq<string>, ts: seq<AoiLocalTag>, indent: string)
    returns (lines: seq<string>, emitted: nat)
    ensures lines == init + LocalsLines(ts, 2, indent)
    ensures emitted == |ts|
  {
    lines := init;
    ghost var parts := LocalParts(ts, 2, indent);
    LocalPartsLength(ts, 2, indent);
    emitted := 0;
    while emitted < |ts|
      invariant 0 <= emitted <= |ts|
      invariant lines == init + Flatten(parts[..emitted])
    {
      LocalPartsAt(ts, 2, indent, emitted);
      FlattenStep(init, parts, emitted, lines, LocalLines(ts[emitted], 2, indent));
      lines := lines + LocalLines(ts[emitted], 2, indent);
      emitted := emitted + 1;
    }
    FlattenDone(init, parts, lines);
  }

  /** The fixed frame of an AOI's rendering: its first line, PARAMETERS right after it
      exactly when it has parameters, and END_LOCAL_TAGS, END_ADD_ON_INSTRUCTION_DEFINITION
      last. */
  lemma AoiLinesFrame(a: Aoi, indent: string, placeholder: bool)
    ensures var r := AoiLines(a, indent, placeholder);
      |r| >= 4 && r[0] == "ADD_ON_INSTRUCTION_DEFINITION " + a.name &&
      (r[1] == indent + "PARAMETERS" <==> a.parameters.keys != []) &&
      r[|r| - 2] == indent + "END_LOCAL_TAGS" && r[|r| - 1] == "END_ADD_ON_INSTRUCTION_DEFINITION"
  {
    var r := AoiLines(a, indent, placeholder);
    if a.parameters.keys == [] {
      assert r[1] == indent + "LOCAL_TAGS";
      assert (indent + "LOCAL_TAGS")[|indent|] != (indent + "PARAMETERS")[|indent|];
    }
  }

  /** The placeholder flag only matters for an AOI without local tags, and then adds exactly
      the `__EdgePad` line before END_LOCAL_TAGS. */
  lemma AoiPlaceholder(a: Aoi, indent: string)
    ensures a.localtags.keys != [] ==> AoiLines(a, indent, true) == AoiLines(a, indent, false)
    ensures var without := AoiLines(a, indent, false);
      a.localtags.keys == [] ==>
        AoiLines(a, indent, true) == without[..|without| - 2] + [EdgePad(indent)] + without[|without| - 2..]
  {
    var without := AoiLines(a, indent, false);
    if a.localtags.keys == [] {
      assert Values(a.localtags) == [];
      assert LocalsLines(Values(a.localtags), 2, indent) == [];
    }
  }
}
