/** export_whitelist of exporter.py: a clean L5K file rebuilt from the parsed project and a
    selection, in a fixed order of sections: the header and a blank line, the CONTROLLER
    header, the selected UDTs, the AOIs with their selected parameters and local tags, the
    controller TAG block, the program TAG blocks, then END_CONTROLLER and an empty line. */
module Exporter {
  import opened Text
  import opened OrderedMaps
  import opened Models
  import opened L5kStrings
  import L5kParser
  import Capture
  import Patterns

  /** The one-level indent of the sections inside CONTROLLER. */
  const Tab: string := "\t"

  /** The line an AOI that is selected itself but has no selected local tag gets, because
      AVEVA Edge wants LOCAL_TAGS non-empty. */
  const PlaceHolder: string := "\t\t\t__PlaceHolder : BOOL (Description := \"Required for AVEVA Edge\");"

  // ---------------------------------------------------------------- entries in key order

  /** The lines the entries of an ordered dictionary render to, concatenated in key order. */
  function Concat<V>(ks: seq<string>, vals: map<string, V>, render: (string, V) -> seq<string>): seq<string>
    requires forall k :: k in ks ==> k in vals
    decreases |ks|
  {
    if ks == [] then []
    else Concat(ks[..|ks| - 1], vals, render) + render(ks[|ks| - 1], vals[ks[|ks| - 1]])
  }

  /** The keys of ks that `keep` accepts, in their order. */
  function Pick(ks: seq<string>, keep: string -> bool): (r: seq<string>)
    ensures |r| <= |ks|
    ensures forall k :: k in r <==> k in ks && keep(k)
    decreases |ks|
  {
    if ks == [] then []
    else Pick(ks[..|ks| - 1], keep) + (if keep(ks[|ks| - 1]) then [ks[|ks| - 1]] else [])
  }

  /** Membership in a selected set, as a key test. */
  function Member(chosen: set<string>): string -> bool
  {
    k => k in chosen
  }

  /** One more round of a `for name, x in d.items()` loop. */
  lemma ConcatSnoc<V>(ks: seq<string>, vals: map<string, V>, render: (string, V) -> seq<string>, i: nat)
    requires i < |ks| && forall k :: k in ks ==> k in vals
    ensures Concat(ks[..i + 1], vals, render) == Concat(ks[..i], vals, render) + render(ks[i], vals[ks[i]])
  {
    assert ks[..i + 1][..i] == ks[..i];
  }

  lemma PickSnoc(ks: seq<string>, keep: string -> bool, i: nat)
    requires i < |ks|
    ensures Pick(ks[..i + 1], keep) == Pick(ks[..i], keep) + (if keep(ks[i]) then [ks[i]] else [])
  {
    assert ks[..i + 1][..i] == ks[..i];
  }

  /** A loop that renders nothing for the keys `keep` refuses renders exactly the picked keys. */
  lemma {:induction false} ConcatPick<V>(ks: seq<string>, vals: map<string, V>, keep: string -> bool,
                                         render: (string, V) -> seq<string>, all: (string, V) -> seq<string>)
    requires forall k :: k in ks ==> k in vals
    requires forall k, v :: render(k, v) == if keep(k) then all(k, v) else []
    ensures Concat(ks, vals, render) == Concat(Pick(ks, keep), vals, all)
    decreases |ks|
  {
    if ks != [] {
      var init := ks[..|ks| - 1];
      var last := ks[|ks| - 1];
      ConcatPick(init, vals, keep, render, all);
      var p := Pick(init, keep);
      if keep(last) {
        assert (p + [last])[..|p|] == p;
      } else {
        assert p + [] == p;
      }
    }
  }

  // ---------------------------------------------------------------- 1) and 2): the headers

  /** `parser.header_text or project.header.content or ""`. */
  function HeaderBlob(headerText: string, p: Project): string
  {
    if headerText != "" then headerText else if HasText(p.header) then p.header.value else ""
  }

  /** The header without its trailing line breaks and a blank line, when there is one. */
  function HeaderPart(blob: string): seq<string>
  {
    if blob != "" then [RStripChars(blob, {'\n'}), ""] else []
  }

  /** `controller_name or "Controller"`. */
  function ControllerName(name: Option<string>): string
  {
    if name.Some? && name.value != "" then name.value else "Controller"
  }

  /** The captured CONTROLLER lines, or the fallback line naming the controller. */
  function ControllerPart(hdr: seq<string>, name: Option<string>): seq<string>
  {
    if hdr != [] then hdr else ["CONTROLLER " + ControllerName(name)]
  }

  // ---------------------------------------------------------------- 3) UDTs

  /** A UDT goes out whole, with a blank line after it, when it is selected. */
  function UdtRender(udts: set<string>): (string, Udt) -> seq<string>
  {
    (k: string, u: Udt) => if k in udts then UdtAll(k, u) else []
  }

  function UdtAll(k: string, u: Udt): seq<string> { UdtLines(u, Tab) + [""] }

  function UdtSection(p: Project, udts: set<string>): seq<string>
  {
    Concat(p.udts.keys, p.udts.vals, UdtRender(udts))
  }

  // ---------------------------------------------------------------- 4) AOIs

  /** `<tab>ADD_ON_INSTRUCTION_DEFINITION <name> (...)`, with the encoded description only
      when it is not blank. */
  function AoiHead(name: string, desc: string): string
  {
    if Strip(desc) != "" then Tab + "ADD_ON_INSTRUCTION_DEFINITION " + name + " (Description := \"" + Encode(desc) + "\")"
    else Tab + "ADD_ON_INSTRUCTION_DEFINITION " + name + " ()"
  }

  function ParamRender(chosen: set<string>): (string, AoiParameter) -> seq<string>
  {
    (k: string, q: AoiParameter) => if k in chosen then ParamLines(q, 3, Tab) else []
  }

  function ParamAll(k: string, q: AoiParameter): seq<string> { ParamLines(q, 3, Tab) }

  function LocalRender(chosen: set<string>): (string, AoiLocalTag) -> seq<string>
  {
    (k: string, t: AoiLocalTag) => if k in chosen then LocalLines(t, 3, Tab) else []
  }

  function LocalAll(k: string, t: AoiLocalTag): seq<string> { LocalLines(t, 3, Tab) }

  /** The PARAMETERS section, present only when some parameter is selected. */
  function ParamSection(a: Aoi, ps: set<string>): seq<string>
  {
    if ps != {} then
      ["\t\tPARAMETERS"] + Concat(a.parameters.keys, a.parameters.vals, ParamRender(ps)) + ["\t\tEND_PARAMETERS", ""]
    else []
  }

  /** The placeholder line, when no local tag was written and the AOI itself is selected. */
  function Pad(emitted: nat, selected: bool): seq<string>
  {
    if emitted == 0 && selected then [PlaceHolder] else []
  }

  /** LOCAL_TAGS with the selected local tags, padded when the AOI itself is selected. */
  function LocalSection(a: Aoi, ls: set<string>, selected: bool): seq<string>
  {
    ["\t\tLOCAL_TAGS"] + Concat(a.localtags.keys, a.localtags.vals, LocalRender(ls)) +
    Pad(|Pick(a.localtags.keys, Member(ls))|, selected)
  }

  const AoiTail: seq<string> := ["\t\tEND_LOCAL_TAGS", "", "\tEND_ADD_ON_INSTRUCTION_DEFINITION", ""]

  /** The lines of one AOI that is not skipped. */
  function AoiBlock(aois: set<string>, ps: set<string>, ls: set<string>, name: string, a: Aoi): seq<string>
  {
    [AoiHead(name, a.description)] + ParamSection(a, ps) + LocalSection(a, ls, name in aois) + AoiTail
  }

  /** An AOI is skipped when neither it nor any of its parameters or local tags is selected. */
  predicate AoiSkipped(aois: set<string>, params: map<string, set<string>>, locals: map<string, set<string>>, k: string)
  {
    k !in aois && Chosen(params, k) == {} && Chosen(locals, k) == {}
  }

  function AoiRender(aois: set<string>, params: map<string, set<string>>, locals: map<string, set<string>>)
    : (string, Aoi) -> seq<string>
  {
    (k: string, a: Aoi) =>
      if AoiSkipped(aois, params, locals, k) then [] else AoiBlock(aois, Chosen(params, k), Chosen(locals, k), k, a)
  }

  function AoiSection(p: Project, sel: Selection): seq<string>
  {
    Concat(p.aois.keys, p.aois.vals, AoiRender(sel.aois, sel.aoiParameters, sel.aoiLocaltags))
  }

  // ---------------------------------------------------------------- 5) and 6): tags

  function TagRender(chosen: set<string>, level: nat): (string, Tag) -> seq<string>
  {
    (k: string, t: Tag) => if k in chosen then TagLines(t, level, Tab) else []
  }

  function TagAll(level: nat): (string, Tag) -> seq<string>
  {
    (k: string, t: Tag) => TagLines(t, level, Tab)
  }

  /** The controller TAG block, present only when some tag is selected. */
  function TagSection(p: Project, tags: set<string>): seq<string>
  {
    if tags != {} then ["\tTAG"] + Concat(p.tags.keys, p.tags.vals, TagRender(tags, 2)) + ["\tEND_TAG", ""]
    else []
  }

  /** A program's block: its header line and a TAG block of its selected tags; nothing when
      none of its tags is selected. */
  function ProgramBlock(ts: set<string>, g: Program): seq<string>
  {
    if ts == {} then []
    else [L5kParser.ProgramHeader(g, Tab), "\t\tTAG"] + Concat(g.tags.keys, g.tags.vals, TagRender(ts, 3)) +
         ["\t\tEND_TAG", "\tEND_PROGRAM", ""]
  }

  function ProgramRender(progTags: map<string, set<string>>): (string, Program) -> seq<string>
  {
    (k: string, g: Program) => ProgramBlock(Chosen(progTags, k), g)
  }

  function ProgramSection(p: Project, progTags: map<string, set<string>>): seq<string>
  {
    Concat(p.programs.keys, p.programs.vals, ProgramRender(progTags))
  }

  // ---------------------------------------------------------------- the whole file

  const EndLines: seq<string> := ["END_CONTROLLER", ""]

  /** The output lines, section by section. */
  function WhitelistLines(headerText: string, p: Project, hdr: seq<string>, name: Option<string>, sel: Selection)
    : seq<string>
  {
    HeaderPart(HeaderBlob(headerText, p)) + ControllerPart(hdr, name) + MiddleLines(p, sel) + EndLines
  }

  function WhitelistText(headerText: string, p: Project, hdr: seq<string>, name: Option<string>, sel: Selection)
    : string
  {
    Join(WhitelistLines(headerText, p, hdr, name, sel), "\n")
  }

  // ---------------------------------------------------------------- properties

  /** The file opens with the header and a blank line when there is one (the parser's header
      text first, the project's header otherwise), then the captured CONTROLLER lines or, when
      none were captured, a CONTROLLER line naming the controller ("Controller" when its name is
      unknown), and closes with END_CONTROLLER and an empty line. */
  lemma ExportFrame(headerText: string, p: Project, hdr: seq<string>, name: Option<string>, sel: Selection)
    ensures var l := WhitelistLines(headerText, p, hdr, name, sel);
      var h := if HeaderBlob(headerText, p) != "" then 2 else 0;
      h + 3 <= |l| &&
      (headerText != "" ==> l[0] == RStripChars(headerText, {'\n'}) && l[1] == "") &&
      (headerText == "" && HasText(p.header) ==> l[0] == RStripChars(p.header.value, {'\n'}) && l[1] == "") &&
      (headerText == "" && !HasText(p.header) ==> h == 0) &&
      (hdr != [] ==> l[h..h + |hdr|] == hdr) &&
      (hdr == [] && name.Some? && name.value != "" ==> l[h] == "CONTROLLER " + name.value) &&
      (hdr == [] && !(name.Some? && name.value != "") ==> l[h] == "CONTROLLER Controller") &&
      l[|l| - 2..] == ["END_CONTROLLER", ""]
  {
    FrameAround(headerText, p, hdr, name, MiddleLines(p, sel));
  }

  /** The frame, whatever lies between the CONTROLLER header and END_CONTROLLER. */
  lemma FrameAround(headerText: string, p: Project, hdr: seq<string>, name: Option<string>, mid: seq<string>)
    ensures var l := HeaderPart(HeaderBlob(headerText, p)) + ControllerPart(hdr, name) + mid + EndLines;
      var h := if HeaderBlob(headerText, p) != "" then 2 else 0;
      h + 3 <= |l| &&
      (headerText != "" ==> l[0] == RStripChars(headerText, {'\n'}) && l[1] == "") &&
      (headerText == "" && HasText(p.header) ==> l[0] == RStripChars(p.header.value, {'\n'}) && l[1] == "") &&
      (headerText == "" && !HasText(p.header) ==> h == 0) &&
      (hdr != [] ==> l[h..h + |hdr|] == hdr) &&
      (hdr == [] && name.Some? && name.value != "" ==> l[h] == "CONTROLLER " + name.value) &&
      (hdr == [] && !(name.Some? && name.value != "") ==> l[h] == "CONTROLLER Controller") &&
      l[|l| - 2..] == ["END_CONTROLLER", ""]
  {
    var blob := HeaderBlob(headerText, p);
    var hp := HeaderPart(blob);
    var cp := ControllerPart(hdr, name);
    var l := hp + cp + mid + EndLines;
    Framed(hp, cp, mid);
    assert |hp| == if blob != "" then 2 else 0;
    if blob != "" {
      assert l[0] == hp[0] && l[1] == hp[1];
    }
    if hdr == [] {
      assert cp[0] == "CONTROLLER " + ControllerName(name);
    }
  }

  /** Everything between the CONTROLLER header and END_CONTROLLER. */
  function MiddleLines(p: Project, sel: Selection): seq<string>
  {
    UdtSection(p, sel.udts) + AoiSection(p, sel) + TagSection(p, sel.tags) + ProgramSection(p, sel.programTags)
  }

  lemma Framed(hp: seq<string>, cp: seq<string>, mid: seq<string>)
    requires cp != []
    ensures var l := hp + cp + mid + EndLines;
      |hp| + |cp| + 2 <= |l| && l[..|hp|] == hp && l[|hp|..|hp| + |cp|] == cp && l[|hp|] == cp[0] &&
      l[|l| - 2..] == EndLines
  {
    var l := hp + cp + mid + EndLines;
    assert l[..|hp|] == hp;
    assert l[|hp|..|hp| + |cp|] == cp;
  }

  /** The text is the lines joined by line breaks, so it ends with END_CONTROLLER and a line break. */
  lemma ExportEndsWithEndController(headerText: string, p: Project, hdr: seq<string>, name: Option<string>,
                                    sel: Selection)
    ensures EndsWith(WhitelistText(headerText, p, hdr, name, sel), "\nEND_CONTROLLER\n")
  {
    JoinEnd(HeaderPart(HeaderBlob(headerText, p)) + ControllerPart(hdr, name) + MiddleLines(p, sel));
  }

  lemma JoinEnd(front: seq<string>)
    requires front != []
    ensures EndsWith(Join(front + EndLines, "\n"), "\nEND_CONTROLLER\n")
  {
    JoinEndsWithTail(front, EndLines, "\n");
    assert Join(EndLines, "\n") == "END_CONTROLLER\n";
  }

  /** The UDT section holds the selected UDTs whole, in the project's order, each followed by
      a blank line; no other UDT appears. */
  lemma UdtsSelected(p: Project, udts: set<string>)
    ensures UdtSection(p, udts) == Concat(Pick(p.udts.keys, Member(udts)), p.udts.vals, UdtAll)
  {
    ConcatPick(p.udts.keys, p.udts.vals, Member(udts), UdtRender(udts), UdtAll);
  }

  /** Which members of a UDT are selected never changes the file. */
  lemma MemberSelectionIgnored(headerText: string, p: Project, hdr: seq<string>, name: Option<string>,
                               sel: Selection, members: map<string, set<string>>)
    ensures WhitelistLines(headerText, p, hdr, name, sel) ==
            WhitelistLines(headerText, p, hdr, name, sel.(udtMembers := members))
  {
  }

  /** An AOI is written when it, one of its parameters or one of its local tags is selected,
      and then as its block; the AOIs appear in the project's order. */
  lemma AoisSelected(p: Project, sel: Selection)
    ensures AoiSection(p, sel) ==
            Concat(Pick(p.aois.keys, AoiWritten(sel)), p.aois.vals, AoiAll(sel))
  {
    ConcatPick(p.aois.keys, p.aois.vals, AoiWritten(sel), AoiRender(sel.aois, sel.aoiParameters, sel.aoiLocaltags),
               AoiAll(sel));
  }

  function AoiWritten(sel: Selection): string -> bool
  {
    k => !AoiSkipped(sel.aois, sel.aoiParameters, sel.aoiLocaltags, k)
  }

  function AoiAll(sel: Selection): (string, Aoi) -> seq<string>
  {
    (k: string, a: Aoi) => AoiBlock(sel.aois, Chosen(sel.aoiParameters, k), Chosen(sel.aoiLocaltags, k), k, a)
  }

  /** An AOI block opens with its definition line, has PARAMETERS next exactly when some of
      its parameters is selected, and closes with END_LOCAL_TAGS, a blank line,
      END_ADD_ON_INSTRUCTION_DEFINITION and a blank line. */
  lemma AoiBlockFrame(aois: set<string>, ps: set<string>, ls: set<string>, name: string, a: Aoi)
    ensures var b := AoiBlock(aois, ps, ls, name, a);
      |b| >= 6 && b[0] == AoiHead(name, a.description) &&
      (b[1] == "\t\tPARAMETERS" <==> ps != {}) &&
      b[|b| - 4..] == AoiTail
  {
    var ls' := LocalSection(a, ls, name in aois);
    var pp := ParamSection(a, ps);
    assert ls'[0] == "\t\tLOCAL_TAGS";
    AoiFramed(AoiHead(name, a.description), pp, ls');
  }

  lemma AoiFramed(head: string, pp: seq<string>, ls: seq<string>)
    requires ls != []
    ensures var b := [head] + pp + ls + AoiTail;
      |b| >= 6 && b[0] == head && b[1] == (if pp != [] then pp[0] else ls[0]) && b[|b| - 4..] == AoiTail
  {
  }

  /** PARAMETERS is there only when some parameter is selected, and holds the selected
      parameters in the AOI's order. */
  lemma ParamsSelected(a: Aoi, ps: set<string>)
    ensures ps == {} ==> ParamSection(a, ps) == []
    ensures ps != {} ==>
      ParamSection(a, ps) ==
      ["\t\tPARAMETERS"] + Concat(Pick(a.parameters.keys, Member(ps)), a.parameters.vals, ParamAll) +
      ["\t\tEND_PARAMETERS", ""]
  {
    ConcatPick(a.parameters.keys, a.parameters.vals, Member(ps), ParamRender(ps), ParamAll);
  }

  /** LOCAL_TAGS holds the selected local tags in the AOI's order, and the placeholder exactly
      when the AOI itself is selected and none of its local tags is. */
  lemma LocalsSelected(a: Aoi, ls: set<string>, selected: bool)
    ensures LocalSection(a, ls, selected) ==
      ["\t\tLOCAL_TAGS"] + Concat(Pick(a.localtags.keys, Member(ls)), a.localtags.vals, LocalAll) +
      (if selected && (forall k :: k in a.localtags.keys ==> k !in ls) then [PlaceHolder] else [])
  {
    ConcatPick(a.localtags.keys, a.localtags.vals, Member(ls), LocalRender(ls), LocalAll);
    NoneEmitted(a.localtags.keys, ls);
  }

  /** No key is emitted exactly when no key is selected. */
  lemma NoneEmitted(ks: seq<string>, ls: set<string>)
    ensures |Pick(ks, Member(ls))| == 0 <==> forall k :: k in ks ==> k !in ls
  {
    var picked := Pick(ks, Member(ls));
    if forall k :: k in ks ==> k !in ls {
      if picked != [] { assert picked[0] in picked; }
    } else {
      var k :| k in ks && k in ls;
      assert k in picked;
    }
  }

  /** The controller TAG block is there exactly when some tag is selected, and holds the
      selected controller tags in the project's order. */
  lemma TagsSelected(p: Project, tags: set<string>)
    ensures tags == {} ==> TagSection(p, tags) == []
    ensures tags != {} ==>
      TagSection(p, tags) ==
      ["\tTAG"] + Concat(Pick(p.tags.keys, Member(tags)), p.tags.vals, TagAll(2)) + ["\tEND_TAG", ""]
  {
    ConcatPick(p.tags.keys, p.tags.vals, Member(tags), TagRender(tags, 2), TagAll(2));
  }

  /** A program gets a block exactly when one of its tags is selected; the block holds its
      header line and a TAG block of its selected tags in the program's order. */
  lemma ProgramsSelected(p: Project, progTags: map<string, set<string>>)
    ensures ProgramSection(p, progTags) ==
            Concat(Pick(p.programs.keys, ProgramWritten(progTags)), p.programs.vals, ProgramRender(progTags))
    ensures forall k, g :: ProgramWritten(progTags)(k) ==>
      ProgramRender(progTags)(k, g) ==
      [L5kParser.ProgramHeader(g, Tab), "\t\tTAG"] +
      Concat(Pick(g.tags.keys, Member(Chosen(progTags, k))), g.tags.vals, TagAll(3)) +
      ["\t\tEND_TAG", "\tEND_PROGRAM", ""]
  {
    ConcatPick(p.programs.keys, p.programs.vals, ProgramWritten(progTags), ProgramRender(progTags),
               ProgramRender(progTags));
    forall k, g | ProgramWritten(progTags)(k)
      ensures ProgramRender(progTags)(k, g) ==
        [L5kParser.ProgramHeader(g, Tab), "\t\tTAG"] +
        Concat(Pick(g.tags.keys, Member(Chosen(progTags, k))), g.tags.vals, TagAll(3)) +
        ["\t\tEND_TAG", "\tEND_PROGRAM", ""]
    {
      var ts := Chosen(progTags, k);
      ConcatPick(g.tags.keys, g.tags.vals, Member(ts), TagRender(ts, 3), TagAll(3));
    }
  }

  function ProgramWritten(progTags: map<string, set<string>>): string -> bool
  {
    k => Chosen(progTags, k) != {}
  }

  // ---------------------------------------------------------------- the loops

  /** A loop round that appends the rendering of key i keeps `out` equal to the rendering of
      the keys seen so far. */
  lemma StepOut<V>(out0: seq<string>, out: seq<string>, ks: seq<string>, vals: map<string, V>,
                   render: (string, V) -> seq<string>, i: nat, piece: seq<string>)
    requires i < |ks| && forall k :: k in ks ==> k in vals
    requires out == out0 + Concat(ks[..i], vals, render)
    requires piece == render(ks[i], vals[ks[i]])
    ensures out + piece == out0 + Concat(ks[..i + 1], vals, render)
  {
    ConcatSnoc(ks, vals, render, i);
  }

  /** `for name, udt in project.udts.items()`. */
  method EmitUdts(out0: seq<string>, p: Project, udts: set<string>) returns (out: seq<string>)
    ensures out == out0 + UdtSection(p, udts)
  {
    var ks := p.udts.keys;
    out := out0;
    var i := 0;
    while i < |ks|
      invariant i <= |ks|
      invariant out == out0 + Concat(ks[..i], p.udts.vals, UdtRender(udts))
    {
      var piece: seq<string> := [];
      if ks[i] in udts {
        var lines := RenderUdt(p.udts.vals[ks[i]], Tab);
        piece := lines + [""];
      }
      StepOut(out0, out, ks, p.udts.vals, UdtRender(udts), i, piece);
      out := out + piece;
      i := i + 1;
    }
    assert ks[..|ks|] == ks;
  }

  /** `for pname, p in aoi.parameters.items(): if pname in sel_params: ...`. */
  method EmitParams(out0: seq<string>, a: Aoi, ps: set<string>) returns (out: seq<string>)
    ensures out == out0 + Concat(a.parameters.keys, a.parameters.vals, ParamRender(ps))
  {
    var ks := a.parameters.keys;
    out := out0;
    var i := 0;
    while i < |ks|
      invariant i <= |ks|
      invariant out == out0 + Concat(ks[..i], a.parameters.vals, ParamRender(ps))
    {
      var piece: seq<string> := [];
      if ks[i] in ps {
        piece := ParamLines(a.parameters.vals[ks[i]], 3, Tab);
      }
      StepOut(out0, out, ks, a.parameters.vals, ParamRender(ps), i, piece);
      out := out + piece;
      i := i + 1;
    }
    assert ks[..|ks|] == ks;
  }

  /** `for lname, t in aoi.localtags.items(): if lname in sel_locals: ...; emitted_local += 1`. */
  method EmitLocals(out0: seq<string>, a: Aoi, ls: set<string>) returns (out: seq<string>, emitted: nat)
    ensures out == out0 + Concat(a.localtags.keys, a.localtags.vals, LocalRender(ls))
    ensures emitted == |Pick(a.localtags.keys, Member(ls))|
  {
    var ks := a.localtags.keys;
    out := out0;
    emitted := 0;
    var i := 0;
    while i < |ks|
      invariant i <= |ks|
      invariant out == out0 + Concat(ks[..i], a.localtags.vals, LocalRender(ls))
      invariant emitted == |Pick(ks[..i], Member(ls))|
    {
      PickSnoc(ks, Member(ls), i);
      var piece, hit := LocalPiece(ls, ks[i], a.localtags.vals[ks[i]]);
      if hit {
        emitted := emitted + 1;
      }
      StepOut(out0, out, ks, a.localtags.vals, LocalRender(ls), i, piece);
      out := out + piece;
      i := i + 1;
    }
    assert ks[..|ks|] == ks;
  }

  /** One round of the local-tag loop: the tag's lines when it is selected. */
  method LocalPiece(ls: set<string>, name: string, t: AoiLocalTag) returns (piece: seq<string>, hit: bool)
    ensures piece == LocalRender(ls)(name, t) && hit == (name in ls)
  {
    piece := [];
    hit := name in ls;
    if hit {
      piece := LocalLines(t, 3, Tab);
    }
  }

  /** The body of the AOI loop for an AOI that is not skipped. */
  method EmitAoi(out0: seq<string>, aois: set<string>, ps: set<string>, ls: set<string>, name: string, a: Aoi)
    returns (out: seq<string>)
    ensures out == out0 + AoiBlock(aois, ps, ls, name, a)
  {
    var params: seq<string> := [];
    if ps != {} {
      params := EmitParams(["\t\tPARAMETERS"], a, ps);
      params := params + ["\t\tEND_PARAMETERS", ""];
    }
    var locals, emitted := EmitLocals(["\t\tLOCAL_TAGS"], a, ls);
    if emitted == 0 && name in aois {
      locals := locals + [PlaceHolder];
    }
    assert params == ParamSection(a, ps);
    assert locals == LocalSection(a, ls, name in aois);
    out := out0 + ([AoiHead(name, a.description)] + params + locals + AoiTail);
  }

  /** One round of the AOI loop: the AOI's block, or nothing when it is skipped. */
  method AoiPiece(sel: Selection, name: string, a: Aoi) returns (piece: seq<string>)
    ensures piece == AoiRender(sel.aois, sel.aoiParameters, sel.aoiLocaltags)(name, a)
  {
    var ps := Chosen(sel.aoiParameters, name);
    var ls := Chosen(sel.aoiLocaltags, name);
    piece := [];
    if name in sel.aois || ps != {} || ls != {} {
      piece := EmitAoi([], sel.aois, ps, ls, name, a);
    }
  }

  /** `for name, aoi in project.aois.items()`, skipping the AOIs nothing selects. */
  method EmitAois(out0: seq<string>, p: Project, sel: Selection) returns (out: seq<string>)
    ensures out == out0 + AoiSection(p, sel)
  {
    var ks := p.aois.keys;
    out := out0;
    var i := 0;
    while i < |ks|
      invariant i <= |ks|
      invariant out == out0 + Concat(ks[..i], p.aois.vals, AoiRender(sel.aois, sel.aoiParameters, sel.aoiLocaltags))
    {
      var piece := AoiPiece(sel, ks[i], p.aois.vals[ks[i]]);
      StepOut(out0, out, ks, p.aois.vals, AoiRender(sel.aois, sel.aoiParameters, sel.aoiLocaltags), i, piece);
      out := out + piece;
      i := i + 1;
    }
    assert ks[..|ks|] == ks;
  }

  /** `for tname, tag in tags.items(): if tname in chosen: out.extend(tag.to_l5k(level, indent))`. */
  method EmitTags(out0: seq<string>, tags: OrderedMap<Tag>, chosen: set<string>, level: nat)
    returns (out: seq<string>)
    ensures out == out0 + Concat(tags.keys, tags.vals, TagRender(chosen, level))
  {
    var ks := tags.keys;
    out := out0;
    var i := 0;
    while i < |ks|
      invariant i <= |ks|
      invariant out == out0 + Concat(ks[..i], tags.vals, TagRender(chosen, level))
    {
      var piece: seq<string> := [];
      if ks[i] in chosen {
        piece := TagLines(tags.vals[ks[i]], level, Tab);
      }
      StepOut(out0, out, ks, tags.vals, TagRender(chosen, level), i, piece);
      out := out + piece;
      i := i + 1;
    }
    assert ks[..|ks|] == ks;
  }

  /** `for pname, prog in project.programs.items()`, skipping the programs with no selected tag. */
  method EmitPrograms(out0: seq<string>, p: Project, progTags: map<string, set<string>>) returns (out: seq<string>)
    ensures out == out0 + ProgramSection(p, progTags)
  {
    var ks := p.programs.keys;
    out := out0;
    var i := 0;
    while i < |ks|
      invariant i <= |ks|
      invariant out == out0 + Concat(ks[..i], p.programs.vals, ProgramRender(progTags))
    {
      var piece := ProgramPiece(Chosen(progTags, ks[i]), p.programs.vals[ks[i]]);
      StepOut(out0, out, ks, p.programs.vals, ProgramRender(progTags), i, piece);
      out := out + piece;
      i := i + 1;
    }
    assert ks[..|ks|] == ks;
  }

  /** One round of the program loop: the program's block when one of its tags is selected. */
  method ProgramPiece(ts: set<string>, prog: Program) returns (piece: seq<string>)
    ensures piece == ProgramBlock(ts, prog)
  {
    piece := [];
    if ts != {} {
      var body := EmitTags([L5kParser.ProgramHeader(prog, Tab), "\t\tTAG"], prog.tags, ts, 3);
      piece := body + ["\t\tEND_TAG", "\tEND_PROGRAM", ""];
    }
  }

  /** The body of export_whitelist after the parser's header fields are ensured. */
  method RenderWhitelist(headerText: string, p: Project, hdr: seq<string>, name: Option<string>, sel: Selection)
    returns (text: string)
    ensures text == WhitelistText(headerText, p, hdr, name, sel)
  {
    var blob := if headerText != "" then headerText else if HasText(p.header) then p.header.value else "";
    var head: seq<string> := [];
    if blob != "" {
      head := [RStripChars(blob, {'\n'}), ""];
    }
    var ctrl := hdr;
    if hdr == [] {
      var cname := if name.Some? && name.value != "" then name.value else "Controller";
      ctrl := ["CONTROLLER " + cname];
    }
    var udts := EmitUdts([], p, sel.udts);
    var aois := EmitAois([], p, sel);
    var tags: seq<string> := [];
    if sel.tags != {} {
      tags := EmitTags(["\tTAG"], p.tags, sel.tags, 2);
      tags := tags + ["\tEND_TAG", ""];
    }
    var progs := EmitPrograms([], p, sel.programTags);
    assert head == HeaderPart(HeaderBlob(headerText, p));
    assert ctrl == ControllerPart(hdr, name);
    assert tags == TagSection(p, sel.tags);
    assert udts == UdtSection(p, sel.udts);
    assert aois == AoiSection(p, sel);
    assert progs == ProgramSection(p, sel.programTags);
    var out := head + ctrl + (udts + aois + tags + progs) + EndLines;
    assert out == WhitelistLines(headerText, p, hdr, name, sel);
    text := Join(out, "\n");
  }

  /** export_whitelist(parser, selection): the parser's header text and CONTROLLER header are
      made present first, then the file is rendered from the parser's fields. */
  method ExportWhitelist(parser: L5kParser.Parser, sel: Selection) returns (text: string)
    modifies parser`headerText, parser`project, parser`controllerHeader, parser`controllerName
    ensures text == WhitelistText(parser.headerText, parser.project, parser.controllerHeader, parser.controllerName, sel)
    ensures L5kParser.HeaderEnsured(parser.lines, old(parser.headerText), old(parser.project), parser.headerText, parser.project)
    ensures L5kParser.ControllerEnsured(parser.lines, old(parser.controllerHeader), old(parser.controllerName),
                                        parser.controllerHeader, parser.controllerName)
  {
    parser.EnsureHeaderForExport();
    parser.EnsureControllerHeader();
    text := RenderWhitelist(parser.headerText, parser.project, parser.controllerHeader, parser.controllerName, sel);
  }
}
