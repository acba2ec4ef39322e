/** L5KParser of L5KTuner/l5k_parser.py as a class: the lines of the file, the project it
    fills, the correction log, the captured CONTROLLER header and the file header text.
    _parse_structures runs the `while i < n` loop with its flags, its current structure and two
    TagBuffer objects; each turn is proved to be one Structures.Step of the specification. */
module L5kParser {
  import opened Text
  import opened OrderedMaps
  import opened Models
  import opened TagBuffers
  import opened TagFields
  import opened Structures
  import Capture
  import Utils
  import L5kAttributes
  import Patterns
  import StructureLaws
  import Resolver
  import ResolverLaws
  import opened L5kStrings
  import SelectedContent

  class Parser {
    const lines: seq<string>
    var project: Project
    var log: seq<string>
    var controllerName: Option<string>
    var controllerHeader: seq<string>
    var headerText: string

    /** L5KParser(file_content); lines are split at '\n'. */
    constructor(content: string)
      ensures lines == SplitLines(content)
      ensures project == EmptyProject() && log == [] && controllerName == None
      ensures controllerHeader == [] && headerText == ""
    {
      lines := SplitLines(content);
      project := EmptyProject();
      log := [];
      controllerName := None;
      controllerHeader := [];
      headerText := "";
    }

    /** The loop state as the specification sees it. */
    function Snap(f: Flags, cur: Current, tb: TagBuffer, pb: TagBuffer): Machine
      reads this, tb, pb
    {
      Machine(f, cur, project, log, controllerHeader, controllerName,
              Buf(tb.parts, tb.State()), Buf(pb.parts, pb.State()))
    }

    /** _parse_header: a header block found in the lines becomes the header text and the
        project's header; without one nothing changes. */
    method ParseHeader()
      modifies this`headerText, this`project
      ensures Capture.HeaderText(lines).None? ==> project == old(project) && headerText == old(headerText)
      ensures Capture.HeaderText(lines).Some? ==>
        headerText == Capture.HeaderText(lines).value && project == old(project).(header := Capture.HeaderText(lines))
      ensures log == old(log) && controllerName == old(controllerName) && controllerHeader == old(controllerHeader)
    {
      var h := Capture.ParseHeader(lines);
      if h.Some? {
        headerText := h.value;
        project := project.(header := h);
      }
    }

    /** _parse_structures: the loop over all lines, from a fresh state. */
    method ParseStructures()
      modifies this`project, this`log, this`controllerHeader, this`controllerName
      ensures var r := Run(lines, 0, Start(old(project), old(log), old(controllerHeader), old(controllerName)));
        project == r.project && log == r.log && controllerHeader == r.ctrlHeader && controllerName == r.ctrlName
    {
      var tb := new TagBuffer();
      var pb := new TagBuffer();
      var flags := NoFlags;
      var cur := NoStruct;
      ghost var start := Snap(flags, cur, tb, pb);
      var i := 0;
      while i < |lines|
        invariant i <= |lines|
        invariant fresh(tb) && fresh(pb) && tb != pb
        invariant StructureLaws.CurrentValid(Snap(flags, cur, tb, pb))
        invariant Run(lines, i, Snap(flags, cur, tb, pb)) == Run(lines, 0, start)
        decreases |lines| - i
      {
        StructureLaws.StepKeeps(lines, i, Snap(flags, cur, tb, pb));
        i, flags, cur := StepLine(i, flags, cur, tb, pb);
      }
    }

    /** One turn of the loop. */
    method StepLine(i: nat, flags: Flags, cur: Current, tb: TagBuffer, pb: TagBuffer)
      returns (next: nat, flags': Flags, cur': Current)
      requires i < |lines| && tb != pb
      requires StructureLaws.CurrentValid(Snap(flags, cur, tb, pb))
      modifies this`project, this`log, this`controllerHeader, this`controllerName, tb, pb
      ensures (next, Snap(flags', cur', tb, pb)) == Step(lines, i, old(Snap(flags, cur, tb, pb)))
    {
      var t := Strip(lines[i]);
      var k := Classify(t, flags, cur);
      next, flags', cur' := DispatchLine(i, t, k, flags, cur, tb, pb);
    }

    /** The branch of kind k: the TAG buffers are worked by BufferLine, every other branch by
        DispatchStructure on the parser's values. */
    method DispatchLine(i: nat, t: string, k: LineKind, flags: Flags, cur: Current, tb: TagBuffer, pb: TagBuffer)
      returns (next: nat, flags': Flags, cur': Current)
      requires i < |lines| && tb != pb
      requires k == UdtData ==> cur.CurUdt?
      requires k == ParamData || k == LocalData ==> cur.CurAoi?
      requires StructureLaws.CurrentValid(Snap(flags, cur, tb, pb))
      modifies this`project, this`log, this`controllerHeader, this`controllerName, tb, pb
      ensures (next, Snap(flags', cur', tb, pb)) == Dispatch(lines, i, t, k, old(Snap(flags, cur, tb, pb)))
    {
      ghost var m := Snap(flags, cur, tb, pb);
      if BufferKind(k) {
        DispatchBuffer(lines, i, t, k, m);
        next := i + 1;
        flags', cur' := BufferLine(t, k, flags, cur, tb, pb);
      } else {
        next, flags', cur', project, log, controllerHeader, controllerName :=
          DispatchStructure(lines, i, t, k, flags, cur, project, log, controllerHeader, controllerName, m);
      }
    }

    /** A line that works a TAG buffer. */
    method BufferLine(t: string, k: LineKind, flags: Flags, cur: Current, tb: TagBuffer, pb: TagBuffer)
      returns (flags': Flags, cur': Current)
      requires BufferKind(k) && tb != pb
      modifies this`project, tb, pb
      ensures Snap(flags', cur', tb, pb) == BufferStep(t, k, old(Snap(flags, cur, tb, pb)))
    {
      flags', cur' := flags, cur;
      match k {
        case TagOpen =>
          flags' := flags.(inTags := true);
          tb.Reset();
        case TagClose =>
          CloseTagBlock(flags, cur, tb, pb);
          flags' := flags.(inTags := false);
        case ProgTagOpen =>
          flags' := flags.(inProgTags := true);
          pb.Reset();
        case ProgTagClose =>
          FlushProgramTags(flags, cur, tb, pb);
          flags' := flags.(inProgTags := false);
        case EndProgram =>
          FlushProgramTags(flags, cur, tb, pb);
          flags' := flags.(inProgram := false, curProgram := None, inProgTags := false);
        case ProgTagChunk =>
          FeedProgramTag(t, flags, cur, tb, pb);
        case TagChunk =>
          FeedControllerTag(t, flags, cur, tb, pb);
      }
    }

    /** END_TAG of the controller: a pending statement is emitted; the buffer is reset
        either way. */
    method CloseTagBlock(flags: Flags, cur: Current, tb: TagBuffer, pb: TagBuffer)
      requires tb != pb
      modifies this`project, tb
      ensures Snap(flags.(inTags := false), cur, tb, pb) == CloseTags(old(Snap(flags, cur, tb, pb)))
    {
      if tb.parts != [] {
        var stmt := tb.Flush();
        project := EmitTag(project, stmt);
      } else {
        tb.Reset();
      }
    }

    /** A chunk of a controller TAG statement: a completed statement is emitted. */
    method FeedControllerTag(t: string, flags: Flags, cur: Current, tb: TagBuffer, pb: TagBuffer)
      requires tb != pb
      modifies this`project, tb
      ensures Snap(flags, cur, tb, pb) == TagChunkStep(t, old(Snap(flags, cur, tb, pb)))
    {
      var done := tb.Feed(t);
      if done {
        var stmt := tb.Flush();
        project := EmitTag(project, stmt);
      }
    }

    /** A chunk of a program TAG statement: a completed statement goes into the current program. */
    method FeedProgramTag(t: string, flags: Flags, cur: Current, tb: TagBuffer, pb: TagBuffer)
      requires tb != pb
      modifies this`project, pb
      ensures Snap(flags, cur, tb, pb) == ProgChunk(t, old(Snap(flags, cur, tb, pb)))
    {
      var done := pb.Feed(t);
      if done {
        var stmt := pb.Flush();
        project := EmitProgTag(project, flags.curProgram, stmt);
      }
    }

    /** END_TAG or END_PROGRAM inside a program: a pending statement is emitted into the
        current program; the buffer is reset either way. */
    method FlushProgramTags(flags: Flags, cur: Current, tb: TagBuffer, pb: TagBuffer)
      requires tb != pb
      modifies this`project, pb
      ensures Snap(flags, cur, tb, pb) == FlushProgTags(old(Snap(flags, cur, tb, pb)))
    {
      if flags.inProgTags && pb.parts != [] && IsSet(flags.curProgram) {
        var stmt := pb.Flush();
        project := EmitProgTag(project, flags.curProgram, stmt);
      } else {
        pb.Reset();
      }
    }

    /** _resolve_nested_types: the second pass rewrites the parser's project and extends its log. */
    method ResolveNestedTypes()
      modifies this`project, this`log
      ensures (project, log) == Resolver.ResolveNestedTypes(old(project), old(log))
    {
      project, log := Resolver.ResolveTypes(project, log);
    }

    /** parse(): the header, the structures, then the base-type pass; the project and the
        correction log are returned. */
    method Parse() returns (p: Project, l: seq<string>)
      modifies this
      ensures (p, l) == ParseResult(lines, old(project), old(log), old(controllerHeader), old(controllerName))
      ensures p == project && l == log
    {
      ParseHeader();
      ParseStructures();
      ResolveNestedTypes();
      p, l := project, log;
    }

    /** get_selected_content(selection): the filtered file, built from the parsed project,
        the captured CONTROLLER header lines and the source lines, with skipping after an
        injected definition as the source writes it; nothing changes. */
    method GetSelectedContent(sel: Selection) returns (text: string)
      ensures text == SelectedContent.SelectedText(SelectedContent.Inputs(project, sel, controllerHeader, SelectedContent.AsWritten), lines)
    {
      text := SelectedContent.GetSelectedContent(SelectedContent.Inputs(project, sel, controllerHeader, SelectedContent.AsWritten), lines);
    }

    /** _ensure_header_for_export: a header text already held is kept; otherwise the project's
        non-empty header is taken; otherwise the header is parsed from the lines again. */
    method EnsureHeaderForExport()
      modifies this`headerText, this`project
      ensures HeaderEnsured(lines, old(headerText), old(project), headerText, project)
    {
      if headerText != "" {
        return;
      }
      if HasText(project.header) {
        headerText := project.header.value;
        return;
      }
      ParseHeader();
    }

    /** _ensure_controller_header: without captured header lines, the first CONTROLLER line
        (by its stripped text) is captured with its attribute block and name; with them, or
        without any CONTROLLER line, nothing changes. */
    method EnsureControllerHeader()
      modifies this`controllerHeader, this`controllerName
      ensures ControllerEnsured(lines, old(controllerHeader), old(controllerName), controllerHeader, controllerName)
    {
      if controllerHeader != [] {
        return;
      }
      var j := Capture.FindController(lines);
      if j < |lines| {
        var hdr, next, name := Capture.CaptureControllerHeader(lines, j);
        controllerHeader := hdr;
        controllerName := name;
      }
    }
  }

  /** _ensure_header_for_export, from the header text and project before (h0, p0) to those after
      (h1, p1): a non-empty header text is kept; otherwise the project's header is taken; otherwise
      the header block is parsed from the lines, and when there is one both are set from it. */
  predicate HeaderEnsured(lines: seq<string>, h0: string, p0: Project, h1: string, p1: Project)
  {
    if h0 != "" then h1 == h0 && p1 == p0
    else if HasText(p0.header) then h1 == p0.header.value && p1 == p0
    else if Capture.HeaderText(lines).Some?
    then h1 == Capture.HeaderText(lines).value && p1 == p0.(header := Capture.HeaderText(lines))
    else h1 == "" && p1 == p0
  }

  /** _ensure_controller_header, from the captured header lines and name before (c0, n0) to those
      after (c1, n1): without captured lines, the first CONTROLLER line found is captured with its
      attribute block and its name; with them, or without such a line, nothing changes. */
  predicate ControllerEnsured(lines: seq<string>, c0: seq<string>, n0: Option<string>, c1: seq<string>, n1: Option<string>)
  {
    var j := Capture.FirstController(lines, 0);
    if c0 == [] && j < |lines|
    then c1 == lines[j..Capture.ControllerEnd(lines, j)] &&
         n1 == Patterns.ControllerHeader(Strip(lines[j]))
    else c1 == c0 && n1 == n0
  }

  /** The branches that work a TAG buffer. */
  predicate BufferKind(k: LineKind)
  {
    k.TagOpen? || k.TagClose? || k.ProgTagOpen? || k.ProgTagClose? || k.EndProgram? || k.ProgTagChunk? || k.TagChunk?
  }

  /** What those branches do, on the parser's values, as Dispatch takes them. */
  function BufferStep(t: string, k: LineKind, m: Machine): Machine
    requires BufferKind(k)
  {
    match k
    case TagOpen => m.(flags := m.flags.(inTags := true), tagBuf := EmptyBuf)
    case TagClose => CloseTags(m)
    case ProgTagOpen => m.(flags := m.flags.(inProgTags := true), progBuf := EmptyBuf)
    case ProgTagClose =>
      var m1 := FlushProgTags(m);
      m1.(flags := m1.flags.(inProgTags := false))
    case EndProgram =>
      var m1 := FlushProgTags(m);
      m1.(flags := m1.flags.(inProgram := false, curProgram := None, inProgTags := false))
    case ProgTagChunk => ProgChunk(t, m)
    case TagChunk => TagChunkStep(t, m)
  }

  lemma DispatchBuffer(lines: seq<string>, i: nat, t: string, k: LineKind, m: Machine)
    requires i < |lines| && BufferKind(k)
    ensures Dispatch(lines, i, t, k, m) == (i + 1, BufferStep(t, k, m))
  {
  }

  method DispatchStructure(lines: seq<string>, i: nat, t: string, k: LineKind, flags: Flags, cur: Current,
                           p: Project, log: seq<string>, hdr: seq<string>, name: Option<string>, ghost m: Machine)
    returns (next: nat, flags': Flags, cur': Current, p': Project, log': seq<string>, hdr': seq<string>, name': Option<string>)
    requires i < |lines| && !BufferKind(k)
    requires k == UdtData ==> cur.CurUdt?
    requires k == ParamData || k == LocalData ==> cur.CurAoi?
    requires m.flags == flags && m.cur == cur && m.project == p && m.log == log
    requires m.ctrlHeader == hdr && m.ctrlName == name
    requires StructureLaws.CurrentValid(m)
    ensures var r := Dispatch(lines, i, t, k, m);
      next == r.0 && r.1 == m.(flags := flags', cur := cur', project := p', log := log', ctrlHeader := hdr', ctrlName := name')
  {
    next, flags', cur', p', log', hdr', name' := i + 1, flags, cur, p, log, hdr, name;
    match k {
      case Blank =>
      case ControllerLine =>
        flags' := flags.(inController := true);
        if hdr == [] {
          hdr', next, name' := Capture.CaptureControllerHeader(lines, i);
        }
      case EndController =>
        flags' := flags.(inController := false);
      case DatatypeLine =>
        next, flags', cur', p', log' := DatatypeLine(lines, i, flags, cur, p, log, m);
      case EndDatatype =>
        flags', cur' := flags.(inUdt := false), NoStruct;
      case AoiLine =>
        flags' := flags.(inAoi := true, inUdt := false);
        var n := Utils.ExtractBlockName(t, "ADD_ON_INSTRUCTION_DEFINITION");
        if IsSet(n) {
          p' := p.(aois := Put(p.aois, n.value, NewAoi(n.value).(description := L5kAttributes.SetDesc("", t))));
          cur' := CurAoi(n.value);
        }
      case EndAoi =>
        flags', cur' := flags.(inAoi := false), NoStruct;
      case EncodedLine =>
        next, flags', cur', p' := EncodedLine(lines, i, flags, cur, p, m);
      case EndEncoded =>
        flags', cur' := flags.(inAoi := false), NoStruct;
      case ProgramLine =>
        flags', p' := ProgramLine(lines[i], flags, p, m);
      case ParamsOpen =>
        flags' := flags.(inAoiParams := true);
      case ParamsClose =>
        flags' := flags.(inAoiParams := false);
      case LocalsOpen =>
        flags' := flags.(inAoiLocaltags := true);
      case LocalsClose =>
        flags' := flags.(inAoiLocaltags := false);
      case UdtData =>
        next, p' := UdtDataLine(lines, i, t, p, cur.name, m);
      case ParamData =>
        next, p' := ParamDataLine(lines, i, t, p, cur.name, m);
      case LocalData =>
        next, p' := LocalDataLine(lines, i, t, p, cur.name, m);
      case Other =>
    }
  }

  /** DATATYPE: the header lines, the log entry for unbalanced parentheses, and a named UDT
      made current. */
  method DatatypeLine(lines: seq<string>, i: nat, flags: Flags, cur: Current, p: Project, log: seq<string>,
                      ghost m: Machine)
    returns (next: nat, flags': Flags, cur': Current, p': Project, log': seq<string>)
    requires i < |lines|
    requires m.flags == flags && m.cur == cur && m.project == p && m.log == log
    ensures var r := OnDatatype(lines, i, m);
      next == r.0 && r.1 == m.(flags := flags', cur := cur', project := p', log := log')
  {
    var hdr, j := Capture.CaptureDatatypeHeader(lines, i);
    var blob := Join(StripEach(hdr), " ");
    var delta := Utils.ComputeParenDelta(Join(hdr, " "));
    log' := log;
    if delta != 0 {
      log' := log + [UnbalancedHeader(i + 1)];
    }
    next, flags', cur', p' := j, flags, cur, p;
    var name := Utils.ExtractBlockName(Strip(lines[i]), "DATATYPE");
    if IsSet(name) {
      var u := NewUdt(name.value).(description := L5kAttributes.SetDesc("", blob));
      var ft := Patterns.FamilyType(blob);
      if IsSet(ft) {
        u := u.(familyType := ft.value);
      }
      p' := p.(udts := Put(p.udts, name.value, u));
      flags' := flags.(inUdt := true, inAoi := false, inAoiParams := false, inAoiLocaltags := false);
      cur' := CurUdt(name.value);
    }
  }

  /** ENCODED_DATA: the metadata lines; an encoded AOI with a Name is created and made current. */
  method EncodedLine(lines: seq<string>, i: nat, flags: Flags, cur: Current, p: Project, ghost m: Machine)
    returns (next: nat, flags': Flags, cur': Current, p': Project)
    requires i < |lines|
    requires m.flags == flags && m.cur == cur && m.project == p
    ensures var r := OnEncoded(lines, i, m);
      next == r.0 && r.1 == m.(flags := flags', cur := cur', project := p')
  {
    var meta, j := Capture.CaptureMeta(lines, i);
    var blob := Join(StripEach(meta), " ");
    next, flags', cur', p' := j, flags, cur, p;
    assert OnEncoded(lines, i, m) == (j, OpenEncoded(blob, m));
    if Find(blob, EncodedAoi) >= 0 {
      var name := Patterns.EncodedName(blob);
      if IsSet(name) {
        flags' := flags.(inAoi := true, inUdt := false, inAoiParams := false, inAoiLocaltags := false);
        p' := p.(aois := Put(p.aois, name.value, NewAoi(name.value).(description := L5kAttributes.SetDesc("", blob))));
        cur' := CurAoi(name.value);
      }
    }
  }

  /** PROGRAM: the program named on the line is created, or gets a missing description. */
  method ProgramLine(raw: string, flags: Flags, p: Project, ghost m: Machine) returns (flags': Flags, p': Project)
    requires m.flags == flags && m.project == p
    ensures OnProgram(raw, m) == m.(flags := flags', project := p')
  {
    var name := ProgramName(raw);
    var desc := if name != "" then L5kAttributes.GetDesc(raw) else "";
    var programs := p.programs;
    if name != "" && name !in programs.vals {
      programs := Put(programs, name, Program(name, desc, Empty()));
    } else if name != "" && programs.vals[name].description == "" && desc != "" {
      programs := Put(programs, name, programs.vals[name].(description := desc));
    }
    p' := p.(programs := programs);
    flags' := flags.(inProgram := name != "", curProgram := if name == "" then None else Some(name),
                     inProgTags := false);
  }

  /** A member line of the current UDT n. */
  method UdtDataLine(lines: seq<string>, i: nat, t: string, p: Project, n: string, ghost m: Machine)
    returns (next: nat, p': Project)
    requires i < |lines| && m.cur == CurUdt(n) && n in p.udts.vals && m.project == p
    ensures var r := OnUdtData(lines, i, t, m); next == r.0 && r.1 == m.(project := p')
  {
    var u := p.udts.vals[n];
    next, p' := i + 1, p;
    var tf := Patterns.UdtTypeFirst(t);
    if tf.Some? && tf.value.dtype == "SINT" && StartsWith(tf.value.name, HiddenPrefix) {
      var def, j := Capture.CaptureBlock(lines, i);
      var w := HiddenWord(Get(u.members, tf.value.name), tf.value.name, def);
      p' := p.(udts := Put(p.udts, n, AddMember(u, w)));
      next := j;
    } else {
      var b := Patterns.UdtBitAlias(t);
      if b.Some? {
        var def, j := Capture.CaptureBlock(lines, i);
        p' := p.(udts := Put(p.udts, n, AddBitAlias(u, b.value, def)));
        next := j;
      } else if tf.Some? {
        var def, j := Capture.CaptureBlock(lines, i);
        p' := p.(udts := Put(p.udts, n, AddMember(u, TypedMember(tf.value, def))));
        next := j;
      }
    }
  }

  /** A parameter line of the current AOI n. */
  method ParamDataLine(lines: seq<string>, i: nat, t: string, p: Project, n: string, ghost m: Machine)
    returns (next: nat, p': Project)
    requires i < |lines| && m.cur == CurAoi(n) && n in p.aois.vals && m.project == p
    ensures var r := OnParamData(lines, i, t, m); next == r.0 && r.1 == m.(project := p')
  {
    next, p' := i + 1, p;
    var np := Patterns.AoiParam(t);
    if np.Some? {
      var text, j := Capture.CaptureBlock(lines, i);
      var def := L5kAttributes.ComputeStripAttrs(text);
      var prm := AoiParameter(np.value.name, np.value.path, L5kAttributes.GetDesc(def), Some(def), false, false);
      p' := p.(aois := Put(p.aois, n, AddParameter(p.aois.vals[n], prm)));
      next := j;
    }
  }

  /** A local tag line of the current AOI n. */
  method LocalDataLine(lines: seq<string>, i: nat, t: string, p: Project, n: string, ghost m: Machine)
    returns (next: nat, p': Project)
    requires i < |lines| && m.cur == CurAoi(n) && n in p.aois.vals && m.project == p
    ensures var r := OnLocalData(lines, i, t, m); next == r.0 && r.1 == m.(project := p')
  {
    next, p' := i + 1, p;
    var np := Patterns.AoiLocalTag(t);
    if np.Some? {
      var text, j := Capture.CaptureBlock(lines, i);
      var def := L5kAttributes.ComputeStripAttrs(text);
      var l := AoiLocalTag(np.value.name, np.value.path, L5kAttributes.GetDesc(def), Some(def));
      p' := p.(aois := Put(p.aois, n, AddLocalTag(p.aois.vals[n], l)));
      next := j;
    }
  }

  // ---------------------------------------------------------------- parse()

  /** What parse() leaves: the header taken from the lines, the loop of _parse_structures
      from its start state, then _resolve_nested_types. */
  function ParseResult(lines: seq<string>, p: Project, log: seq<string>, hdr: seq<string>, name: Option<string>)
    : (Project, seq<string>)
  {
    var h := Capture.HeaderText(lines);
    var p0 := if h.Some? then p.(header := h) else p;
    var m := Run(lines, 0, Start(p0, log, hdr, name));
    Resolver.ResolveNestedTypes(m.project, m.log)
  }

  /** L5KParser(content).parse(). */
  function ParseText(content: string): (Project, seq<string>)
  {
    ParseResult(SplitLines(content), EmptyProject(), [], [], None)
  }

  /** The base-type pass keeps every entry under its own name. */
  lemma ResolvesKeyed(p: Project, r: Project)
    requires ResolverLaws.Resolves(p, r) && StructureLaws.Keyed(p)
    ensures StructureLaws.Keyed(r)
  {
    forall k | k in r.aois.vals
      ensures r.aois.vals[k].name == k && StructureLaws.AoiKeyed(r.aois.vals[k])
    {
      assert k in p.aois.keys;
      var x, y := p.aois.vals[k], r.aois.vals[k];
      forall q | q in y.parameters.vals ensures y.parameters.vals[q].name == q {
        assert q in x.parameters.keys;
      }
    }
  }

  /** A parsed file: its header is the header block of the lines, every entry is stored under
      its own name, and the log holds the unbalanced-header entries of the first pass followed
      by the correction entries of the second. */
  lemma ParseTextLaws(content: string) returns (n: nat)
    ensures var r := ParseText(content);
      r.0.header == Capture.HeaderText(SplitLines(content)) && StructureLaws.Keyed(r.0) &&
      n <= |r.1| &&
      (forall k :: 0 <= k < n ==> StartsWith(r.1[k], UnbalancedPrefix)) &&
      (forall k :: n <= k < |r.1| ==> StartsWith(r.1[k], "Corrected "))
  {
    var lines := SplitLines(content);
    var h := Capture.HeaderText(lines);
    var p0 := if h.Some? then EmptyProject().(header := h) else EmptyProject();
    var m0 := Start(p0, [], [], None);
    var m := Run(lines, 0, m0);
    StructureLaws.RunKeeps(lines, 0, m0);
    n := PassesCombine(p0, m);
  }

  /** The two passes together, for any first-pass result that keeps what the loop keeps. */
  lemma PassesCombine(p0: Project, m: Machine) returns (n: nat)
    requires p0.tags.keys == [] && p0.udts.keys == [] && p0.aois.keys == [] && p0.programs.keys == []
    requires StructureLaws.Keeps(Start(p0, [], [], None), m)
    ensures var r := Resolver.ResolveNestedTypes(m.project, m.log);
      r.0.header == p0.header && StructureLaws.Keyed(r.0) &&
      n <= |r.1| &&
      (forall k :: 0 <= k < n ==> StartsWith(r.1[k], UnbalancedPrefix)) &&
      (forall k :: n <= k < |r.1| ==> StartsWith(r.1[k], "Corrected "))
  {
    assert StructureLaws.Keyed(p0);
    var r := Resolver.ResolveNestedTypes(m.project, m.log);
    ResolverLaws.ResolveNestedTypesKeeps(m.project, m.log);
    ResolvesKeyed(m.project, r.0);
    n := |m.log|;
    assert forall k :: 0 <= k < n ==> r.1[k] == m.log[k];
  }

  // ---------------------------------------------------------------- _pad_local_tags

  const PadBase := "__Pad"

  /** The k-th name _pad_local_tags tries: `__Pad`, then `__Pad2`, `__Pad3`, ... */
  function PadCandidate(k: nat): string
  {
    if k <= 1 then PadBase else PadBase + Decimal(k)
  }

  lemma {:induction false} DecimalInjective(a: nat, b: nat)
    requires Decimal(a) == Decimal(b)
    ensures a == b
    decreases a
  {
    var da, db := Decimal(a), Decimal(b);
    assert da[|da| - 1] == db[|db| - 1];
    assert a % 10 == b % 10;
    if a >= 10 && b >= 10 {
      assert Decimal(a / 10) == da[..|da| - 1];
      assert Decimal(b / 10) == db[..|db| - 1];
      DecimalInjective(a / 10, b / 10);
    } else if a >= 10 || b >= 10 {
      assert false;
    }
  }

  /** Different attempts try different names. */
  lemma PadCandidateInjective(a: nat, b: nat)
    requires 1 <= a && 1 <= b && PadCandidate(a) == PadCandidate(b)
    ensures a == b
  {
    if a > 1 && b > 1 {
      assert Decimal(a) == PadCandidate(a)[|PadBase|..];
      assert Decimal(b) == PadCandidate(b)[|PadBase|..];
      DecimalInjective(a, b);
    }
  }

  /** The candidate about to be tried is none of those tried before. */
  lemma PadUntried(tried: set<string>, suffix: nat)
    requires suffix >= 1
    requires OnlyTried(tried, suffix)
    ensures PadCandidate(suffix) !in tried
  {
    if PadCandidate(suffix) in tried {
      var j :| 1 <= j < suffix && PadCandidate(suffix) == PadCandidate(j);
      PadCandidateInjective(j, suffix);
    }
  }

  /** _pad_local_tags: the first of `__Pad`, `__Pad2`, `__Pad3`, ... that is not a local tag
      of the AOI. */
  method PadLocalTag(a: Aoi) returns (name: string)
    ensures name !in a.localtags.vals
    ensures exists k :: k >= 1 && name == PadCandidate(k) && Taken(a.localtags.vals.Keys, k)
  {
    var existing := a.localtags.vals.Keys;
    name := PadBase;
    var suffix := 1;
    ghost var tried: set<string> := {};
    while name in existing
      invariant suffix >= 1 && name == PadCandidate(suffix)
      invariant tried <= existing && |tried| == suffix - 1
      invariant Taken(existing, suffix) && OnlyTried(tried, suffix)
      decreases |existing| - |tried|
    {
      PadUntried(tried, suffix);
      TakenStep(existing, suffix);
      TriedStep(tried, suffix);
      tried := tried + {name};
      SubsetCard(tried, existing);
      suffix := suffix + 1;
      name := PadBase + Decimal(suffix);
    }
    assert Taken(existing, suffix);
  }

  /** Every attempt before `suffix` is a local tag. */
  predicate Taken(existing: set<string>, suffix: nat)
  {
    forall j :: 1 <= j < suffix ==> PadCandidate(j) in existing
  }

  /** The names tried so far are the attempts before `suffix`. */
  ghost predicate OnlyTried(tried: set<string>, suffix: nat)
  {
    forall x :: x in tried ==> exists j :: 1 <= j < suffix && x == PadCandidate(j)
  }

  lemma TakenStep(existing: set<string>, suffix: nat)
    requires Taken(existing, suffix) && PadCandidate(suffix) in existing
    ensures Taken(existing, suffix + 1)
  {
  }

  lemma TriedStep(tried: set<string>, suffix: nat)
    requires suffix >= 1 && OnlyTried(tried, suffix)
    ensures OnlyTried(tried + {PadCandidate(suffix)}, suffix + 1)
  {
    forall x | x in tried + {PadCandidate(suffix)}
      ensures exists j :: 1 <= j < suffix + 1 && x == PadCandidate(j)
    {
      if x in tried {
        var j :| 1 <= j < suffix && x == PadCandidate(j);
        assert 1 <= j < suffix + 1;
      } else {
        assert x == PadCandidate(suffix);
      }
    }
  }

  lemma SubsetCard(a: set<string>, b: set<string>)
    requires a <= b
    ensures |a| <= |b|
  {
    if a != {} {
      var x :| x in a;
      SubsetCard(a - {x}, b - {x});
    }
  }

  // ---------------------------------------------------------------- _render_program_header_line

  /** _render_program_header_line: `<indent>PROGRAM <name>`, with the encoded description
      when it is not blank. */
  function ProgramHeader(prog: Program, indent: string): string
  {
    indent + "PROGRAM " + prog.name + DescPart(prog.description)
  }

  /** The ` (Description := "...")` part, empty for a blank description. */
  function DescPart(desc: string): string
  {
    if Strip(desc) != "" then " (Description := \"" + Encode(desc) + "\")" else ""
  }

  lemma DescPartStart(desc: string)
    ensures DescPart(desc) == [] || IsSpace(DescPart(desc)[0])
  {
  }

  lemma ProgramHeaderShape(prog: Program, indent: string)
    ensures ProgramHeader(prog, indent) == indent + ("PROGRAM" + ([' '] + (prog.name + DescPart(prog.description))))
  {
  }

  /** A program name as the PROGRAM line reads it back: no blank and no '('. */
  predicate NameToken(s: string)
  {
    s != [] && forall k :: 0 <= k < |s| ==> !IsSpace(s[k]) && s[k] != '('
  }

  lemma FindAfterBlanks(indent: string, x: string, p: string)
    requires AllSpace(indent) && StartsWith(x, p) && p != [] && !IsSpace(p[0])
    ensures Find(indent + x, p) == |indent|
  {
    var s := indent + x;
    assert s[|indent|..] == x;
    assert StartsWith(s[|indent|..], p);
  }

  lemma LStripNonBlank(y: string)
    requires y != [] && !IsSpace(y[0])
    ensures LStrip([' '] + y) == y
  {
    assert ([' '] + y)[1..] == y;
  }

  lemma {:induction false} FirstTokenOf(a: string, b: string)
    requires forall k :: 0 <= k < |a| ==> !IsSpace(a[k])
    requires b == [] || IsSpace(b[0])
    ensures FirstToken(a + b) == a
    decreases |a|
  {
    if a != [] {
      assert (a + b)[1..] == a[1..] + b;
      FirstTokenOf(a[1..], b);
    } else {
      assert a + b == b;
    }
  }

  /** The PROGRAM line it renders names the program again: ProgramName reads back the name
      from an indent of blanks, with or without the description. */
  lemma ProgramHeaderName(prog: Program, indent: string)
    requires AllSpace(indent) && NameToken(prog.name)
    ensures ProgramName(ProgramHeader(prog, indent)) == prog.name
  {
    ProgramHeaderShape(prog, indent);
    DescPartStart(prog.description);
    ProgramNameOf(indent, prog.name, DescPart(prog.description));
  }

  lemma ProgramNameOf(indent: string, name: string, rest: string)
    requires AllSpace(indent) && NameToken(name) && (rest == [] || IsSpace(rest[0]))
    ensures ProgramName(indent + ("PROGRAM" + ([' '] + (name + rest)))) == name
  {
    var raw := indent + ("PROGRAM" + ([' '] + (name + rest)));
    var x := "PROGRAM" + ([' '] + (name + rest));
    KeywordFront("PROGRAM", [' '] + (name + rest));
    FindAfterBlanks(indent, x, "PROGRAM");
    SliceAfter(indent, "PROGRAM", [' '] + (name + rest));
    ProgramNameAt(raw, |indent|);
    LStripNonBlank(name + rest);
    TokenNameOf(name, rest);
  }

  lemma ProgramNameAt(raw: string, k: nat)
    requires k + 7 <= |raw| && Find(raw, "PROGRAM") == k
    ensures ProgramName(raw) == TokenName(LStrip(raw[k + 7..]))
  {
    assert AfterProgram(raw, k) == LStrip(raw[k + 7..]);
  }

  lemma TokenNameOf(name: string, rest: string)
    requires NameToken(name) && (rest == [] || IsSpace(rest[0]))
    ensures TokenName(name + rest) == name
  {
    FirstTokenOf(name, rest);
  }

  lemma SliceAfter(a: string, k: string, y: string)
    ensures (a + (k + y))[|a| + |k|..] == y
  {
    assert a + (k + y) == (a + k) + y;
  }

  lemma KeywordFront(k: string, y: string)
    ensures StartsWith(k + y, k) && (k + y)[|k|..] == y
  {
  }
}
