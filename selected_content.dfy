/** L5KParser.get_selected_content: a second walk over the file's lines that keeps the text
    outside the DATATYPE, AOI and TAG blocks, drops ROUTINE bodies and `DefaultData :=` lines,
    and emits a block only when one of its lines was kept for the selection. Tag entries are
    rebuilt from the parsed model without their values. The walk is a `while` loop over an
    ExportState, a block buffer, a kept buffer, the output and a skip flag; each turn is one
    Step below. */
module SelectedContent {
  import opened Text
  import opened OrderedMaps
  import opened Models
  import opened L5kStrings
  import Patterns
  import Utils
  import Capture
  import Structures

  // ---------------------------------------------------------------- the loop's state

  /** ExportState of l5k_parser.py. */
  datatype ExportState = ExportState(
    inUdt: bool, inAoi: bool, inParams: bool, inLocals: bool, inController: bool,
    inRoutine: bool, inTags: bool, currentUdt: Option<string>, currentAoi: Option<string>)

  /** `ExportState()`. */
  const Fresh := ExportState(false, false, false, false, false, false, false, None, None)

  /** The loop's variables: the state, block_lines, kept_lines, out and skip_until_block_end. */
  datatype Filter = Filter(st: ExportState, block: seq<string>, kept: seq<string>,
                           out: seq<string>, skip: bool)

  /** The state before the first line, with `out` already holding the header text. */
  function Start(out: seq<string>): Filter { Filter(Fresh, [], [], out, false) }

  /** When skipping starts after a parameter or local tag whose stored definition was
      injected. AsWritten is what l5k_parser.py does: always. Corrected is the evidently
      intended rule: only when the declaration goes on past its line (see Findings in
      README.md). */
  datatype SkipRule = AsWritten | Corrected

  /** What the walk reads besides the lines: the project, the selection, the captured
      CONTROLLER header lines and the skip rule. */
  datatype Inputs = Inputs(project: Project, sel: Selection, hdr: seq<string>, rule: SkipRule)

  // ---------------------------------------------------------------- the line recognisers

  /** `^([\w\.]+)\s*:\s*` on a stripped line of a TAG section: the tag name. */
  function TagEntryName(s: string): Option<string>
  {
    var n := Patterns.Run(s, Patterns.Name);
    var u := LStrip(s[|n|..]);
    if n != [] && u != [] && u[0] == ':' then Some(n) else None
  }

  /** `^\w+(?:\[\d+(?:,\d+)*\])?\s+(\w+)\b`: a type-first member line, its name. */
  function TypeFirstMember(s: string): Option<string>
  {
    var dt := Patterns.Run(s, Patterns.Word);
    var r := s[|dt|..];
    var u := r[Patterns.DimsLength(r)..];
    var sp := Patterns.Run(u, Patterns.Space);
    var nm := Patterns.Run(u[|sp|..], Patterns.Word);
    if dt == [] || sp == [] || nm == [] then None else Some(nm)
  }

  /** A character of `[\w\[\]\.]`. */
  predicate TypeChar(c: char) { IsWordChar(c) || c == '[' || c == ']' || c == '.' }

  /** `^(\w+)\s*:\s*[\w\[\]\.]+`: a name-first member line, its name. */
  function NameFirstMember(s: string): Option<string>
  {
    var nm := Patterns.Run(s, Patterns.Word);
    var u := LStrip(s[|nm|..]);
    if nm == [] || u == [] || u[0] != ':' then None
    else
      var v := LStrip(u[1..]);
      if v != [] && TypeChar(v[0]) then Some(nm) else None
  }

  /** The member a line inside a DATATYPE names: type-first, else name-first, else the alias
      of a BIT line. */
  function MemberName(s: string): Option<string>
  {
    match TypeFirstMember(s)
    case Some(n) => Some(n)
    case None =>
      match NameFirstMember(s)
      case Some(n) => Some(n)
      case None =>
        match Patterns.UdtBitAlias(s)
        case Some(b) => Some(b.alias)
        case None => None
  }

  /** `"DefaultData :=" in s`. */
  predicate HasDefaultData(s: string) { Contains(s, "DefaultData :=") }

  /** The leading blanks of a raw line: `line[:len(line) - len(line.lstrip())]`. */
  function Indent(line: string): string { line[..|line| - |LStrip(line)|] }

  /** Each line prefixed with the indent. */
  function Prefixed(indent: string, ls: seq<string>): (r: seq<string>)
    ensures |r| == |ls|
    ensures forall k :: 0 <= k < |ls| ==> r[k] == indent + ls[k]
  {
    if ls == [] then [] else [indent + ls[0]] + Prefixed(indent, ls[1..])
  }

  // ---------------------------------------------------------------- model lookups

  /** _udt_member_should_keep: the member is chosen, or one of its BIT children is. */
  predicate ShouldKeep(p: Project, udt: string, member: string, chosen: set<string>)
  {
    member in chosen ||
    (udt in p.udts.vals && member in p.udts.vals[udt].members.vals &&
     p.udts.vals[udt].members.vals[member].children.vals.Keys * chosen != {})
  }

  /** The stored definition of parameter n of AOI a, when there is one. */
  function ParamDefinition(p: Project, a: string, n: string): Option<string>
  {
    if a in p.aois.vals && n in p.aois.vals[a].parameters.vals
    then p.aois.vals[a].parameters.vals[n].definition else None
  }

  /** The stored definition of local tag n of AOI a, when there is one. */
  function LocalDefinition(p: Project, a: string, n: string): Option<string>
  {
    if a in p.aois.vals && n in p.aois.vals[a].localtags.vals
    then p.aois.vals[a].localtags.vals[n].definition else None
  }

  /** The fallback tag statement: the stripped line cut before its first `:=` outside
      parentheses and quotes, right-stripped. */
  function ValueFree(s: string): string
  {
    var idx := FirstOutsideParens(s, ":=");
    if idx == -1 then s else RStrip(s[..idx])
  }

  /** The lines a selected tag contributes to its TAG block: the stored definition, each line
      at the source line's indent, or the value-free statement ending in ';'. */
  function TagBody(p: Project, name: string, line: string, s: string): seq<string>
  {
    var indent := Indent(line);
    if name in p.tags.vals && HasText(p.tags.vals[name].definition)
    then Prefixed(indent, SplitLines(p.tags.vals[name].definition.value))
    else [indent + ValueFree(s) + ";"]
  }

  // ---------------------------------------------------------------- line kinds

  /** Which branch of the loop a line takes, in the order the loop tests them. */
  datatype LineKind =
    | Skipped | RoutineBody | RoutineOpen | ControllerOpen | ControllerClose
    | TagOpen | TagClose | TagEntry
    | UdtOpen | UdtClose | AoiOpen | AoiClose | EncodedOpen | EncodedClose
    | UdtLine | ParamsOpen | ParamsClose | LocalsOpen | LocalsClose
    | ParamLine | LocalLine | AoiLine | Outside

  /** The branch for the stripped line s. */
  function Classify(s: string, f: Filter): (k: LineKind)
    ensures k == Skipped <==> f.skip
    ensures k == TagEntry ==> TagEntryName(s).Some?
    ensures k == UdtLine ==> f.st.currentUdt.Some?
    ensures k == ParamLine || k == LocalLine ==> f.st.currentAoi.Some?
  {
    var st := f.st;
    if f.skip then Skipped
    else if st.inRoutine then RoutineBody
    else if StartsWith(s, "ROUTINE") then RoutineOpen
    else if StartsWith(s, "CONTROLLER") then ControllerOpen
    else if StartsWith(s, "END_CONTROLLER") then ControllerClose
    else if st.inController && s == "TAG" then TagOpen
    else if st.inController && s == "END_TAG" then TagClose
    else if st.inController && st.inTags && TagEntryName(s).Some? then TagEntry
    else ClassifyBlock(s, st)
  }

  /** The block keywords, tested after the routine, controller and TAG transitions. */
  function ClassifyBlock(s: string, st: ExportState): (k: LineKind)
    ensures k == UdtLine ==> st.currentUdt.Some?
    ensures k == ParamLine || k == LocalLine ==> st.currentAoi.Some?
    ensures k != Skipped && k != RoutineBody && k != TagEntry
  {
    if StartsWith(s, "DATATYPE") then UdtOpen
    else if StartsWith(s, "END_DATATYPE") then UdtClose
    else if StartsWith(s, "ADD_ON_INSTRUCTION_DEFINITION") then AoiOpen
    else if StartsWith(s, "END_ADD_ON_INSTRUCTION_DEFINITION") then AoiClose
    else if StartsWith(s, "ENCODED_DATA") then EncodedOpen
    else if StartsWith(s, "END_ENCODED_DATA") then EncodedClose
    else ClassifyMember(s, st)
  }

  /** Lines inside a DATATYPE or an AOI, and everything else. */
  function ClassifyMember(s: string, st: ExportState): (k: LineKind)
    ensures k == UdtLine ==> st.currentUdt.Some?
    ensures k == ParamLine || k == LocalLine ==> st.currentAoi.Some?
    ensures k != Skipped && k != RoutineBody && k != TagEntry
  {
    if st.inUdt && Named(st.currentUdt) then UdtLine
    else if st.inAoi && Named(st.currentAoi) then
      if s == "PARAMETERS" then ParamsOpen
      else if s == "END_PARAMETERS" then ParamsClose
      else if s == "LOCAL_TAGS" then LocalsOpen
      else if s == "END_LOCAL_TAGS" then LocalsClose
      else if st.inParams then ParamLine
      else if st.inLocals then LocalLine
      else AoiLine
    else Outside
  }

  /** A current structure name that Python treats as true. */
  predicate Named(o: Option<string>) { o.Some? && o.value != "" }

  // ---------------------------------------------------------------- the branches

  /** flush_block(end_line): the block with its end line goes out when something was kept. */
  function Flush(f: Filter, line: string): Filter
  {
    var b := f.block + [line];
    f.(out := if f.kept != [] then f.out + b else f.out, block := [], kept := [])
  }

  /** The state after an AOI ends. */
  function CloseAoi(st: ExportState): ExportState
  {
    st.(inAoi := false, currentAoi := None, inParams := false, inLocals := false)
  }

  /** A CONTROLLER line: the captured header lines replace as many source lines. */
  function OnControllerOpen(c: Inputs, i: nat, line: string, f: Filter): (r: (nat, Filter))
    ensures r.0 > i
  {
    var g := f.(st := f.st.(inController := true));
    if c.hdr != [] then (i + |c.hdr|, g.(out := g.out + c.hdr))
    else (i + 1, g.(out := g.out + [line]))
  }

  /** END_CONTROLLER: kept unless it carries `DefaultData :=` (in_routine is false on this
      path). */
  function OnControllerClose(line: string, s: string, f: Filter): Filter
  {
    f.(st := f.st.(inController := false), out := if HasDefaultData(s) then f.out else f.out + [line])
  }

  /** A line outside every block: kept unless it carries `DefaultData :=` (in_routine is
      false on this path). */
  function OnOutside(line: string, s: string, f: Filter): Filter
  {
    if HasDefaultData(s) then f else f.(out := f.out + [line])
  }

  /** A tag line of a TAG section: a selected tag is rebuilt into the block and marks it. */
  function OnTagEntry(c: Inputs, line: string, s: string, f: Filter): Filter
    requires TagEntryName(s).Some?
  {
    var name := TagEntryName(s).value;
    if name !in c.sel.tags then f
    else f.(kept := f.kept + [""], block := f.block + TagBody(c.project, name, line, s))
  }

  /** A DATATYPE line: the header is re-rendered from the model when the UDT is known. */
  function OnUdtOpen(c: Inputs, line: string, s: string, f: Filter): Filter
  {
    var name := Utils.ExtractBlockName(s, "DATATYPE");
    var header := if Named(name) && name.value in c.project.udts.vals
                  then UdtHeader(c.project.udts.vals[name.value], "\t") else line;
    f.(st := f.st.(inUdt := true, currentUdt := name), block := [header], kept := [])
  }

  /** An ADD_ON_INSTRUCTION_DEFINITION line opens an AOI block. */
  function OnAoiOpen(line: string, s: string, f: Filter): Filter
  {
    var name := Utils.ExtractBlockName(s, "ADD_ON_INSTRUCTION_DEFINITION");
    f.(st := f.st.(inAoi := true, currentAoi := name, inParams := false, inLocals := false),
       block := [line], kept := [])
  }

  /** An ENCODED_DATA line: its metadata lines open an AOI block named by the metadata. */
  function OnEncodedOpen(lines: seq<string>, i: nat, f: Filter): (r: (nat, Filter))
    requires i < |lines|
    ensures r.0 > i
  {
    var e := Capture.MetaEnd(lines, i + 1);
    var meta := lines[i..e];
    var name := Structures.EncodedAoiName(Join(Structures.StripEach(meta), " "));
    (e, f.(st := f.st.(inAoi := true, currentAoi := name, inParams := false, inLocals := false),
           block := meta, kept := []))
  }

  /** A member line of a DATATYPE block: kept when the UDT or the member is selected. */
  function OnUdtLine(c: Inputs, line: string, s: string, f: Filter): Filter
    requires f.st.currentUdt.Some?
  {
    var u := f.st.currentUdt.value;
    match MemberName(s)
    case None => f.(block := f.block + [line])
    case Some(m) =>
      var keep := u in c.sel.udts || ShouldKeep(c.project, u, m, Chosen(c.sel.udtMembers, u));
      f.(kept := if keep then f.kept + [line] else f.kept, block := f.block + [line])
  }

  /** Whether the lines after a declaration whose stored definition was injected are skipped. */
  predicate SkipAfter(rule: SkipRule, line: string)
  {
    match rule
    case AsWritten => true
    case Corrected => !Capture.SingleLine(line)
  }

  /** _process_aoi_param_line / _process_aoi_local_line and what the loop does with their
      answer, for a member named `name` (None: the line names nothing), the member's stored
      definition `def` and the chosen names. */
  function OnAoiMember(rule: SkipRule, line: string, name: Option<string>, def: Option<string>,
                       chosen: set<string>, f: Filter): Filter
  {
    if name.None? then f.(block := f.block + [line])
    else if HasText(def) then
      var ls := SplitLines(def.value);
      f.(kept := f.kept + ls, block := f.block + ls, skip := SkipAfter(rule, line))
    else f.(kept := if name.value in chosen then f.kept + [line] else f.kept, block := f.block + [line])
  }

  /** A line of a PARAMETERS section. */
  function OnParamLine(c: Inputs, line: string, s: string, f: Filter): Filter
    requires f.st.currentAoi.Some?
  {
    var a := f.st.currentAoi.value;
    var n := Utils.MatchAoiParamName(s);
    OnAoiMember(c.rule, line, n, if n.Some? then ParamDefinition(c.project, a, n.value) else None,
                Chosen(c.sel.aoiParameters, a), f)
  }

  /** A line of a LOCAL_TAGS section. */
  function OnLocalLine(c: Inputs, line: string, s: string, f: Filter): Filter
    requires f.st.currentAoi.Some?
  {
    var a := f.st.currentAoi.value;
    var n := Utils.MatchAoiLocalName(s);
    OnAoiMember(c.rule, line, n, if n.Some? then LocalDefinition(c.project, a, n.value) else None,
                Chosen(c.sel.aoiLocaltags, a), f)
  }

  // ---------------------------------------------------------------- the loop

  /** One turn of the loop at line i: the next index and the new state. */
  function Step(c: Inputs, lines: seq<string>, i: nat, f: Filter): (r: (nat, Filter))
    requires i < |lines|
    ensures r.0 > i
  {
    var s := Strip(lines[i]);
    Dispatch(c, lines, i, s, Classify(s, f), f)
  }

  /** The branch of kind k for line i, whose stripped text is s. */
  function Dispatch(c: Inputs, lines: seq<string>, i: nat, s: string, k: LineKind, f: Filter): (r: (nat, Filter))
    requires i < |lines|
    requires k == TagEntry ==> TagEntryName(s).Some?
    requires k == UdtLine ==> f.st.currentUdt.Some?
    requires k == ParamLine || k == LocalLine ==> f.st.currentAoi.Some?
    ensures r.0 > i
  {
    var line := lines[i];
    var st := f.st;
    match k
    case Skipped => (i + 1, f.(skip := !EndsWith(s, ");")))
    case RoutineBody =>
      (i + 1, if StartsWith(s, "END_ROUTINE") then f.(st := st.(inRoutine := false)) else f)
    case RoutineOpen => (i + 1, f.(st := st.(inRoutine := true)))
    case ControllerOpen => OnControllerOpen(c, i, line, f)
    case ControllerClose => (i + 1, OnControllerClose(line, s, f))
    case TagOpen => (i + 1, f.(st := st.(inTags := true), block := [line], kept := []))
    case TagClose => (i + 1, Flush(f, line).(st := st.(inTags := false)))
    case TagEntry => (i + 1, OnTagEntry(c, line, s, f))
    case Outside => (i + 1, OnOutside(line, s, f))
    case _ => DispatchBlock(c, lines, i, s, k, f)
  }

  /** The kinds of the DATATYPE and AOI branches. */
  predicate BlockKind(k: LineKind)
  {
    !(k.Skipped? || k.RoutineBody? || k.RoutineOpen? || k.ControllerOpen? || k.ControllerClose? ||
      k.TagOpen? || k.TagClose? || k.TagEntry? || k.Outside?)
  }

  /** The DATATYPE and AOI branches. */
  function DispatchBlock(c: Inputs, lines: seq<string>, i: nat, s: string, k: LineKind, f: Filter): (r: (nat, Filter))
    requires i < |lines| && BlockKind(k)
    requires k == UdtLine ==> f.st.currentUdt.Some?
    requires k == ParamLine || k == LocalLine ==> f.st.currentAoi.Some?
    ensures r.0 > i
  {
    var line := lines[i];
    var st := f.st;
    match k
    case UdtOpen => (i + 1, OnUdtOpen(c, line, s, f))
    case UdtClose => (i + 1, Flush(f, line).(st := st.(inUdt := false, currentUdt := None)))
    case AoiOpen => (i + 1, OnAoiOpen(line, s, f))
    case AoiClose => (i + 1, Flush(f, line).(st := CloseAoi(st)))
    case EncodedOpen => OnEncodedOpen(lines, i, f)
    case EncodedClose => (i + 1, Flush(f, line).(st := CloseAoi(st)))
    case UdtLine => (i + 1, OnUdtLine(c, line, s, f))
    case ParamsOpen => (i + 1, f.(st := st.(inParams := true, inLocals := false), block := f.block + [line]))
    case ParamsClose => (i + 1, f.(st := st.(inParams := false), block := f.block + [line]))
    case LocalsOpen => (i + 1, f.(st := st.(inLocals := true, inParams := false), block := f.block + [line]))
    case LocalsClose => (i + 1, f.(st := st.(inLocals := false), block := f.block + [line]))
    case ParamLine => (i + 1, OnParamLine(c, line, s, f))
    case LocalLine => (i + 1, OnLocalLine(c, line, s, f))
    case AoiLine => (i + 1, f.(block := f.block + [line]))
  }

  /** The loop from line i to the end. */
  function Run(c: Inputs, lines: seq<string>, i: nat, f: Filter): Filter
    decreases |lines| - i
  {
    if i >= |lines| then f
    else
      var r := Step(c, lines, i, f);
      Run(c, lines, r.0, r.1)
  }

  // ---------------------------------------------------------------- _get_header_and_body

  /** The header text: the project header's content when it is non-empty. */
  function HeaderOf(p: Project): string { if HasText(p.header) then p.header.value else "" }

  /** The index the body starts at: 0 without a header, else the first CONTROLLER line from
      the header's line count on, or the header's line count when there is none. */
  function BodyStart(p: Project, lines: seq<string>): nat
  {
    var h := HeaderOf(p);
    if h == "" then 0
    else
      var n := |SplitLines(h)|;
      var j := if n <= |lines| then Capture.FirstController(lines, n) else |lines|;
      if j < |lines| then j else n
  }

  /** `self.lines[start_idx:]`. */
  function Body(p: Project, lines: seq<string>): seq<string>
  {
    var k := BodyStart(p, lines);
    if k <= |lines| then lines[k..] else []
  }

  /** get_selected_content: the header text, then the filtered body, joined by '\n'. */
  function SelectedText(c: Inputs, lines: seq<string>): string
  {
    var h := HeaderOf(c.project);
    Join(Run(c, Body(c.project, lines), 0, Start(if h != "" then [h] else [])).out, "\n")
  }

  // ---------------------------------------------------------------- the methods

  /** _get_header_and_body with its `for ... else` search. */
  method HeaderAndBody(p: Project, lines: seq<string>) returns (header: string, body: seq<string>)
    ensures header == HeaderOf(p)
    ensures body == Body(p, lines)
  {
    header := "";
    if p.header.Some? && p.header.value != "" {
      header := p.header.value;
    }
    var start := 0;
    if header != "" {
      var n := |SplitLines(header)|;
      start := n;
      var k := n;
      while k < |lines|
        invariant n <= k
        invariant n < |lines| ==> k <= |lines| && Capture.FirstController(lines, n) == Capture.FirstController(lines, k)
        decreases |lines| - k
      {
        var hit := Capture.IsControllerLine(lines[k]);
        if hit {
          start := k;
          break;
        }
        k := k + 1;
      }
    }
    body := if start <= |lines| then lines[start..] else [];
  }

  /** `for def_line in ...: block_lines.append(indent + def_line)`. */
  method AppendPrefixed(block: seq<string>, indent: string, ls: seq<string>) returns (b: seq<string>)
    ensures b == block + Prefixed(indent, ls)
  {
    b := block;
    var k := 0;
    while k < |ls|
      invariant k <= |ls|
      invariant b == block + Prefixed(indent, ls[..k])
    {
      PrefixedSnoc(indent, ls[..k], ls[k]);
      assert ls[..k + 1] == ls[..k] + [ls[k]];
      b := b + [indent + ls[k]];
      k := k + 1;
    }
    assert ls[..k] == ls;
  }

  lemma PrefixedSnoc(indent: string, ls: seq<string>, x: string)
    ensures Prefixed(indent, ls + [x]) == Prefixed(indent, ls) + [indent + x]
  {
  }

  /** The TAG-section branch for a line naming a tag. */
  method TagEntryLine(c: Inputs, line: string, s: string, f: Filter) returns (g: Filter)
    requires TagEntryName(s).Some?
    ensures g == OnTagEntry(c, line, s, f)
  {
    g := f;
    var name := TagEntryName(s).value;
    if name in c.sel.tags {
      g := g.(kept := g.kept + [""]);
      var indent := line[..|line| - |LStrip(line)|];
      var tag := c.project.tags.vals;
      if name in tag && tag[name].definition.Some? && tag[name].definition.value != "" {
        var b := AppendPrefixed(g.block, indent, SplitLines(tag[name].definition.value));
        g := g.(block := b);
      } else {
        var idx := FirstOutsideParens(s, ":=");
        var prefix := if idx == -1 then s else RStrip(s[..idx]);
        g := g.(block := g.block + [indent + prefix + ";"]);
      }
    }
  }

  /** The ENCODED_DATA branch: the metadata capture and the AOI it names. */
  method EncodedOpenLine(lines: seq<string>, i: nat, f: Filter) returns (j: nat, g: Filter)
    requires i < |lines|
    ensures (j, g) == OnEncodedOpen(lines, i, f)
  {
    var meta;
    meta, j := Capture.CaptureMeta(lines, i);
    var blob := Join(Structures.StripEach(meta), " ");
    var name := Structures.EncodedAoiName(blob);
    g := f.(st := f.st.(inAoi := true, currentAoi := name, inParams := false, inLocals := false),
            block := meta, kept := []);
  }

  /** A member line of an AOI section, as the loop handles it. */
  method AoiMemberLine(rule: SkipRule, line: string, name: Option<string>, def: Option<string>,
                       chosen: set<string>, f: Filter) returns (g: Filter)
    ensures g == OnAoiMember(rule, line, name, def, chosen, f)
  {
    g := f;
    if name.None? {
      g := g.(block := g.block + [line]);
    } else if def.Some? && def.value != "" {
      var ls := SplitLines(def.value);
      var skip := true;
      if rule.Corrected? {
        skip := !Capture.SingleLine(line);
      }
      g := g.(kept := g.kept + ls, block := g.block + ls, skip := skip);
    } else {
      if name.value in chosen {
        g := g.(kept := g.kept + [line]);
      }
      g := g.(block := g.block + [line]);
    }
  }

  /** flush_block. */
  method FlushBlock(f: Filter, line: string) returns (g: Filter)
    ensures g == Flush(f, line)
  {
    var b := f.block + [line];
    g := f;
    if f.kept != [] {
      g := g.(out := g.out + b);
    }
    g := g.(block := [], kept := []);
  }

  /** One turn of the loop. */
  method StepLine(c: Inputs, lines: seq<string>, i: nat, f: Filter) returns (j: nat, g: Filter)
    requires i < |lines|
    ensures (j, g) == Step(c, lines, i, f)
  {
    var s := Strip(lines[i]);
    var k := Classify(s, f);
    assert Step(c, lines, i, f) == Dispatch(c, lines, i, s, k, f);
    if BlockKind(k) {
      j, g := BlockLine(c, lines, i, s, k, f);
      assert Dispatch(c, lines, i, s, k, f) == DispatchBlock(c, lines, i, s, k, f);
    } else if TagKind(k) {
      j, g := TagLine(c, lines, i, s, k, f);
    } else {
      j, g := LeadLine(c, lines, i, s, k, f);
    }
  }

  /** The skip, routine and controller branches of one turn. */
  method LeadLine(c: Inputs, lines: seq<string>, i: nat, s: string, k: LineKind, f: Filter)
    returns (j: nat, g: Filter)
    requires i < |lines|
    requires k == Skipped ==> f.skip
    requires !BlockKind(k) && !TagKind(k)
    ensures (j, g) == Dispatch(c, lines, i, s, k, f)
  {
    var line := lines[i];
    var st := f.st;
    j, g := i + 1, f;
    match k {
      case Skipped =>
        if EndsWith(s, ");") {
          g := g.(skip := false);
        }
      case RoutineBody =>
        if StartsWith(s, "END_ROUTINE") {
          g := g.(st := st.(inRoutine := false));
        }
      case RoutineOpen =>
        g := g.(st := st.(inRoutine := true));
      case ControllerOpen =>
        g := g.(st := st.(inController := true));
        if c.hdr != [] {
          g := g.(out := g.out + c.hdr);
          j := i + |c.hdr|;
        } else {
          g := g.(out := g.out + [line]);
        }
      case ControllerClose =>
        g := ControllerCloseLine(line, s, f);
    }
  }

  /** The kinds TagLine handles. */
  predicate TagKind(k: LineKind) { k.TagOpen? || k.TagClose? || k.TagEntry? || k.Outside? }

  /** The TAG-section branches and the branch for a line outside every block. */
  method TagLine(c: Inputs, lines: seq<string>, i: nat, s: string, k: LineKind, f: Filter)
    returns (j: nat, g: Filter)
    requires i < |lines| && TagKind(k)
    requires k == TagEntry ==> TagEntryName(s).Some?
    ensures (j, g) == Dispatch(c, lines, i, s, k, f)
  {
    var line := lines[i];
    var st := f.st;
    j, g := i + 1, f;
    match k {
      case TagOpen =>
        g := g.(st := st.(inTags := true), block := [line], kept := []);
      case TagClose =>
        g := FlushBlock(f, line);
        g := g.(st := st.(inTags := false));
      case TagEntry =>
        g := TagEntryLine(c, line, s, f);
      case Outside =>
        g := OutsideLine(line, s, f);
    }
  }

  /** The END_CONTROLLER branch. */
  method ControllerCloseLine(line: string, s: string, f: Filter) returns (g: Filter)
    ensures g == OnControllerClose(line, s, f)
  {
    g := f.(st := f.st.(inController := false));
    if Find(s, "DefaultData :=") < 0 {
      g := g.(out := g.out + [line]);
    }
  }

  /** The branch for a line outside every block. */
  method OutsideLine(line: string, s: string, f: Filter) returns (g: Filter)
    ensures g == OnOutside(line, s, f)
  {
    g := f;
    if Find(s, "DefaultData :=") < 0 {
      g := g.(out := g.out + [line]);
    }
  }

  /** The DATATYPE and AOI branches of one turn. */
  method BlockLine(c: Inputs, lines: seq<string>, i: nat, s: string, k: LineKind, f: Filter)
    returns (j: nat, g: Filter)
    requires i < |lines| && BlockKind(k)
    requires k == UdtLine ==> f.st.currentUdt.Some?
    requires k == ParamLine || k == LocalLine ==> f.st.currentAoi.Some?
    ensures (j, g) == DispatchBlock(c, lines, i, s, k, f)
  {
    var line := lines[i];
    var st := f.st;
    j, g := i + 1, f;
    match k {
      case UdtOpen =>
        var name := Utils.ExtractBlockName(s, "DATATYPE");
        var header := line;
        if name.Some? && name.value != "" && name.value in c.project.udts.vals {
          header := UdtHeader(c.project.udts.vals[name.value], "\t");
        }
        g := f.(st := st.(inUdt := true, currentUdt := name), block := [header], kept := []);
      case UdtClose =>
        g := FlushBlock(f, line);
        g := g.(st := st.(inUdt := false, currentUdt := None));
      case AoiOpen =>
        var name := Utils.ExtractBlockName(s, "ADD_ON_INSTRUCTION_DEFINITION");
        g := f.(st := st.(inAoi := true, currentAoi := name, inParams := false, inLocals := false),
                block := [line], kept := []);
      case AoiClose =>
        g := FlushBlock(f, line);
        g := g.(st := st.(inAoi := false, currentAoi := None, inParams := false, inLocals := false));
      case EncodedOpen =>
        j, g := EncodedOpenLine(lines, i, f);
      case EncodedClose =>
        g := FlushBlock(f, line);
        g := g.(st := st.(inAoi := false, currentAoi := None, inParams := false, inLocals := false));
      case UdtLine =>
        g := UdtMemberLine(c, line, s, f);
      case ParamsOpen =>
        g := f.(st := st.(inParams := true, inLocals := false), block := f.block + [line]);
      case ParamsClose =>
        g := f.(st := st.(inParams := false), block := f.block + [line]);
      case LocalsOpen =>
        g := f.(st := st.(inLocals := true, inParams := false), block := f.block + [line]);
      case LocalsClose =>
        g := f.(st := st.(inLocals := false), block := f.block + [line]);
      case ParamLine =>
        var a := st.currentAoi.value;
        var n := Utils.MatchAoiParamName(s);
        var def := if n.Some? then ParamDefinition(c.project, a, n.value) else None;
        g := AoiMemberLine(c.rule, line, n, def, Chosen(c.sel.aoiParameters, a), f);
      case LocalLine =>
        var a := st.currentAoi.value;
        var n := Utils.MatchAoiLocalName(s);
        var def := if n.Some? then LocalDefinition(c.project, a, n.value) else None;
        g := AoiMemberLine(c.rule, line, n, def, Chosen(c.sel.aoiLocaltags, a), f);
      case AoiLine =>
        g := f.(block := f.block + [line]);
    }
  }

  /** A member line of a DATATYPE block. */
  method UdtMemberLine(c: Inputs, line: string, s: string, f: Filter) returns (g: Filter)
    requires f.st.currentUdt.Some?
    ensures g == OnUdtLine(c, line, s, f)
  {
    var u := f.st.currentUdt.value;
    g := f;
    var m := MemberName(s);
    if m.Some? {
      var keep := u in c.sel.udts || ShouldKeep(c.project, u, m.value, Chosen(c.sel.udtMembers, u));
      if keep {
        g := g.(kept := g.kept + [line]);
      }
    }
    g := g.(block := g.block + [line]);
  }

  /** The `while i < body_len` loop. */
  method FilterLines(c: Inputs, lines: seq<string>, out0: seq<string>) returns (f: Filter)
    ensures f == Run(c, lines, 0, Start(out0))
  {
    f := Start(out0);
    var i := 0;
    while i < |lines|
      invariant Run(c, lines, i, f) == Run(c, lines, 0, Start(out0))
      decreases |lines| - i
    {
      i, f := StepLine(c, lines, i, f);
    }
  }

  /** get_selected_content. */
  method GetSelectedContent(c: Inputs, lines: seq<string>) returns (text: string)
    ensures text == SelectedText(c, lines)
  {
    var header, body := HeaderAndBody(c.project, lines);
    var out := [];
    if header != "" {
      out := [header];
    }
    var f := FilterLines(c, body, out);
    text := Join(f.out, "\n");
  }
}
