/** The line state machine of L5KParser._parse_structures as a specification: the flags of
    ParseState, the structure being filled, the project, the correction log, the captured
    CONTROLLER header and the two TAG statement buffers form a Machine; Step is one turn of
    the `while i < n` loop (it says which line comes next) and Run the whole loop. */
module Structures {
  import opened Text
  import opened OrderedMaps
  import opened L5kStrings
  import opened L5kAttributes
  import opened Utils
  import opened Models
  import opened Capture
  import opened TagFields
  import opened TagBuffers
  import Patterns

  // ---------------------------------------------------------------- state

  /** ParseState. */
  datatype Flags = Flags(inUdt: bool, inAoi: bool, inAoiParams: bool, inAoiLocaltags: bool,
                         inController: bool, inTags: bool, inProgram: bool, inProgTags: bool,
                         curProgram: Option<string>)

  const NoFlags := Flags(false, false, false, false, false, false, false, false, None)

  /** current_struct: nothing, or the UDT or AOI stored under that name (the source keeps the
      object itself, which is the one in the project's dictionary). */
  datatype Current = NoStruct | CurUdt(name: string) | CurAoi(name: string)

  /** The value of a TagBuffer: its parts and its scan state. */
  datatype Buf = Buf(parts: seq<string>, scan: FopState)

  const EmptyBuf := Buf([], FopStart)

  /** TagBuffer.feed on the value: the chunk is kept and the scan moves over it. */
  function FeedBuf(b: Buf, chunk: string): Buf
  {
    Buf(b.parts + [chunk], FopScan(chunk, b.scan))
  }

  datatype Machine = Machine(flags: Flags, cur: Current, project: Project, log: seq<string>,
                             ctrlHeader: seq<string>, ctrlName: Option<string>,
                             tagBuf: Buf, progBuf: Buf)

  /** The state before the first line, for the parser's project, log and controller header. */
  function Start(p: Project, log: seq<string>, ctrlHeader: seq<string>, ctrlName: Option<string>): Machine
  {
    Machine(NoFlags, NoStruct, p, log, ctrlHeader, ctrlName, EmptyBuf, EmptyBuf)
  }

  // ---------------------------------------------------------------- line kinds

  /** Which branch of the loop a non-blank line takes, in the order the loop tests them. */
  datatype LineKind =
    | Blank | ControllerLine | EndController | TagOpen | TagClose | ProgTagOpen | ProgTagClose
    | DatatypeLine | EndDatatype | AoiLine | EndAoi | EncodedLine | EndEncoded
    | ProgramLine | EndProgram | ProgTagChunk | TagChunk
    | ParamsOpen | ParamsClose | LocalsOpen | LocalsClose
    | UdtData | ParamData | LocalData | Other

  /** The branch for the stripped line t. */
  function Classify(t: string, f: Flags, cur: Current): (k: LineKind)
    ensures k == UdtData ==> cur.CurUdt?
    ensures k == ParamData || k == LocalData ==> cur.CurAoi?
    ensures k == ControllerLine ==> StartsWith(t, "CONTROLLER")
  {
    if t == "" then Blank
    else if StartsWith(t, "CONTROLLER") then ControllerLine
    else if StartsWith(t, "END_CONTROLLER") then EndController
    else if f.inController && !f.inProgram && t == "TAG" then TagOpen
    else if f.inController && !f.inProgram && t == "END_TAG" then TagClose
    else if f.inProgram && t == "TAG" then ProgTagOpen
    else if f.inProgram && t == "END_TAG" then ProgTagClose
    else ClassifyBlock(t, f, cur)
  }

  /** The block keywords, tested after the controller and TAG transitions. */
  function ClassifyBlock(t: string, f: Flags, cur: Current): (k: LineKind)
    ensures k == UdtData ==> cur.CurUdt?
    ensures k == ParamData || k == LocalData ==> cur.CurAoi?
    ensures k != ControllerLine
  {
    if StartsWith(t, "DATATYPE") then DatatypeLine
    else if StartsWith(t, "END_DATATYPE") then EndDatatype
    else if StartsWith(t, "ADD_ON_INSTRUCTION_DEFINITION") then AoiLine
    else if StartsWith(t, "END_ADD_ON_INSTRUCTION_DEFINITION") then EndAoi
    else if StartsWith(t, "ENCODED_DATA") then EncodedLine
    else if StartsWith(t, "END_ENCODED_DATA") then EndEncoded
    else if StartsWith(t, "PROGRAM") then ProgramLine
    else if StartsWith(t, "END_PROGRAM") then EndProgram
    else ClassifyData(t, f, cur)
  }

  /** Statement chunks, AOI sections and member lines, tested last. */
  function ClassifyData(t: string, f: Flags, cur: Current): (k: LineKind)
    ensures k == UdtData ==> cur.CurUdt?
    ensures k == ParamData || k == LocalData ==> cur.CurAoi?
    ensures k != ControllerLine
  {
    if f.inProgram && f.inProgTags && IsSet(f.curProgram) then ProgTagChunk
    else if f.inController && f.inTags then TagChunk
    else if f.inAoi && t == "PARAMETERS" then ParamsOpen
    else if f.inAoi && t == "END_PARAMETERS" then ParamsClose
    else if f.inAoi && t == "LOCAL_TAGS" then LocalsOpen
    else if f.inAoi && t == "END_LOCAL_TAGS" then LocalsClose
    else if f.inUdt && cur.CurUdt? then UdtData
    else if f.inAoiParams && cur.CurAoi? then ParamData
    else if f.inAoiLocaltags && cur.CurAoi? then LocalData
    else Other
  }

  // ---------------------------------------------------------------- helpers

  /** The decimal text of a number (an f-string's `{n}`). */
  function Decimal(n: nat): (r: string)
    ensures |r| > 0 && Patterns.All(r, Patterns.Digit)
    decreases n
  {
    var d := [(48 + n % 10) as char];
    if n < 10 then d else Decimal(n / 10) + d
  }

  const UnbalancedPrefix := "Unballanced parens in header starting at line "

  /** The log entry for a DATATYPE header whose parentheses do not balance. */
  function UnbalancedHeader(lineNo: nat): string
  {
    UnbalancedPrefix + Decimal(lineNo)
  }

  /** `[l.strip() for l in ls]`. */
  function StripEach(ls: seq<string>): (r: seq<string>)
    ensures |r| == |ls|
  {
    if ls == [] then [] else [Strip(ls[0])] + StripEach(ls[1..])
  }

  /** `s.split(None, 1)[0]` of a left-stripped non-empty s: the text before the first blank. */
  function FirstToken(s: string): string
  {
    if s == [] || IsSpace(s[0]) then [] else [s[0]] + FirstToken(s[1..])
  }

  /** A dictionary entry replaced in place: the key keeps its position. */
  function PutUdt(m: Machine, name: string, u: Udt): Machine
  {
    m.(project := m.project.(udts := Put(m.project.udts, name, u)))
  }

  function PutAoi(m: Machine, name: string, a: Aoi): Machine
  {
    m.(project := m.project.(aois := Put(m.project.aois, name, a)))
  }

  // ---------------------------------------------------------------- branches

  /** CONTROLLER: inside the controller; its header is captured the first time only. */
  function OnController(lines: seq<string>, i: nat, m: Machine): (r: (nat, Machine))
    requires i < |lines|
    ensures i < r.0 <= |lines|
  {
    var f := m.flags.(inController := true);
    if m.ctrlHeader == [] then
      var e := ControllerEnd(lines, i);
      (e, m.(flags := f, ctrlHeader := lines[i..e], ctrlName := Patterns.ControllerHeader(Strip(lines[i]))))
    else (i + 1, m.(flags := f))
  }

  /** END_TAG of the controller: a statement left in the buffer is emitted; the buffer is
      emptied either way. */
  function CloseTags(m: Machine): Machine
  {
    var p := if m.tagBuf.parts != [] then EmitTag(m.project, Join(m.tagBuf.parts, " ")) else m.project;
    m.(project := p, tagBuf := EmptyBuf, flags := m.flags.(inTags := false))
  }

  /** The pending program statement, emitted when inside a program's TAG block with parts
      and a program name; the buffer is emptied either way. */
  function FlushProgTags(m: Machine): Machine
  {
    var f := m.flags;
    var p := if f.inProgTags && m.progBuf.parts != [] && IsSet(f.curProgram)
             then EmitProgTag(m.project, f.curProgram, Join(m.progBuf.parts, " "))
             else m.project;
    m.(project := p, progBuf := EmptyBuf)
  }

  /** DATATYPE: the header (one line, or up to where its parentheses close) gives the name,
      the description and the FamilyType of a new UDT, which becomes the current structure;
      an unbalanced header is logged. */
  function OnDatatype(lines: seq<string>, i: nat, m: Machine): (r: (nat, Machine))
    requires i < |lines|
    ensures i < r.0 <= |lines|
  {
    var e := DatatypeHeaderEnd(lines, i);
    var hdr := lines[i..e];
    var blob := Join(StripEach(hdr), " ");
    var log := if ParenDelta(Join(hdr, " ")) != 0 then m.log + [UnbalancedHeader(i + 1)] else m.log;
    var name := ExtractBlockName(Strip(lines[i]), "DATATYPE");
    if !IsSet(name) then (e, m.(log := log))
    else
      var ft := Patterns.FamilyType(blob);
      var u0 := NewUdt(name.value).(description := SetDesc("", blob));
      var u := if IsSet(ft) then u0.(familyType := ft.value) else u0;
      var f := m.flags.(inUdt := true, inAoi := false, inAoiParams := false, inAoiLocaltags := false);
      (e, PutUdt(m, name.value, u).(log := log, flags := f, cur := CurUdt(name.value)))
  }

  /** ADD_ON_INSTRUCTION_DEFINITION: inside an AOI; a named one becomes the current structure. */
  function OnAoi(t: string, m: Machine): Machine
  {
    var f := m.flags.(inAoi := true, inUdt := false);
    var name := ExtractBlockName(t, "ADD_ON_INSTRUCTION_DEFINITION");
    if !IsSet(name) then m.(flags := f)
    else PutAoi(m, name.value, NewAoi(name.value).(description := SetDesc("", t))).(flags := f, cur := CurAoi(name.value))
  }

  /** The metadata text that marks an encoded AOI. */
  const EncodedAoi := "EncodedType := ADD_ON_INSTRUCTION_DEFINITION"

  /** The AOI an ENCODED_DATA metadata blob declares: its Name, when the blob carries the
      AOI encoded type. */
  function EncodedAoiName(blob: string): Option<string>
  {
    if Find(blob, EncodedAoi) >= 0 then Patterns.EncodedName(blob) else None
  }

  /** ENCODED_DATA: the metadata lines up to the one holding ')'; an encoded AOI with a Name
      becomes the current structure. */
  function OnEncoded(lines: seq<string>, i: nat, m: Machine): (r: (nat, Machine))
    requires i < |lines|
    ensures i < r.0 <= |lines|
  {
    var e := MetaEnd(lines, i + 1);
    (e, OpenEncoded(Join(StripEach(lines[i..e]), " "), m))
  }

  /** The machine after an ENCODED_DATA block whose metadata, joined, is blob. */
  function OpenEncoded(blob: string, m: Machine): Machine
  {
    var name := EncodedAoiName(blob);
    if !IsSet(name) then m
    else
      var f := m.flags.(inAoi := true, inUdt := false, inAoiParams := false, inAoiLocaltags := false);
      PutAoi(m, name.value, NewAoi(name.value).(description := SetDesc("", blob))).(flags := f, cur := CurAoi(name.value))
  }

  /** The program name of a PROGRAM line: the first token after the first "PROGRAM" of the
      raw line, cut at '('. */
  function ProgramName(raw: string): string
  {
    var k := Find(raw, "PROGRAM");
    // k >= 0 whenever the stripped line starts with PROGRAM
    TokenName(AfterProgram(raw, k))
  }

  /** The text after the keyword found at k, without its leading blanks. */
  function AfterProgram(raw: string, k: int): string
  {
    if 0 <= k && k + 7 <= |raw| then LStrip(raw[k + 7..]) else ""
  }

  /** The name read from the text after the keyword: its first token, up to any '('. */
  function TokenName(after: string): string
  {
    var token := FirstToken(after);
    if '(' in token then BeforeChar(token, '(') else token
  }

  /** The programs after a PROGRAM line naming `name` with description `desc`: a new program
      is created, or an existing one without a description gets this one. */
  function OpenProgram(progs: OrderedMap<Program>, name: string, desc: string): OrderedMap<Program>
  {
    if name != "" && name !in progs.vals then Put(progs, name, Program(name, desc, Empty()))
    else if name != "" && progs.vals[name].description == "" && desc != ""
    then Put(progs, name, progs.vals[name].(description := desc))
    else progs
  }

  /** PROGRAM: the named program is opened; the flags enter the program when it has a name. */
  function OnProgram(raw: string, m: Machine): Machine
  {
    var name := ProgramName(raw);
    var desc := if name != "" then GetDesc(raw) else "";
    m.(project := m.project.(programs := OpenProgram(m.project.programs, name, desc)),
       flags := m.flags.(inProgram := name != "", curProgram := if name == "" then None else Some(name),
                         inProgTags := false))
  }

  /** A line inside a program's TAG block: fed to the program buffer, and a completed
      statement is emitted into the program. */
  function ProgChunk(t: string, m: Machine): Machine
  {
    var b := FeedBuf(m.progBuf, t);
    if Completes(t, m.progBuf.scan)
    then m.(project := EmitProgTag(m.project, m.flags.curProgram, Join(b.parts, " ")), progBuf := EmptyBuf)
    else m.(progBuf := b)
  }

  /** A line inside the controller's TAG block. */
  function TagChunkStep(t: string, m: Machine): Machine
  {
    var b := FeedBuf(m.tagBuf, t);
    if Completes(t, m.tagBuf.scan)
    then m.(project := EmitTag(m.project, Join(b.parts, " ")), tagBuf := EmptyBuf)
    else m.(tagBuf := b)
  }

  /** The ten-'Z' prefix of a hidden SINT word. */
  const HiddenPrefix := "ZZZZZZZZZZ"

  /** A hidden SINT word: a new hidden-parent member, or the existing member updated in
      place (its type, its definition and the hidden flag; the rest is kept). */
  function HiddenWord(existing: Option<UdtMember>, name: string, def: string): UdtMember
  {
    match existing
    case None => UdtMember(name, "SINT", GetDesc(def), Some(Strip(def)), true, false, None, None, "", Empty())
    case Some(x) => x.(dataType := "SINT", definition := Some(Strip(def)), isHiddenParent := true)
  }

  /** The BOOL member a BIT line declares. */
  function BitMember(b: Patterns.BitAliasMatch, def: string): UdtMember
  {
    UdtMember(b.alias, "BOOL", GetDesc(def), Some(Strip(def)), false, true, Some(b.word), Some(b.bit), "", Empty())
  }

  /** The word a BIT line links to: the member stored under that name, or a new hidden SINT
      without a definition. */
  function BitWord(u: Udt, word: string, def: string): UdtMember
  {
    match Get(u.members, word)
    case Some(p) => p
    case None => UdtMember(word, "SINT", GetDesc(def), None, true, false, None, None, "", Empty())
  }

  /** A BIT line: the alias is added as a member, its word is created as a hidden SINT if it
      is missing, and the alias is linked into the word's children. */
  function AddBitAlias(u: Udt, b: Patterns.BitAliasMatch, def: string): Udt
  {
    var child := BitMember(b, def);
    var u1 := AddMember(u, child);
    AddMember(u1, AddChild(BitWord(u1, b.word, def), child))
  }

  /** A type-first member line. */
  function TypedMember(tf: Patterns.TypeFirst, def: string): UdtMember
  {
    UdtMember(tf.name, tf.dtype, GetDesc(def), Some(Strip(def)), false, false, None, None, tf.nameDims, Empty())
  }

  /** A data line inside a UDT: a hidden word, a BIT alias or a type-first member, each
      captured with capture_block; any other line is passed over. */
  function OnUdtData(lines: seq<string>, i: nat, t: string, m: Machine): (r: (nat, Machine))
    requires i < |lines| && m.cur.CurUdt?
    ensures i < r.0 <= |lines|
  {
    var n := m.cur.name;
    if n !in m.project.udts.vals then (i + 1, m) // cannot happen: see CurrentValid
    else
      var u := m.project.udts.vals[n];
      var e := BlockEnd(lines, i);
      var def := BlockText(lines[i..e]);
      var tf := Patterns.UdtTypeFirst(t);
      if tf.Some? && tf.value.dtype == "SINT" && StartsWith(tf.value.name, HiddenPrefix) then
        (e, PutUdt(m, n, AddMember(u, HiddenWord(Get(u.members, tf.value.name), tf.value.name, def))))
      else
        match Patterns.UdtBitAlias(t)
        case Some(b) => (e, PutUdt(m, n, AddBitAlias(u, b, def)))
        case None =>
          if tf.Some? then (e, PutUdt(m, n, AddMember(u, TypedMember(tf.value, def))))
          else (i + 1, m)
  }

  /** A parameter line inside an AOI's PARAMETERS section. */
  function OnParamData(lines: seq<string>, i: nat, t: string, m: Machine): (r: (nat, Machine))
    requires i < |lines| && m.cur.CurAoi?
    ensures i < r.0 <= |lines|
  {
    var n := m.cur.name;
    if n !in m.project.aois.vals then (i + 1, m) // cannot happen: see CurrentValid
    else
      match Patterns.AoiParam(t)
      case None => (i + 1, m)
      case Some(np) =>
        var e := BlockEnd(lines, i);
        var def := StripAttrs(BlockText(lines[i..e]));
        var p := AoiParameter(np.name, np.path, GetDesc(def), Some(def), false, false);
        (e, PutAoi(m, n, AddParameter(m.project.aois.vals[n], p)))
  }

  /** A local tag line inside an AOI's LOCAL_TAGS section. */
  function OnLocalData(lines: seq<string>, i: nat, t: string, m: Machine): (r: (nat, Machine))
    requires i < |lines| && m.cur.CurAoi?
    ensures i < r.0 <= |lines|
  {
    var n := m.cur.name;
    if n !in m.project.aois.vals then (i + 1, m) // cannot happen: see CurrentValid
    else
      match Patterns.AoiLocalTag(t)
      case None => (i + 1, m)
      case Some(np) =>
        var e := BlockEnd(lines, i);
        var def := StripAttrs(BlockText(lines[i..e]));
        var l := AoiLocalTag(np.name, np.path, GetDesc(def), Some(def));
        (e, PutAoi(m, n, AddLocalTag(m.project.aois.vals[n], l)))
  }

  // ---------------------------------------------------------------- the loop

  /** One turn of the loop at line i: the next index and the new state. */
  function Step(lines: seq<string>, i: nat, m: Machine): (r: (nat, Machine))
    requires i < |lines|
    ensures i < r.0 <= |lines|
  {
    var t := Strip(lines[i]);
    Dispatch(lines, i, t, Classify(t, m.flags, m.cur), m)
  }

  /** The branch of kind k for line i, whose stripped text is t. */
  function Dispatch(lines: seq<string>, i: nat, t: string, k: LineKind, m: Machine): (r: (nat, Machine))
    requires i < |lines|
    requires k == UdtData ==> m.cur.CurUdt?
    requires k == ParamData || k == LocalData ==> m.cur.CurAoi?
    ensures i < r.0 <= |lines|
  {
    var raw := lines[i];
    var f := m.flags;
    match k
    case Blank => (i + 1, m)
    case ControllerLine => OnController(lines, i, m)
    case EndController => (i + 1, m.(flags := f.(inController := false)))
    case TagOpen => (i + 1, m.(flags := f.(inTags := true), tagBuf := EmptyBuf))
    case TagClose => (i + 1, CloseTags(m))
    case ProgTagOpen => (i + 1, m.(flags := f.(inProgTags := true), progBuf := EmptyBuf))
    case ProgTagClose =>
      var m1 := FlushProgTags(m);
      (i + 1, m1.(flags := m1.flags.(inProgTags := false)))
    case DatatypeLine => OnDatatype(lines, i, m)
    case EndDatatype => (i + 1, m.(flags := f.(inUdt := false), cur := NoStruct))
    case AoiLine => (i + 1, OnAoi(t, m))
    case EndAoi => (i + 1, m.(flags := f.(inAoi := false), cur := NoStruct))
    case EncodedLine => OnEncoded(lines, i, m)
    case EndEncoded => (i + 1, m.(flags := f.(inAoi := false), cur := NoStruct))
    case ProgramLine => (i + 1, OnProgram(raw, m))
    case EndProgram =>
      var m1 := FlushProgTags(m);
      (i + 1, m1.(flags := m1.flags.(inProgram := false, curProgram := None, inProgTags := false)))
    case ProgTagChunk => (i + 1, ProgChunk(t, m))
    case TagChunk => (i + 1, TagChunkStep(t, m))
    case ParamsOpen => (i + 1, m.(flags := f.(inAoiParams := true)))
    case ParamsClose => (i + 1, m.(flags := f.(inAoiParams := false)))
    case LocalsOpen => (i + 1, m.(flags := f.(inAoiLocaltags := true)))
    case LocalsClose => (i + 1, m.(flags := f.(inAoiLocaltags := false)))
    case UdtData => OnUdtData(lines, i, t, m)
    case ParamData => OnParamData(lines, i, t, m)
    case LocalData => OnLocalData(lines, i, t, m)
    case Other => (i + 1, m)
  }

  /** The loop from line i to the end. */
  function Run(lines: seq<string>, i: nat, m: Machine): Machine
    requires i <= |lines|
    decreases |lines| - i
  {
    if i == |lines| then m
    else
      var r := Step(lines, i, m);
      Run(lines, r.0, r.1)
  }
}
