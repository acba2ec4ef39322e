/** The parsing helpers of L5KTuner/utils.py: the parenthesis balance of a line, and the
    name extractors that are single regular-expression matches. */
module Utils {
  import opened Text
  import opened OrderedMaps
  import opened Patterns
  import opened PatternLaws

  // ---------------------------------------------------------------- paren_delta

  /** The loop state of paren_delta: the running balance, whether the scan is inside a
      "..." string, and whether the previous character was an escaping backslash. */
  datatype DeltaState = DeltaState(delta: int, inStr: bool, esc: bool)

  const Start := DeltaState(0, false, false)

  /** One character of the loop. */
  function DeltaStep(st: DeltaState, ch: char): DeltaState
  {
    if st.inStr then
      if st.esc then st.(esc := false)
      else if ch == '\\' then st.(esc := true)
      else if ch == '"' then st.(inStr := false)
      else st
    else if ch == '"' then st.(inStr := true)
    else if ch == '(' then st.(delta := st.delta + 1)
    else if ch == ')' then st.(delta := st.delta - 1)
    else st
  }

  /** The state after scanning s from st. */
  function DeltaScan(s: string, st: DeltaState): DeltaState
  {
    if s == [] then st else DeltaScan(s[1..], DeltaStep(st, s[0]))
  }

  /** paren_delta(line): net '(' minus ')', ignoring parentheses inside strings. */
  function ParenDelta(line: string): int
  {
    DeltaScan(line, Start).delta
  }

  lemma DeltaScanAt(s: string, i: nat, st: DeltaState)
    requires i < |s|
    ensures DeltaScan(s[i..], st) == DeltaScan(s[i + 1..], DeltaStep(st, s[i]))
  {
    assert s[i..][1..] == s[i + 1..];
  }

  /** The loop of paren_delta. */
  method ComputeParenDelta(line: string) returns (delta: int)
    ensures delta == ParenDelta(line)
  {
    delta := 0;
    var inStr := false;
    var esc := false;
    for i := 0 to |line|
      invariant DeltaScan(line[i..], DeltaState(delta, inStr, esc)) == DeltaScan(line, Start)
    {
      var ch := line[i];
      DeltaScanAt(line, i, DeltaState(delta, inStr, esc));
      if inStr {
        if esc {
          esc := false;
        } else if ch == '\\' {
          esc := true;
        } else if ch == '"' {
          inStr := false;
        }
      } else {
        if ch == '"' {
          inStr := true;
        } else if ch == '(' {
          delta := delta + 1;
        } else if ch == ')' {
          delta := delta - 1;
        }
      }
    }
  }

  /** Scanning a concatenation scans its parts in turn. */
  lemma {:induction false} DeltaScanConcat(a: string, b: string, st: DeltaState)
    ensures DeltaScan(a + b, st) == DeltaScan(b, DeltaScan(a, st))
  {
    if a != [] {
      assert (a + b)[0] == a[0] && (a + b)[1..] == a[1..] + b;
      DeltaScanConcat(a[1..], b, DeltaStep(st, a[0]));
    } else {
      assert a + b == b;
    }
  }

  /** The balance a scan starts from only offsets the balance it ends with. */
  lemma {:induction false} DeltaShift(s: string, st: DeltaState, d: int)
    ensures DeltaScan(s, st.(delta := st.delta + d)) == DeltaScan(s, st).(delta := DeltaScan(s, st).delta + d)
  {
    if s != [] {
      DeltaShift(s[1..], DeltaStep(st, s[0]), d);
    }
  }

  lemma CountCons(c: char, r: string, x: char)
    ensures Count([c] + r, x) == (if c == x then 1 else 0) + Count(r, x)
  {
    CountConcat([c], r, x);
    assert [c][..0] == [];
  }

  /** Outside strings, each '(' adds one and each ')' takes one away. */
  lemma {:induction false} DeltaPlain(s: string, d: int)
    requires '"' !in s
    ensures DeltaScan(s, DeltaState(d, false, false)) == DeltaState(d + Count(s, '(') - Count(s, ')'), false, false)
  {
    if s != [] {
      assert s == [s[0]] + s[1..];
      assert s[0] in s;
      CountCons(s[0], s[1..], '(');
      CountCons(s[0], s[1..], ')');
      var d' := if s[0] == '(' then d + 1 else if s[0] == ')' then d - 1 else d;
      assert forall c :: c in s[1..] ==> c in s;
      DeltaPlain(s[1..], d');
    }
  }

  /** A line without a double quote has balance #'(' - #')'. */
  lemma ParenDeltaPlain(s: string)
    requires '"' !in s
    ensures ParenDelta(s) == Count(s, '(') - Count(s, ')')
  {
    DeltaPlain(s, 0);
  }

  /** A prefix without a double quote adds its balance to that of the rest. */
  lemma ParenDeltaConcat(a: string, b: string)
    requires '"' !in a
    ensures ParenDelta(a + b) == ParenDelta(a) + ParenDelta(b)
  {
    DeltaScanConcat(a, b, Start);
    DeltaPlain(a, 0);
    var k := Count(a, '(') - Count(a, ')');
    assert DeltaScan(a, Start) == Start.(delta := Start.delta + k);
    DeltaShift(b, Start, k);
  }

  /** Only '(' and ')' change the balance: a text without them leaves it as it was, whatever
      the quoting state. */
  lemma {:induction false} DeltaNoParens(s: string, st: DeltaState)
    requires '(' !in s && ')' !in s
    ensures DeltaScan(s, st).delta == st.delta
  {
    if s != [] {
      assert s[0] in s;
      assert forall c :: c in s[1..] ==> c in s;
      DeltaNoParens(s[1..], DeltaStep(st, s[0]));
    }
  }

  lemma ParenDeltaNoParens(s: string)
    requires '(' !in s && ')' !in s
    ensures ParenDelta(s) == 0
  {
    DeltaNoParens(s, Start);
  }

  /** The body of a "..." string with '\' and '"' escaped by a backslash. */
  function QuoteBody(x: string): (r: string)
    ensures |r| >= |x|
  {
    if x == [] then []
    else (if x[0] == '\\' || x[0] == '"' then ['\\', x[0]] else [x[0]]) + QuoteBody(x[1..])
  }

  /** Inside a string, an escaped body and the closing quote leave the balance alone: `\"`
      does not end the string and the parentheses in it are not counted. */
  lemma {:induction false} QuotedScan(x: string, d: int)
    ensures DeltaScan(QuoteBody(x) + "\"", DeltaState(d, true, false)) == DeltaState(d, false, false)
  {
    var st := DeltaState(d, true, false);
    if x == [] {
      assert QuoteBody(x) + "\"" == "\"";
    } else {
      var head := if x[0] == '\\' || x[0] == '"' then ['\\', x[0]] else [x[0]];
      var tail := QuoteBody(x[1..]) + "\"";
      assert QuoteBody(x) + "\"" == head + tail;
      DeltaScanConcat(head, tail, st);
      if x[0] == '\\' || x[0] == '"' {
        assert head[1..] == [x[0]] && head[1..][1..] == [];
        var st1 := DeltaStep(st, '\\');
        assert DeltaScan(head, st) == DeltaScan([x[0]], st1);
        assert DeltaScan([x[0]], st1) == DeltaScan([], DeltaStep(st1, x[0]));
      } else {
        assert head[1..] == [];
        assert DeltaScan(head, st) == st;
      }
      QuotedScan(x[1..], d);
    }
  }

  /** A complete string literal in front of a line adds nothing to its balance. */
  lemma ParenDeltaQuoted(x: string, b: string)
    ensures ParenDelta("\"" + QuoteBody(x) + "\"" + b) == ParenDelta(b)
  {
    var q := QuoteBody(x) + "\"";
    assert "\"" + QuoteBody(x) + "\"" + b == "\"" + (q + b);
    DeltaScanConcat(q, b, DeltaState(0, true, false));
    QuotedScan(x, 0);
  }

  // ---------------------------------------------------------------- extract_block_name

  /** extract_block_name: `^<header>\s+([^\s(]+)`, the header taken literally. */
  function ExtractBlockName(line: string, header: string): Option<string>
  {
    if !StartsWith(line, header) then None else BlockNameAfter(line[|header|..])
  }

  function BlockNameAfter(t: string): Option<string>
  {
    var u := LStrip(t);
    var n := Run(u, Bare);
    if |u| == |t| || n == [] then None else Some(n)
  }

  /** The pieces of a block header line: the keyword, blanks, the name and what follows it. */
  ghost predicate BlockNameParts(line: string, header: string, w: string, name: string, rest: string)
  {
    |w| > 0 && All(w, Space) && |name| > 0 && All(name, Bare) && Stops(rest, Bare) &&
    line == header + (w + (name + rest))
  }

  ghost predicate BlockNameShape(line: string, header: string, name: string)
  {
    exists w: string, rest: string :: BlockNameParts(line, header, w, name, rest)
  }

  lemma BareStart(name: string, rest: string)
    requires |name| > 0 && All(name, Bare)
    ensures name + rest != [] && !IsSpace((name + rest)[0])
  {
    Head(name, rest);
  }

  lemma BlockNameAccepts(line: string, header: string, w: string, name: string, rest: string)
    requires BlockNameParts(line, header, w, name, rest)
    ensures ExtractBlockName(line, header) == Some(name)
  {
    KeywordSplit(header, w + (name + rest));
    BareStart(name, rest);
    SkipBlanks(w, name + rest);
    SpanOf(name, rest, Bare);
  }

  lemma BlockNameSound(line: string, header: string, name: string)
    requires ExtractBlockName(line, header) == Some(name)
    ensures BlockNameShape(line, header, name)
  {
    var t := line[|header|..];
    KeywordRest(line, header);
    var w := Blanks(t);
    var u := LStrip(t);
    var n, rest := RunParts(u, Bare);
    Regroup(t, w, u, n, rest);
    assert BlockNameParts(line, header, w, name, rest);
  }

  /** The name is returned exactly for lines `<header> <blanks> <name>` where the name is a
      maximal run of characters other than blanks and '('. */
  lemma ExtractBlockNameIff(line: string, header: string, name: string)
    ensures ExtractBlockName(line, header) == Some(name) <==> BlockNameShape(line, header, name)
  {
    if ExtractBlockName(line, header) == Some(name) {
      BlockNameSound(line, header, name);
    }
    if BlockNameShape(line, header, name) {
      var w: string, rest: string :| BlockNameParts(line, header, w, name, rest);
      BlockNameAccepts(line, header, w, name, rest);
    }
  }

  // ---------------------------------------------------------------- match_aoi_*_name

  /** match_aoi_param_name: group 1 of RE_AOI_PARAM's pattern. */
  function MatchAoiParamName(s: string): Option<string>
  {
    match AoiParam(s)
    case None => None
    case Some(m) => Some(m.name)
  }

  /** match_aoi_local_name: group 1 of `^([\w]+)\s*:\s*([\w]+)`. */
  function MatchAoiLocalName(s: string): Option<string>
  {
    match AoiLocalTag(s)
    case None => None
    case Some(m) => Some(m.name)
  }

  /** The parameter name is found exactly when the line is `<name> <blanks> (OF|:) <blanks> <path>`. */
  lemma MatchAoiParamNameIff(s: string, n: string)
    ensures MatchAoiParamName(s) == Some(n) <==> exists p: string :: AoiParamShape(s, NamePath(n, p))
  {
    if MatchAoiParamName(s) == Some(n) {
      var m := AoiParam(s).value;
      AoiParamSound(s, m);
      assert AoiParamShape(s, NamePath(n, m.path));
    }
    if exists p: string :: AoiParamShape(s, NamePath(n, p)) {
      var p: string :| AoiParamShape(s, NamePath(n, p));
      AoiParamComplete(s, NamePath(n, p));
    }
  }

  /** The local name is found exactly when the line is `<name> [<blanks>] : [<blanks>] <type>`. */
  lemma MatchAoiLocalNameIff(s: string, n: string)
    ensures MatchAoiLocalName(s) == Some(n) <==> exists d: string :: AoiLocalTagShape(s, NamePath(n, d))
  {
    if MatchAoiLocalName(s) == Some(n) {
      var m := AoiLocalTag(s).value;
      AoiLocalTagSound(s, m);
      assert AoiLocalTagShape(s, NamePath(n, m.path));
    }
    if exists d: string :: AoiLocalTagShape(s, NamePath(n, d)) {
      var d: string :| AoiLocalTagShape(s, NamePath(n, d));
      AoiLocalTagComplete(s, NamePath(n, d));
    }
  }
}
