/** The line-range captures of L5KParser: the file header between the `(*****` and `*****)`
    delimiters, capture_block (one member statement, possibly over several lines), the
    CONTROLLER header, the multi-line DATATYPE header and the ENCODED_DATA metadata. Each is a
    loop over the file's lines, specified here by a function giving the index after the last
    line it takes. */
module Capture {
  import opened Text
  import opened OrderedMaps
  import opened Utils
  import opened Dedent

  // ---------------------------------------------------------------- running depth

  /** The sum of paren_delta over lines[a..k]: the depth the capture loops accumulate. */
  function Depth(lines: seq<string>, a: nat, k: nat): int
    requires a <= k <= |lines|
    decreases k - a
  {
    if k == a then 0 else Depth(lines, a, k - 1) + ParenDelta(lines[k - 1])
  }

  // ---------------------------------------------------------------- _parse_header

  /** HEADER_OPEN_RE on the stripped line: '(' and at least five '*'. */
  predicate HeaderOpen(line: string)
  {
    OpenDelim(Strip(line))
  }

  predicate OpenDelim(t: string)
  {
    |t| >= 6 && t[0] == '(' && forall k :: 1 <= k < |t| ==> t[k] == '*'
  }

  /** HEADER_CLOSE_RE on the stripped line: at least five '*' and ')'. */
  predicate HeaderClose(line: string)
  {
    CloseDelim(Strip(line))
  }

  predicate CloseDelim(t: string)
  {
    |t| >= 6 && t[|t| - 1] == ')' && forall k :: 0 <= k < |t| - 1 ==> t[k] == '*'
  }

  /** The first line at or after `from` that opens a header, or |lines|. */
  function FirstOpen(lines: seq<string>, from: nat): (r: nat)
    requires from <= |lines|
    ensures from <= r <= |lines|
    decreases |lines| - from
  {
    if from == |lines| || HeaderOpen(lines[from]) then from else FirstOpen(lines, from + 1)
  }

  lemma {:induction false} FirstOpenSpec(lines: seq<string>, from: nat)
    requires from <= |lines|
    ensures var r := FirstOpen(lines, from);
      (r < |lines| ==> HeaderOpen(lines[r])) && forall k {:trigger HeaderOpen(lines[k])} :: from <= k < r ==> !HeaderOpen(lines[k])
    decreases |lines| - from
  {
    if from < |lines| && !HeaderOpen(lines[from]) {
      FirstOpenSpec(lines, from + 1);
    }
  }

  /** The first line at or after `from` that closes a header, or |lines|. */
  function FirstClose(lines: seq<string>, from: nat): (r: nat)
    requires from <= |lines|
    ensures from <= r <= |lines|
    decreases |lines| - from
  {
    if from == |lines| || HeaderClose(lines[from]) then from else FirstClose(lines, from + 1)
  }

  lemma {:induction false} FirstCloseSpec(lines: seq<string>, from: nat)
    requires from <= |lines|
    ensures var r := FirstClose(lines, from);
      (r < |lines| ==> HeaderClose(lines[r])) && forall k {:trigger HeaderClose(lines[k])} :: from <= k < r ==> !HeaderClose(lines[k])
    decreases |lines| - from
  {
    if from < |lines| && !HeaderClose(lines[from]) {
      FirstCloseSpec(lines, from + 1);
    }
  }

  /** The last header line: two past the close line (the open line when nothing closes),
      clipped to the last line of the file. */
  function HeaderLast(lines: seq<string>, start: nat): (e: nat)
    requires start < |lines|
    ensures start <= e < |lines|
  {
    var c := FirstClose(lines, start);
    var close := if c < |lines| then c else start;
    if close + 2 < |lines| - 1 then close + 2 else |lines| - 1
  }

  /** The project header _parse_header stores: None without an open delimiter. */
  function HeaderText(lines: seq<string>): Option<string>
  {
    var s := FirstOpen(lines, 0);
    if s == |lines| then None else Some(Join(lines[s..HeaderLast(lines, s) + 1], "\n"))
  }

  /** _parse_header. */
  method ParseHeader(lines: seq<string>) returns (header: Option<string>)
    ensures header == HeaderText(lines)
  {
    var n := |lines|;
    var start := FindOpen(lines);
    if start == n {
      return None;
    }
    var c := FindClose(lines, start);
    var close := if c < n then c else start;
    var last := if close + 2 < n - 1 then close + 2 else n - 1;
    header := Some(Join(lines[start..last + 1], "\n"));
  }

  /** The first loop of _parse_header: the open delimiter. */
  method FindOpen(lines: seq<string>) returns (start: nat)
    ensures start == FirstOpen(lines, 0)
  {
    var n := |lines|;
    start := 0;
    while start < n
      invariant 0 <= start <= n
      invariant FirstOpen(lines, start) == FirstOpen(lines, 0)
    {
      if HeaderOpen(lines[start]) {
        return;
      }
      start := start + 1;
    }
  }

  /** The second loop of _parse_header: the close delimiter at or after the open one. */
  method FindClose(lines: seq<string>, start: nat) returns (c: nat)
    requires start <= |lines|
    ensures c == FirstClose(lines, start)
  {
    var n := |lines|;
    c := start;
    while c < n
      invariant start <= c <= n
      invariant FirstClose(lines, c) == FirstClose(lines, start)
    {
      if HeaderClose(lines[c]) {
        return;
      }
      c := c + 1;
    }
  }

  /** There is a header exactly when some line opens one. */
  lemma HeaderPresent(lines: seq<string>)
    ensures HeaderText(lines).Some? <==>
      exists k {:trigger HeaderOpen(lines[k])} :: 0 <= k < |lines| && HeaderOpen(lines[k])
  {
    FirstOpenSpec(lines, 0);
  }

  /** The header starts at the first line that opens one; by HeaderLast it runs to two lines
      past the first closing line at or after that (two past the open line when none closes),
      never past the end of the file. */
  lemma HeaderStart(lines: seq<string>, s: nat)
    requires s < |lines| && HeaderOpen(lines[s])
    requires forall k {:trigger HeaderOpen(lines[k])} :: 0 <= k < s ==> !HeaderOpen(lines[k])
    ensures FirstOpen(lines, 0) == s
  {
    FirstOpenSpec(lines, 0);
  }

  // ---------------------------------------------------------------- capture_block

  /** The first line of a block is a whole statement: it ends with ");", or it ends with ';'
      and opens no parenthesis. */
  predicate SingleLine(line: string)
  {
    EndsAfterBlanks(line, ");") || ('(' !in line && EndsAfterBlanks(line, ";"))
  }

  /** The test as capture_block writes it, on the stripped first line. */
  lemma SingleLineStripped(line: string)
    ensures var first := Strip(line);
      SingleLine(line) <==> EndsWith(first, ");") || ('(' !in first && EndsWith(first, ";"))
  {
    StripEndsAfterBlanks(line, ");");
    StripEndsAfterBlanks(line, ";");
    StripHasChar(line, '(');
  }

  /** Line k closes the block started at `start`: the running depth is back to 0 and the
      stripped line ends with ';'. */
  predicate ClosesBlock(lines: seq<string>, start: nat, k: nat)
    requires start <= k < |lines|
  {
    Depth(lines, start, k + 1) == 0 && EndsAfterBlanks(lines[k], ";")
  }

  /** The accumulation loop of capture_block from line j with the depth so far. */
  function BlockScan(lines: seq<string>, j: nat, depth: int): (e: nat)
    requires j <= |lines|
    ensures j <= e <= |lines|
    decreases |lines| - j
  {
    if j == |lines| then |lines|
    else
      var d := depth + ParenDelta(lines[j]);
      if d == 0 && EndsAfterBlanks(lines[j], ";") then j + 1 else BlockScan(lines, j + 1, d)
  }

  /** The index capture_block returns. */
  function BlockEnd(lines: seq<string>, start: nat): nat
    requires start < |lines|
  {
    if SingleLine(lines[start]) then start + 1
    else BlockScan(lines, start + 1, ParenDelta(lines[start]))
  }

  /** The text capture_block returns: the captured lines dedented and trimmed of line breaks. */
  function BlockText(ls: seq<string>): string
  {
    StripChars(DedentText(Join(ls, "\n")), {'\n'})
  }

  /** capture_block. */
  method CaptureBlock(lines: seq<string>, start: nat) returns (text: string, next: nat)
    requires start < |lines|
    ensures next == BlockEnd(lines, start)
    ensures start < next <= |lines|
    ensures text == BlockText(lines[start..next])
  {
    var acc := [lines[start]];
    var whole := WholeStatement(lines[start]);
    if whole {
      SliceSnoc(lines, start, start);
      next := start + 1;
    } else {
      acc, next := Accumulate(lines, start, ParenDelta(lines[start]));
    }
    text := BlockText(acc);
  }

  /** The first-line test of capture_block on the stripped line. */
  method WholeStatement(line: string) returns (b: bool)
    ensures b == SingleLine(line)
  {
    SingleLineStripped(line);
    var first := Strip(line);
    b := EndsWith(first, ");") || ('(' !in first && EndsWith(first, ";"));
  }

  /** lines[j].strip().endswith(";"). */
  method StatementEnds(line: string) returns (b: bool)
    ensures b == EndsAfterBlanks(line, ";")
  {
    StripEndsAfterBlanks(line, ";");
    b := EndsWith(Strip(line), ";");
  }

  /** The accumulation loop of capture_block after a first line that is not a whole statement. */
  method Accumulate(lines: seq<string>, start: nat, depth0: int) returns (acc: seq<string>, next: nat)
    requires start < |lines|
    ensures next == BlockScan(lines, start + 1, depth0)
    ensures acc == lines[start..next]
  {
    var n := |lines|;
    acc := [lines[start]];
    SliceSnoc(lines, start, start);
    var depth := depth0;
    var j := start + 1;
    var stop := false;
    while j < n && !stop
      invariant start < j <= n
      invariant acc == lines[start..j]
      invariant !stop ==> BlockScan(lines, j, depth) == BlockScan(lines, start + 1, depth0)
      invariant stop ==> j == BlockScan(lines, start + 1, depth0)
      decreases n - j
    {
      var line := lines[j];
      SliceSnoc(lines, start, j);
      acc := acc + [line];
      depth := depth + ParenDelta(line);
      var ends := StatementEnds(line);
      stop := depth == 0 && ends;
      j := j + 1;
    }
    next := j;
  }

  lemma SliceSnoc<T>(s: seq<T>, a: nat, j: nat)
    requires a <= j < |s|
    ensures s[a..j] + [s[j]] == s[a..j + 1]
  {
  }

  /** The scan ends at the first line that closes the block, or at the end of the file. */
  lemma {:induction false} BlockScanFirst(lines: seq<string>, start: nat, j: nat)
    requires start < j <= |lines|
    ensures var e := BlockScan(lines, j, Depth(lines, start, j));
      (j < |lines| ==> e > j) &&
      (forall k {:trigger ClosesBlock(lines, start, k)} :: j <= k < e - 1 ==> !ClosesBlock(lines, start, k)) &&
      (e < |lines| ==> ClosesBlock(lines, start, e - 1))
    decreases |lines| - j
  {
    if j < |lines| {
      if !ClosesBlock(lines, start, j) {
        BlockScanFirst(lines, start, j + 1);
      }
    }
  }

  /** capture_block takes a whole-statement first line alone; otherwise it runs to the first
      later line at which the running paren depth is 0 and the line ends with ';', or to the
      end of the file when there is none. Either way it advances. */
  lemma BlockEndSpec(lines: seq<string>, start: nat)
    requires start < |lines|
    ensures var e := BlockEnd(lines, start);
      start < e <= |lines| &&
      (SingleLine(lines[start]) ==> e == start + 1) &&
      (!SingleLine(lines[start]) ==>
         (forall k {:trigger ClosesBlock(lines, start, k)} :: start < k < e - 1 ==> !ClosesBlock(lines, start, k)) &&
         (e < |lines| ==> ClosesBlock(lines, start, e - 1)))
  {
    if !SingleLine(lines[start]) {
      BlockScanFirst(lines, start, start + 1);
    }
  }

  // ---------------------------------------------------------------- depth-driven headers

  /** `while j < n and depth > 0: take line j`. */
  function DepthEnd(lines: seq<string>, j: nat, depth: int): (e: nat)
    requires j <= |lines|
    ensures j <= e <= |lines|
    decreases |lines| - j
  {
    if j < |lines| && depth > 0 then DepthEnd(lines, j + 1, depth + ParenDelta(lines[j])) else j
  }

  /** Taking lines while the depth is positive stops at the end of the file or once the
      running depth is no longer positive, and every line it took was entered at positive depth. */
  lemma {:induction false} DepthEndSpec(lines: seq<string>, a: nat, j: nat)
    requires a < j <= |lines|
    ensures var e := DepthEnd(lines, j, Depth(lines, a, j));
      (e == |lines| || Depth(lines, a, e) <= 0) &&
      forall k {:trigger Depth(lines, a, k)} :: j <= k < e ==> Depth(lines, a, k) > 0
    decreases |lines| - j
  {
    if j < |lines| && Depth(lines, a, j) > 0 {
      DepthEndSpec(lines, a, j + 1);
    }
  }

  /** The index _capture_controller_header returns. */
  function ControllerEnd(lines: seq<string>, i: nat): (e: nat)
    requires i < |lines|
    ensures i < e <= |lines|
  {
    var d := ParenDelta(lines[i]);
    if d == 0 && i + 1 < |lines| && StartsAfterBlanks(lines[i + 1], "(") then
      DepthEnd(lines, i + 2, d + ParenDelta(lines[i + 1]))
    else DepthEnd(lines, i + 1, d)
  }

  /** _capture_controller_header: the header lines, the index after them and the name. */
  method CaptureControllerHeader(lines: seq<string>, i: nat) returns (header: seq<string>, next: nat, name: Option<string>)
    requires i < |lines|
    ensures next == ControllerEnd(lines, i)
    ensures header == lines[i..next]
    ensures name == Patterns.ControllerHeader(Strip(lines[i]))
  {
    name := Patterns.ControllerHeader(Strip(lines[i]));
    header, next := ControllerLines(lines, i);
  }

  /** lines[j].lstrip().startswith("("): the next line opens the attribute list. */
  method OpensList(line: string) returns (b: bool)
    ensures b == StartsAfterBlanks(line, "(")
  {
    StartsAfterBlanksIff(line, "(");
    b := StartsWith(LStrip(line), "(");
  }

  /** The line loop of _capture_controller_header. */
  method ControllerLines(lines: seq<string>, i: nat) returns (header: seq<string>, next: nat)
    requires i < |lines|
    ensures next == ControllerEnd(lines, i)
    ensures header == lines[i..next]
  {
    var n := |lines|;
    var first := lines[i];
    header := [first];
    assert header == lines[i..i + 1];
    var depth := ParenDelta(first);
    var j := i + 1;
    var opens := false;
    if j < n {
      opens := OpensList(lines[j]);
    }
    if depth == 0 && j < n && opens {
      SliceSnoc(lines, i, j);
      header := header + [lines[j]];
      depth := depth + ParenDelta(lines[j]);
      j := j + 1;
    }
    ghost var target := DepthEnd(lines, j, depth);
    assert target == ControllerEnd(lines, i);
    while j < n && depth > 0
      invariant i < j <= n
      invariant header == lines[i..j]
      invariant DepthEnd(lines, j, depth) == target
    {
      SliceSnoc(lines, i, j);
      header := header + [lines[j]];
      depth := depth + ParenDelta(lines[j]);
      j := j + 1;
    }
    next := j;
  }

  /** The controller header always holds its first line, holds the next line too when the
      first is balanced and the next opens an attribute list, and then takes lines while the
      running depth is positive: it stops at the end of the file or once the depth is no
      longer positive. */
  lemma ControllerEndSpec(lines: seq<string>, i: nat)
    requires i < |lines|
    ensures var e := ControllerEnd(lines, i);
      var second := ParenDelta(lines[i]) == 0 && i + 1 < |lines| && StartsAfterBlanks(lines[i + 1], "(");
      i < e <= |lines| &&
      (second ==> e >= i + 2) &&
      (!second && ParenDelta(lines[i]) <= 0 ==> e == i + 1) &&
      (e == |lines| || Depth(lines, i, e) <= 0) &&
      (forall k {:trigger Depth(lines, i, k)} :: i + 1 <= k < e && (second ==> k >= i + 2) ==> Depth(lines, i, k) > 0)
  {
    var d := ParenDelta(lines[i]);
    assert Depth(lines, i, i + 1) == d;
    if d == 0 && i + 1 < |lines| && StartsAfterBlanks(lines[i + 1], "(") {
      assert Depth(lines, i, i + 2) == ParenDelta(lines[i + 1]);
      DepthEndSpec(lines, i, i + 2);
    } else {
      DepthEndSpec(lines, i, i + 1);
    }
  }

  /** The index after a DATATYPE header: more lines only while the stripped first line's
      depth, and then the running depth, is positive. */
  function DatatypeHeaderEnd(lines: seq<string>, i: nat): (e: nat)
    requires i < |lines|
    ensures i < e <= |lines|
  {
    DepthEnd(lines, i + 1, ParenDelta(Strip(lines[i])))
  }

  lemma {:induction false} DepthFront(lines: seq<string>, j: nat, k: nat)
    requires j < k <= |lines|
    ensures Depth(lines, j, k) == ParenDelta(lines[j]) + Depth(lines, j + 1, k)
    decreases k - j
  {
    if k > j + 1 {
      DepthFront(lines, j, k - 1);
    }
  }

  /** Taking lines from j while the depth d plus what they add is positive. */
  lemma {:induction false} DepthEndFrom(lines: seq<string>, j: nat, d: int)
    requires j <= |lines|
    ensures var e := DepthEnd(lines, j, d);
      (e == |lines| || d + Depth(lines, j, e) <= 0) &&
      forall k {:trigger Depth(lines, j, k)} :: j <= k < e ==> d + Depth(lines, j, k) > 0
    decreases |lines| - j
  {
    if j < |lines| && d > 0 {
      DepthEndFrom(lines, j + 1, d + ParenDelta(lines[j]));
      forall k | j + 1 <= k <= |lines|
        ensures Depth(lines, j, k) == ParenDelta(lines[j]) + Depth(lines, j + 1, k)
      {
        DepthFront(lines, j, k);
      }
    }
  }

  /** The DATATYPE header is one line unless the stripped first line leaves parentheses
      open; then it runs until the depth, counted on from that line, is no longer positive,
      or to the end of the file. */
  lemma DatatypeHeaderSpec(lines: seq<string>, i: nat)
    requires i < |lines|
    ensures var e := DatatypeHeaderEnd(lines, i);
      var d := ParenDelta(Strip(lines[i]));
      (d <= 0 ==> e == i + 1) &&
      (e == |lines| || d + Depth(lines, i + 1, e) <= 0) &&
      forall k {:trigger Depth(lines, i + 1, k)} :: i + 1 <= k < e ==> d + Depth(lines, i + 1, k) > 0
  {
    DepthEndFrom(lines, i + 1, ParenDelta(Strip(lines[i])));
  }

  /** The header capture at the start of the DATATYPE branch of _parse_structures. */
  method CaptureDatatypeHeader(lines: seq<string>, i: nat) returns (hdr: seq<string>, next: nat)
    requires i < |lines|
    ensures next == DatatypeHeaderEnd(lines, i)
    ensures hdr == lines[i..next]
  {
    var n := |lines|;
    hdr := [lines[i]];
    var j := i + 1;
    var depth := ParenDelta(Strip(lines[i]));
    assert hdr == lines[i..j];
    if depth > 0 {
      while j < n
        invariant i < j <= n
        invariant hdr == lines[i..j]
        invariant depth > 0
        invariant DepthEnd(lines, j, depth) == DatatypeHeaderEnd(lines, i)
      {
        hdr := hdr + [lines[j]];
        depth := depth + ParenDelta(lines[j]);
        j := j + 1;
        assert hdr == lines[i..j];
        if depth <= 0 {
          break;
        }
      }
    }
    next := j;
  }

  // ---------------------------------------------------------------- ENCODED_DATA metadata

  /** The metadata loop: lines after the first until one holding ')' (taken), or the end. */
  function MetaEnd(lines: seq<string>, j: nat): (e: nat)
    requires j <= |lines|
    ensures j <= e <= |lines|
    ensures e < |lines| ==> e > j && ')' in lines[e - 1]
    ensures forall k :: j <= k < e - 1 ==> ')' !in lines[k]
    decreases |lines| - j
  {
    if j == |lines| then j else if ')' in lines[j] then j + 1 else MetaEnd(lines, j + 1)
  }

  /** The metadata capture of the ENCODED_DATA branches (of _parse_structures and of
      get_selected_content). */
  method CaptureMeta(lines: seq<string>, i: nat) returns (meta: seq<string>, next: nat)
    requires i < |lines|
    ensures next == MetaEnd(lines, i + 1)
    ensures meta == lines[i..next]
  {
    var n := |lines|;
    meta := [lines[i]];
    var j := i + 1;
    assert meta == lines[i..j];
    while j < n
      invariant i < j <= n
      invariant meta == lines[i..j]
      invariant MetaEnd(lines, j) == MetaEnd(lines, i + 1)
    {
      meta := meta + [lines[j]];
      if ')' in lines[j] {
        j := j + 1;
        assert meta == lines[i..j];
        break;
      }
      j := j + 1;
      assert meta == lines[i..j];
    }
    next := j;
  }

  // ---------------------------------------------------------------- the first CONTROLLER line

  /** The first line from `from` whose stripped text starts with CONTROLLER, or |lines|
      (StripStartsAfterBlanks: the blank-aware test is the stripped one). */
  function FirstController(lines: seq<string>, from: nat): (j: nat)
    requires from <= |lines|
    ensures from <= j <= |lines|
    ensures j < |lines| ==> StartsAfterBlanks(lines[j], "CONTROLLER")
    decreases |lines| - from
  {
    if from == |lines| then from
    else if StartsAfterBlanks(lines[from], "CONTROLLER") then from
    else FirstController(lines, from + 1)
  }

  /** No line before FirstController starts with CONTROLLER. */
  lemma {:induction false} FirstControllerFirst(lines: seq<string>, from: nat, k: nat)
    requires from <= |lines| && from <= k < FirstController(lines, from)
    ensures !StartsAfterBlanks(lines[k], "CONTROLLER")
    decreases |lines| - from
  {
    if k > from {
      FirstControllerFirst(lines, from + 1, k);
    }
  }

  /** `ln.strip().startswith("CONTROLLER")`. */
  method IsControllerLine(line: string) returns (b: bool)
    ensures b == StartsAfterBlanks(line, "CONTROLLER")
  {
    b := StartsWith(Strip(line), "CONTROLLER");
    StripStartsAfterBlanks(line, "CONTROLLER");
  }

  /** The `for idx, ln in enumerate(self.lines)` search with its break. */
  method FindController(lines: seq<string>) returns (j: nat)
    ensures j == FirstController(lines, 0)
  {
    j := 0;
    var found := false;
    while j < |lines| && !found
      invariant j <= |lines|
      invariant FirstController(lines, 0) == (if found then j else FirstController(lines, j))
      invariant found ==> j < |lines|
      decreases |lines| - j, if found then 0 else 1
    {
      found := IsControllerLine(lines[j]);
      if !found {
        j := j + 1;
      }
    }
  }
}
