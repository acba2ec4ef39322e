/** dedent_lines of strings.py: the common leading blanks of a stored multi-line
    definition are removed (as textwrap.dedent does), then the text is trimmed of
    line breaks at both ends and split into lines. */
module Dedent {
  import opened Text
  import opened OrderedMaps

  /** The characters textwrap counts as indentation. */
  predicate IndentChar(c: char) { c == ' ' || c == '\t' }

  /** A line of spaces and tabs only (the empty line included). */
  predicate BlankLine(l: string) { forall i :: 0 <= i < |l| ==> IndentChar(l[i]) }

  /** The leading spaces and tabs of a line. */
  function Indent(l: string): (r: string)
    ensures StartsWith(l, r) && BlankLine(r)
    ensures |r| == |l| || !IndentChar(l[|r|])
  {
    if l != [] && IndentChar(l[0]) then
      var r := [l[0]] + Indent(l[1..]);
      assert l == [l[0]] + l[1..];
      r
    else []
  }

  /** The longest common prefix of two strings. */
  function CommonPrefix(a: string, b: string): (r: string)
    ensures StartsWith(a, r) && StartsWith(b, r)
    ensures |r| == |a| || |r| == |b| || a[|r|] != b[|r|]
  {
    if a != [] && b != [] && a[0] == b[0] then
      var r := [a[0]] + CommonPrefix(a[1..], b[1..]);
      assert a == [a[0]] + a[1..] && b == [b[0]] + b[1..];
      r
    else []
  }

  /** The margin textwrap computes: the longest common prefix of the indents of the
      non-blank lines, or None when every line is blank. */
  function Margin(lines: seq<string>): (r: Option<string>)
    ensures r.None? <==> forall i :: 0 <= i < |lines| ==> BlankLine(lines[i])
    ensures r.Some? ==> forall i :: 0 <= i < |lines| && !BlankLine(lines[i]) ==>
      StartsWith(Indent(lines[i]), r.value)
    ensures r.Some? ==> BlankLine(r.value)
  {
    if lines == [] then None
    else
      var rest := Margin(lines[1..]);
      assert forall i :: 1 <= i < |lines| ==> lines[i] == lines[1..][i - 1];
      if BlankLine(lines[0]) then rest
      else if rest.None? then Some(Indent(lines[0]))
      else
        var m := CommonPrefix(Indent(lines[0]), rest.value);
        assert forall i :: 1 <= i < |lines| && !BlankLine(lines[i]) ==> StartsWith(Indent(lines[i]), m) by {
          forall i | 1 <= i < |lines| && !BlankLine(lines[i]) ensures StartsWith(Indent(lines[i]), m) {
            PrefixTrans(Indent(lines[i]), rest.value, m);
          }
        }
        Some(m)
  }

  lemma PrefixTrans(a: string, b: string, c: string)
    requires StartsWith(a, b) && StartsWith(b, c)
    ensures StartsWith(a, c)
  {
    assert a[..|c|] == b[..|c|];
  }

  /** The margin as the prefix re.sub removes (nothing when there is none). */
  function MarginOf(lines: seq<string>): string
  {
    match Margin(lines)
    case None => ""
    case Some(m) => m
  }

  /** One line after dedent: a blank line becomes empty, any other loses the margin. */
  function DedentLine(l: string, m: string): string
  {
    if BlankLine(l) then "" else if StartsWith(l, m) then l[|m|..] else l
  }

  function DedentAll(lines: seq<string>, m: string): (r: seq<string>)
    ensures |r| == |lines|
    ensures forall i :: 0 <= i < |lines| ==> r[i] == DedentLine(lines[i], m)
  {
    if lines == [] then [] else [DedentLine(lines[0], m)] + DedentAll(lines[1..], m)
  }

  /** str.split('\n'): every piece between line breaks, at least one. */
  function SplitAll(s: string): (r: seq<string>)
    ensures |r| > 0
    ensures forall i :: 0 <= i < |r| ==> NoNewline(r[i])
    decreases |s|
  {
    var e := FindChar(s, '\n', 0);
    if e == |s| then [s] else [s[..e]] + SplitAll(s[e + 1..])
  }

  /** textwrap.dedent on a text whose only line break is '\n'. */
  function DedentText(text: string): string
  {
    var lines := SplitAll(text);
    Join(DedentAll(lines, MarginOf(lines)), "\n")
  }

  /** dedent_lines. */
  function DedentLines(text: string): seq<string>
  {
    if text == "" then [] else SplitLines(StripChars(DedentText(text), {'\n'}))
  }

  // ---------------------------------------------------------------- properties

  lemma ShorterNoPrefix(a: string, m: string, c: char)
    requires |a| <= |m|
    ensures !StartsWith(a, m + [c])
  {
  }

  lemma DiffNoPrefix(x: string, m: string, c: char)
    requires |m| < |x| && x[|m|] != c
    ensures !StartsWith(x, m + [c])
  {
    assert x[..|m| + 1][|m|] == x[|m|];
    assert (m + [c])[|m|] == c;
  }

  /** The margin cannot be extended: for any further character some non-blank line's indent
      does not continue with it. */
  lemma {:induction false} MarginTight(lines: seq<string>, c: char)
    requires Margin(lines).Some?
    ensures exists i :: (0 <= i < |lines| && !BlankLine(lines[i]) &&
                         !StartsWith(Indent(lines[i]), Margin(lines).value + [c]))
  {
    var m := Margin(lines).value;
    var tail := lines[1..];
    assert forall j :: 0 <= j < |tail| ==> tail[j] == lines[j + 1];
    var rest := Margin(tail);
    var a := Indent(lines[0]);
    if BlankLine(lines[0]) {
      MarginTight(tail, c);
      var j :| 0 <= j < |tail| && !BlankLine(tail[j]) && !StartsWith(Indent(tail[j]), m + [c]);
      assert !BlankLine(lines[j + 1]) && !StartsWith(Indent(lines[j + 1]), m + [c]);
    } else if rest.None? {
      ShorterNoPrefix(a, m, c);
    } else if |m| == |a| {
      ShorterNoPrefix(a, m, c);
    } else if |m| == |rest.value| {
      assert m == rest.value;
      MarginTight(tail, c);
      var j :| 0 <= j < |tail| && !BlankLine(tail[j]) && !StartsWith(Indent(tail[j]), m + [c]);
      assert !BlankLine(lines[j + 1]) && !StartsWith(Indent(lines[j + 1]), m + [c]);
    } else if c != a[|m|] {
      DiffNoPrefix(a, m, c);
    } else {
      var j :| 0 <= j < |tail| && !BlankLine(tail[j]);
      var x := Indent(tail[j]);
      assert StartsWith(x, rest.value);
      assert x[|m|] == rest.value[|m|];
      DiffNoPrefix(x, m, c);
      assert !BlankLine(lines[j + 1]) && !StartsWith(Indent(lines[j + 1]), m + [c]);
    }
  }

  /** Dedent removes exactly the margin from every non-blank line and empties the blank ones,
      so relative indentation and the text after it are kept. */
  lemma DedentKeepsText(lines: seq<string>, i: nat)
    requires i < |lines|
    ensures var out := DedentAll(lines, MarginOf(lines));
      (BlankLine(lines[i]) ==> out[i] == "") &&
      (!BlankLine(lines[i]) ==> lines[i] == MarginOf(lines) + out[i] && !BlankLine(out[i]))
  {
    if !BlankLine(lines[i]) {
      PrefixTrans(lines[i], Indent(lines[i]), MarginOf(lines));
      DedentLineShape(lines[i], MarginOf(lines));
    }
  }

  /** One line with a blank prefix m: dedenting leaves it non-blank, with m in front. */
  lemma DedentLineShape(l: string, m: string)
    requires BlankLine(m) && StartsWith(l, m) && !BlankLine(l)
    ensures l == m + DedentLine(l, m) && !BlankLine(DedentLine(l, m))
    ensures NoNewline(l) ==> NoNewline(DedentLine(l, m))
  {
    var x := l[|m|..];
    assert l == m + x;
    IndentShift(m, x);
  }

  /** Putting blank text in front of a line shifts its indent. */
  lemma {:induction false} IndentShift(m: string, x: string)
    requires BlankLine(m)
    ensures Indent(m + x) == m + Indent(x)
    ensures BlankLine(m + x) <==> BlankLine(x)
  {
    if m != [] {
      assert (m + x)[1..] == m[1..] + x;
      IndentShift(m[1..], x);
      assert m == [m[0]] + m[1..];
    } else {
      assert m + x == x;
    }
    assert forall k :: 0 <= k < |x| ==> (m + x)[|m| + k] == x[k];
  }

  lemma {:induction false} CommonPrefixShift(m: string, a: string, b: string)
    ensures CommonPrefix(m + a, m + b) == m + CommonPrefix(a, b)
  {
    if m != [] {
      assert (m + a)[1..] == m[1..] + a && (m + b)[1..] == m[1..] + b;
      CommonPrefixShift(m[1..], a, b);
      assert m == [m[0]] + m[1..];
    } else {
      assert m + a == a && m + b == b;
    }
  }

  /** Removing a blank prefix m that every non-blank line carries removes m from the margin. */
  lemma {:induction false} MarginStrip(lines: seq<string>, m: string)
    requires BlankLine(m)
    requires forall i :: 0 <= i < |lines| && !BlankLine(lines[i]) ==> StartsWith(lines[i], m)
    ensures Margin(lines).Some? ==> StartsWith(Margin(lines).value, m)
    ensures Margin(DedentAll(lines, m)) ==
      if Margin(lines).None? then None else Some(Margin(lines).value[|m|..])
  {
    if lines != [] {
      var out := DedentAll(lines, m);
      var tail := lines[1..];
      assert forall j :: 0 <= j < |tail| ==> tail[j] == lines[j + 1];
      MarginStrip(tail, m);
      assert out[1..] == DedentAll(tail, m);
      var l := lines[0];
      if !BlankLine(l) {
        var x := l[|m|..];
        assert l == m + x;
        IndentShift(m, x);
        assert out[0] == x;
        var rest := Margin(tail);
        if rest.Some? {
          var r := rest.value;
          assert r == m + r[|m|..];
          CommonPrefixShift(m, Indent(x), r[|m|..]);
          assert (m + CommonPrefix(Indent(x), r[|m|..]))[|m|..] == CommonPrefix(Indent(x), r[|m|..]);
        } else {
          assert (m + Indent(x))[|m|..] == Indent(x);
        }
      }
    }
  }

  /** str.split('\n') undoes '\n'.join on lines without line breaks. */
  lemma {:induction false} SplitAllJoin(ls: seq<string>)
    requires |ls| > 0 && forall i :: 0 <= i < |ls| ==> NoNewline(ls[i])
    ensures SplitAll(Join(ls, "\n")) == ls
  {
    if |ls| == 1 {
      assert FindChar(ls[0], '\n', 0) == |ls[0]|;
    } else {
      var rest := Join(ls[1..], "\n");
      var s := ls[0] + ['\n'] + rest;
      assert Join(ls, "\n") == s;
      FindCharFirst(ls[0], rest, '\n');
      assert s[..|ls[0]|] == ls[0];
      assert s[|ls[0]| + 1..] == rest;
      assert forall i :: 0 <= i < |ls| - 1 ==> ls[1..][i] == ls[i + 1];
      SplitAllJoin(ls[1..]);
    }
  }

  /** Dedenting twice is dedenting once: the dedented text has no common margin left. */
  lemma DedentIdempotent(text: string)
    ensures DedentText(DedentText(text)) == DedentText(text)
  {
    var lines := SplitAll(text);
    var out := DedentAll(lines, MarginOf(lines));
    MarginGone(lines);
    DedentedFixed(lines);
    SplitAllJoin(out);
    assert DedentAll(out, "") == out;
  }

  /** After dedenting, no margin is left. */
  lemma MarginGone(lines: seq<string>)
    ensures MarginOf(DedentAll(lines, MarginOf(lines))) == ""
  {
    var m := MarginOf(lines);
    forall i | 0 <= i < |lines| && !BlankLine(lines[i]) ensures StartsWith(lines[i], m) {
      PrefixTrans(lines[i], Indent(lines[i]), m);
    }
    MarginStrip(lines, m);
  }

  /** Dedented lines of a text keep having no line break, and an empty margin leaves them alone. */
  lemma DedentedFixed(lines: seq<string>)
    requires forall i :: 0 <= i < |lines| ==> NoNewline(lines[i])
    ensures var out := DedentAll(lines, MarginOf(lines));
      forall i :: 0 <= i < |out| ==> NoNewline(out[i]) && DedentLine(out[i], "") == out[i]
  {
    var m := MarginOf(lines);
    var out := DedentAll(lines, m);
    forall i | 0 <= i < |out| ensures NoNewline(out[i]) && DedentLine(out[i], "") == out[i] {
      if !BlankLine(lines[i]) {
        PrefixTrans(lines[i], Indent(lines[i]), m);
        DedentLineShape(lines[i], m);
        assert out[i][0..] == out[i];
      }
    }
  }
}
