/** The string helpers of L5KTuner/strings.py: the L5K string-literal encoding, the scan for
    the first top-level occurrence of a token, the split of a trailing attribute list, the
    description lookup and the dedent of stored definitions. */
module L5kStrings {
  import opened Text
  import opened OrderedMaps
  import opened Patterns

  // ---------------------------------------------------------------- encode_l5k_string

  /** encode_l5k_string: `$` first, then both quotes, then CR and LF, each by str.replace. */
  function Encode(s: string): string
  {
    var out := ReplaceChar(s, '$', "$$");
    var out1 := ReplaceChar(ReplaceChar(out, '"', "$\""), '\'', "$'");
    ReplaceChar(ReplaceChar(out1, '\r', "$R"), '\n', "$N")
  }

  /** The escape of one character. */
  function EncodeChar(c: char): string
  {
    if c == '$' then "$$"
    else if c == '"' then "$\""
    else if c == '\'' then "$'"
    else if c == '\r' then "$R"
    else if c == '\n' then "$N"
    else [c]
  }

  /** The encoding character by character. */
  function EncodeMap(s: string): string
  {
    if s == [] then [] else EncodeChar(s[0]) + EncodeMap(s[1..])
  }

  lemma {:induction false} ReplaceCharConcat(a: string, b: string, c: char, rep: string)
    ensures ReplaceChar(a + b, c, rep) == ReplaceChar(a, c, rep) + ReplaceChar(b, c, rep)
  {
    if a == [] {
      assert a + b == b;
    } else {
      assert (a + b)[0] == a[0] && (a + b)[1..] == a[1..] + b;
      ReplaceCharConcat(a[1..], b, c, rep);
    }
  }

  lemma ReplaceCharOne(x: char, c: char, rep: string)
    ensures ReplaceChar([x], c, rep) == if x == c then rep else [x]
  {
    assert [x][1..] == [];
  }

  lemma ReplaceCharTwo(x: char, y: char, c: char, rep: string)
    ensures ReplaceChar([x, y], c, rep) == ReplaceChar([x], c, rep) + ReplaceChar([y], c, rep)
  {
    assert [x, y] == [x] + [y];
    ReplaceCharConcat([x], [y], c, rep);
  }

  /** The replace chain applied to one character. */
  lemma EncodeOne(x: char)
    ensures Encode([x]) == EncodeChar(x)
  {
    ReplaceCharOne(x, '$', "$$");
    if x == '$' {
      ReplaceCharTwo('$', '$', '"', "$\"");
      ReplaceCharOne('$', '"', "$\"");
      ReplaceCharTwo('$', '$', '\'', "$'");
      ReplaceCharOne('$', '\'', "$'");
      ReplaceCharTwo('$', '$', '\r', "$R");
      ReplaceCharOne('$', '\r', "$R");
      ReplaceCharTwo('$', '$', '\n', "$N");
      ReplaceCharOne('$', '\n', "$N");
    } else {
      ReplaceCharOne(x, '"', "$\"");
      if x == '"' {
        ReplaceCharTwo('$', '"', '\'', "$'");
        ReplaceCharOne('$', '\'', "$'");
        ReplaceCharOne('"', '\'', "$'");
        ReplaceCharTwo('$', '"', '\r', "$R");
        ReplaceCharOne('$', '\r', "$R");
        ReplaceCharOne('"', '\r', "$R");
        ReplaceCharTwo('$', '"', '\n', "$N");
        ReplaceCharOne('$', '\n', "$N");
        ReplaceCharOne('"', '\n', "$N");
      } else {
        ReplaceCharOne(x, '\'', "$'");
        if x == '\'' {
          ReplaceCharTwo('$', '\'', '\r', "$R");
          ReplaceCharOne('$', '\r', "$R");
          ReplaceCharOne('\'', '\r', "$R");
          ReplaceCharTwo('$', '\'', '\n', "$N");
          ReplaceCharOne('$', '\n', "$N");
          ReplaceCharOne('\'', '\n', "$N");
        } else {
          ReplaceCharOne(x, '\r', "$R");
          if x == '\r' {
            ReplaceCharTwo('$', 'R', '\n', "$N");
            ReplaceCharOne('$', '\n', "$N");
            ReplaceCharOne('R', '\n', "$N");
          } else {
            ReplaceCharOne(x, '\n', "$N");
          }
        }
      }
    }
  }

  /** The five replacements never interfere: the chain escapes each character on its own. */
  lemma {:induction false} EncodeIsMap(s: string)
    ensures Encode(s) == EncodeMap(s)
  {
    if s != [] {
      var a := [s[0]];
      var b := s[1..];
      assert s == a + b;
      var r1a := ReplaceChar(a, '$', "$$");
      var r1b := ReplaceChar(b, '$', "$$");
      ReplaceCharConcat(a, b, '$', "$$");
      var r2a := ReplaceChar(r1a, '"', "$\"");
      var r2b := ReplaceChar(r1b, '"', "$\"");
      ReplaceCharConcat(r1a, r1b, '"', "$\"");
      var r3a := ReplaceChar(r2a, '\'', "$'");
      var r3b := ReplaceChar(r2b, '\'', "$'");
      ReplaceCharConcat(r2a, r2b, '\'', "$'");
      var r4a := ReplaceChar(r3a, '\r', "$R");
      var r4b := ReplaceChar(r3b, '\r', "$R");
      ReplaceCharConcat(r3a, r3b, '\r', "$R");
      ReplaceCharConcat(r4a, r4b, '\n', "$N");
      assert Encode(s) == Encode(a) + Encode(b);
      EncodeOne(s[0]);
      EncodeIsMap(b);
    }
  }

  /** The characters `$` may escape, and what each escape stands for. */
  predicate EscapeCode(c: char) { c == '$' || c == '"' || c == '\'' || c == 'R' || c == 'N' }

  function Unescape(c: char): char
  {
    if c == 'R' then '\r' else if c == 'N' then '\n' else c
  }

  /** A well-formed literal body: no bare quote, CR or LF, and every `$` starts a two-character escape. */
  predicate Escaped(e: string)
  {
    if e == [] then true
    else if e[0] == '$' then |e| >= 2 && EscapeCode(e[1]) && Escaped(e[2..])
    else e[0] != '"' && e[0] != '\'' && e[0] != '\r' && e[0] != '\n' && Escaped(e[1..])
  }

  /** The inverse of the encoding: `$` and the next character become the character escaped. */
  function Decode(e: string): string
  {
    if e == [] then []
    else if e[0] == '$' && |e| >= 2 then [Unescape(e[1])] + Decode(e[2..])
    else [e[0]] + Decode(e[1..])
  }

  lemma EscapedConcat(a: string, b: string)
    requires (|a| == 2 && a[0] == '$' && EscapeCode(a[1])) || (|a| == 1 && a[0] != '$' && a[0] != '"' &&
             a[0] != '\'' && a[0] != '\r' && a[0] != '\n')
    requires Escaped(b)
    ensures Escaped(a + b)
  {
    if |a| == 2 { assert (a + b)[2..] == b; } else { assert (a + b)[1..] == b; }
  }

  /** The encoding is always a well-formed literal body. */
  lemma {:induction false} EncodeEscaped(s: string)
    ensures Escaped(Encode(s))
  {
    EncodeIsMap(s);
    EncodeMapEscaped(s);
  }

  lemma {:induction false} EncodeMapEscaped(s: string)
    ensures Escaped(EncodeMap(s))
  {
    if s != [] {
      EncodeMapEscaped(s[1..]);
      EscapedConcat(EncodeChar(s[0]), EncodeMap(s[1..]));
    }
  }

  lemma DecodeHead(a: string, b: string)
    requires (|a| == 2 && a[0] == '$') || (|a| == 1 && a[0] != '$')
    ensures Decode(a + b) == (if |a| == 2 then [Unescape(a[1])] else [a[0]]) + Decode(b)
  {
    if |a| == 2 { assert (a + b)[2..] == b; } else { assert (a + b)[1..] == b; }
  }

  /** Decoding undoes the encoding. */
  lemma {:induction false} DecodeEncode(s: string)
    ensures Decode(Encode(s)) == s
  {
    EncodeIsMap(s);
    DecodeEncodeMap(s);
  }

  lemma {:induction false} DecodeEncodeMap(s: string)
    ensures Decode(EncodeMap(s)) == s
  {
    if s != [] {
      DecodeHead(EncodeChar(s[0]), EncodeMap(s[1..]));
      DecodeEncodeMap(s[1..]);
      assert s == [s[0]] + s[1..];
    }
  }

  /** Every well-formed literal body is the encoding of its decoding. */
  lemma {:induction false} EncodeDecode(e: string)
    requires Escaped(e)
    ensures Encode(Decode(e)) == e
  {
    EncodeIsMap(Decode(e));
    EncodeMapDecode(e);
  }

  lemma {:induction false} EncodeMapDecode(e: string)
    requires Escaped(e)
    ensures EncodeMap(Decode(e)) == e
    decreases |e|
  {
    if e != [] {
      if e[0] == '$' {
        EncodeMapDecode(e[2..]);
        assert Decode(e) == [Unescape(e[1])] + Decode(e[2..]);
        assert ([Unescape(e[1])] + Decode(e[2..]))[1..] == Decode(e[2..]);
        assert e == [e[0], e[1]] + e[2..];
      } else {
        EncodeMapDecode(e[1..]);
        assert ([e[0]] + Decode(e[1..]))[1..] == Decode(e[1..]);
        assert e == [e[0]] + e[1..];
      }
    }
  }

  // ---------------------------------------------------------------- first_outside_parens

  /** The loop state of first_outside_parens: bracket depth, inside '...', inside "...", and
      whether the previous character was a `$` escape inside a string. */
  datatype FopState = FopState(depth: int, sq: bool, dq: bool, esc: bool)

  const FopStart := FopState(0, false, false, false)

  predicate Opener(c: char) { c == '(' || c == '[' || c == '{' }

  predicate Closer(c: char) { c == ')' || c == ']' || c == '}' }

  /** One character of the loop, when it does not return. */
  function FopStep(st: FopState, ch: char): FopState
  {
    if st.sq then
      if st.esc then st.(esc := false)
      else if ch == '$' then st.(esc := true)
      else if ch == '\'' then st.(sq := false)
      else st
    else if st.dq then
      if st.esc then st.(esc := false)
      else if ch == '$' then st.(esc := true)
      else if ch == '"' then st.(dq := false)
      else st
    else if ch == '\'' then st.(sq := true)
    else if ch == '"' then st.(dq := true)
    else if Opener(ch) then st.(depth := st.depth + 1)
    else if Closer(ch) then (if st.depth > 0 then st.(depth := st.depth - 1) else st)
    else st
  }

  /** The state before position i. */
  function FopAt(s: string, i: nat): FopState
    requires i <= |s|
  {
    if i == 0 then FopStart else FopStep(FopAt(s, i - 1), s[i - 1])
  }

  /** Position i is where the loop returns: outside both quote kinds, not a quote or bracket,
      at depth 0, and the target starts there. */
  predicate Hit(s: string, target: string, i: nat)
    requires i < |s|
  {
    var st := FopAt(s, i);
    !st.sq && !st.dq && s[i] != '\'' && s[i] != '"' && !Opener(s[i]) && !Closer(s[i]) &&
    st.depth == 0 && StartsWith(s[i..], target)
  }

  function FirstHitFrom(s: string, target: string, i: nat): (r: int)
    requires i <= |s|
    ensures r == -1 || i <= r < |s|
    ensures r >= 0 ==> Hit(s, target, r) && forall k :: i <= k < r ==> !Hit(s, target, k)
    ensures r == -1 ==> forall k :: i <= k < |s| ==> !Hit(s, target, k)
    decreases |s| - i
  {
    if i == |s| then -1 else if Hit(s, target, i) then i else FirstHitFrom(s, target, i + 1)
  }

  /** first_outside_parens(s, target): the first top-level, unquoted occurrence of target, or -1. */
  function FirstOutsideParens(s: string, target: string): (r: int)
    ensures -1 <= r < |s|
    ensures r >= 0 ==> StartsWith(s[r..], target)
    ensures r >= 0 ==> FopAt(s, r).depth == 0 && !FopAt(s, r).sq && !FopAt(s, r).dq
    ensures r >= 0 ==> forall k :: 0 <= k < r ==> !Hit(s, target, k)
    ensures r == -1 <==> forall k :: 0 <= k < |s| ==> !Hit(s, target, k)
  {
    FirstHitFrom(s, target, 0)
  }

  /** The loop of first_outside_parens. */
  method ComputeFirstOutsideParens(s: string, target: string) returns (r: int)
    ensures r == FirstOutsideParens(s, target)
  {
    var depth := 0;
    var inSq := false;
    var inDq := false;
    var esc := false;
    for i := 0 to |s|
      invariant FopState(depth, inSq, inDq, esc) == FopAt(s, i)
      invariant FirstHitFrom(s, target, i) == FirstHitFrom(s, target, 0)
    {
      var ch := s[i];
      if inSq {
        if esc {
          esc := false;
        } else if ch == '$' {
          esc := true;
        } else if ch == '\'' {
          inSq := false;
        }
      } else if inDq {
        if esc {
          esc := false;
        } else if ch == '$' {
          esc := true;
        } else if ch == '"' {
          inDq := false;
        }
      } else if ch == '\'' {
        inSq := true;
      } else if ch == '"' {
        inDq := true;
      } else if ch == '(' || ch == '[' || ch == '{' {
        depth := depth + 1;
      } else if ch == ')' || ch == ']' || ch == '}' {
        if depth > 0 {
          depth := depth - 1;
        }
      } else if depth == 0 && StartsWith(s[i..], target) {
        return i;
      }
    }
    return -1;
  }

  /** The depth never goes negative: a closer at depth 0 is ignored. */
  lemma {:induction false} FopDepthNonNegative(s: string, i: nat)
    requires i <= |s|
    ensures FopAt(s, i).depth >= 0
  {
    if i > 0 {
      FopDepthNonNegative(s, i - 1);
    }
  }

  /** Scanning a segment from a given state. */
  function FopScan(t: string, st: FopState): FopState
  {
    if t == [] then st else FopScan(t[1..], FopStep(st, t[0]))
  }

  lemma {:induction false} FopScanConcat(a: string, b: string, st: FopState)
    ensures FopScan(a + b, st) == FopScan(b, FopScan(a, st))
  {
    if a == [] {
      assert a + b == b;
    } else {
      assert (a + b)[0] == a[0] && (a + b)[1..] == a[1..] + b;
      FopScanConcat(a[1..], b, FopStep(st, a[0]));
    }
  }

  /** The state before position i is the scan of the text before it. */
  lemma {:induction false} FopAtScan(s: string, i: nat)
    requires i <= |s|
    ensures FopAt(s, i) == FopScan(s[..i], FopStart)
  {
    if i > 0 {
      FopAtScan(s, i - 1);
      assert s[..i] == s[..i - 1] + [s[i - 1]];
      FopScanConcat(s[..i - 1], [s[i - 1]], FopStart);
      assert [s[i - 1]][1..] == [];
    }
  }

  /** Inside a string, `$` absorbs the next character: `$"` and `$'` do not end it. */
  lemma DollarAbsorbs(st: FopState, c: char)
    requires (st.sq || st.dq) && !st.esc
    ensures FopScan(['$', c], st) == st
  {
    assert ['$', c][1..] == [c] && [c][1..] == [];
    var st1 := FopStep(st, '$');
    assert st1 == st.(esc := true);
    assert FopScan(['$', c], st) == FopScan([c], st1);
    assert FopScan([c], st1) == FopScan([], FopStep(st1, c));
  }

  /** Inside a string, an encoded character leaves the state as it was. */
  lemma EncodedCharInString(st: FopState, c: char)
    requires (st.sq != st.dq) && !st.esc
    ensures FopScan(EncodeChar(c), st) == st
  {
    if c == '$' || c == '"' || c == '\'' || c == '\r' || c == '\n' {
      DollarAbsorbs(st, EncodeChar(c)[1]);
      assert EncodeChar(c) == ['$', EncodeChar(c)[1]];
    } else {
      assert EncodeChar(c) == [c] && [c][1..] == [];
    }
  }

  lemma {:induction false} EncodedBodyInString(st: FopState, x: string)
    requires (st.sq != st.dq) && !st.esc
    ensures FopScan(EncodeMap(x), st) == st
  {
    if x != [] {
      FopScanConcat(EncodeChar(x[0]), EncodeMap(x[1..]), st);
      EncodedCharInString(st, x[0]);
      EncodedBodyInString(st, x[1..]);
    }
  }

  /** A string literal written by encode_l5k_string, in either quote kind, is skipped as a
      whole: the scan leaves it in the state it entered it. */
  lemma EncodedLiteralSkipped(st: FopState, x: string, q: char)
    requires !st.sq && !st.dq && !st.esc && (q == '"' || q == '\'')
    ensures FopScan([q] + Encode(x) + [q], st) == st
  {
    EncodeIsMap(x);
    var inside := if q == '"' then st.(dq := true) else st.(sq := true);
    assert FopStep(st, q) == inside;
    assert ([q] + Encode(x) + [q])[1..] == Encode(x) + [q];
    FopScanConcat(Encode(x), [q], inside);
    EncodedBodyInString(inside, x);
    assert [q][1..] == [];
  }

  // ---------------------------------------------------------------- split_outer_attrs

  /** `s = left.rstrip()` cut after its last ')', when there is one. */
  function CutAtLastClose(left: string): (s: string)
    ensures StartsWith(RStrip(left), s)
    ensures RFindChar(RStrip(left), ')') == -1 ==> s == RStrip(left)
    ensures RFindChar(RStrip(left), ')') != -1 ==> s != [] && s[|s| - 1] == ')'
  {
    var s := RStrip(left);
    var idx := RFindChar(s, ')');
    if idx != -1 then s[..idx + 1] else s
  }

  /** The bracket depth before position i: every '(' opens and every ')' closes, no clamping. */
  function DepthAt(s: string, i: nat): int
    requires i <= |s|
  {
    Count(s[..i], '(') - Count(s[..i], ')')
  }

  lemma DepthNext(s: string, i: nat)
    requires i < |s|
    ensures DepthAt(s, i + 1) == DepthAt(s, i) + (if s[i] == '(' then 1 else if s[i] == ')' then -1 else 0)
  {
    assert s[..i + 1][..i] == s[..i];
  }

  /** The value of `start` after the loop has seen s[..n]: the last '(' opened at depth 0. */
  function LastTopOpen(s: string, n: nat): (r: Option<nat>)
    requires n <= |s|
    ensures r.Some? ==> r.value < n && s[r.value] == '(' && DepthAt(s, r.value) == 0
    ensures r.Some? ==> forall j :: r.value < j < n ==> !(s[j] == '(' && DepthAt(s, j) == 0)
    ensures r.None? ==> forall j :: 0 <= j < n ==> !(s[j] == '(' && DepthAt(s, j) == 0)
  {
    if n == 0 then None
    else if s[n - 1] == '(' && DepthAt(s, n - 1) == 0 then Some(n - 1)
    else LastTopOpen(s, n - 1)
  }

  datatype Split = Split(prefix: string, attrs: string)

  /** The split, when split_outer_attrs finds one. */
  function SplitOuter(left: string): (r: Option<Split>)
    ensures r.Some? ==> var s := CutAtLastClose(left);
      LastTopOpen(s, |s|).Some? && DepthAt(s, |s|) == 0 &&
      (var k := LastTopOpen(s, |s|).value;
       s == s[..k] + "(" + r.value.attrs + ")" && r.value.prefix == RStrip(s[..k]))
    ensures r.None? <==> var s := CutAtLastClose(left);
      !EndsWith(s, ")") || LastTopOpen(s, |s|).None? || DepthAt(s, |s|) != 0
  {
    var s := CutAtLastClose(left);
    if !EndsWith(s, ")") then None
    else
      var start := LastTopOpen(s, |s|);
      if start.Some? && DepthAt(s, |s|) == 0 then
        var k := start.value;
        assert s == s[..k] + "(" + s[k + 1..|s| - 1] + ")";
        Some(Split(RStrip(s[..k]), s[k + 1..|s| - 1]))
      else None
  }

  /** split_outer_attrs(left): (prefix, attrs) on success, else (left, ""). */
  function SplitOuterAttrs(left: string): (string, string)
  {
    match SplitOuter(left)
    case None => (left, "")
    case Some(p) => (p.prefix, p.attrs)
  }

  /** The loop of split_outer_attrs. */
  method ComputeSplitOuterAttrs(left: string) returns (prefix: string, attrs: string)
    ensures (prefix, attrs) == SplitOuterAttrs(left)
  {
    var s := RStrip(left);
    var idxLast := RFindChar(s, ')');
    if idxLast != -1 {
      s := s[..idxLast + 1];
    }
    if !EndsWith(s, ")") {
      return left, "";
    }
    var depth := 0;
    var start: Option<nat> := None;
    for i := 0 to |s|
      invariant depth == DepthAt(s, i) && start == LastTopOpen(s, i)
    {
      DepthNext(s, i);
      if s[i] == '(' {
        if depth == 0 {
          start := Some(i);
        }
        depth := depth + 1;
      } else if s[i] == ')' {
        depth := depth - 1;
      }
    }
    if start.Some? && depth == 0 {
      return RStrip(s[..start.value]), s[start.value + 1..|s| - 1];
    }
    return left, "";
  }

  lemma NoCloseInPrefix(left: string, s: string)
    requires ')' !in left && StartsWith(left, s)
    ensures ')' !in s
  {
    forall k | 0 <= k < |s| ensures s[k] != ')' {
      assert s[k] == left[k] && left[k] in left;
    }
  }

  /** Without a ')' there is nothing to split. */
  lemma SplitWithoutClose(left: string)
    requires ')' !in left
    ensures SplitOuterAttrs(left) == (left, "")
  {
    var r := RStrip(left);
    NoCloseInPrefix(left, r);
    assert RFindChar(r, ')') == -1;
    var s := CutAtLastClose(left);
    if |s| >= 1 {
      assert s[|s| - 1] in r;
      assert s[|s| - 1..][0] == s[|s| - 1];
    }
  }

  /** Unbalanced parentheses leave the text alone. */
  lemma SplitUnbalanced(left: string)
    requires var s := CutAtLastClose(left); DepthAt(s, |s|) != 0
    ensures SplitOuterAttrs(left) == (left, "")
  {
  }
}
