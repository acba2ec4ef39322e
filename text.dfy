/** Character classes and string helpers with the semantics of the Python
    built-ins the L5K pipeline relies on (str.strip, str.startswith,
    str.split, str.join, str.splitlines on '\n', ...). */
module Text {

  /** Python's str.isspace (and the regex class \s for str patterns). */
  predicate IsSpace(c: char)
  {
    ('\t' <= c <= '\r') || ('\U{1C}' <= c <= ' ') || ('\U{85}' <= c && IsWideSpace(c))
  }

  /** The non-ASCII characters str.isspace accepts. */
  predicate IsWideSpace(c: char)
  {
    c == '\U{85}' || c == '\U{A0}' || c == '\U{1680}' || ('\U{2000}' <= c <= '\U{200A}') || c == '\U{2028}' ||
    c == '\U{2029}' || c == '\U{202F}' || c == '\U{205F}' || c == '\U{3000}'
  }

  predicate IsDigit(c: char) { '0' <= c <= '9' }

  predicate IsAlpha(c: char) { ('A' <= c <= 'Z') || ('a' <= c <= 'z') }

  /** The regex class [A-Za-z_]: the first character of an identifier. */
  predicate IsIdentStart(c: char) { IsAlpha(c) || c == '_' }

  /** The regex class \w (ASCII part). */
  predicate IsWordChar(c: char) { IsAlpha(c) || IsDigit(c) || c == '_' }

  function Lower(c: char): char
  {
    if 'A' <= c <= 'Z' then (c as int + 32) as char else c
  }

  function Upper(c: char): char
  {
    if 'a' <= c <= 'z' then (c as int - 32) as char else c
  }

  function UpperStr(s: string): (r: string)
    ensures |r| == |s|
    ensures forall k :: 0 <= k < |s| ==> r[k] == Upper(s[k])
  {
    if s == [] then [] else [Upper(s[0])] + UpperStr(s[1..])
  }

  predicate AllDigits(s: string) { forall k :: 0 <= k < |s| ==> IsDigit(s[k]) }

  /** Python's str.isdigit (ASCII part): non-empty and only digits. */
  predicate IsDigitStr(s: string) { |s| > 0 && AllDigits(s) }

  predicate StartsWith(s: string, p: string) { |p| <= |s| && s[..|p|] == p }

  predicate EndsWith(s: string, p: string) { |p| <= |s| && s[|s| - |p|..] == p }

  /** Case-insensitive (ASCII) prefix test, as regex IGNORECASE uses it. */
  predicate StartsWithFold(s: string, p: string)
  {
    |p| <= |s| && forall k :: 0 <= k < |p| ==> Lower(s[k]) == Lower(p[k])
  }

  /** The substring test `p in s`. */
  predicate Contains(s: string, p: string)
  {
    exists k | 0 <= k <= |s| :: StartsWith(s[k..], p)
  }

  predicate HasChar(s: string, c: char) { c in s }

  /** The number of occurrences of c in s. */
  function Count(s: string, c: char): (r: nat)
    ensures r <= |s|
  {
    if s == [] then 0 else Count(s[..|s| - 1], c) + (if s[|s| - 1] == c then 1 else 0)
  }

  lemma CountConcat(a: string, b: string, c: char)
    ensures Count(a + b, c) == Count(a, c) + Count(b, c)
    decreases |b|
  {
    if b == [] {
      assert a + b == a;
    } else {
      assert (a + b)[..|a + b| - 1] == a + b[..|b| - 1];
      CountConcat(a, b[..|b| - 1], c);
    }
  }

  lemma CountAbsent(s: string, c: char)
    requires c !in s
    ensures Count(s, c) == 0
  {
    if s != [] {
      assert s[..|s| - 1] <= s;
      CountAbsent(s[..|s| - 1], c);
    }
  }

  function LStrip(s: string): (r: string)
    ensures |r| <= |s| && r == s[|s| - |r|..]
    ensures r == [] || !IsSpace(r[0])
    ensures forall k :: 0 <= k < |s| - |r| ==> IsSpace(s[k])
  {
    if s != [] && IsSpace(s[0]) then LStrip(s[1..]) else s
  }

  function RStrip(s: string): (r: string)
    ensures |r| <= |s| && r == s[..|r|]
    ensures r == [] || !IsSpace(r[|r| - 1])
    ensures forall k :: |r| <= k < |s| ==> IsSpace(s[k])
  {
    if s != [] && IsSpace(s[|s| - 1]) then RStrip(s[..|s| - 1]) else s
  }

  /** Python's str.strip() with no argument. */
  function Strip(s: string): string { RStrip(LStrip(s)) }

  /** Python's str.rstrip(chars) / str.strip(chars) for a set of characters. */
  function RStripChars(s: string, cs: set<char>): (r: string)
    ensures |r| <= |s| && r == s[..|r|]
  {
    if s != [] && s[|s| - 1] in cs then RStripChars(s[..|s| - 1], cs) else s
  }

  function LStripChars(s: string, cs: set<char>): (r: string)
    ensures |r| <= |s| && r == s[|s| - |r|..]
  {
    if s != [] && s[0] in cs then LStripChars(s[1..], cs) else s
  }

  function StripChars(s: string, cs: set<char>): string { RStripChars(LStripChars(s, cs), cs) }

  /** The length of the longest prefix of s[from..] whose characters satisfy the class. */
  function SpanSpace(s: string, from: nat): (e: nat)
    requires from <= |s|
    ensures from <= e <= |s|
    ensures forall k :: from <= k < e ==> IsSpace(s[k])
    ensures e == |s| || !IsSpace(s[e])
    decreases |s| - from
  {
    if from < |s| && IsSpace(s[from]) then SpanSpace(s, from + 1) else from
  }

  function SpanWord(s: string, from: nat): (e: nat)
    requires from <= |s|
    ensures from <= e <= |s|
    ensures forall k :: from <= k < e ==> IsWordChar(s[k])
    ensures e == |s| || !IsWordChar(s[e])
    decreases |s| - from
  {
    if from < |s| && IsWordChar(s[from]) then SpanWord(s, from + 1) else from
  }

  function SpanDigits(s: string, from: nat): (e: nat)
    requires from <= |s|
    ensures from <= e <= |s|
    ensures forall k :: from <= k < e ==> IsDigit(s[k])
    ensures e == |s| || !IsDigit(s[e])
    decreases |s| - from
  {
    if from < |s| && IsDigit(s[from]) then SpanDigits(s, from + 1) else from
  }

  /** Index of the first occurrence of c in s[from..], or |s|. */
  function FindChar(s: string, c: char, from: nat): (e: nat)
    requires from <= |s|
    ensures from <= e <= |s|
    ensures forall k :: from <= k < e ==> s[k] != c
    ensures e < |s| ==> s[e] == c
    decreases |s| - from
  {
    if from == |s| || s[from] == c then from else FindChar(s, c, from + 1)
  }

  /** Python's str.find(p): the first index where p occurs, or -1. */
  function Find(s: string, p: string): (r: int)
    ensures -1 <= r <= |s|
    ensures r >= 0 ==> StartsWith(s[r..], p)
    ensures r >= 0 ==> forall k :: 0 <= k < r ==> !StartsWith(s[k..], p)
    ensures r == -1 ==> !Contains(s, p)
  {
    FindFrom(s, p, 0)
  }

  function FindFrom(s: string, p: string, from: nat): (r: int)
    requires from <= |s|
    ensures r == -1 || from <= r <= |s|
    ensures r >= 0 ==> StartsWith(s[r..], p)
    ensures r >= 0 ==> forall k :: from <= k < r ==> !StartsWith(s[k..], p)
    ensures r == -1 ==> forall k :: from <= k <= |s| ==> !StartsWith(s[k..], p)
    decreases |s| - from
  {
    if StartsWith(s[from..], p) then from
    else if from == |s| then -1
    else FindFrom(s, p, from + 1)
  }

  /** Python's str.rfind(c) for one character: the last index holding c, or -1. */
  function RFindChar(s: string, c: char): (r: int)
    ensures -1 <= r < |s|
    ensures r >= 0 ==> s[r] == c
    ensures forall k :: r < k < |s| ==> s[k] != c
  {
    if s == [] then -1
    else if s[|s| - 1] == c then |s| - 1
    else RFindChar(s[..|s| - 1], c)
  }

  /** sep.join(parts). */
  function Join(parts: seq<string>, sep: string): string
  {
    if parts == [] then ""
    else if |parts| == 1 then parts[0]
    else parts[0] + sep + Join(parts[1..], sep)
  }

  /** Splitting on '\n' the way str.splitlines() does for text whose only line
      break is '\n': no trailing empty line, and "" gives no lines. */
  function SplitLines(s: string): seq<string>
    decreases |s|
  {
    if s == [] then []
    else
      var e := FindChar(s, '\n', 0);
      if e == |s| then [s] else [s[..e]] + SplitLines(s[e + 1..])
  }

  predicate NoNewline(s: string) { '\n' !in s }

  lemma FindCharFirst(a: string, b: string, c: char)
    requires c !in a
    ensures FindChar(a + [c] + b, c, 0) == |a|
  {
    var s := a + [c] + b;
    assert s[|a|] == c;
    assert forall k :: 0 <= k < |a| ==> s[k] == a[k];
    FindCharUpTo(s, c, 0, |a|);
  }

  lemma FindCharUpTo(s: string, c: char, from: nat, e: nat)
    requires from <= e < |s| && s[e] == c
    requires forall k :: from <= k < e ==> s[k] != c
    ensures FindChar(s, c, from) == e
    decreases e - from
  {
    if from < e { FindCharUpTo(s, c, from + 1, e); }
  }

  /** Joining two non-empty runs of parts puts one separator between them. */
  lemma {:induction false} JoinConcat(a: seq<string>, b: seq<string>, sep: string)
    requires a != [] && b != []
    ensures Join(a + b, sep) == Join(a, sep) + sep + Join(b, sep)
  {
    if |a| > 1 {
      JoinConcat(a[1..], b, sep);
      assert (a + b)[1..] == a[1..] + b;
    } else {
      assert (a + b)[1..] == b;
    }
  }

  /** A join ends with the separator and the join of its last non-empty run of parts. */
  lemma JoinEndsWithTail(front: seq<string>, tail: seq<string>, sep: string)
    requires front != [] && tail != []
    ensures EndsWith(Join(front + tail, sep), sep + Join(tail, sep))
  {
    JoinConcat(front, tail, sep);
    var j := Join(front, sep) + (sep + Join(tail, sep));
    assert j[|j| - |sep + Join(tail, sep)|..] == sep + Join(tail, sep);
  }

  lemma SplitJoinLines(lines: seq<string>)
    requires forall k :: 0 <= k < |lines| ==> NoNewline(lines[k])
    requires lines != [] ==> lines[|lines| - 1] != ""
    ensures SplitLines(Join(lines, "\n")) == lines
  {
    if |lines| == 1 {
      assert FindChar(lines[0], '\n', 0) == |lines[0]|;
    } else if |lines| > 1 {
      var rest := Join(lines[1..], "\n");
      var s := lines[0] + ['\n'] + rest;
      assert Join(lines, "\n") == s;
      FindCharFirst(lines[0], rest, '\n');
      assert s[..|lines[0]|] == lines[0];
      assert s[|lines[0]| + 1..] == rest;
      SplitJoinLines(lines[1..]);
    }
  }

  /** str.split(sep, 1)[0] for a one-character separator. */
  function BeforeChar(s: string, c: char): (r: string)
    ensures r == s[..FindChar(s, c, 0)]
  {
    s[..FindChar(s, c, 0)]
  }

  /** s.replace(c, rep) for a single character c. */
  function ReplaceChar(s: string, c: char, rep: string): (r: string)
    ensures c !in rep ==> c !in r
  {
    if s == [] then []
    else (if s[0] == c then rep else [s[0]]) + ReplaceChar(s[1..], c, rep)
  }

  /** A string repeated n times (Python's s * n). */
  function Repeat(s: string, n: nat): (r: string)
    ensures |r| == |s| * n
  {
    if n == 0 then "" else s + Repeat(s, n - 1)
  }

  // ---------------------------------------------------------------- stripped-line tests

  /** s.rstrip().endswith(p), read off the end of s without building the stripped text. */
  predicate EndsAfterBlanks(s: string, p: string)
    decreases |s|
  {
    if s != [] && IsSpace(s[|s| - 1]) then EndsAfterBlanks(s[..|s| - 1], p) else EndsWith(s, p)
  }

  /** s.lstrip().startswith(p), read off the front of s. */
  predicate StartsAfterBlanks(s: string, p: string)
    decreases |s|
  {
    if s != [] && IsSpace(s[0]) then StartsAfterBlanks(s[1..], p) else StartsWith(s, p)
  }

  predicate AllSpace(s: string) { forall k :: 0 <= k < |s| ==> IsSpace(s[k]) }

  lemma {:induction false} EndsAfterBlanksIff(s: string, p: string)
    ensures EndsAfterBlanks(s, p) <==> EndsWith(RStrip(s), p)
    decreases |s|
  {
    if s != [] && IsSpace(s[|s| - 1]) {
      EndsAfterBlanksIff(s[..|s| - 1], p);
    }
  }

  lemma {:induction false} StartsAfterBlanksIff(s: string, p: string)
    ensures StartsAfterBlanks(s, p) <==> StartsWith(LStrip(s), p)
    decreases |s|
  {
    if s != [] && IsSpace(s[0]) {
      StartsAfterBlanksIff(s[1..], p);
    }
  }

  /** Trailing blanks come off a text with a blank prefix as they do off the rest. */
  lemma {:induction false} RStripBlankPrefix(a: string, b: string)
    requires AllSpace(a)
    ensures RStrip(a + b) == if RStrip(b) == [] then [] else a + RStrip(b)
    decreases |b|
  {
    if b == [] {
      assert a + b == a;
      RStripAllSpace(a);
    } else if IsSpace(b[|b| - 1]) {
      assert (a + b)[..|a + b| - 1] == a + b[..|b| - 1];
      RStripBlankPrefix(a, b[..|b| - 1]);
    }
  }

  lemma {:induction false} RStripAllSpace(a: string)
    requires AllSpace(a)
    ensures RStrip(a) == []
    decreases |a|
  {
    if a != [] {
      RStripAllSpace(a[..|a| - 1]);
    }
  }

  /** A blank-prefixed text ends with p (whose first character is not blank) exactly when
      what follows the blanks does. */
  lemma EndsWithBlankPrefix(a: string, t: string, p: string)
    requires AllSpace(a) && p != [] && !IsSpace(p[0])
    ensures EndsWith(a + t, p) <==> EndsWith(t, p)
  {
    if EndsWith(t, p) {
      assert (a + t)[|a + t| - |p|..] == t[|t| - |p|..];
    }
  }

  /** For a suffix that starts with a non-blank character, str.strip() and str.rstrip() agree
      on whether the line ends with it. */
  lemma StripEndsWith(s: string, p: string)
    requires p != [] && !IsSpace(p[0])
    ensures EndsWith(Strip(s), p) <==> EndsWith(RStrip(s), p)
  {
    var t := LStrip(s);
    var a := s[..|s| - |t|];
    assert s == a + t;
    assert AllSpace(a);
    RStripBlankPrefix(a, t);
    if RStrip(t) != [] {
      EndsWithBlankPrefix(a, RStrip(t), p);
    }
  }

  /** line.strip().endswith(p) for such a suffix, read off the end of the line. */
  lemma StripEndsAfterBlanks(s: string, p: string)
    requires p != [] && !IsSpace(p[0])
    ensures EndsAfterBlanks(s, p) <==> EndsWith(Strip(s), p)
  {
    EndsAfterBlanksIff(s, p);
    StripEndsWith(s, p);
  }

  /** For a prefix that ends with a non-blank character, str.rstrip() does not change whether
      the text starts with it. */
  lemma RStripStartsWith(t: string, p: string)
    requires p != [] && !IsSpace(p[|p| - 1])
    ensures StartsWith(RStrip(t), p) <==> StartsWith(t, p)
  {
    var r := RStrip(t);
    if StartsWith(t, p) {
      assert !IsSpace(t[|p| - 1]);
      assert r[..|p|] == t[..|p|];
    }
    if StartsWith(r, p) {
      assert t[..|p|] == r[..|p|];
    }
  }

  /** line.strip().startswith(p) for such a prefix, read off the front of the line. */
  lemma StripStartsAfterBlanks(s: string, p: string)
    requires p != [] && !IsSpace(p[|p| - 1])
    ensures StartsAfterBlanks(s, p) <==> StartsWith(Strip(s), p)
  {
    StartsAfterBlanksIff(s, p);
    RStripStartsWith(LStrip(s), p);
  }

  /** A non-blank character occurs in the stripped text exactly when it occurs in the text. */
  lemma StripHasChar(s: string, c: char)
    requires !IsSpace(c)
    ensures c in Strip(s) <==> c in s
  {
    LStripHasChar(s, c);
    RStripHasChar(LStrip(s), c);
  }

  lemma LStripHasChar(s: string, c: char)
    requires !IsSpace(c)
    ensures c in LStrip(s) <==> c in s
  {
    var t := LStrip(s);
    if c in s {
      var k :| 0 <= k < |s| && s[k] == c;
      assert t[k - (|s| - |t|)] == c;
    }
  }

  lemma RStripHasChar(s: string, c: char)
    requires !IsSpace(c)
    ensures c in RStrip(s) <==> c in s
  {
    var t := RStrip(s);
    if c in s {
      var k :| 0 <= k < |s| && s[k] == c;
      assert t[k] == c;
    }
  }
}
