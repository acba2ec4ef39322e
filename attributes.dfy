/** The attribute helpers of strings.py: reading a Description, setting it on a
    model entity, dropping DefaultData attributes from a definition, and the
    common-indent dedent of a stored definition. */
module L5kAttributes {
  import opened Text
  import opened OrderedMaps
  import opened Patterns
  import opened PatternLaws

  // ---------------------------------------------------------------- RE_DESC

  /** `Description\s*:=\s*"([^"]*)"` matched at position i (IGNORECASE): the quoted text. */
  function DescAt(s: string, i: nat): Option<string>
    requires i <= |s|
  {
    if !StartsWithFold(s[i..], "Description") then None else DescValue(s[i + 11..])
  }

  /** `\s*:=\s*"([^"]*)"` */
  function DescValue(t: string): Option<string>
  {
    var u := LStrip(t);
    if !StartsWith(u, ":=") then None else QuotedText(LStrip(u[2..]))
  }

  /** `"([^"]*)"` at the start of v: the text between the quotes. */
  function QuotedText(v: string): (r: Option<string>)
    ensures r.Some? ==> '"' !in r.value
  {
    if v == [] || v[0] != '"' then None
    else
      var e := FindChar(v, '"', 1);
      if e == |v| then None
      else
        assert forall k :: 0 <= k < e - 1 ==> v[1..e][k] == v[k + 1];
        Some(v[1..e])
  }

  /** The first position at or after i where the pattern matches, or -1. */
  function DescIndex(s: string, i: nat): (j: int)
    requires i <= |s|
    ensures j == -1 || i <= j <= |s|
    ensures j >= 0 ==> DescAt(s, j).Some?
    ensures j >= 0 ==> forall k :: i <= k < j ==> DescAt(s, k).None?
    ensures j == -1 ==> forall k :: i <= k <= |s| ==> DescAt(s, k).None?
    decreases |s| - i
  {
    if DescAt(s, i).Some? then i
    else if i == |s| then -1
    else DescIndex(s, i + 1)
  }

  /** get_desc: group 1 of the first match of RE_DESC, or "" when there is none. */
  function GetDesc(text: string): (r: string)
    ensures '"' !in r
    ensures (forall k :: 0 <= k <= |text| ==> DescAt(text, k).None?) ==> r == ""
  {
    var j := DescIndex(text, 0);
    if j < 0 then "" else DescAt(text, j).value
  }

  /** The value part split into its pieces: blanks, `:=`, blanks, the quoted text, the rest. */
  ghost predicate DescParts(t: string, w1: string, w2: string, d: string, rest: string)
  {
    All(w1, Space) && All(w2, Space) && '"' !in d && t == w1 + (":=" + (w2 + ("\"" + (d + ("\"" + rest)))))
  }

  ghost predicate DescShape(t: string, d: string)
  {
    exists w1, w2, rest :: DescParts(t, w1, w2, d, rest)
  }

  lemma DescQuoted(d: string, rest: string)
    requires '"' !in d
    ensures var v := "\"" + (d + ("\"" + rest));
      v[0] == '"' && FindChar(v, '"', 1) == |d| + 1 && v[1..|d| + 1] == d
  {
    var v := "\"" + (d + ("\"" + rest));
    assert v[|d| + 1] == '"';
    assert forall k :: 1 <= k < |d| + 1 ==> v[k] == d[k - 1];
    FindCharUpTo(v, '"', 1, |d| + 1);
    assert v[1..|d| + 1] == d;
  }

  lemma DescValueAccepts(t: string, w1: string, w2: string, d: string, rest: string)
    requires DescParts(t, w1, w2, d, rest)
    ensures DescValue(t) == Some(d)
  {
    var v := "\"" + (d + ("\"" + rest));
    var y := ":=" + (w2 + v);
    SkipBlanks(w1, y);
    KeywordSplit(":=", w2 + v);
    SkipBlanks(w2, v);
    DescQuoted(d, rest);
  }

  /** The pieces of a quoted text. */
  lemma QuotedSound(v: string) returns (d: string, rest: string)
    requires QuotedText(v).Some?
    ensures d == QuotedText(v).value && v == "\"" + (d + ("\"" + rest))
  {
    var e := FindChar(v, '"', 1);
    d := v[1..e];
    rest := v[e + 1..];
    assert v == v[..1] + v[1..e] + v[e..e + 1] + v[e + 1..];
  }

  /** The pieces of a recognised value part. */
  lemma DescValueSound(t: string) returns (w1: string, w2: string, rest: string)
    requires DescValue(t).Some?
    ensures DescParts(t, w1, w2, DescValue(t).value, rest)
  {
    var u := LStrip(t);
    w1 := Blanks(t);
    KeywordRest(u, ":=");
    var x := u[2..];
    var v := LStrip(x);
    w2 := Blanks(x);
    var d;
    d, rest := QuotedSound(v);
    var q := "\"" + (d + ("\"" + rest));
    Regroup(u, ":=", x, w2, q);
    Regroup(t, w1, u, ":=", w2 + q);
  }

  /** The value part yields d exactly when it reads `<blanks> := <blanks> "d"` with no quote in d. */
  lemma DescValueIff(t: string, d: string)
    ensures DescValue(t) == Some(d) <==> DescShape(t, d)
  {
    if DescValue(t) == Some(d) {
      var w1, w2, rest := DescValueSound(t);
      assert DescParts(t, w1, w2, d, rest);
    }
    if DescShape(t, d) {
      var w1, w2, rest :| DescParts(t, w1, w2, d, rest);
      DescValueAccepts(t, w1, w2, d, rest);
    }
  }

  /** re.search picks the first position: a match at i with none before it is the result. */
  lemma GetDescFirst(s: string, i: nat, d: string)
    requires i <= |s| && DescAt(s, i) == Some(d)
    requires forall k :: 0 <= k < i ==> DescAt(s, k).None?
    ensures GetDesc(s) == d
  {
    var j := DescIndex(s, 0);
    assert j != -1;
    assert !(j < i);
    assert !(j > i);
  }

  /** The attribute a renderer writes, `Description := "d"`, reads back as d. */
  lemma GetDescRendered(d: string, rest: string)
    requires '"' !in d
    ensures GetDesc("Description := \"" + d + "\"" + rest) == d
  {
    var t := " := \"" + d + "\"" + rest;
    var s := "Description" + t;
    assert s == "Description := \"" + d + "\"" + rest;
    KeywordSplit("Description", t);
    assert StartsWithFold(s, "Description");
    assert DescParts(t, " ", " ", d, rest);
    DescValueAccepts(t, " ", " ", d, rest);
    GetDescFirst(s, 0, d);
  }

  /** set_desc on an entity's description: a found non-empty Description replaces it,
      otherwise the description is left as it was. */
  function SetDesc(current: string, text: string): (r: string)
    ensures r == current || r == GetDesc(text)
    ensures GetDesc(text) == "" ==> r == current
    ensures r != current ==> r == GetDesc(text) && r != ""
  {
    var d := GetDesc(text);
    if d != "" then d else current
  }

  /** Setting from a rendered attribute installs exactly that description. */
  lemma SetDescRendered(current: string, d: string, rest: string)
    requires '"' !in d && d != ""
    ensures SetDesc(current, "Description := \"" + d + "\"" + rest) == d
  {
    GetDescRendered(d, rest);
  }

  // ---------------------------------------------------------------- DefaultData removal

  /** The three rewrites strip_attrs applies in turn:
      `,\s*DefaultData\s*:=\s*VALUE\s*(?=,|\))`, `DefaultData\s*:=\s*VALUE\s*,\s*` and
      `(?:,\s*)?DefaultData\s*:=\s*VALUE\s*(?=\))`, all IGNORECASE, where VALUE is
      `\([^\)]*\)|"[^"]*"|[^,)]*`. A match is described by the text left after it. */
  datatype Rewrite = LeadComma | TrailComma | AtEnd

  /** What a rewrite demands after VALUE: a look-ahead for ',' or ')', the text `\s*,\s*`,
      or a look-ahead for ')'. */
  datatype Tail = AheadCommaOrClose | CommaBlanks | AheadClose

  /** The text after `\s*` and the tail, when x (the text after VALUE) starts with them. */
  function TailRest(x: string, k: Tail): (r: Option<string>)
    ensures r.Some? ==> |r.value| <= |x|
  {
    var y := LStrip(x);
    match k
    case AheadCommaOrClose => if y != [] && (y[0] == ',' || y[0] == ')') then Some(y) else None
    case CommaBlanks => if y != [] && y[0] == ',' then Some(LStrip(y[1..])) else None
    case AheadClose => if y != [] && y[0] == ')' then Some(y) else None
  }

  /** The length of a group `(...)` or a quoted `"..."` at the start of v, if it closes. */
  function Closed(v: string, open: char, close: char): (r: Option<nat>)
    ensures r.Some? ==> 2 <= r.value <= |v|
  {
    if v == [] || v[0] != open then None
    else
      var e := FindChar(v, close, 1);
      if e == |v| then None else Some(e + 1)
  }

  /** VALUE taken as the first n characters of v (when there is such a choice), then the tail. */
  function AfterValue(v: string, n: Option<nat>, k: Tail): (r: Option<string>)
    requires n.Some? ==> n.value <= |v|
    ensures r.Some? ==> |r.value| <= |v|
  {
    if n.None? then None else TailRest(v[n.value..], k)
  }

  /** `VALUE\s*<tail>` at the start of v, the alternatives tried in the regex's order. A failed
      tail after the greedy VALUE never succeeds on a shorter one: the tails need ',' or ')',
      which the shorter choices would leave behind blanks or plain characters. */
  function ValueRest(v: string, k: Tail): (r: Option<string>)
    ensures r.Some? ==> |r.value| <= |v|
  {
    var a := AfterValue(v, Closed(v, '(', ')'), k);
    if a.Some? then a
    else
      var b := AfterValue(v, Closed(v, '"', '"'), k);
      if b.Some? then b else AfterValue(v, Some(Span(v, Plain)), k)
  }

  /** `\s*:=\s*VALUE\s*<tail>` at the start of x. */
  function AssignRest(x: string, k: Tail): (r: Option<string>)
    ensures r.Some? ==> |r.value| < |x|
  {
    var u := LStrip(x);
    if !StartsWith(u, ":=") then None else ValueRest(LStrip(u[2..]), k)
  }

  /** `DefaultData\s*:=\s*VALUE\s*<tail>` at the start of t (IGNORECASE). */
  function CoreRest(t: string, k: Tail): (r: Option<string>)
    ensures r.Some? ==> |r.value| < |t|
  {
    if !StartsWithFold(t, "DefaultData") then None else AssignRest(t[11..], k)
  }

  /** The text after the rewrite's match at the start of t, if it matches there. The optional
      `(?:,\s*)?` of the last rewrite is tried first; without it the match would have to start
      with 'D' where t holds ','. */
  function MatchRest(t: string, p: Rewrite): (r: Option<string>)
    ensures r.Some? ==> |r.value| < |t|
  {
    match p
    case LeadComma => if t != [] && t[0] == ',' then CoreRest(LStrip(t[1..]), AheadCommaOrClose) else None
    case TrailComma => CoreRest(t, CommaBlanks)
    case AtEnd =>
      if t != [] && t[0] == ',' then CoreRest(LStrip(t[1..]), AheadClose) else CoreRest(t, AheadClose)
  }

  /** re.sub(pattern, '', t): scan left to right, drop every match, keep every other character. */
  function Sub(t: string, p: Rewrite): (r: string)
    ensures |r| <= |t|
    decreases |t|
  {
    if t == [] then []
    else
      match MatchRest(t, p)
      case Some(rest) => Sub(rest, p)
      case None => [t[0]] + Sub(t[1..], p)
  }

  /** One round of strip_attrs: the three rewrites in order. */
  function Round(s: string): (r: string)
    ensures |r| <= |s|
  {
    Sub(Sub(Sub(s, LeadComma), TrailComma), AtEnd)
  }

  /** strip_attrs: nothing to do without the exact text "DefaultData"; otherwise up to two rounds,
      stopping early when a round changes nothing. The `names` argument plays no part. */
  function StripAttrs(definition: string): (r: string)
    ensures definition == "" || !Contains(definition, "DefaultData") ==> r == definition
    ensures definition != "" && Contains(definition, "DefaultData") ==> r == Round(Round(definition))
    ensures |r| <= |definition|
  {
    if definition == "" || !Contains(definition, "DefaultData") then definition
    else
      var s1 := Round(definition);
      if s1 == definition then definition else Round(s1)
  }

  /** The loop of strip_attrs. */
  method ComputeStripAttrs(definition: string) returns (s: string)
    ensures s == StripAttrs(definition)
  {
    if definition == "" || !Contains(definition, "DefaultData") {
      return definition;
    }
    s := definition;
    var round := 0;
    while round < 2
      invariant 0 <= round <= 2
      invariant round == 0 ==> s == definition
      invariant round == 1 ==> s == Round(definition) && s != definition
      invariant round == 2 ==> s == StripAttrs(definition)
    {
      var s2 := Sub(s, LeadComma);
      s2 := Sub(s2, TrailComma);
      s2 := Sub(s2, AtEnd);
      if s2 == s {
        break;
      }
      s := s2;
      round := round + 1;
    }
  }

  /** No match of the rewrite starts among the first n positions of t. */
  predicate NoMatchBefore(t: string, n: nat, p: Rewrite)
    requires n <= |t|
  {
    forall k :: 0 <= k < n ==> MatchRest(t[k..], p).None?
  }

  lemma SubKeepsOne(t: string, p: Rewrite)
    requires t != [] && MatchRest(t, p).None?
    ensures Sub(t, p) == [t[0]] + Sub(t[1..], p)
  {
  }

  lemma NoMatchShift(t: string, n: nat, p: Rewrite)
    requires 0 < n <= |t| && NoMatchBefore(t, n, p)
    ensures MatchRest(t, p).None? && NoMatchBefore(t[1..], n - 1, p)
  {
    assert t[0..] == t;
    assert forall k :: 0 <= k < n - 1 ==> t[1..][k..] == t[k + 1..];
  }

  lemma ConsRegroup(t: string, n: nat, z: string)
    requires 0 < n <= |t|
    ensures [t[0]] + (t[1..][..n - 1] + z) == t[..n] + z && t[1..][n - 1..] == t[n..]
  {
    assert t[..n] == [t[0]] + t[1..][..n - 1];
  }

  /** Characters where no match starts are kept; the scan then goes on after them. */
  lemma {:induction false} SubKeeps(t: string, n: nat, p: Rewrite)
    requires n <= |t| && NoMatchBefore(t, n, p)
    ensures Sub(t, p) == t[..n] + Sub(t[n..], p)
    decreases n
  {
    if n == 0 {
      assert t[..0] + Sub(t[0..], p) == Sub(t, p) by { assert t[0..] == t; }
    } else {
      NoMatchShift(t, n, p);
      SubKeepsOne(t, p);
      SubKeeps(t[1..], n - 1, p);
      ConsRegroup(t, n, Sub(t[n..], p));
    }
  }

  /** A match is dropped whole and the scan resumes right after it. */
  lemma SubDrops(t: string, rest: string, p: Rewrite)
    requires MatchRest(t, p) == Some(rest)
    ensures Sub(t, p) == Sub(rest, p)
  {
  }

  /** Where no rewrite matches at any position, strip_attrs returns its input. */
  lemma StripAttrsNoMatch(d: string)
    requires forall k, p: Rewrite :: 0 <= k < |d| ==> MatchRest(d[k..], p).None?
    ensures StripAttrs(d) == d
  {
    forall p: Rewrite ensures Sub(d, p) == d {
      SubKeeps(d, |d|, p);
    }
  }

  // ---------------------------------------------------------------- what the rewrites match

  /** A VALUE taken by the third alternative `[^,)]*`: no ',' or ')', and not starting with a
      blank, '(' or '"' (which the greedy `\s*` or the first two alternatives would take). */
  predicate PlainValue(v: string)
  {
    All(v, Plain) && (v == [] || (!IsSpace(v[0]) && v[0] != '(' && v[0] != '"'))
  }

  /** Eleven characters spelling DefaultData in any case. */
  predicate Keyword(dd: string) { |dd| == 11 && StartsWithFold(dd, "DefaultData") }

  lemma KeywordStarts(dd: string, x: string)
    requires Keyword(dd)
    ensures StartsWithFold(dd + x, "DefaultData") && (dd + x)[11..] == x
    ensures !IsSpace((dd + x)[0]) && (dd + x)[0] != ','
  {
    assert Lower(dd[0]) == 'd';
  }

  lemma TailCommaBlanks(w3: string, rest: string)
    requires All(w3, Space) && Stops(rest, Space)
    ensures TailRest("," + (w3 + rest), CommaBlanks) == Some(rest)
  {
    var y := "," + (w3 + rest);
    assert y[1..] == w3 + rest;
    SkipBlanks(w3, rest);
  }

  lemma TailAhead(y: string, k: Tail)
    requires k != CommaBlanks && y != [] && (y[0] == ')' || (y[0] == ',' && k == AheadCommaOrClose))
    ensures TailRest(y, k) == Some(y)
  {
    assert [] + y == y;
    SkipBlanks([], y);
  }

  /** A plain VALUE is taken whole by the third alternative, and the tail is tried after it. */
  lemma ValuePlain(v: string, y: string, k: Tail)
    requires PlainValue(v) && y != [] && (y[0] == ',' || y[0] == ')')
    ensures ValueRest(v + y, k) == TailRest(y, k)
  {
    if v == [] {
      assert v + y == y;
    } else {
      Head(v, y);
    }
    SpanOf(v, y, Plain);
    assert (v + y)[|v|..] == y;
  }

  lemma KeywordAccepts(dd: string, x: string, k: Tail)
    requires Keyword(dd)
    ensures CoreRest(dd + x, k) == AssignRest(x, k)
  {
    KeywordStarts(dd, x);
  }

  /** `<blanks> := <blanks>` in front of x: the match continues with VALUE at x. */
  lemma AssignAccepts(w1: string, w2: string, x: string, k: Tail)
    requires All(w1, Space) && All(w2, Space) && (x == [] || !IsSpace(x[0]))
    ensures AssignRest(w1 + (":=" + (w2 + x)), k) == ValueRest(x, k)
  {
    SkipBlanks(w1, ":=" + (w2 + x));
    KeywordSplit(":=", w2 + x);
    SkipBlanks(w2, x);
  }

  /** `DefaultData <blanks> := <blanks>` in front of x: the match continues with VALUE at x. */
  lemma CoreAccepts(t: string, dd: string, w1: string, w2: string, x: string, k: Tail)
    requires Keyword(dd) && All(w1, Space) && All(w2, Space) && (x == [] || !IsSpace(x[0]))
    requires t == dd + (w1 + (":=" + (w2 + x)))
    ensures CoreRest(t, k) == ValueRest(x, k)
  {
    KeywordAccepts(dd, w1 + (":=" + (w2 + x)), k);
    AssignAccepts(w1, w2, x, k);
  }

  /** The text of a plain VALUE and what follows it starts with a non-blank. */
  lemma PlainStart(v: string, y: string)
    requires PlainValue(v) && y != [] && (y[0] == ',' || y[0] == ')')
    ensures !IsSpace((v + y)[0])
  {
    if v == [] { assert v + y == y; } else { Head(v, y); }
  }

  /** `DefaultData := v, ` with a plain v is removed by the second rewrite up to the next
      non-blank character. */
  lemma TrailCommaAccepts(t: string, dd: string, w1: string, w2: string, v: string, w3: string,
                          rest: string)
    requires Keyword(dd) && All(w1, Space) && All(w2, Space) && All(w3, Space) && Stops(rest, Space)
    requires PlainValue(v)
    requires t == dd + (w1 + (":=" + (w2 + (v + ("," + (w3 + rest))))))
    ensures MatchRest(t, TrailComma) == Some(rest)
  {
    var y := "," + (w3 + rest);
    PlainStart(v, y);
    CoreAccepts(t, dd, w1, w2, v + y, CommaBlanks);
    ValuePlain(v, y, CommaBlanks);
    TailCommaBlanks(w3, rest);
  }

  /** `DefaultData := v` with a plain v right before ')' is removed by the third rewrite,
      which leaves the ')' in place. */
  lemma AtEndAccepts(t: string, dd: string, w1: string, w2: string, v: string, rest: string)
    requires Keyword(dd) && All(w1, Space) && All(w2, Space) && PlainValue(v)
    requires t == dd + (w1 + (":=" + (w2 + (v + (")" + rest)))))
    ensures MatchRest(t, AtEnd) == Some(")" + rest)
  {
    var y := ")" + rest;
    KeywordStarts(dd, w1 + (":=" + (w2 + (v + y))));
    PlainStart(v, y);
    CoreAccepts(t, dd, w1, w2, v + y, AheadClose);
    ValuePlain(v, y, AheadClose);
    TailAhead(y, AheadClose);
  }

  /** `, DefaultData := v` with a plain v before ',' or ')' is removed by the first rewrite,
      which leaves that delimiter in place. */
  lemma LeadCommaAccepts(t: string, w0: string, dd: string, w1: string, w2: string, v: string,
                         y: string)
    requires All(w0, Space) && Keyword(dd) && All(w1, Space) && All(w2, Space) && PlainValue(v)
    requires y != [] && (y[0] == ',' || y[0] == ')')
    requires t == "," + (w0 + (dd + (w1 + (":=" + (w2 + (v + y))))))
    ensures MatchRest(t, LeadComma) == Some(y)
  {
    var u := dd + (w1 + (":=" + (w2 + (v + y))));
    KeywordStarts(dd, w1 + (":=" + (w2 + (v + y))));
    assert t[1..] == w0 + u;
    SkipBlanks(w0, u);
    PlainStart(v, y);
    CoreAccepts(u, dd, w1, w2, v + y, AheadCommaOrClose);
    ValuePlain(v, y, AheadCommaOrClose);
    TailAhead(y, AheadCommaOrClose);
  }

  /** The character a look-ahead tail demands. */
  predicate Ahead(r: string, k: Tail) { r != [] && (r[0] == ')' || (k == AheadCommaOrClose && r[0] == ',')) }

  lemma ValueRestAhead(v: string, k: Tail)
    requires ValueRest(v, k).Some? && k != CommaBlanks
    ensures Ahead(ValueRest(v, k).value, k)
  {
  }

  /** The first and third rewrites stop in front of the ',' or ')' their look-ahead saw, so
      they never remove the parenthesis that closes the attribute list. */
  lemma MatchRestAhead(t: string, p: Rewrite)
    requires MatchRest(t, p).Some? && p != TrailComma
    ensures var r := MatchRest(t, p).value;
      r != [] && (r[0] == ')' || (p == LeadComma && r[0] == ','))
  {
    var k := if p == LeadComma then AheadCommaOrClose else AheadClose;
    var u := if t != [] && t[0] == ',' then LStrip(t[1..]) else t;
    assert MatchRest(t, p) == CoreRest(u, k);
    ValueRestAhead(LStrip(LStrip(u[11..])[2..]), k);
  }
}
