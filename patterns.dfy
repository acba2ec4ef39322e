/** Hand-written recognisers for the regular expressions of L5KTuner/patterns.py.
    Each returns the captured groups exactly when Python's `re.match` (anchored
    at the start) or `re.search` would succeed, following the regex engine's
    greedy, backtracking preference order where that order decides the groups.
    The recognisers consume the subject string suffix by suffix. */
module Patterns {
  import opened Text
  import opened OrderedMaps

  // ---------------------------------------------------------------- character classes

  /** The classes the patterns use: \s, \w, [\w.], [\w.\[\]:], \d, [^\s(], [^,)] and [\w.:]. */
  datatype CharClass = Space | Word | Name | Alias | Digit | Bare | Plain | Path

  predicate In(c: char, k: CharClass)
  {
    match k
    case Space => IsSpace(c)
    case Word => IsWordChar(c)
    case Name => IsWordChar(c) || c == '.'
    case Alias => IsWordChar(c) || c == '.' || c == '[' || c == ']' || c == ':'
    case Digit => IsDigit(c)
    case Bare => !IsSpace(c) && c != '('
    case Plain => c != ',' && c != ')'
    case Path => IsWordChar(c) || c == '.' || c == ':'
  }

  predicate All(s: string, k: CharClass) { forall i :: 0 <= i < |s| ==> In(s[i], k) }

  /** Length of the longest prefix of s inside the class (a greedy `k*`). */
  function Span(s: string, k: CharClass): (n: nat)
    ensures n <= |s|
    ensures All(s[..n], k)
    ensures n == |s| || !In(s[n], k)
  {
    if s != [] && In(s[0], k) then
      var n := 1 + Span(s[1..], k);
      assert forall i :: 1 <= i < n ==> s[..n][i] == s[1..][..n - 1][i - 1];
      n
    else 0
  }

  /** The longest prefix of s inside the class. */
  function Run(s: string, k: CharClass): (r: string)
    ensures All(r, k) && StartsWith(s, r)
    ensures |r| == |s| || !In(s[|r|], k)
  {
    s[..Span(s, k)]
  }

  /** A greedy run stops exactly where its class ends. */
  lemma {:induction false} SpanOf(a: string, b: string, k: CharClass)
    requires All(a, k)
    requires b == [] || !In(b[0], k)
    ensures Span(a + b, k) == |a|
    ensures Run(a + b, k) == a
  {
    if a != [] {
      assert (a + b)[1..] == a[1..] + b;
      SpanOf(a[1..], b, k);
    }
  }

  /** Skipping a blank run. */
  lemma {:induction false} LStripOver(w: string, x: string)
    requires All(w, Space)
    ensures LStrip(w + x) == LStrip(x)
  {
    if w != [] {
      assert (w + x)[1..] == w[1..] + x;
      LStripOver(w[1..], x);
    } else {
      assert w + x == x;
    }
  }

  /** Blanks followed by a non-blank: LStrip lands exactly on the non-blank part. */
  lemma SkipBlanks(w: string, x: string)
    requires All(w, Space)
    requires x == [] || !IsSpace(x[0])
    ensures LStrip(w + x) == x
  {
    LStripOver(w, x);
  }

  /** LStrip splits a string into a blank run and the rest. */
  lemma LStripSplit(s: string)
    ensures All(s[..|s| - |LStrip(s)|], Space)
    ensures s == s[..|s| - |LStrip(s)|] + LStrip(s)
  {
    var r := LStrip(s);
    var w := s[..|s| - |r|];
    assert forall i :: 0 <= i < |w| ==> w[i] == s[i];
    assert s == w + r;
  }

  /** `[A-Za-z_]\w*` */
  predicate IsIdent(s: string) { |s| > 0 && IsIdentStart(s[0]) && All(s, Word) }

  /** `[A-Za-z_][\w.]*` */
  predicate IsDottedName(s: string) { |s| > 0 && IsIdentStart(s[0]) && All(s, Name) }

  /** The value of a run of decimal digits (Python's int()). */
  function DecimalValue(s: string): nat
    requires All(s, Digit)
  {
    if s == [] then 0 else DecimalValue(s[..|s| - 1]) * 10 + (s[|s| - 1] as int - '0' as int)
  }

  // ------------------------------------------------- RE_CONTROLLER_HDR

  /** `^CONTROLLER\s+([A-Za-z_]\w*)\s*(\(|$)`: the controller name. */
  function ControllerHeader(s: string): Option<string>
  {
    if !StartsWith(s, "CONTROLLER") then None else ControllerAfterKeyword(s[10..])
  }

  function ControllerAfterKeyword(t: string): Option<string>
  {
    var u := LStrip(t);
    if |u| == |t| || u == [] || !IsIdentStart(u[0]) then None else ControllerName(u)
  }

  function ControllerName(u: string): Option<string>
  {
    var n := Run(u, Word);
    var v := LStrip(u[|n|..]);
    if v == [] || v[0] == '(' then Some(n) else None
  }

  // ------------------------------------------------- RE_UDT_TYPEFIRST

  /** Length of the greedy `(?:,\d+)*` at the start of t. */
  function DimsTail(t: string): (n: nat)
    ensures n <= |t|
  {
    if t != [] && t[0] == ',' && Span(t[1..], Digit) > 0 then
      var d := Span(t[1..], Digit);
      1 + d + DimsTail(t[1 + d..])
    else 0
  }

  /** Length of `\[\d+(?:,\d+)*\]` at the start of t, or 0 when the group does not match. */
  function DimsLength(t: string): (n: nat)
    ensures n <= |t|
    ensures n > 0 ==> n >= 3 && t[0] == '[' && t[n - 1] == ']'
  {
    if t != [] && t[0] == '[' && Span(t[1..], Digit) > 0 then
      var d := Span(t[1..], Digit);
      var j := 1 + d + DimsTail(t[1 + d..]);
      if j < |t| && t[j] == ']' then j + 1 else 0
    else 0
  }

  predicate DigitRuns(ds: seq<string>)
  {
    forall i :: 0 <= i < |ds| ==> |ds[i]| > 0 && All(ds[i], Digit)
  }

  /** `,d2,d3,...` for the dimensions after the first. */
  function Commas(ds: seq<string>): string
  {
    if ds == [] then "" else "," + ds[0] + Commas(ds[1..])
  }

  /** The declarator text `[d1,d2,...]`. */
  function DimsText(first: string, more: seq<string>): string
  {
    "[" + first + Commas(more) + "]"
  }

  datatype TypeFirst = TypeFirst(dtype: string, name: string, nameDims: string)

  /** `^(?P<dtype>[A-Za-z_]\w*) (?P<name>[A-Za-z_]\w*)(?P<name_dims>\[\d+(?:,\d+)*\])?` */
  function UdtTypeFirst(s: string): Option<TypeFirst>
  {
    if s == [] || !IsIdentStart(s[0]) then None
    else
      var dt := Run(s, Word);
      TypeFirstAfterType(dt, s[|dt|..])
  }

  function TypeFirstAfterType(dt: string, r: string): Option<TypeFirst>
  {
    if |r| < 2 || r[0] != ' ' || !IsIdentStart(r[1]) then None else TypeFirstName(dt, r[1..])
  }

  function TypeFirstName(dt: string, q: string): Option<TypeFirst>
  {
    var nm := Run(q, Word);
    var r2 := q[|nm|..];
    Some(TypeFirst(dt, nm, r2[..DimsLength(r2)]))
  }

  // ------------------------------------------------- RE_UDT_BIT_ALIAS

  datatype BitAliasMatch = BitAliasMatch(alias: string, word: string, bit: nat)

  /** `^BIT\s+(?P<alias>\w+)\s+(?P<word>\w+)\s*:\s*(?P<bit>\d+)\b` */
  function UdtBitAlias(s: string): Option<BitAliasMatch>
  {
    if !StartsWith(s, "BIT") then None else BitAfterKeyword(s[3..])
  }

  function BitAfterKeyword(t: string): Option<BitAliasMatch>
  {
    var u := LStrip(t);
    var a := Run(u, Word);
    if |u| == |t| || a == [] then None else BitAfterAlias(a, u[|a|..])
  }

  function BitAfterAlias(a: string, t: string): Option<BitAliasMatch>
  {
    var u := LStrip(t);
    var w := Run(u, Word);
    if |u| == |t| || w == [] then None else BitAfterWord(a, w, u[|w|..])
  }

  function BitAfterWord(a: string, w: string, y: string): Option<BitAliasMatch>
  {
    var t := LStrip(y);
    if t == [] || t[0] != ':' then None else BitNumber(a, w, LStrip(t[1..]))
  }

  function BitNumber(a: string, w: string, u: string): Option<BitAliasMatch>
  {
    var d := Run(u, Digit);
    if d == [] || (|d| < |u| && IsWordChar(u[|d|])) then None
    else Some(BitAliasMatch(a, w, DecimalValue(d)))
  }

  // ------------------------------------------------- RE_FAMILYTYPE

  /** `\bFamilyType\s*:=\s*([A-Za-z_]\w*)` matched at position i (IGNORECASE). */
  function FamilyTypeAt(s: string, i: nat): Option<string>
    requires i <= |s|
  {
    if (i > 0 && IsWordChar(s[i - 1])) || !StartsWithFold(s[i..], "FamilyType") then None
    else FamilyTypeValue(s[i + 10..])
  }

  /** `\s*:=\s*([A-Za-z_]\w*)` */
  function FamilyTypeValue(t: string): Option<string>
  {
    var u := LStrip(t);
    if !StartsWith(u, ":=") then None
    else
      var v := LStrip(u[2..]);
      if v == [] || !IsIdentStart(v[0]) then None else Some(Run(v, Word))
  }

  /** The first position at or after i where the pattern matches, or -1. */
  function FamilyTypeIndex(s: string, i: nat): (j: int)
    requires i <= |s|
    ensures j == -1 || i <= j <= |s|
    ensures j >= 0 ==> FamilyTypeAt(s, j).Some?
    ensures j >= 0 ==> forall k :: i <= k < j ==> FamilyTypeAt(s, k).None?
    ensures j == -1 ==> forall k :: i <= k <= |s| ==> FamilyTypeAt(s, k).None?
    decreases |s| - i
  {
    if FamilyTypeAt(s, i).Some? then i
    else if i == |s| then -1
    else FamilyTypeIndex(s, i + 1)
  }

  /** re.search: the match at the first position where the pattern matches. */
  function FamilyType(s: string): Option<string>
  {
    var j := FamilyTypeIndex(s, 0);
    if j < 0 then None else FamilyTypeAt(s, j)
  }

  // ------------------------------------------------- RE_AOI_PARAM / RE_AOI_LOCALTAG

  datatype NamePath = NamePath(name: string, path: string)

  /** `^([\w]+)\s+(?:OF|:)\s+([\w\.]+)`: parameter name and declared type or alias path. */
  function AoiParam(s: string): Option<NamePath>
  {
    var n := Run(s, Word);
    if n == [] then None else AoiParamAfterName(n, s[|n|..])
  }

  function AoiParamAfterName(n: string, t: string): Option<NamePath>
  {
    var u := LStrip(t);
    var sep := if StartsWith(u, "OF") then 2 else if StartsWith(u, ":") then 1 else 0;
    if |u| == |t| || sep == 0 then None else AoiParamPath(n, u[sep..])
  }

  function AoiParamPath(n: string, v: string): Option<NamePath>
  {
    var x := LStrip(v);
    var p := Run(x, Name);
    if |x| == |v| || p == [] then None else Some(NamePath(n, p))
  }

  /** `^([\w]+)\s*:\s*([\w]+)`: local tag name and type. */
  function AoiLocalTag(s: string): Option<NamePath>
  {
    var n := Run(s, Word);
    if n == [] then None else AoiLocalAfterName(n, LStrip(s[|n|..]))
  }

  function AoiLocalAfterName(n: string, u: string): Option<NamePath>
  {
    if u == [] || u[0] != ':' then None else AoiLocalType(n, LStrip(u[1..]))
  }

  function AoiLocalType(n: string, x: string): Option<NamePath>
  {
    var d := Run(x, Word);
    if d == [] then None else Some(NamePath(n, d))
  }

  // ------------------------------------------------- RE_TAG_PREFIX

  datatype TagPrefixMatch = TagPrefixMatch(name: string, dtype: string)

  /** `\s*:\s*(.+?)\s*$` at the start of p: the lazy type group, when the tail matches. */
  function TypeTail(p: string): Option<string>
  {
    var q := LStrip(p);
    if q == [] || q[0] != ':' then None
    else
      var r0 := q[1..];
      var r := LStrip(r0);
      if r != [] then Some(RStrip(r))
      else if r0 != [] then Some(r0[|r0| - 1..])
      else None
  }

  /** `(?i:OF)\s+([A-Za-z_][\w\.\[\]:]*)` then the tail, alias lengths tried longest first. */
  function OfAliasTail(p: string): Option<string>
  {
    if !StartsWithFold(p, "OF") then None else AfterOf(p[2..])
  }

  /** `\s+([A-Za-z_][\w\.\[\]:]*)` then the tail, on the text after OF. */
  function AfterOf(q: string): Option<string>
  {
    var a := LStrip(q);
    if |a| == |q| || a == [] || !IsIdentStart(a[0]) then None
    else AliasSearch(a, 1 + Span(a[1..], Alias))
  }

  function AliasSearch(a: string, e: nat): Option<string>
    requires 0 < e <= |a|
  {
    var t := TypeTail(a[e..]);
    if t.Some? then t else if e == 1 then None else AliasSearch(a, e - 1)
  }

  /** The tail after a name candidate: the optional OF group first, then without it. */
  function AfterName(p: string): Option<string>
  {
    var withOf := OfAliasTail(p);
    if withOf.Some? then withOf else TypeTail(p)
  }

  /** Name lengths tried longest first. */
  function NameSearch(u: string, e: nat): (r: Option<TagPrefixMatch>)
    requires 0 < e <= |u|
    ensures r.Some? ==> exists k | 0 < k <= e :: r.value.name == u[..k]
  {
    var t := AfterName(LStrip(u[e..]));
    if t.Some? then Some(TagPrefixMatch(u[..e], t.value))
    else if e == 1 then None
    else NameSearch(u, e - 1)
  }

  /** `^\s*([A-Za-z_][\w\.]*)\s*(?:(?i:OF)\s+([A-Za-z_][\w\.\[\]:]*))?\s*:\s*(.+?)\s*$` (DOTALL):
      groups 1 (the tag name) and 3 (the data type, before stripping). */
  function TagPrefix(s: string): Option<TagPrefixMatch>
  {
    TagPrefixStripped(LStrip(s))
  }

  /** The pattern after its leading `\s*`. */
  function TagPrefixStripped(u: string): Option<TagPrefixMatch>
  {
    if u == [] || !IsIdentStart(u[0]) then None
    else NameSearch(u, 1 + Span(u[1..], Name))
  }

  // ------------------------------------------------- the ENCODED_DATA Name attribute

  /** `Name\s*:=\s*"([^"]+)"` matched at position i. */
  function EncodedNameAt(s: string, i: nat): Option<string>
    requires i <= |s|
  {
    if !StartsWith(s[i..], "Name") then None else EncodedNameValue(s[i + 4..])
  }

  /** `\s*:=\s*"([^"]+)"`. */
  function EncodedNameValue(t: string): Option<string>
  {
    var u := LStrip(t);
    if !StartsWith(u, ":=") then None else QuotedName(LStrip(u[2..]))
  }

  /** `"([^"]+)"`: the text up to the next '"', when it is not empty and is closed. */
  function QuotedName(v: string): (r: Option<string>)
    ensures r.Some? ==> r.value != "" && '"' !in r.value
  {
    if v == [] || v[0] != '"' then None
    else
      var e := FindChar(v, '"', 1);
      if e == |v| || e == 1 then None else Some(v[1..e])
  }

  /** The first position at or after i where the pattern matches, or -1. */
  function EncodedNameIndex(s: string, i: nat): (j: int)
    requires i <= |s|
    ensures j == -1 || i <= j <= |s|
    ensures j >= 0 ==> EncodedNameAt(s, j).Some?
    ensures j >= 0 ==> forall k :: i <= k < j ==> EncodedNameAt(s, k).None?
    ensures j == -1 ==> forall k :: i <= k <= |s| ==> EncodedNameAt(s, k).None?
    decreases |s| - i
  {
    if EncodedNameAt(s, i).Some? then i
    else if i == |s| then -1
    else EncodedNameIndex(s, i + 1)
  }

  /** re.search: group 1 of the leftmost match. */
  function EncodedName(s: string): Option<string>
  {
    var j := EncodedNameIndex(s, 0);
    if j < 0 then None else EncodedNameAt(s, j)
  }
}
