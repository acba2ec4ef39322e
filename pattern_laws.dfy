/** What the recognisers of module Patterns accept and what their groups hold.
    Each recogniser is proved stage by stage: one small lemma per stage
    function, and a combining lemma that chains them. */
module PatternLaws {
  import opened Text
  import opened OrderedMaps
  import opened Patterns

  // ---------------------------------------------------------------- concatenation shapes

  lemma Assoc3(a: string, b: string, c: string)
    ensures a + b + c == a + (b + c)
  {
  }

  lemma Assoc4(a: string, b: string, c: string, d: string)
    ensures a + b + c + d == a + (b + (c + d))
  {
  }

  lemma Assoc5(a: string, b: string, c: string, d: string, e: string)
    ensures a + b + c + d + e == a + (b + (c + (d + e)))
  {
  }

  lemma Assoc6(a: string, b: string, c: string, d: string, e: string, f: string)
    ensures a + b + c + d + e + f == a + (b + (c + (d + (e + f))))
  {
  }

  lemma Assoc10(a: string, b: string, c: string, d: string, e: string, f: string, g: string, h: string,
                 i: string, j: string)
    ensures a + b + c + d + e + f + g + h + i + j == a + (b + (c + (d + (e + (f + (g + (h + (i + j))))))))
  {
  }

  /** Substituting a split of the right operand. */
  lemma Regroup(t: string, w: string, u: string, x: string, y: string)
    requires t == w + u && u == x + y
    ensures t == w + (x + y)
  {
  }

  lemma RunSplit(s: string, k: CharClass)
    ensures s == Run(s, k) + s[|Run(s, k)|..]
  {
  }

  /** A greedy run and what follows it. */
  lemma RunParts(s: string, k: CharClass) returns (r: string, rest: string)
    ensures r == Run(s, k) && All(r, k) && s == r + rest && Stops(rest, k)
  {
    r := Run(s, k);
    rest := s[|r|..];
    assert s == r + rest;
  }

  lemma SplitAt(u: string, k: nat)
    requires k <= |u|
    ensures u == u[..k] + u[k..]
  {
  }

  lemma KeywordRest(s: string, kw: string)
    requires StartsWith(s, kw)
    ensures s == kw + s[|kw|..]
  {
    assert s == s[..|kw|] + s[|kw|..];
  }

  lemma CharRest(s: string, c: char)
    requires s != [] && s[0] == c
    ensures s == [c] + s[1..]
  {
  }

  lemma KeywordSplit(kw: string, t: string)
    ensures StartsWith(kw + t, kw) && (kw + t)[|kw|..] == t
  {
    assert (kw + t)[..|kw|] == kw;
  }

  /** The first character of a concatenation. */
  lemma Head(a: string, b: string)
    requires a != []
    ensures (a + b) != [] && (a + b)[0] == a[0]
  {
  }

  /** A word character is never blank. */
  lemma WordNotSpace(c: char)
    requires IsWordChar(c)
    ensures !IsSpace(c) && In(c, Word) && In(c, Name) && In(c, Alias)
  {
  }

  /** The end of the line or an opening parenthesis. */
  predicate EndOrParen(r: string) { r == [] || r[0] == '(' }

  /** The end of the string or a character outside the class: where a greedy run stops. */
  predicate Stops(r: string, k: CharClass) { r == [] || !In(r[0], k) }

  /** The blank run LStrip skips. */
  function Blanks(t: string): (w: string)
    ensures All(w, Space) && t == w + LStrip(t)
  {
    LStripSplit(t);
    t[..|t| - |LStrip(t)|]
  }

  // ------------------------------------------------- RE_CONTROLLER_HDR

  lemma ControllerNameAccepts(name: string, w2: string, rest: string)
    requires All(w2, Space) && IsIdent(name) && (rest == [] || rest[0] == '(')
    ensures ControllerName(name + (w2 + rest)) == Some(name)
  {
    var x := w2 + rest;
    assert x == [] || !In(x[0], Word) by {
      if w2 != [] { Head(w2, rest); } else { assert x == rest; }
    }
    assert LStrip(x) == rest by { SkipBlanks(w2, rest); }
    SpanOf(name, x, Word);
    assert (name + x)[|name|..] == x;
  }

  lemma ControllerAfterKeywordAccepts(w: string, x: string)
    requires |w| > 0 && All(w, Space) && x != [] && IsIdentStart(x[0])
    ensures ControllerAfterKeyword(w + x) == ControllerName(x)
  {
    SkipBlanks(w, x);
  }

  /** Every header `CONTROLLER <blanks> <name> [<blanks>] [( ...]` is recognised with its name. */
  lemma ControllerHeaderAccepts(w: string, name: string, w2: string, rest: string)
    requires |w| > 0 && All(w, Space) && All(w2, Space)
    requires IsIdent(name)
    requires rest == [] || rest[0] == '('
    ensures ControllerHeader("CONTROLLER" + w + name + w2 + rest) == Some(name)
  {
    var x := name + (w2 + rest);
    assert x[0] == name[0];
    Assoc5("CONTROLLER", w, name, w2, rest);
    KeywordSplit("CONTROLLER", w + x);
    ControllerNameAccepts(name, w2, rest);
    ControllerAfterKeywordAccepts(w, x);
  }

  lemma ControllerNameSound(u: string)
    requires u != [] && IsIdentStart(u[0])
    requires ControllerName(u).Some?
    ensures IsIdent(ControllerName(u).value)
    ensures var n := ControllerName(u).value; var x := u[|n|..];
      u == n + (Blanks(x) + LStrip(x)) && (LStrip(x) == [] || LStrip(x)[0] == '(')
  {
    var n := Run(u, Word);
    assert n != [] && n[0] == u[0];
    var x := u[|n|..];
    RunSplit(u, Word);
    Regroup(u, n, x, Blanks(x), LStrip(x));
  }

  lemma ControllerAfterKeywordSound(t: string)
    requires ControllerAfterKeyword(t).Some?
    ensures var u := LStrip(t);
      |Blanks(t)| > 0 && u != [] && IsIdentStart(u[0]) && ControllerAfterKeyword(t) == ControllerName(u)
  {
    assert t == Blanks(t) + LStrip(t);
  }

  /** `CONTROLLER <blanks> <name> [<blanks>]` followed by `(` or the end of the line. */
  ghost predicate ControllerShape(s: string, name: string)
  {
    IsIdent(name) &&
    exists w: string, w2: string, rest: string
      | |w| > 0 && All(w, Space) && All(w2, Space) && EndOrParen(rest) ::
      s == "CONTROLLER" + w + name + w2 + rest
  }

  lemma ControllerShapeIntro(s: string, w: string, name: string, w2: string, rest: string)
    requires IsIdent(name) && |w| > 0 && All(w, Space) && All(w2, Space) && (rest == [] || rest[0] == '(')
    requires s == "CONTROLLER" + (w + (name + (w2 + rest)))
    ensures ControllerShape(s, name)
  {
    Assoc5("CONTROLLER", w, name, w2, rest);
    assert EndOrParen(rest);
  }

  /** Conversely, a recognised header has exactly that form. */
  lemma ControllerHeaderSound(s: string)
    requires ControllerHeader(s).Some?
    ensures ControllerShape(s, ControllerHeader(s).value)
  {
    var t := s[10..];
    KeywordRest(s, "CONTROLLER");
    ControllerAfterKeywordSound(t);
    var u := LStrip(t);
    var w := Blanks(t);
    ControllerNameSound(u);
    var n := ControllerName(u).value;
    var x := u[|n|..];
    Regroup(t, w, u, n, Blanks(x) + LStrip(x));
    Regroup(s, "CONTROLLER", t, w, n + (Blanks(x) + LStrip(x)));
    ControllerShapeIntro(s, w, n, Blanks(x), LStrip(x));
  }

  /** The recogniser and the shape agree. */
  lemma ControllerHeaderIff(s: string, name: string)
    ensures ControllerHeader(s) == Some(name) <==> ControllerShape(s, name)
  {
    if ControllerHeader(s) == Some(name) {
      ControllerHeaderSound(s);
    }
    if ControllerShape(s, name) {
      var w: string, w2: string, rest: string :|
        |w| > 0 && All(w, Space) && All(w2, Space) && EndOrParen(rest) &&
        s == "CONTROLLER" + w + name + w2 + rest;
      ControllerHeaderAccepts(w, name, w2, rest);
    }
  }

  // ------------------------------------------------- RE_UDT_TYPEFIRST

  lemma DimsTailStep(d: string, u: string)
    requires |d| > 0 && All(d, Digit) && (u == [] || !IsDigit(u[0]))
    ensures DimsTail("," + (d + u)) == 1 + |d| + DimsTail(u)
  {
    var t := "," + (d + u);
    assert t[1..] == d + u;
    SpanOf(d, u, Digit);
    assert t[1 + |d|..] == u;
  }

  lemma {:induction false} DimsTailOf(ds: seq<string>, rest: string)
    requires DigitRuns(ds)
    requires rest == [] || (rest[0] != ',' && !IsDigit(rest[0]))
    ensures DimsTail(Commas(ds) + rest) == |Commas(ds)|
    decreases |ds|
  {
    if ds == [] {
      assert Commas(ds) + rest == rest;
    } else {
      var u := Commas(ds[1..]) + rest;
      assert u == [] || !IsDigit(u[0]) by {
        if ds[1..] != [] { assert Commas(ds[1..])[0] == ','; Head(Commas(ds[1..]), rest); } else { assert u == rest; }
      }
      assert Commas(ds) + rest == "," + (ds[0] + u) by { Assoc4(",", ds[0], Commas(ds[1..]), rest); }
      DimsTailStep(ds[0], u);
      DimsTailOf(ds[1..], rest);
    }
  }

  /** A complete declarator is captured whole, whatever follows it. */
  lemma DimsLengthOf(first: string, more: seq<string>, rest: string)
    requires |first| > 0 && All(first, Digit) && DigitRuns(more)
    ensures DimsLength(DimsText(first, more) + rest) == |DimsText(first, more)|
  {
    var c := Commas(more);
    var y := c + ("]" + rest);
    var t := "[" + (first + y);
    assert DimsText(first, more) + rest == t by { Assoc5("[", first, c, "]", rest); }
    assert y[0] == (if more == [] then ']' else ',') by {
      if more != [] { assert c[0] == ','; Head(c, "]" + rest); }
    }
    assert t[1..] == first + y;
    SpanOf(first, y, Digit);
    assert t[1 + |first|..] == y;
    DimsTailOf(more, "]" + rest);
    assert y[|c|] == ']';
  }

  lemma NoDims(t: string)
    requires t == [] || t[0] != '['
    ensures DimsLength(t) == 0
  {
  }

  /** `<type> <name><declarator><rest>`: the declarator is the longest one at that point
      (possibly empty) and the name is not followed by a word character. */
  ghost predicate TypeFirstShape(s: string, m: TypeFirst)
  {
    IsIdent(m.dtype) && IsIdent(m.name) &&
    exists rest: string | Stops(m.nameDims + rest, Word) && DimsLength(m.nameDims + rest) == |m.nameDims| ::
      s == m.dtype + " " + m.name + m.nameDims + rest
  }

  lemma TypeFirstNameAccepts(dt: string, name: string, x: string)
    requires All(name, Word) && Stops(x, Word)
    ensures TypeFirstName(dt, name + x) == Some(TypeFirst(dt, name, x[..DimsLength(x)]))
  {
    SpanOf(name, x, Word);
    KeywordSplit(name, x);
  }

  lemma UdtTypeFirstStages(dt: string, q: string)
    requires IsIdent(dt) && q != [] && IsIdentStart(q[0])
    ensures UdtTypeFirst(dt + (" " + q)) == TypeFirstName(dt, q)
  {
    var r := " " + q;
    SpanOf(dt, r, Word);
    KeywordSplit(dt, r);
    Head(dt, r);
    KeywordSplit(" ", q);
  }

  /** Every line of that shape is recognised with its three groups. */
  lemma UdtTypeFirstAccepts(dtype: string, name: string, dims: string, rest: string)
    requires IsIdent(dtype) && IsIdent(name)
    requires Stops(dims + rest, Word) && DimsLength(dims + rest) == |dims|
    ensures UdtTypeFirst(dtype + " " + name + dims + rest) == Some(TypeFirst(dtype, name, dims))
  {
    var x := dims + rest;
    Assoc5(dtype, " ", name, dims, rest);
    Head(name, x);
    TypeFirstNameAccepts(dtype, name, x);
    KeywordSplit(dims, rest);
    UdtTypeFirstStages(dtype, name + x);
  }

  lemma EmptyMiddle(a: string, b: string)
    ensures a + "" + b == a + b
  {
  }

  /** `<type> <name><rest>`, with no declarator, is recognised with both groups. */
  lemma UdtTypeFirstPlain(dtype: string, name: string, rest: string)
    requires IsIdent(dtype) && IsIdent(name)
    requires rest == [] || (!IsWordChar(rest[0]) && rest[0] != '[')
    ensures UdtTypeFirst(dtype + " " + name + rest) == Some(TypeFirst(dtype, name, ""))
  {
    NoDims(rest);
    assert "" + rest == rest;
    UdtTypeFirstAccepts(dtype, name, "", rest);
    EmptyMiddle(dtype + " " + name, rest);
  }

  /** `<type> <name>[d1,...]<rest>` is recognised with its declarator captured separately. */
  lemma UdtTypeFirstDims(dtype: string, name: string, first: string, more: seq<string>, rest: string)
    requires IsIdent(dtype) && IsIdent(name)
    requires |first| > 0 && All(first, Digit) && DigitRuns(more)
    ensures UdtTypeFirst(dtype + " " + name + DimsText(first, more) + rest)
         == Some(TypeFirst(dtype, name, DimsText(first, more)))
  {
    var d := DimsText(first, more);
    assert d[0] == '[';
    Head(d, rest);
    DimsLengthOf(first, more, rest);
    UdtTypeFirstAccepts(dtype, name, d, rest);
  }

  lemma TypeFirstNameSound(dt: string, q: string)
    requires q != [] && IsIdentStart(q[0])
    ensures var m := TypeFirstName(dt, q).value; var x := q[|m.name|..];
      m.dtype == dt && IsIdent(m.name) && Stops(x, Word) && DimsLength(x) == |m.nameDims| &&
      x == m.nameDims + x[|m.nameDims|..] && q == m.name + x
  {
    var nm := Run(q, Word);
    assert nm[0] == q[0];
    var x := q[|nm|..];
    RunSplit(q, Word);
    SplitAt(x, DimsLength(x));
  }

  lemma UdtTypeFirstStage(s: string)
    requires UdtTypeFirst(s).Some?
    ensures var dt := Run(s, Word); var r := s[|dt|..];
      IsIdent(dt) && |r| >= 2 && IsIdentStart(r[1]) && s == dt + (" " + r[1..]) &&
      UdtTypeFirst(s) == TypeFirstName(dt, r[1..])
  {
    var dt := Run(s, Word);
    var r := s[|dt|..];
    assert dt[0] == s[0];
    RunSplit(s, Word);
    KeywordRest(r, " ");
    Regroup(s, dt, r, " ", r[1..]);
  }

  lemma TypeFirstShapeIntro(s: string, m: TypeFirst, q: string, x: string, rest: string)
    requires IsIdent(m.dtype) && IsIdent(m.name)
    requires x == m.nameDims + rest && Stops(x, Word) && DimsLength(x) == |m.nameDims|
    requires q == m.name + x && s == m.dtype + (" " + q)
    ensures TypeFirstShape(s, m)
  {
    Assoc5(m.dtype, " ", m.name, m.nameDims, rest);
    assert Stops(m.nameDims + rest, Word) && DimsLength(m.nameDims + rest) == |m.nameDims|;
  }

  /** Conversely, a recognised member line has exactly that shape. */
  lemma UdtTypeFirstSound(s: string)
    requires UdtTypeFirst(s).Some?
    ensures TypeFirstShape(s, UdtTypeFirst(s).value)
  {
    UdtTypeFirstStage(s);
    var dt := Run(s, Word);
    var q := s[|dt|..][1..];
    TypeFirstNameSound(dt, q);
    var m := TypeFirstName(dt, q).value;
    var x := q[|m.name|..];
    TypeFirstShapeIntro(s, m, q, x, x[|m.nameDims|..]);
  }

  /** The recogniser and the shape agree. */
  lemma UdtTypeFirstIff(s: string, m: TypeFirst)
    ensures UdtTypeFirst(s) == Some(m) <==> TypeFirstShape(s, m)
  {
    if UdtTypeFirst(s) == Some(m) {
      UdtTypeFirstSound(s);
    }
    if TypeFirstShape(s, m) {
      var rest: string :| Stops(m.nameDims + rest, Word) && DimsLength(m.nameDims + rest) == |m.nameDims| &&
        s == m.dtype + " " + m.name + m.nameDims + rest;
      UdtTypeFirstAccepts(m.dtype, m.name, m.nameDims, rest);
    }
  }

  // ------------------------------------------------- RE_UDT_BIT_ALIAS

  lemma BitNumberAccepts(a: string, w: string, digits: string, rest: string)
    requires |digits| > 0 && All(digits, Digit) && Stops(rest, Word)
    ensures BitNumber(a, w, digits + rest) == Some(BitAliasMatch(a, w, DecimalValue(digits)))
  {
    SpanOf(digits, rest, Digit);
    KeywordSplit(digits, rest);
  }

  lemma BitAfterWordAccepts(a: string, w: string, w3: string, w4: string, x: string)
    requires All(w3, Space) && All(w4, Space) && x != [] && !IsSpace(x[0])
    ensures BitAfterWord(a, w, w3 + (":" + (w4 + x))) == BitNumber(a, w, x)
  {
    var y := ":" + (w4 + x);
    SkipBlanks(w3, y);
    KeywordSplit(":", w4 + x);
    SkipBlanks(w4, x);
  }

  lemma BitAfterAliasAccepts(a: string, w2: string, word: string, y: string)
    requires |w2| > 0 && All(w2, Space) && |word| > 0 && All(word, Word) && Stops(y, Word)
    ensures BitAfterAlias(a, w2 + (word + y)) == BitAfterWord(a, word, y)
  {
    var x := word + y;
    WordNotSpace(word[0]);
    Head(word, y);
    SkipBlanks(w2, x);
    SpanOf(word, y, Word);
    KeywordSplit(word, y);
  }

  lemma BitAfterKeywordAccepts(w1: string, alias: string, z: string)
    requires |w1| > 0 && All(w1, Space) && |alias| > 0 && All(alias, Word) && Stops(z, Word)
    ensures BitAfterKeyword(w1 + (alias + z)) == BitAfterAlias(alias, z)
  {
    var x := alias + z;
    WordNotSpace(alias[0]);
    Head(alias, z);
    SkipBlanks(w1, x);
    SpanOf(alias, z, Word);
    KeywordSplit(alias, z);
  }

  lemma UdtBitAliasDef(t: string)
    ensures UdtBitAlias("BIT" + t) == BitAfterKeyword(t)
  {
    KeywordSplit("BIT", t);
  }

  /** Blanks in front keep a word boundary. */
  lemma BlanksStop(w: string, y: string)
    requires All(w, Space) && Stops(y, Word)
    ensures Stops(w + y, Word)
  {
    if w != [] {
      Head(w, y);
    } else {
      assert w + y == y;
    }
  }

  /** The pieces of a bit-alias line, as the shape names them. */
  ghost predicate BitParts(s: string, w1: string, alias: string, w2: string, word: string, w3: string,
                           w4: string, d: string, rest: string)
  {
    |w1| > 0 && All(w1, Space) && |w2| > 0 && All(w2, Space) && All(w3, Space) && All(w4, Space) &&
    |alias| > 0 && All(alias, Word) && |word| > 0 && All(word, Word) &&
    |d| > 0 && All(d, Digit) && Stops(rest, Word) &&
    s == "BIT" + w1 + alias + w2 + word + w3 + ":" + w4 + d + rest
  }

  /** `BIT <blanks> <alias> <blanks> <word> [<blanks>] : [<blanks>] <digits>`, then a word boundary. */
  ghost predicate BitAliasShape(s: string, m: BitAliasMatch)
  {
    exists w1: string, w2: string, w3: string, w4: string, digits: string, rest: string ::
      BitParts(s, w1, m.alias, w2, m.word, w3, w4, digits, rest) && m.bit == DecimalValue(digits)
  }

  /** Blanks in front of anything form a word boundary. */
  lemma SpaceStops(w: string, y: string)
    requires |w| > 0 && All(w, Space)
    ensures Stops(w + y, Word)
  {
    Head(w, y);
  }

  /** So does a leading ':'. */
  lemma ColonStops(y: string)
    ensures Stops(":" + y, Word)
  {
  }

  lemma BitWordStep(alias: string, word: string, w3: string, w4: string, x: string, y: string, m: BitAliasMatch)
    requires All(w3, Space) && All(w4, Space) && x != [] && !IsSpace(x[0])
    requires y == w3 + (":" + (w4 + x)) && BitNumber(alias, word, x) == Some(m)
    ensures BitAfterWord(alias, word, y) == Some(m) && Stops(y, Word)
  {
    BitAfterWordAccepts(alias, word, w3, w4, x);
    ColonStops(w4 + x);
    BlanksStop(w3, ":" + (w4 + x));
  }

  lemma BitAliasStep(alias: string, w2: string, word: string, y: string, m: BitAliasMatch)
    requires |w2| > 0 && All(w2, Space) && |word| > 0 && All(word, Word) && Stops(y, Word)
    requires BitAfterWord(alias, word, y) == Some(m)
    ensures BitAfterAlias(alias, w2 + (word + y)) == Some(m)
  {
    BitAfterAliasAccepts(alias, w2, word, y);
  }

  lemma DigitNotSpace(digits: string, rest: string)
    requires |digits| > 0 && All(digits, Digit)
    ensures digits + rest != [] && !IsSpace((digits + rest)[0])
  {
    Head(digits, rest);
  }

  /** Every line of that shape is recognised with its alias, word and bit number. */
  lemma UdtBitAliasAccepts(s: string, w1: string, alias: string, w2: string, word: string, w3: string,
                           w4: string, digits: string, rest: string)
    requires |w1| > 0 && All(w1, Space) && |w2| > 0 && All(w2, Space) && All(w3, Space) && All(w4, Space)
    requires |alias| > 0 && All(alias, Word) && |word| > 0 && All(word, Word)
    requires |digits| > 0 && All(digits, Digit) && Stops(rest, Word)
    requires s == "BIT" + w1 + alias + w2 + word + w3 + ":" + w4 + digits + rest
    ensures UdtBitAlias(s) == Some(BitAliasMatch(alias, word, DecimalValue(digits)))
  {
    var m := BitAliasMatch(alias, word, DecimalValue(digits));
    var x := digits + rest;
    var y := w3 + (":" + (w4 + x));
    var z := w2 + (word + y);
    Assoc10("BIT", w1, alias, w2, word, w3, ":", w4, digits, rest);
    DigitNotSpace(digits, rest);
    BitNumberAccepts(alias, word, digits, rest);
    BitWordStep(alias, word, w3, w4, x, y, m);
    BitAliasStep(alias, w2, word, y, m);
    SpaceStops(w2, word + y);
    BitAfterKeywordAccepts(w1, alias, z);
    UdtBitAliasDef(w1 + (alias + z));
  }

  lemma BitNumberSound(a: string, w: string, u: string)
    requires BitNumber(a, w, u).Some?
    ensures var d := Run(u, Digit);
      |d| > 0 && All(d, Digit) && u == d + u[|d|..] && Stops(u[|d|..], Word)
  {
    RunSplit(u, Digit);
  }

  lemma BitAfterWordSound(a: string, w: string, y: string) returns (w3: string, z: string)
    requires BitAfterWord(a, w, y).Some?
    ensures All(w3, Space) && y == w3 + (":" + z) && BitNumber(a, w, LStrip(z)) == BitAfterWord(a, w, y)
  {
    var t := LStrip(y);
    z := t[1..];
    w3 := Blanks(y);
    CharRest(t, ':');
  }

  lemma BitAfterAliasSound(a: string, t: string)
    requires BitAfterAlias(a, t).Some?
    ensures var u := LStrip(t); var w := Run(u, Word);
      |Blanks(t)| > 0 && |w| > 0 && t == Blanks(t) + (w + u[|w|..]) &&
      All(w, Word) && BitAfterWord(a, w, u[|w|..]).Some?
  {
    var u := LStrip(t);
    RunSplit(u, Word);
    Regroup(t, Blanks(t), u, Run(u, Word), u[|Run(u, Word)|..]);
  }

  lemma BitAfterKeywordSound(t: string)
    requires BitAfterKeyword(t).Some?
    ensures var u := LStrip(t); var a := Run(u, Word);
      |Blanks(t)| > 0 && |a| > 0 && t == Blanks(t) + (a + u[|a|..]) &&
      All(a, Word) && BitAfterAlias(a, u[|a|..]).Some?
  {
    var u := LStrip(t);
    RunSplit(u, Word);
    Regroup(t, Blanks(t), u, Run(u, Word), u[|Run(u, Word)|..]);
  }

  lemma BitNest(s: string, w1: string, a: string, w2: string, w: string, y: string,
                w3: string, w4: string, d: string, rest: string)
    requires s == "BIT" + (w1 + (a + (w2 + (w + y)))) && y == w3 + (":" + (w4 + (d + rest)))
    ensures s == "BIT" + w1 + a + w2 + w + w3 + ":" + w4 + d + rest
  {
    Assoc10("BIT", w1, a, w2, w, w3, ":", w4, d, rest);
  }

  lemma BitPartsShape(s: string, w1: string, alias: string, w2: string, word: string, w3: string,
                      w4: string, d: string, rest: string, m: BitAliasMatch)
    requires BitParts(s, w1, alias, w2, word, w3, w4, d, rest)
    requires m == BitAliasMatch(alias, word, DecimalValue(d))
    ensures BitAliasShape(s, m)
  {
  }

  /** The keyword, alias and word stages of a recognised line. */
  lemma BitHeadParts(s: string) returns (w1: string, a: string, w2: string, w: string, y: string)
    requires UdtBitAlias(s).Some?
    ensures s == "BIT" + (w1 + (a + (w2 + (w + y))))
    ensures |w1| > 0 && All(w1, Space) && |a| > 0 && All(a, Word) && |w2| > 0 && All(w2, Space)
    ensures |w| > 0 && All(w, Word) && BitAfterWord(a, w, y) == UdtBitAlias(s)
  {
    var t := s[3..];
    KeywordRest(s, "BIT");
    UdtBitAliasDef(t);
    BitAfterKeywordSound(t);
    var u := LStrip(t);
    a := Run(u, Word);
    var t2 := u[|a|..];
    BitAfterAliasSound(a, t2);
    var u2 := LStrip(t2);
    w := Run(u2, Word);
    y := u2[|w|..];
    w1 := Blanks(t);
    w2 := Blanks(t2);
    Regroup(t, w1, a + t2, a, t2);
    Regroup(s, "BIT", t, w1, a + t2);
    Regroup(a + t2, a, t2, w2, w + y);
    Regroup(s, "BIT", t, w1, a + (w2 + (w + y)));
  }

  /** How the type-first member pattern reads `BIT <blanks> <alias> <blanks>...`: "BIT" is
      the type, no declarator follows it, the blanks are the separator and the alias is the
      name. */
  lemma BitAsTypeFirst(w1: string, a: string, z: string)
    requires |w1| > 0 && All(w1, Space) && |a| > 0 && All(a, Word) && z != [] && IsSpace(z[0])
    ensures var r := w1 + (a + z);
      Run("BIT" + r, Word) == "BIT" && ("BIT" + r)[3..] == r && DimsLength(r) == 0 &&
      Run(r, Space) == w1 && r[|w1|..] == a + z && Run(a + z, Word) == a
  {
    var r := w1 + (a + z);
    Head(w1, a + z);
    Head(a, z);
    WordNotSpace(a[0]);
    assert !In(r[0], Word);
    SpanOf("BIT", r, Word);
    KeywordSplit("BIT", r);
    NoDims(r);
    SpanOf(w1, a + z, Space);
    KeywordSplit(w1, a + z);
    SpanOf(a, z, Word);
  }

  /** The colon and bit-number stages of a recognised line. */
  lemma BitTailParts(a: string, w: string, y: string) returns (w3: string, w4: string, d: string, rest: string)
    requires BitAfterWord(a, w, y).Some?
    ensures y == w3 + (":" + (w4 + (d + rest)))
    ensures All(w3, Space) && All(w4, Space) && |d| > 0 && All(d, Digit) && Stops(rest, Word)
    ensures BitAfterWord(a, w, y) == Some(BitAliasMatch(a, w, DecimalValue(d)))
  {
    var z;
    w3, z := BitAfterWordSound(a, w, y);
    var u := LStrip(z);
    BitNumberSound(a, w, u);
    d := Run(u, Digit);
    rest := u[|d|..];
    w4 := Blanks(z);
    Regroup(z, w4, u, d, rest);
  }

  /** Conversely, a recognised bit alias has exactly that shape. */
  lemma UdtBitAliasSound(s: string, m: BitAliasMatch)
    requires UdtBitAlias(s) == Some(m)
    ensures BitAliasShape(s, m)
  {
    var w1, a, w2, w, y := BitHeadParts(s);
    var w3, w4, d, rest := BitTailParts(a, w, y);
    BitNest(s, w1, a, w2, w, y, w3, w4, d, rest);
    BitPartsShape(s, w1, a, w2, w, w3, w4, d, rest, m);
  }

  lemma BitShapeParts(s: string, m: BitAliasMatch)
    returns (w1: string, w2: string, w3: string, w4: string, d: string, rest: string)
    requires BitAliasShape(s, m)
    ensures BitParts(s, w1, m.alias, w2, m.word, w3, w4, d, rest) && m.bit == DecimalValue(d)
  {
    w1, w2, w3, w4, d, rest :| BitParts(s, w1, m.alias, w2, m.word, w3, w4, d, rest) && m.bit == DecimalValue(d);
  }

  /** Every line of the shape is recognised, with the shape's alias, word and bit. */
  lemma UdtBitAliasComplete(s: string, m: BitAliasMatch)
    requires BitAliasShape(s, m)
    ensures UdtBitAlias(s) == Some(m)
  {
    var w1, w2, w3, w4, d, rest := BitShapeParts(s, m);
    UdtBitAliasAccepts(s, w1, m.alias, w2, m.word, w3, w4, d, rest);
  }

  /** The recogniser and the shape agree. */
  lemma UdtBitAliasIff(s: string, m: BitAliasMatch)
    ensures UdtBitAlias(s) == Some(m) <==> BitAliasShape(s, m)
  {
    if UdtBitAlias(s) == Some(m) {
      UdtBitAliasSound(s, m);
    }
    if BitAliasShape(s, m) {
      UdtBitAliasComplete(s, m);
    }
  }

  // ------------------------------------------------- RE_FAMILYTYPE

  /** `[<blanks>] := [<blanks>] <ident>` after the keyword yields the identifier. */
  lemma FamilyTypeValueAccepts(w1: string, w2: string, id: string, rest: string)
    requires All(w1, Space) && All(w2, Space) && IsIdent(id)
    requires rest == [] || !IsWordChar(rest[0])
    ensures FamilyTypeValue(w1 + ":=" + w2 + id + rest) == Some(id)
  {
    var x := id + rest;
    var y := ":=" + (w2 + x);
    Assoc5(w1, ":=", w2, id, rest);
    assert x[0] == id[0];
    WordNotSpace(id[0]);
    SkipBlanks(w1, y);
    assert y[2..] == w2 + x;
    SkipBlanks(w2, x);
    SpanOf(id, rest, Word);
  }

  /** The value part only ever yields an identifier. */
  lemma FamilyTypeValueIdent(t: string)
    requires FamilyTypeValue(t).Some?
    ensures IsIdent(FamilyTypeValue(t).value)
  {
    var v := LStrip(LStrip(t)[2..]);
    assert Run(v, Word)[0] == v[0];
  }

  /** A recognised family type is an identifier. */
  lemma FamilyTypeIdent(s: string)
    requires FamilyType(s).Some?
    ensures IsIdent(FamilyType(s).value)
  {
    var j := FamilyTypeIndex(s, 0);
    FamilyTypeValueIdent(s[j + 10..]);
  }

  /** re.search: the match is the one at the first matching position, and there is none exactly
      when the pattern matches nowhere. */
  lemma FamilyTypeFirst(s: string)
    ensures FamilyType(s).Some? ==> var j := FamilyTypeIndex(s, 0);
      FamilyType(s) == FamilyTypeAt(s, j) && forall k :: 0 <= k < j ==> FamilyTypeAt(s, k).None?
    ensures FamilyType(s).None? <==> forall k :: 0 <= k <= |s| ==> FamilyTypeAt(s, k).None?
  {
  }

  // ------------------------------------------------- RE_AOI_PARAM

  lemma AoiParamPathAccepts(n: string, w2: string, path: string, rest: string)
    requires |w2| > 0 && All(w2, Space) && |path| > 0 && All(path, Name) && (rest == [] || !In(rest[0], Name))
    ensures AoiParamPath(n, w2 + (path + rest)) == Some(NamePath(n, path))
  {
    assert (path + rest)[0] == path[0];
    assert !IsSpace(path[0]);
    SkipBlanks(w2, path + rest);
    SpanOf(path, rest, Name);
  }

  lemma AoiParamAfterNameAccepts(n: string, w1: string, sep: string, v: string)
    requires |w1| > 0 && All(w1, Space) && (sep == "OF" || sep == ":")
    ensures AoiParamAfterName(n, w1 + (sep + v)) == AoiParamPath(n, v)
  {
    var u := sep + v;
    assert u[0] == sep[0];
    SkipBlanks(w1, u);
    assert u[..|sep|] == sep && u[|sep|..] == v;
    assert sep == ":" ==> !StartsWith(u, "OF");
  }

  lemma AoiParamNameStage(name: string, t: string)
    requires |name| > 0 && All(name, Word) && t != [] && IsSpace(t[0])
    ensures AoiParam(name + t) == AoiParamAfterName(name, t)
  {
    SpanOf(name, t, Word);
    assert (name + t)[|name|..] == t;
  }

  /** `<name> <blanks> (OF|:) <blanks> <path>` is recognised with its name and path. */
  lemma AoiParamAccepts(name: string, w1: string, sep: string, w2: string, path: string, rest: string)
    requires |name| > 0 && All(name, Word) && |path| > 0 && All(path, Name)
    requires |w1| > 0 && All(w1, Space) && (sep == "OF" || sep == ":") && |w2| > 0 && All(w2, Space)
    requires rest == [] || !In(rest[0], Name)
    ensures AoiParam(name + w1 + sep + w2 + path + rest) == Some(NamePath(name, path))
  {
    var v := w2 + (path + rest);
    var t := w1 + (sep + v);
    assert t[0] == w1[0];
    Assoc6(name, w1, sep, w2, path, rest);
    AoiParamPathAccepts(name, w2, path, rest);
    AoiParamAfterNameAccepts(name, w1, sep, v);
    AoiParamNameStage(name, t);
  }

  /** The pieces of a parameter line: `<name> <blanks> (OF|:) <blanks> <path>` and what is left. */
  ghost predicate AoiParamParts(s: string, name: string, w1: string, sep: string, w2: string, path: string,
                                rest: string)
  {
    |name| > 0 && All(name, Word) && |path| > 0 && All(path, Name) &&
    |w1| > 0 && All(w1, Space) && (sep == "OF" || sep == ":") && |w2| > 0 && All(w2, Space) &&
    Stops(rest, Name) && s == name + w1 + sep + w2 + path + rest
  }

  /** The shape accepted by RE_AOI_PARAM, with its two groups. */
  ghost predicate AoiParamShape(s: string, m: NamePath)
  {
    exists w1: string, sep: string, w2: string, rest: string :: AoiParamParts(s, m.name, w1, sep, w2, m.path, rest)
  }

  lemma AoiParamComplete(s: string, m: NamePath)
    requires AoiParamShape(s, m)
    ensures AoiParam(s) == Some(m)
  {
    var w1: string, sep: string, w2: string, rest: string :| AoiParamParts(s, m.name, w1, sep, w2, m.path, rest);
    AoiParamAccepts(m.name, w1, sep, w2, m.path, rest);
  }

  lemma AoiParamPathSound(n: string, v: string) returns (w2: string, p: string, rest: string)
    requires AoiParamPath(n, v).Some?
    ensures |w2| > 0 && All(w2, Space) && |p| > 0 && All(p, Name) && Stops(rest, Name)
    ensures v == w2 + (p + rest) && AoiParamPath(n, v) == Some(NamePath(n, p))
  {
    var x := LStrip(v);
    w2 := Blanks(v);
    p, rest := RunParts(x, Name);
  }

  lemma AoiParamAfterNameSound(n: string, t: string) returns (w1: string, sep: string, v: string)
    requires AoiParamAfterName(n, t).Some?
    ensures |w1| > 0 && All(w1, Space) && (sep == "OF" || sep == ":") && t == w1 + (sep + v)
    ensures AoiParamAfterName(n, t) == AoiParamPath(n, v)
  {
    var u := LStrip(t);
    var k := if StartsWith(u, "OF") then 2 else 1;
    w1 := Blanks(t);
    sep := u[..k];
    v := u[k..];
    SplitAt(u, k);
  }

  lemma AoiParamNameSound(s: string) returns (n: string, t: string)
    requires AoiParam(s).Some?
    ensures |n| > 0 && All(n, Word) && s == n + t && AoiParam(s) == AoiParamAfterName(n, t)
  {
    var r;
    n, r := RunParts(s, Word);
    t := s[|n|..];
  }

  lemma AoiParamNest(s: string, n: string, t: string, w1: string, sep: string, v: string, w2: string, p: string,
                     rest: string)
    requires s == n + t && t == w1 + (sep + v) && v == w2 + (p + rest)
    ensures s == n + w1 + sep + w2 + p + rest
  {
    Assoc6(n, w1, sep, w2, p, rest);
  }

  /** Conversely, a recognised parameter line has exactly that shape. */
  lemma AoiParamSound(s: string, m: NamePath)
    requires AoiParam(s) == Some(m)
    ensures AoiParamShape(s, m)
  {
    var n, t := AoiParamNameSound(s);
    var w1, sep, v := AoiParamAfterNameSound(n, t);
    var w2, p, rest := AoiParamPathSound(n, v);
    AoiParamNest(s, n, t, w1, sep, v, w2, p, rest);
    assert AoiParamParts(s, m.name, w1, sep, w2, m.path, rest);
  }

  /** The recogniser and the shape agree. */
  lemma AoiParamIff(s: string, m: NamePath)
    ensures AoiParam(s) == Some(m) <==> AoiParamShape(s, m)
  {
    if AoiParam(s) == Some(m) {
      AoiParamSound(s, m);
    }
    if AoiParamShape(s, m) {
      AoiParamComplete(s, m);
    }
  }

  // ------------------------------------------------- RE_AOI_LOCALTAG

  lemma AoiLocalTypeAccepts(n: string, dtype: string, rest: string)
    requires |dtype| > 0 && All(dtype, Word) && Stops(rest, Word)
    ensures AoiLocalType(n, dtype + rest) == Some(NamePath(n, dtype))
  {
    SpanOf(dtype, rest, Word);
  }

  lemma AoiLocalAfterNameAccepts(n: string, w2: string, x: string)
    requires All(w2, Space) && x != [] && !IsSpace(x[0])
    ensures AoiLocalAfterName(n, ":" + (w2 + x)) == AoiLocalType(n, x)
  {
    assert (":" + (w2 + x))[1..] == w2 + x;
    SkipBlanks(w2, x);
  }

  lemma AoiLocalNameStage(name: string, w1: string, y: string)
    requires |name| > 0 && All(name, Word) && All(w1, Space) && y != [] && y[0] == ':'
    ensures AoiLocalTag(name + (w1 + y)) == AoiLocalAfterName(name, y)
  {
    assert (w1 + y)[0] == (if w1 == [] then ':' else w1[0]);
    SpanOf(name, w1 + y, Word);
    assert (name + (w1 + y))[|name|..] == w1 + y;
    SkipBlanks(w1, y);
  }

  /** `<name> [<blanks>] : [<blanks>] <type>` is recognised with its name and type. */
  lemma AoiLocalTagAccepts(name: string, w1: string, w2: string, dtype: string, rest: string)
    requires |name| > 0 && All(name, Word) && |dtype| > 0 && All(dtype, Word)
    requires All(w1, Space) && All(w2, Space) && Stops(rest, Word)
    ensures AoiLocalTag(name + w1 + ":" + w2 + dtype + rest) == Some(NamePath(name, dtype))
  {
    var x := dtype + rest;
    var y := ":" + (w2 + x);
    assert x != [] && !IsSpace(x[0]) by { assert x[0] == dtype[0]; WordNotSpace(dtype[0]); }
    assert y != [] && y[0] == ':';
    Assoc6(name, w1, ":", w2, dtype, rest);
    AoiLocalTypeAccepts(name, dtype, rest);
    AoiLocalAfterNameAccepts(name, w2, x);
    AoiLocalNameStage(name, w1, y);
  }

  /** The pieces of a local tag line: `<name> [<blanks>] : [<blanks>] <type>` and what is left. */
  ghost predicate AoiLocalParts(s: string, name: string, w1: string, w2: string, dtype: string, rest: string)
  {
    |name| > 0 && All(name, Word) && |dtype| > 0 && All(dtype, Word) && All(w1, Space) && All(w2, Space) &&
    Stops(rest, Word) && s == name + w1 + ":" + w2 + dtype + rest
  }

  /** The shape RE_AOI_LOCALTAG accepts, with its two groups. */
  ghost predicate AoiLocalTagShape(s: string, m: NamePath)
  {
    exists w1: string, w2: string, rest: string :: AoiLocalParts(s, m.name, w1, w2, m.path, rest)
  }

  lemma AoiLocalTagComplete(s: string, m: NamePath)
    requires AoiLocalTagShape(s, m)
    ensures AoiLocalTag(s) == Some(m)
  {
    var w1: string, w2: string, rest: string :| AoiLocalParts(s, m.name, w1, w2, m.path, rest);
    AoiLocalTagAccepts(m.name, w1, w2, m.path, rest);
  }

  lemma AoiLocalNameSound(s: string) returns (n: string, w1: string, u: string)
    requires AoiLocalTag(s).Some?
    ensures |n| > 0 && All(n, Word) && All(w1, Space) && s == n + (w1 + u)
    ensures AoiLocalTag(s) == AoiLocalAfterName(n, u)
  {
    var t;
    n, t := RunParts(s, Word);
    assert t == s[|n|..];
    u := LStrip(t);
    w1 := Blanks(t);
  }

  lemma AoiLocalAfterNameSound(n: string, u: string) returns (w2: string, x: string)
    requires AoiLocalAfterName(n, u).Some?
    ensures All(w2, Space) && u == ":" + (w2 + x) && AoiLocalAfterName(n, u) == AoiLocalType(n, x)
  {
    var z := u[1..];
    CharRest(u, ':');
    w2 := Blanks(z);
    x := LStrip(z);
  }

  lemma AoiLocalTypeSound(n: string, x: string) returns (d: string, rest: string)
    requires AoiLocalType(n, x).Some?
    ensures |d| > 0 && All(d, Word) && Stops(rest, Word) && x == d + rest
    ensures AoiLocalType(n, x) == Some(NamePath(n, d))
  {
    d, rest := RunParts(x, Word);
  }

  lemma AoiLocalNest(s: string, n: string, w1: string, u: string, w2: string, x: string, d: string, rest: string)
    requires s == n + (w1 + u) && u == ":" + (w2 + x) && x == d + rest
    ensures s == n + w1 + ":" + w2 + d + rest
  {
    Assoc6(n, w1, ":", w2, d, rest);
  }

  /** Conversely, a recognised local tag line has exactly that shape. */
  lemma AoiLocalTagSound(s: string, m: NamePath)
    requires AoiLocalTag(s) == Some(m)
    ensures AoiLocalTagShape(s, m)
  {
    var n, w1, u := AoiLocalNameSound(s);
    var w2, x := AoiLocalAfterNameSound(n, u);
    var d, rest := AoiLocalTypeSound(n, x);
    AoiLocalNest(s, n, w1, u, w2, x, d, rest);
    assert AoiLocalParts(s, m.name, w1, w2, m.path, rest);
  }

  /** The recogniser and the shape agree. */
  lemma AoiLocalTagIff(s: string, m: NamePath)
    ensures AoiLocalTag(s) == Some(m) <==> AoiLocalTagShape(s, m)
  {
    if AoiLocalTag(s) == Some(m) {
      AoiLocalTagSound(s, m);
    }
    if AoiLocalTagShape(s, m) {
      AoiLocalTagComplete(s, m);
    }
  }

  // ------------------------------------------------- RE_TAG_PREFIX

  lemma PrefixNameChars(u: string, e: nat, k: nat)
    requires 0 < k <= e <= |u| && IsIdentStart(u[0]) && All(u[1..][..e - 1], Name)
    ensures IsDottedName(u[..k])
  {
    forall i | 0 <= i < k ensures In(u[..k][i], Name) {
      if i > 0 { assert u[..k][i] == u[1..][..e - 1][i - 1]; }
    }
  }

  /** A matched prefix starts, after blanks, with a dotted tag name. */
  lemma TagPrefixName(s: string)
    requires TagPrefix(s).Some?
    ensures IsDottedName(TagPrefix(s).value.name)
    ensures StartsWith(LStrip(s), TagPrefix(s).value.name)
  {
    var u := LStrip(s);
    var e := TagPrefixDef(u);
    var k :| 0 < k <= e && NameSearch(u, e).value.name == u[..k];
    PrefixNameChars(u, e, k);
    PrefixStarts(u, k);
  }

  lemma PrefixStarts(u: string, k: nat)
    requires k <= |u|
    ensures StartsWith(u, u[..k])
  {
  }

  /** The tail `[<blanks>] : [<blanks>] <type>` yields the type with trailing blanks removed. */
  lemma TypeTailAccepts(w2: string, typ: string)
    requires All(w2, Space) && |typ| > 0 && !IsSpace(typ[0])
    ensures TypeTail(":" + (w2 + typ)) == Some(RStrip(typ))
  {
    var p := ":" + (w2 + typ);
    assert LStrip(p) == p;
    assert p[1..] == w2 + typ;
    SkipBlanks(w2, typ);
  }

  lemma TagPrefixDef(u: string) returns (e: nat)
    requires TagPrefixStripped(u).Some?
    ensures u != [] && IsIdentStart(u[0]) && 0 < e <= |u| && All(u[1..][..e - 1], Name)
    ensures TagPrefixStripped(u) == NameSearch(u, e)
  {
    e := 1 + Span(u[1..], Name);
  }

  /** The greedy name candidate of a dotted name followed by a non-name character is the whole name. */
  lemma NameSearchStage(name: string, x: string)
    requires IsDottedName(name) && Stops(x, Name)
    ensures TagPrefixStripped(name + x) == NameSearch(name + x, |name|)
  {
    var u := name + x;
    assert u[0] == name[0];
    assert u[1..] == name[1..] + x;
    SpanOf(name[1..], x, Name);
    StrippedAt(u, |name|);
  }

  lemma StrippedAt(u: string, e: nat)
    requires u != [] && IsIdentStart(u[0]) && 1 + Span(u[1..], Name) == e
    ensures TagPrefixStripped(u) == NameSearch(u, e)
  {
    var t := TagPrefixStripped(u);
    assert t == NameSearch(u, 1 + Span(u[1..], Name));
  }

  /** The longest name candidate wins when the rest of the pattern matches after it. */
  lemma NameSearchAt(name: string, x: string, r: string)
    requires |name| > 0 && AfterName(LStrip(x)) == Some(r)
    ensures NameSearch(name + x, |name|) == Some(TagPrefixMatch(name, r))
  {
    assert (name + x)[|name|..] == x;
    assert (name + x)[..|name|] == name;
  }

  /** Leading blanks before the prefix do not change the match. */
  lemma TagPrefixBlanks(w0: string, u: string)
    requires All(w0, Space)
    ensures TagPrefix(w0 + u) == TagPrefix(u)
  {
    LStripOver(w0, u);
  }

  lemma AfterNamePlain(w2: string, typ: string)
    requires All(w2, Space) && |typ| > 0 && !IsSpace(typ[0])
    ensures AfterName(":" + (w2 + typ)) == Some(RStrip(typ))
  {
    TypeTailAccepts(w2, typ);
    assert !StartsWithFold(":" + (w2 + typ), "OF");
  }

  /** A blank run, or the colon, after a name ends it. */
  lemma BlankColonStops(w1: string, p: string)
    requires All(w1, Space) && p != [] && p[0] == ':'
    ensures Stops(w1 + p, Name)
  {
    if w1 != [] { Head(w1, p); } else { assert w1 + p == p; }
  }

  /** A line starting, after blanks, with a dotted name is matched from that name on. */
  lemma TagPrefixFrom(s: string, w0: string, name: string, x: string, r: string)
    requires s == w0 + (name + x) && All(w0, Space) && IsDottedName(name) && Stops(x, Name)
    requires AfterName(LStrip(x)) == Some(r)
    ensures TagPrefix(s) == Some(TagPrefixMatch(name, r))
  {
    Head(name, x);
    WordNotSpace(name[0]);
    SkipBlanks(w0, name + x);
    NameSearchStage(name, x);
    NameSearchAt(name, x, r);
  }

  /** `<name> [<blanks>] : [<blanks>] <type>` yields the name and the trimmed type. */
  lemma TagPrefixPlain(w0: string, name: string, w1: string, w2: string, typ: string)
    requires All(w0, Space) && All(w1, Space) && All(w2, Space)
    requires IsDottedName(name)
    requires |typ| > 0 && !IsSpace(typ[0])
    ensures TagPrefix(w0 + name + w1 + ":" + w2 + typ) == Some(TagPrefixMatch(name, RStrip(typ)))
  {
    var p := ":" + (w2 + typ);
    var x := w1 + p;
    Assoc6(w0, name, w1, ":", w2, typ);
    BlankColonStops(w1, p);
    SkipBlanks(w1, p);
    AfterNamePlain(w2, typ);
    TagPrefixFrom(w0 + name + w1 + ":" + w2 + typ, w0, name, x, RStrip(typ));
  }

  lemma OfAliasStage(w: string, a: string)
    requires |w| > 0 && All(w, Space) && a != [] && IsIdentStart(a[0])
    ensures OfAliasTail("OF" + (w + a)) == AliasSearch(a, 1 + Span(a[1..], Alias))
  {
    var p := "OF" + (w + a);
    assert StartsWithFold(p, "OF");
    var q := p[2..];
    assert q == w + a;
    SkipBlanks(w, a);
    AfterOfAt(q, a);
  }

  lemma AfterOfAt(q: string, a: string)
    requires LStrip(q) == a && |a| != |q| && a != [] && IsIdentStart(a[0])
    ensures AfterOf(q) == AliasSearch(a, 1 + Span(a[1..], Alias))
  {
    var e := 1 + Span(a[1..], Alias);
    var t := AfterOf(q);
    assert t == AliasSearch(a, e);
  }

  lemma AliasSpan(alias: string, tail: string)
    requires IsDottedName(alias) && (tail == [] || !In(tail[0], Alias))
    ensures 1 + Span((alias + tail)[1..], Alias) == |alias|
  {
    assert All(alias[1..], Alias);
    assert (alias + tail)[1..] == alias[1..] + tail;
    SpanOf(alias[1..], tail, Alias);
  }

  lemma AliasSearchAt(alias: string, tail: string)
    requires |alias| > 0 && TypeTail(tail).Some?
    ensures AliasSearch(alias + tail, |alias|) == TypeTail(tail)
  {
    assert (alias + tail)[|alias|..] == tail;
  }

  lemma OfAliasAccepts(w: string, alias: string, tail: string)
    requires |w| > 0 && All(w, Space) && IsDottedName(alias)
    requires tail != [] && !In(tail[0], Alias) && TypeTail(tail).Some?
    ensures OfAliasTail("OF" + (w + (alias + tail))) == TypeTail(tail)
  {
    Head(alias, tail);
    OfAliasStage(w, alias + tail);
    AliasSpan(alias, tail);
    AliasSearchAt(alias, tail);
  }

  /** Blanks in front of the colon of the tail are skipped by its leading `\s*`. */
  lemma TypeTailBlanks(w: string, p: string)
    requires All(w, Space)
    ensures TypeTail(w + p) == TypeTail(p)
  {
    LStripOver(w, p);
    TypeTailSame(w + p, p);
  }

  lemma TypeTailSame(a: string, b: string)
    requires LStrip(a) == LStrip(b)
    ensures TypeTail(a) == TypeTail(b)
  {
  }

  /** A blank never continues an alias. */
  lemma BlankEndsAlias(w: string, p: string)
    requires |w| > 0 && All(w, Space)
    ensures w + p != [] && !In((w + p)[0], Alias)
  {
    Head(w, p);
  }

  lemma AfterNameAlias(w2: string, alias: string, w3: string, w4: string, typ: string)
    requires |w2| > 0 && All(w2, Space) && IsDottedName(alias) && |w3| > 0 && All(w3, Space) && All(w4, Space)
    requires |typ| > 0 && !IsSpace(typ[0])
    ensures AfterName("OF" + (w2 + (alias + (w3 + (":" + (w4 + typ)))))) == Some(RStrip(typ))
  {
    var q := ":" + (w4 + typ);
    var tail := w3 + q;
    TypeTailBlanks(w3, q);
    TypeTailAccepts(w4, typ);
    BlankEndsAlias(w3, q);
    OfAliasAccepts(w2, alias, tail);
  }

  lemma AliasNest(s: string, w0: string, name: string, w1: string, w2: string, alias: string, w3: string,
                  w4: string, typ: string)
    requires s == w0 + name + w1 + "OF" + w2 + alias + w3 + ":" + w4 + typ
    ensures s == w0 + (name + (w1 + ("OF" + (w2 + (alias + (w3 + (":" + (w4 + typ))))))))
  {
    Assoc10(w0, name, w1, "OF", w2, alias, w3, ":", w4, typ);
  }

  /** `<name> <blanks> OF <blanks> <alias> <blanks> : [<blanks>] <type>` yields the name and the
      trimmed type. The alias is captured as group 2, but the parser never reads that group. */
  lemma TagPrefixAlias(s: string, w0: string, name: string, w1: string, w2: string, alias: string, w3: string,
                       w4: string, typ: string)
    requires All(w0, Space) && |w1| > 0 && All(w1, Space) && |w2| > 0 && All(w2, Space)
    requires |w3| > 0 && All(w3, Space) && All(w4, Space)
    requires IsDottedName(name) && IsDottedName(alias) && |typ| > 0 && !IsSpace(typ[0])
    requires s == w0 + name + w1 + "OF" + w2 + alias + w3 + ":" + w4 + typ
    ensures TagPrefix(s) == Some(TagPrefixMatch(name, RStrip(typ)))
  {
    var p := "OF" + (w2 + (alias + (w3 + (":" + (w4 + typ)))));
    var x := w1 + p;
    AliasNest(s, w0, name, w1, w2, alias, w3, w4, typ);
    SpaceStops(w1, p);
    SkipBlanks(w1, p);
    AfterNameAlias(w2, alias, w3, w4, typ);
    TagPrefixFrom(s, w0, name, x, RStrip(typ));
  }
}
