/** What _find_base_type and _resolve_nested_types promise: where a resolved type comes
    from, that a bound large enough does not change the answer, the bit-of-word and
    through-a-local-tag cases of the AOI base-type tests, and that the pass changes only
    dotted parameter types, logging every change. */
module ResolverLaws {
  import opened Text
  import opened OrderedMaps
  import opened Models
  import opened Resolver
  import Patterns

  // ---------------------------------------------------------------- paths

  /** A dotted path splits at its first '.'. */
  lemma SplitPath(root: string, member: string)
    requires '.' !in root
    ensures var path := root + "." + member;
      '.' in path && Root(path) == root && MemberOf(path) == member && path !in BaseTypes
  {
    var path := root + "." + member;
    assert path == root + ['.'] + member;
    assert path[|root|] == '.';
    FindCharFirst(root, member, '.');
    assert path[..|root|] == root;
    assert path[|root| + 1..] == member;
  }

  // ---------------------------------------------------------------- _find_base_type

  /** The base types and the undotted paths come back unchanged. */
  lemma PlainPathKept(p: Project, path: string, ctx: Aoi, fuel: nat)
    requires path in BaseTypes || '.' !in path
    ensures FindBaseType(p, path, ctx, fuel) == path
  {
  }

  /** The type of some parameter of some AOI of the project. */
  predicate ParameterType(p: Project, t: string)
  {
    exists a, q :: a in p.aois.vals && q in p.aois.vals[a].parameters.vals &&
                   p.aois.vals[a].parameters.vals[q].dataType == t
  }

  /** The resolved type is the path itself, BOOL, or the declared type of a parameter of
      an AOI of the project that the path leads to. */
  lemma {:induction false} ResolvedOrigin(p: Project, path: string, ctx: Aoi, fuel: nat)
    ensures var r := FindBaseType(p, path, ctx, fuel);
      r == path || r == "BOOL" || ParameterType(p, r)
    decreases fuel
  {
    if !(path in BaseTypes || '.' !in path) {
      var root := Root(path);
      var member := MemberOf(path);
      if !BitOfWord(ctx, root, member) && ThroughLocal(p, ctx, root, member) && fuel > 0 {
        var a := ctx.localtags.vals[root].dataType;
        var parent := p.aois.vals[a];
        var t := parent.parameters.vals[member].dataType;
        ResolvedOrigin(p, t, parent, fuel - 1);
        var r := FindBaseType(p, t, parent, fuel - 1);
        if r == t {
          assert p.aois.vals[a].parameters.vals[member].dataType == r;
        }
      }
    }
  }

  /** The resolution ends within `fuel` local tags, without running out of the bound. */
  predicate Settles(p: Project, path: string, ctx: Aoi, fuel: nat)
    decreases fuel
  {
    if path in BaseTypes || '.' !in path then true
    else
      var root := Root(path);
      var member := MemberOf(path);
      if BitOfWord(ctx, root, member) || !ThroughLocal(p, ctx, root, member) then true
      else
        var parent := p.aois.vals[ctx.localtags.vals[root].dataType];
        fuel > 0 && Settles(p, parent.parameters.vals[member].dataType, parent, fuel - 1)
  }

  /** A resolution that ends within a bound gives the same answer under every larger bound.
      Only a cycle of AOIs, or a chain of more than 1000 local-tag hops, runs the bound out;
      there the source raises RecursionError. */
  lemma {:induction false} FuelEnough(p: Project, path: string, ctx: Aoi, fuel: nat, more: nat)
    requires Settles(p, path, ctx, fuel) && fuel <= more
    ensures Settles(p, path, ctx, more)
    ensures FindBaseType(p, path, ctx, more) == FindBaseType(p, path, ctx, fuel)
    decreases fuel
  {
    if !(path in BaseTypes || '.' !in path) {
      var root := Root(path);
      var member := MemberOf(path);
      if !BitOfWord(ctx, root, member) && ThroughLocal(p, ctx, root, member) {
        var parent := p.aois.vals[ctx.localtags.vals[root].dataType];
        FuelEnough(p, parent.parameters.vals[member].dataType, parent, fuel - 1, more - 1);
      }
    }
  }

  /** `BitParam OF LocWord.3` with the local tag `LocWord : DINT`: a numbered member of an
      integer local tag is a BOOL. */
  lemma BitOfWordIsBool(p: Project, ctx: Aoi, root: string, bit: string, fuel: nat)
    requires '.' !in root && root in ctx.localtags.vals && IsDigitStr(bit)
    requires UpperStr(ctx.localtags.vals[root].dataType) in WordTypes
    ensures FindBaseType(p, root + "." + bit, ctx, fuel) == "BOOL"
  {
    SplitPath(root, bit);
  }

  /** `Ref OF InnerInst.X` with the local tag `InnerInst : Inner` and the parameter
      `X : DINT` of Inner: the path resolves to the parameter's own type. */
  lemma ThroughLocalTag(p: Project, ctx: Aoi, root: string, member: string, fuel: nat)
    requires '.' !in root && root in ctx.localtags.vals && !BitOfWord(ctx, root, member)
    requires var a := ctx.localtags.vals[root].dataType;
      a in p.aois.vals && member in p.aois.vals[a].parameters.vals &&
      '.' !in p.aois.vals[a].parameters.vals[member].dataType
    requires fuel > 0
    ensures FindBaseType(p, root + "." + member, ctx, fuel) ==
            p.aois.vals[ctx.localtags.vals[root].dataType].parameters.vals[member].dataType
  {
    SplitPath(root, member);
  }

  /** `Alias OF InnerInst.P` where Inner's `P OF Word.3` names a bit of Inner's integer local
      tag Word: Alias is a BOOL whether or not P has been corrected first. */
  lemma NestedBitAlias(p: Project, ctx: Aoi, root: string, member: string, word: string, bit: string, fuel: nat)
    requires '.' !in root && root in ctx.localtags.vals && !BitOfWord(ctx, root, member)
    requires var a := ctx.localtags.vals[root].dataType;
      a in p.aois.vals && member in p.aois.vals[a].parameters.vals &&
      var t := p.aois.vals[a].parameters.vals[member].dataType;
      t == "BOOL" ||
      (t == word + "." + bit && '.' !in word && word in p.aois.vals[a].localtags.vals && IsDigitStr(bit) &&
       UpperStr(p.aois.vals[a].localtags.vals[word].dataType) in WordTypes)
    requires fuel > 0
    ensures FindBaseType(p, root + "." + member, ctx, fuel) == "BOOL"
  {
    SplitPath(root, member);
    var a := ctx.localtags.vals[root].dataType;
    var t := p.aois.vals[a].parameters.vals[member].dataType;
    if t != "BOOL" {
      BitOfWordIsBool(p, p.aois.vals[a], word, bit, fuel - 1);
    }
  }

  // ---------------------------------------------------------------- first-line rewrite

  lemma DropPrefix(a: string, b: string)
    ensures (a + b)[|a|..] == b
  {
  }

  /** A text is its prefix followed by the rest. */
  lemma PrefixSplit(s: string, p: string)
    requires StartsWith(s, p)
    ensures s == p + s[|p|..]
  {
    assert s == s[..|p|] + s[|p|..];
  }

  /** A run of the class followed by a character outside it is exactly what Run takes. */
  lemma RunThen(a: string, b: string, k: Patterns.CharClass)
    requires Patterns.All(a, k) && (b == [] || !Patterns.In(b[0], k))
    ensures Patterns.Run(a + b, k) == a && (a + b)[|a|..] == b
  {
    Patterns.SpanOf(a, b, k);
  }

  /** `[\w.]+` takes the whole path and leaves the tail. */
  lemma PathTailAccepts(path: string, tail: string)
    requires path != [] && Patterns.All(path, Patterns.Name)
    requires tail == [] || !Patterns.In(tail[0], Patterns.Name)
    ensures PathTail(path + tail) == Some(tail)
  {
    RunThen(path, tail, Patterns.Name);
  }

  /** The two spellings of the declared type: `OF <blanks>` and `: <blanks>`. */
  function Keyword(of: bool, sp2: string): string
  {
    (if of then "OF" else ":") + sp2
  }

  /** The keyword, its blanks, the path and the tail. */
  predicate KeywordParts(c: string, of: bool, sp2: string, path: string, tail: string)
  {
    c == Keyword(of, sp2) + (path + tail) &&
    Patterns.All(sp2, Patterns.Space) && (of ==> sp2 != []) &&
    path != [] && Patterns.All(path, Patterns.Name) && (tail == [] || !Patterns.In(tail[0], Patterns.Name))
  }

  /** The declared-type clause, split into its parts. */
  predicate ClauseParts(b: string, sp: string, of: bool, sp2: string, path: string, tail: string)
  {
    b == sp + (Keyword(of, sp2) + (path + tail)) && sp != [] && Patterns.All(sp, Patterns.Space) &&
    KeywordParts(Keyword(of, sp2) + (path + tail), of, sp2, path, tail)
  }

  /** The keyword, then the blanks after it and the rest. */
  lemma KeywordSplit(k: string, sp2: string, rest: string)
    ensures var c := k + sp2 + rest; StartsWith(c, k) && c[|k|..] == sp2 + rest
  {
    var c := k + sp2 + rest;
    assert c == k + (sp2 + rest);
    DropPrefix(k, sp2 + rest);
  }

  lemma KeywordAccepts(c: string, of: bool, sp2: string, path: string, tail: string)
    requires KeywordParts(c, of, sp2, path, tail)
    ensures KeywordTail(c) == Some(tail)
  {
    var e := path + tail;
    assert e[0] == path[0];
    if of {
      KeywordThen(c, "OF", sp2, e);
    } else {
      assert c[0] == ':';
      KeywordThen(c, ":", sp2, e);
    }
    PathTailAccepts(path, tail);
  }

  /** After either keyword and its blanks, the path search starts where the blanks end. */
  lemma KeywordThen(c: string, k: string, sp2: string, e: string)
    requires c == k + sp2 + e && (k == "OF" || (k == ":" && !StartsWith(c, "OF")))
    requires Patterns.All(sp2, Patterns.Space) && (k == "OF" ==> sp2 != [])
    requires e == [] || !Patterns.In(e[0], Patterns.Space)
    ensures KeywordTail(c) == PathTail(e)
  {
    KeywordSplit(k, sp2, e);
    RunThen(sp2, e, Patterns.Space);
    var d := c[|k|..];
    assert d == sp2 + e;
    assert Patterns.Run(d, Patterns.Space) == sp2;
    assert d[|sp2|..] == e;
  }

  /** Every clause of that shape is matched, and the match ends where the path ends. */
  lemma TypeClauseAccepts(b: string, sp: string, of: bool, sp2: string, path: string, tail: string)
    requires ClauseParts(b, sp, of, sp2, path, tail)
    ensures TypeClause(b) == Some(tail)
  {
    var c := Keyword(of, sp2) + (path + tail);
    assert c[0] == (if of then 'O' else ':');
    RunThen(sp, c, Patterns.Space);
    KeywordAccepts(c, of, sp2, path, tail);
  }

  lemma KeywordSound(c: string) returns (of: bool, sp2: string, path: string, tail: string)
    requires KeywordTail(c).Some?
    ensures KeywordParts(c, of, sp2, path, tail) && KeywordTail(c) == Some(tail)
  {
    of := StartsWith(c, "OF");
    var k := if of then "OF" else ":";
    var d := c[|k|..];
    sp2 := Patterns.Run(d, Patterns.Space);
    var e := d[|sp2|..];
    path := Patterns.Run(e, Patterns.Name);
    tail := e[|path|..];
    PrefixSplit(e, path);
    PrefixSplit(d, sp2);
    PrefixSplit(c, k);
    assert c == Keyword(of, sp2) + (path + tail);
  }

  /** A matched clause has that shape. */
  lemma TypeClauseSound(b: string) returns (sp: string, of: bool, sp2: string, path: string, tail: string)
    requires TypeClause(b).Some?
    ensures ClauseParts(b, sp, of, sp2, path, tail) && TypeClause(b) == Some(tail)
  {
    sp := Patterns.Run(b, Patterns.Space);
    var c := b[|sp|..];
    of, sp2, path, tail := KeywordSound(c);
    PrefixSplit(b, sp);
  }

  /** The line's shape when RewriteHead matches it. */
  predicate HeadParts(line: string, name: string, ws: string, b: string)
  {
    line == ws + (name + b) && Patterns.All(ws, Patterns.Space) && TypeClause(b).Some?
  }

  /** A line `<blanks> NAME <declared type> <tail>` of a name that starts with a non-blank
      becomes `<blanks> NAME : BASE <tail>`. */
  lemma RewriteHeadAccepts(line: string, name: string, ws: string, b: string, base: string)
    requires HeadParts(line, name, ws, b) && name != [] && !IsSpace(name[0])
    ensures RewriteHead(line, name, base) == ws + name + " : " + base + TypeClause(b).value
  {
    RunThen(ws, name + b, Patterns.Space);
    DropPrefix(name, b);
  }

  /** RewriteHead changes a line only by replacing the declared type after the name: the
      leading blanks, the name and everything after the type's path stay. */
  lemma RewriteHeadSound(line: string, name: string, base: string) returns (ws: string, b: string)
    requires RewriteHead(line, name, base) != line
    ensures HeadParts(line, name, ws, b)
    ensures RewriteHead(line, name, base) == ws + name + " : " + base + TypeClause(b).value
  {
    ws := Patterns.Run(line, Patterns.Space);
    var a := line[|ws|..];
    assert StartsWith(a, name);
    b := a[|name|..];
    PrefixSplit(a, name);
    PrefixSplit(line, ws);
  }

  /** The lines SplitLines gives hold no '\n'. */
  lemma {:induction false} SplitLinesNoNewline(s: string)
    ensures forall k :: 0 <= k < |SplitLines(s)| ==> NoNewline(SplitLines(s)[k])
    decreases |s|
  {
    if s != [] {
      var e := FindChar(s, '\n', 0);
      if e < |s| {
        SplitLinesNoNewline(s[e + 1..]);
        assert forall k :: 0 <= k < e ==> s[..e][k] != '\n';
      } else {
        assert forall k :: 0 <= k < |s| ==> s[k] != '\n';
      }
    }
  }

  lemma NoNewlineConcat(a: string, b: string)
    requires NoNewline(a) && NoNewline(b)
    ensures NoNewline(a + b)
  {
  }

  /** A suffix of a suffix is a suffix. */
  lemma SuffixChain(s: string, i: nat, t: string)
    requires i <= |s| && EndsWith(s[i..], t)
    ensures EndsWith(s, t)
  {
    assert s[i..][|s[i..]| - |t|..] == s[|s| - |t|..];
  }

  /** A suffix of b is a suffix of a + b. */
  lemma SuffixConcat(a: string, b: string, t: string)
    requires EndsWith(b, t)
    ensures EndsWith(a + b, t)
  {
    SuffixChain(a + b, |a|, t);
  }

  /** A suffix of a text without '\n' has none either. */
  lemma NoNewlineSuffix(s: string, t: string)
    requires NoNewline(s) && EndsWith(s, t)
    ensures NoNewline(t)
  {
  }

  /** What follows the keyword's path is the end of the keyword clause. */
  lemma KeywordTailSuffix(c: string)
    requires KeywordTail(c).Some?
    ensures EndsWith(c, KeywordTail(c).value)
  {
    var k := if StartsWith(c, "OF") then 2 else 1;
    var d := c[k..];
    var sp2 := Patterns.Run(d, Patterns.Space);
    var e := d[|sp2|..];
    var path := Patterns.Run(e, Patterns.Name);
    var t := e[|path|..];
    assert KeywordTail(c).value == t;
    SuffixChain(e, |path|, t);
    SuffixChain(d, |sp2|, t);
    SuffixChain(c, k, t);
  }

  /** What follows a matched clause is the end of the clause's text. */
  lemma ClauseSuffix(b: string)
    requires TypeClause(b).Some?
    ensures EndsWith(b, TypeClause(b).value)
  {
    var sp := Patterns.Run(b, Patterns.Space);
    KeywordTailSuffix(b[|sp|..]);
    SuffixChain(b, |sp|, TypeClause(b).value);
  }

  /** A rewritten head holds no '\n' when neither the line nor the base does. */
  lemma RewriteHeadNoNewline(line: string, name: string, base: string)
    requires NoNewline(line) && NoNewline(base)
    ensures NoNewline(RewriteHead(line, name, base))
  {
    if RewriteHead(line, name, base) != line {
      var ws, b := RewriteHeadSound(line, name, base);
      ClauseSuffix(b);
      RewrittenNoNewline(line, ws, name, b, base, TypeClause(b).value);
    }
  }

  lemma RewrittenNoNewline(line: string, ws: string, name: string, b: string, base: string, tail: string)
    requires NoNewline(line) && NoNewline(base)
    requires line == ws + (name + b) && EndsWith(b, tail)
    ensures NoNewline(ws + name + " : " + base + tail)
  {
    SuffixConcat(ws + name, b, tail);
    assert line == (ws + name) + b;
    NoNewlineSuffix(line, tail);
    NoNewlineConcat(ws + name + " : ", base);
    NoNewlineConcat(ws + name + " : " + base, tail);
  }

  /** Only the first line of a definition is rewritten: the others come back as they were
      (for a definition whose last line is not empty; splitlines drops a trailing empty line). */
  lemma RewriteKeepsOtherLines(d: string, name: string, base: string)
    requires NoNewline(base)
    requires SplitLines(d) != [] && SplitLines(d)[|SplitLines(d)| - 1] != ""
    ensures var ls := SplitLines(d);
      var r := SplitLines(RewriteDefinition(d, name, base));
      r == [RewriteHead(ls[0], name, base)] + ls[1..] && |r| == |ls|
  {
    var ls := SplitLines(d);
    SplitLinesNoNewline(d);
    RewriteHeadNoNewline(ls[0], name, base);
    if |ls| == 1 {
      RewriteHeadEmpty(ls[0], name, base);
    }
    ReplaceFirstLine(ls, RewriteHead(ls[0], name, base));
  }

  /** Lines joined and split again after the first one is replaced. */
  lemma ReplaceFirstLine(ls: seq<string>, head: string)
    requires ls != [] && forall k :: 0 <= k < |ls| ==> NoNewline(ls[k])
    requires NoNewline(head) && ls[|ls| - 1] != "" && (|ls| == 1 ==> head != "")
    ensures SplitLines(Join([head] + ls[1..], "\n")) == [head] + ls[1..]
  {
    var ms := [head] + ls[1..];
    forall k | 0 <= k < |ms| ensures NoNewline(ms[k]) {
      if k > 0 {
        assert ms[k] == ls[k];
      }
    }
    assert ms[|ms| - 1] != "" by {
      if |ls| > 1 {
        assert ms[|ms| - 1] == ls[|ls| - 1];
      }
    }
    SplitJoinLines(ms);
  }

  /** A non-empty line never rewrites to the empty text. */
  lemma RewriteHeadEmpty(line: string, name: string, base: string)
    requires line != ""
    ensures RewriteHead(line, name, base) != ""
  {
    if RewriteHead(line, name, base) != line {
      var ws, b := RewriteHeadSound(line, name, base);
    }
  }

  // ---------------------------------------------------------------- _resolve_nested_types

  /** What the pass may do to one parameter: keep it, or, for a dotted type, set a non-empty
      type and the corrected flag; name, description and the bit-alias flag stay. */
  predicate ParamResolves(x: AoiParameter, y: AoiParameter)
  {
    y.name == x.name && y.description == x.description && y.isBitAlias == x.isBitAlias &&
    (y != x ==> '.' in x.dataType && y.isCorrected && y.dataType != "")
  }

  /** An AOI keeps its name, description, local tags and parameter order. */
  predicate AoiResolves(x: Aoi, y: Aoi)
  {
    y.name == x.name && y.description == x.description && y.localtags == x.localtags &&
    y.parameters.keys == x.parameters.keys &&
    forall q :: q in x.parameters.vals ==> q in y.parameters.vals && ParamResolves(x.parameters.vals[q], y.parameters.vals[q])
  }

  /** Everything but AOI parameters stays. */
  predicate Resolves(p: Project, r: Project)
  {
    r.header == p.header && r.tags == p.tags && r.udts == p.udts && r.programs == p.programs &&
    r.aois.keys == p.aois.keys &&
    forall a :: a in p.aois.vals ==> a in r.aois.vals && AoiResolves(p.aois.vals[a], r.aois.vals[a])
  }

  /** The log only grows, by correction entries. */
  predicate Logged(log: seq<string>, r: seq<string>)
  {
    log <= r && forall k :: |log| <= k < |r| ==> StartsWith(r[k], "Corrected ")
  }

  lemma ResolvesRefl(p: Project)
    ensures Resolves(p, p)
  {
  }

  lemma ResolvesTrans(p: Project, q: Project, r: Project)
    requires Resolves(p, q) && Resolves(q, r)
    ensures Resolves(p, r)
  {
    forall a | a in p.aois.vals
      ensures a in r.aois.vals && AoiResolves(p.aois.vals[a], r.aois.vals[a])
    {
      var x, y, z := p.aois.vals[a], q.aois.vals[a], r.aois.vals[a];
      forall k | k in x.parameters.vals
        ensures k in z.parameters.vals && ParamResolves(x.parameters.vals[k], z.parameters.vals[k])
      {
      }
    }
  }

  lemma LoggedTrans(a: seq<string>, b: seq<string>, c: seq<string>)
    requires Logged(a, b) && Logged(b, c)
    ensures Logged(a, c)
  {
    forall k | |a| <= k < |c| ensures StartsWith(c[k], "Corrected ") {
      if k < |b| { assert c[k] == b[k]; }
    }
  }

  lemma EntryLogged(log: seq<string>, e: string)
    requires StartsWith(e, "Corrected ")
    ensures Logged(log, log + [e])
  {
  }

  lemma EntryStarts(aoi: string, param: string, from: string, to: string)
    ensures StartsWith(CorrectedEntry(aoi, param, from, to), "Corrected ")
  {
    var e := CorrectedEntry(aoi, param, from, to);
    assert e == "Corrected " + (aoi + "." + param + ": from \"" + from + "\" to \"" + to + "\"");
  }

  /** One parameter: it is corrected and one entry is logged, or nothing happens at all.
      A change happens exactly when the parameter exists and its dotted type resolves to a
      different non-empty type; the parameter then takes that type, the corrected flag and its
      rewritten definition, nothing else in the project moves, and the entry names the AOI, the
      parameter, the old type and the new one. */
  lemma ResolveParamStep(p: Project, log: seq<string>, a: string, q: string)
    ensures var r := ResolveParam(p, log, a, q);
      Resolves(p, r.0) && Logged(log, r.1) && (r.1 == log <==> r.0 == p) && |r.1| <= |log| + 1
    ensures var r := ResolveParam(p, log, a, q);
      r.0 != p <==> a in p.aois.vals && q in p.aois.vals[a].parameters.vals && Changes(p, a, q)
    ensures var r := ResolveParam(p, log, a, q);
      r.0 != p ==>
        (a in p.aois.vals && q in p.aois.vals[a].parameters.vals &&
         a in r.0.aois.vals && q in r.0.aois.vals[a].parameters.vals &&
         var x, y := p.aois.vals[a].parameters.vals[q], r.0.aois.vals[a].parameters.vals[q];
         y.dataType == BaseOf(p, a, q) && y.isCorrected &&
         (HasText(x.definition) ==> y.definition == Some(RewriteDefinition(x.definition.value, x.name, BaseOf(p, a, q)))) &&
         (!HasText(x.definition) ==> y.definition == x.definition) &&
         r.1 == log + [CorrectedEntry(p.aois.vals[a].name, x.name, x.dataType, BaseOf(p, a, q))])
  {
    ResolveParamKeeps(p, log, a, q);
    var r := ResolveParam(p, log, a, q);
    if a in p.aois.vals && q in p.aois.vals[a].parameters.vals && Changes(p, a, q) {
      var prm := p.aois.vals[a].parameters.vals[q];
      var fixed := Corrected(prm, BaseOf(p, a, q));
      assert r.0.aois.vals[a].parameters.vals[q] == fixed;
      assert fixed != prm;
    }
  }

  /** One parameter, the part shared with the loops: the project resolves and the log grows by
      at most one correction entry, exactly when the project changes. */
  lemma ResolveParamKeeps(p: Project, log: seq<string>, a: string, q: string)
    ensures var r := ResolveParam(p, log, a, q);
      Resolves(p, r.0) && Logged(log, r.1) && (r.1 == log <==> r.0 == p) && |r.1| <= |log| + 1
  {
    var r := ResolveParam(p, log, a, q);
    if r.1 != log {
      var aoi := p.aois.vals[a];
      var prm := aoi.parameters.vals[q];
      var base := BaseOf(p, a, q);
      var fixed := Corrected(prm, base);
      var aoi' := aoi.(parameters := Put(aoi.parameters, q, fixed));
      EntryStarts(aoi.name, prm.name, prm.dataType, base);
      assert r.0.aois.vals[a] == aoi';
      assert fixed.dataType != prm.dataType;
      assert r.0.aois.vals[a].parameters.vals[q] != p.aois.vals[a].parameters.vals[q];
      assert AoiResolves(aoi, aoi');
    } else {
      ResolvesRefl(p);
    }
  }

  /** One parameter, as a frame: the other AOIs, the AOI's name and its other parameters stay. */
  lemma ResolveParamFrame(p: Project, log: seq<string>, a: string, q: string)
    ensures var r := ResolveParam(p, log, a, q);
      forall b :: b != a ==> Get(r.0.aois, b) == Get(p.aois, b)
    ensures var r := ResolveParam(p, log, a, q);
      a in p.aois.vals ==>
        (a in r.0.aois.vals && r.0.aois.vals[a].name == p.aois.vals[a].name &&
         forall k :: k != q ==> Get(r.0.aois.vals[a].parameters, k) == Get(p.aois.vals[a].parameters, k))
  {
  }

  /** The inner loop: parameters resolve, the log grows by correction entries, and an
      unchanged log means an unchanged project. */
  lemma {:induction false} ParamsFromKeeps(p: Project, log: seq<string>, a: string, qs: seq<string>, j: nat)
    requires j <= |qs|
    ensures var r := ParamsFrom(p, log, a, qs, j);
      Resolves(p, r.0) && Logged(log, r.1) && (r.1 == log ==> r.0 == p)
    decreases |qs| - j
  {
    if j == |qs| {
      ResolvesRefl(p);
    } else {
      var r1 := ResolveParam(p, log, a, qs[j]);
      ResolveParamKeeps(p, log, a, qs[j]);
      ParamsFromKeeps(r1.0, r1.1, a, qs, j + 1);
      var r := ParamsFrom(r1.0, r1.1, a, qs, j + 1);
      ResolvesTrans(p, r1.0, r.0);
      LoggedTrans(log, r1.1, r.1);
    }
  }

  /** The outer loop, likewise. */
  lemma {:induction false} ResolveFromKeeps(p: Project, log: seq<string>, names: seq<string>, i: nat)
    requires i <= |names|
    ensures var r := ResolveFrom(p, log, names, i);
      Resolves(p, r.0) && Logged(log, r.1) && (r.1 == log ==> r.0 == p)
    decreases |names| - i
  {
    if i == |names| {
      ResolvesRefl(p);
    } else {
      var r1 := ParamsFrom(p, log, names[i], ParamKeys(p, names[i]), 0);
      ParamsFromKeeps(p, log, names[i], ParamKeys(p, names[i]), 0);
      ResolveFromKeeps(r1.0, r1.1, names, i + 1);
      var r := ResolveFrom(r1.0, r1.1, names, i + 1);
      ResolvesTrans(p, r1.0, r.0);
      LoggedTrans(log, r1.1, r.1);
    }
  }

  // ---------------------------------------------------------------- the order of the log

  /** The entry for parameter q if it differs between AOI x (before) and AOI y (after). */
  function EntryFor(x: Aoi, y: Aoi, q: string): seq<string>
  {
    if q in x.parameters.vals && q in y.parameters.vals && x.parameters.vals[q] != y.parameters.vals[q] then
      var u, v := x.parameters.vals[q], y.parameters.vals[q];
      [CorrectedEntry(x.name, u.name, u.dataType, v.dataType)]
    else []
  }

  /** The entries for the changed parameters among qs[j..], in that order. */
  function ParamEntries(x: Aoi, y: Aoi, qs: seq<string>, j: nat): seq<string>
    requires j <= |qs|
    decreases |qs| - j
  {
    if j == |qs| then [] else EntryFor(x, y, qs[j]) + ParamEntries(x, y, qs, j + 1)
  }

  /** The entries for the changed parameters of the AOIs names[i..] from p to r: AOI by AOI,
      and within an AOI in the order of its parameters. */
  function AoiEntries(p: Project, r: Project, names: seq<string>, i: nat): seq<string>
    requires i <= |names|
    decreases |names| - i
  {
    if i == |names| then []
    else
      var a := names[i];
      (if a in p.aois.vals && a in r.aois.vals
       then ParamEntries(p.aois.vals[a], r.aois.vals[a], p.aois.vals[a].parameters.keys, 0) else []) +
      AoiEntries(p, r, names, i + 1)
  }

  /** No two of xs[j..] are equal. */
  predicate DistinctFrom(xs: seq<string>, j: nat)
  {
    forall k, l :: j <= k < l < |xs| ==> xs[k] != xs[l]
  }

  /** The inner loop leaves the other AOIs alone. */
  lemma {:induction false} ParamsFromOthers(p: Project, log: seq<string>, a: string, qs: seq<string>, j: nat, b: string)
    requires j <= |qs| && b != a
    ensures Get(ParamsFrom(p, log, a, qs, j).0.aois, b) == Get(p.aois, b)
    decreases |qs| - j
  {
    if j < |qs| {
      var r1 := ResolveParam(p, log, a, qs[j]);
      ResolveParamFrame(p, log, a, qs[j]);
      ParamsFromOthers(r1.0, r1.1, a, qs, j + 1, b);
    }
  }

  /** The inner loop leaves a parameter it does not visit alone. */
  lemma {:induction false} ParamsFromSkips(p: Project, log: seq<string>, a: string, qs: seq<string>, j: nat, q: string)
    requires j <= |qs| && a in p.aois.vals
    requires forall k :: j <= k < |qs| ==> qs[k] != q
    ensures var r := ParamsFrom(p, log, a, qs, j).0;
      a in r.aois.vals && Get(r.aois.vals[a].parameters, q) == Get(p.aois.vals[a].parameters, q)
    decreases |qs| - j
  {
    if j < |qs| {
      var r1 := ResolveParam(p, log, a, qs[j]);
      ResolveParamFrame(p, log, a, qs[j]);
      ParamsFromSkips(r1.0, r1.1, a, qs, j + 1, q);
    }
  }

  /** The outer loop leaves an AOI it does not visit alone. */
  lemma {:induction false} ResolveFromSkips(p: Project, log: seq<string>, names: seq<string>, i: nat, b: string)
    requires i <= |names|
    requires forall k :: i <= k < |names| ==> names[k] != b
    ensures Get(ResolveFrom(p, log, names, i).0.aois, b) == Get(p.aois, b)
    decreases |names| - i
  {
    if i < |names| {
      var r1 := ParamsFrom(p, log, names[i], ParamKeys(p, names[i]), 0);
      ParamsFromOthers(p, log, names[i], ParamKeys(p, names[i]), 0, b);
      ResolveFromSkips(r1.0, r1.1, names, i + 1, b);
    }
  }

  /** The inner loop over distinct parameters, started where AOI a still agrees with x0 on
      qs[j..], appends exactly the entries for the parameters it changed, in order. */
  lemma {:induction false} ParamsFromLog(x0: Aoi, p: Project, log: seq<string>, a: string, qs: seq<string>, j: nat)
    requires j <= |qs| && DistinctFrom(qs, j)
    requires a in p.aois.vals && p.aois.vals[a].name == x0.name
    requires forall k :: j <= k < |qs| ==> Get(p.aois.vals[a].parameters, qs[k]) == Get(x0.parameters, qs[k])
    ensures var r := ParamsFrom(p, log, a, qs, j);
      a in r.0.aois.vals && r.1 == log + ParamEntries(x0, r.0.aois.vals[a], qs, j)
    decreases |qs| - j
  {
    var r := ParamsFrom(p, log, a, qs, j);
    ParamsFromKeeps(p, log, a, qs, j);
    if j < |qs| {
      var q := qs[j];
      var r1 := ResolveParam(p, log, a, q);
      ResolveParamFrame(p, log, a, q);
      assert r == ParamsFrom(r1.0, r1.1, a, qs, j + 1);
      forall k | j + 1 <= k < |qs|
        ensures Get(r1.0.aois.vals[a].parameters, qs[k]) == Get(x0.parameters, qs[k])
      {
        assert qs[k] != q;
      }
      ParamsFromLog(x0, r1.0, r1.1, a, qs, j + 1);
      ParamsFromSkips(r1.0, r1.1, a, qs, j + 1, q);
      StepEntry(x0, p, log, a, q, r.0.aois.vals[a]);
    }
  }

  /** One turn's entry, seen from the AOI x0 before the loop and the AOI y after it, when
      y still holds the value the turn left at q. */
  lemma StepEntry(x0: Aoi, p: Project, log: seq<string>, a: string, q: string, y: Aoi)
    requires a in p.aois.vals && p.aois.vals[a].name == x0.name
    requires Get(p.aois.vals[a].parameters, q) == Get(x0.parameters, q)
    requires var r1 := ResolveParam(p, log, a, q);
      a in r1.0.aois.vals && Get(y.parameters, q) == Get(r1.0.aois.vals[a].parameters, q)
    ensures ResolveParam(p, log, a, q).1 == log + EntryFor(x0, y, q)
  {
    var r1 := ResolveParam(p, log, a, q);
    ResolveParamStep(p, log, a, q);
    if r1.0 != p {
      assert q in x0.parameters.vals;
    } else {
      assert Get(y.parameters, q) == Get(x0.parameters, q);
    }
  }

  /** The outer loop over distinct AOI names, started where the project still agrees with p0
      on names[i..], appends the entries for the changed parameters, AOI by AOI. */
  lemma {:induction false} ResolveFromLog(p0: Project, p: Project, log: seq<string>, names: seq<string>, i: nat)
    requires i <= |names| && DistinctFrom(names, i)
    requires forall k :: i <= k < |names| ==> Get(p.aois, names[k]) == Get(p0.aois, names[k])
    ensures var r := ResolveFrom(p, log, names, i);
      r.1 == log + AoiEntries(p0, r.0, names, i)
    decreases |names| - i
  {
    if i < |names| {
      var a := names[i];
      var qs := ParamKeys(p, a);
      var r1 := ParamsFrom(p, log, a, qs, 0);
      var r := ResolveFrom(r1.0, r1.1, names, i + 1);
      assert r == ResolveFrom(p, log, names, i);
      forall k | i + 1 <= k < |names|
        ensures Get(r1.0.aois, names[k]) == Get(p0.aois, names[k])
      {
        assert names[k] != a;
        ParamsFromOthers(p, log, a, qs, 0, names[k]);
      }
      ResolveFromLog(p0, r1.0, r1.1, names, i + 1);
      ResolveFromSkips(r1.0, r1.1, names, i + 1, a);
      if a in p0.aois.vals {
        var x0 := p0.aois.vals[a];
        assert Get(p.aois, a) == Get(p0.aois, a);
        ParamsFromLog(x0, p, log, a, qs, 0);
        assert r.0.aois.vals[a] == r1.0.aois.vals[a] by {
          assert Get(r.0.aois, a) == Get(r1.0.aois, a);
        }
      } else {
        assert Get(p.aois, a) == None;
      }
    }
  }

  /** _resolve_nested_types changes only dotted AOI parameter types (and their corrected
      flag and definition), keeps every order and every other part of the project, and when it
      logs nothing it changes nothing. The entries it appends are exactly one per parameter it
      changed, naming the AOI, the parameter, its old type and its new one, AOI by AOI in the
      order of the AOIs and, within an AOI, in the order of its parameters. */
  lemma ResolveNestedTypesKeeps(p: Project, log: seq<string>)
    ensures var r := ResolveNestedTypes(p, log);
      Resolves(p, r.0) && Logged(log, r.1) && (r.1 == log ==> r.0 == p)
    ensures var r := ResolveNestedTypes(p, log);
      r.1 == log + AoiEntries(p, r.0, p.aois.keys, 0)
  {
    ResolveFromKeeps(p, log, p.aois.keys, 0);
    ResolveFromLog(p, p, log, p.aois.keys, 0);
  }
}
