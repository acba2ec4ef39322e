/** The TAG statement handling of L5KParser: _parse_tag_fields splits one accumulated
    statement into name, data type, description and a value-free definition, and
    _emit_tag_spec / _emit_prog_tag_spec store the result in the controller's or a
    program's tags. */
module TagFields {
  import opened Text
  import opened OrderedMaps
  import opened L5kStrings
  import opened L5kAttributes
  import opened Models
  import Patterns
  import PatternLaws

  /** The four fields _parse_tag_fields returns. */
  datatype TagFields = TagFields(name: string, dtype: string, desc: string, definition: string)

  /** The declaration part of a statement: the text before its first top-level `:=`
      (right-trimmed), then before the first top-level ',' of that (right-trimmed). */
  function Declaration(stmt: string): string
  {
    var ia := FirstOutsideParens(stmt, ":=");
    var left := if ia == -1 then stmt else RStrip(stmt[..ia]);
    var ic := FirstOutsideParens(left, ",");
    if ic == -1 then left else RStrip(left[..ic])
  }

  /** The stored definition: the prefix with its attribute group put back, ending with ';'. */
  function TagDefinition(prefix: string, attrs: string): string
  {
    var d := if attrs != "" then prefix + " (" + attrs + ")" else prefix;
    if EndsWith(d, ";") then d else RStrip(d) + ";"
  }

  /** The data type: the trimmed type group, and for a program tag only what precedes '('. */
  function TagType(group: string, program: bool): string
  {
    var t := Strip(group);
    if program && '(' in t then Strip(BeforeChar(t, '(')) else t
  }

  /** _parse_tag_fields(buf, strip_paren_from_dtype := program). */
  function ParseTagFields(buf: string, program: bool): Option<TagFields>
  {
    var decl := Declaration(Strip(buf));
    var split := SplitOuterAttrs(decl);
    var prefix := split.0;
    var attrs := split.1;
    match Patterns.TagPrefix(prefix)
    case None => None
    case Some(m) =>
      Some(TagFields(m.name, TagType(m.dtype, program), if attrs != "" then GetDesc(attrs) else "",
                     TagDefinition(prefix, attrs)))
  }

  /** The entity _emit_tag_spec and _emit_prog_tag_spec build from the fields. */
  function FieldsTag(f: TagFields): Tag
  {
    Tag(f.name, f.dtype, f.desc, Some(f.definition))
  }

  /** The tag stored under its name in the controller tags. */
  function StoreTag(p: Project, f: TagFields): Project
  {
    p.(tags := Put(p.tags, f.name, FieldsTag(f)))
  }

  /** _emit_tag_spec: a statement that parses is stored under its name in the controller
      tags; one that does not changes nothing. */
  function EmitTag(p: Project, buf: string): Project
  {
    match ParseTagFields(buf, false)
    case None => p
    case Some(f) => StoreTag(p, f)
  }

  /** Python truthiness of an optional name. */
  predicate IsSet(prog: Option<string>) { prog.Some? && prog.value != "" }

  /** The tag stored under its name in the tags of the program named prog. */
  function StoreProgTag(p: Project, prog: string, f: TagFields): Project
    requires prog in p.programs.vals
  {
    var pr := p.programs.vals[prog];
    p.(programs := Put(p.programs, prog, pr.(tags := Put(pr.tags, f.name, FieldsTag(f)))))
  }

  /** _emit_prog_tag_spec: only for a named program the project already holds, and only for a
      statement that parses; the tag goes into that program's tags. */
  function EmitProgTag(p: Project, prog: Option<string>, buf: string): Project
  {
    if !IsSet(prog) || prog.value !in p.programs.vals then p
    else
      match ParseTagFields(buf, true)
      case None => p
      case Some(f) => StoreProgTag(p, prog.value, f)
  }

  // ---------------------------------------------------------------- properties

  /** The scan state before position k depends only on the text before k. */
  lemma {:induction false} FopAtPrefix(s: string, n: nat, k: nat)
    requires k <= n <= |s|
    ensures FopAt(s[..n], k) == FopAt(s, k)
  {
    if k > 0 {
      FopAtPrefix(s, n, k - 1);
      assert s[..n][k - 1] == s[k - 1];
    }
  }

  /** A top-level occurrence in a prefix is one in the whole text. */
  lemma HitPrefix(s: string, n: nat, target: string, k: nat)
    requires k < n <= |s| && Hit(s[..n], target, k)
    ensures Hit(s, target, k)
  {
    FopAtPrefix(s, n, k);
    assert s[..n][k..] == s[k..n];
    assert s[k..][..|target|] == s[k..n][..|target|];
  }

  /** The cut text holds no top-level target: the first occurrence was at or after its end. */
  lemma CutBefore(s: string, target: string, d: string)
    requires StartsWith(s, d)
    requires var i := FirstOutsideParens(s, target); i == -1 || |d| <= i
    ensures forall k :: 0 <= k < |d| ==> !Hit(d, target, k)
  {
    forall k | 0 <= k < |d| ensures !Hit(d, target, k) {
      assert d == s[..|d|];
      if Hit(d, target, k) {
        HitPrefix(s, |d|, target, k);
      }
    }
  }

  lemma PrefixTrans(a: string, b: string, c: string)
    requires StartsWith(a, b) && StartsWith(b, c)
    ensures StartsWith(a, c)
  {
    assert a[..|c|] == b[..|c|];
  }

  /** The declaration is a prefix of the statement that stops before the first top-level
      `:=`, and it holds neither a top-level `:=` nor a top-level ',': the assigned value
      and the force data never reach the definition. */
  lemma {:induction false} DeclarationCut(stmt: string)
    ensures var d := Declaration(stmt);
      StartsWith(stmt, d) &&
      (FirstOutsideParens(stmt, ":=") >= 0 ==> |d| <= FirstOutsideParens(stmt, ":=")) &&
      (forall k :: 0 <= k < |d| ==> !Hit(d, ":=", k)) &&
      (forall k :: 0 <= k < |d| ==> !Hit(d, ",", k))
  {
    var ia := FirstOutsideParens(stmt, ":=");
    var left := if ia == -1 then stmt else RStrip(stmt[..ia]);
    assert StartsWith(stmt, left) by {
      if ia != -1 { PrefixTrans(stmt, stmt[..ia], left); }
    }
    var ic := FirstOutsideParens(left, ",");
    var d := Declaration(stmt);
    assert StartsWith(left, d) by {
      if ic != -1 { PrefixTrans(left, left[..ic], d); }
    }
    PrefixTrans(stmt, left, d);
    CutBefore(stmt, ":=", d);
    CutBefore(left, ",", d);
  }

  /** The definition always ends with ';'. */
  lemma DefinitionEnds(prefix: string, attrs: string)
    ensures EndsWith(TagDefinition(prefix, attrs), ";")
  {
    var d := if attrs != "" then prefix + " (" + attrs + ")" else prefix;
    if !EndsWith(d, ";") {
      var r := RStrip(d) + ";";
      assert r[|r| - 1..] == ";";
    }
  }

  /** A program tag's data type holds no '(': it is cut before the first one. */
  lemma ProgramTypeNoParen(group: string)
    ensures '(' !in TagType(group, true)
  {
    var t := Strip(group);
    if '(' in t {
      var b := BeforeChar(t, '(');
      assert forall k :: 0 <= k < |b| ==> b[k] == t[k] && b[k] != '(';
      StripHasChar(b, '(');
    }
  }

  /** _parse_tag_fields returns None exactly when the prefix does not match RE_TAG_PREFIX;
      otherwise the name is the dotted name the prefix starts with, the definition ends with
      ';', a tag without an attribute group has no description, and a program tag's data
      type holds no '('. */
  lemma ParseTagFieldsSpec(buf: string, program: bool)
    ensures var prefix := SplitOuterAttrs(Declaration(Strip(buf))).0;
      var attrs := SplitOuterAttrs(Declaration(Strip(buf))).1;
      var r := ParseTagFields(buf, program);
      (r.None? <==> Patterns.TagPrefix(prefix).None?) &&
      (r.Some? ==>
        Patterns.IsDottedName(r.value.name) &&
        StartsWith(LStrip(prefix), r.value.name) &&
        EndsWith(r.value.definition, ";") &&
        (attrs == "" ==> r.value.desc == "" && r.value.definition == TagDefinition(prefix, "")) &&
        (program ==> '(' !in r.value.dtype))
  {
    var prefix := SplitOuterAttrs(Declaration(Strip(buf))).0;
    var attrs := SplitOuterAttrs(Declaration(Strip(buf))).1;
    if Patterns.TagPrefix(prefix).Some? {
      PatternLaws.TagPrefixName(prefix);
      DefinitionEnds(prefix, attrs);
      ProgramTypeNoParen(Patterns.TagPrefix(prefix).value.dtype);
    }
  }

  /** Storing a tag puts it under its name, keeps the other tags and their order, and leaves
      the rest of the project alone. */
  lemma StoreTagSpec(p: Project, f: TagFields)
    ensures var r := StoreTag(p, f);
      r.header == p.header && r.udts == p.udts && r.aois == p.aois && r.programs == p.programs &&
      Get(r.tags, f.name) == Some(FieldsTag(f)) &&
      (forall k :: k != f.name ==> Get(r.tags, k) == Get(p.tags, k)) &&
      (HasKey(p.tags, f.name) ==> r.tags.keys == p.tags.keys) &&
      (!HasKey(p.tags, f.name) ==> r.tags.keys == p.tags.keys + [f.name])
  {
  }

  /** Storing a program tag changes only that program's tags: its name, its description, the
      program order and every other program stay. */
  lemma StoreProgTagSpec(p: Project, prog: string, f: TagFields)
    requires HasKey(p.programs, prog)
    ensures var r := StoreProgTag(p, prog, f);
      r.header == p.header && r.tags == p.tags && r.udts == p.udts && r.aois == p.aois &&
      r.programs.keys == p.programs.keys &&
      (forall k :: k != prog ==> Get(r.programs, k) == Get(p.programs, k)) &&
      var before := p.programs.vals[prog];
      var after := r.programs.vals[prog];
      after.name == before.name && after.description == before.description &&
      Get(after.tags, f.name) == Some(FieldsTag(f)) &&
      (forall k :: k != f.name ==> Get(after.tags, k) == Get(before.tags, k))
  {
  }
}
