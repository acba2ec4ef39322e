/** The second pass of L5KParser: _find_base_type follows an AOI parameter's dotted type
    (`Word.3`, `Inst.Param`) through the AOI's local tags into other AOIs, and
    _resolve_nested_types rewrites every dotted parameter type that resolves to something
    else, in AOI-then-parameter order, logging each correction. */
module Resolver {
  import opened Text
  import opened OrderedMaps
  import opened Models
  import Patterns

  // ---------------------------------------------------------------- _find_base_type

  const BaseTypes: set<string> := {"BOOL", "SINT", "INT", "DINT", "LINT", "REAL"}

  /** The integer types whose numbered members are bits. */
  const WordTypes: set<string> := {"SINT", "INT", "DINT", "LINT"}

  /** How deep the resolution follows local tags. The source has no bound: a cycle of AOIs,
      or a long enough chain of local tags, recurses until Python raises RecursionError; the
      model keeps the path instead. */
  const Fuel: nat := 1000

  /** `path.split('.', 1)`: the text before the first '.' and the text after it. */
  function Root(path: string): string { BeforeChar(path, '.') }

  function MemberOf(path: string): string
    requires '.' in path
  {
    var e := FindChar(path, '.', 0);
    path[e + 1..]
  }

  /** The root is a local tag of an integer type and the member is a number. */
  predicate BitOfWord(ctx: Aoi, root: string, member: string)
  {
    root in ctx.localtags.vals && IsDigitStr(member) && UpperStr(ctx.localtags.vals[root].dataType) in WordTypes
  }

  /** The root is a local tag whose type names an AOI that has the member as a parameter. */
  predicate ThroughLocal(p: Project, ctx: Aoi, root: string, member: string)
  {
    root in ctx.localtags.vals && ctx.localtags.vals[root].dataType in p.aois.vals &&
    member in p.aois.vals[ctx.localtags.vals[root].dataType].parameters.vals
  }

  /** _find_base_type(path, ctx) over the project p, following at most `fuel` local tags. */
  function FindBaseType(p: Project, path: string, ctx: Aoi, fuel: nat): string
    decreases fuel
  {
    if path in BaseTypes || '.' !in path then path
    else
      var root := Root(path);
      var member := MemberOf(path);
      if BitOfWord(ctx, root, member) then "BOOL"
      else if ThroughLocal(p, ctx, root, member) then
        var parent := p.aois.vals[ctx.localtags.vals[root].dataType];
        if fuel == 0 then path
        else FindBaseType(p, parent.parameters.vals[member].dataType, parent, fuel - 1)
      else path
  }

  // ---------------------------------------------------------------- first-line rewrite

  /** `re.sub(r'^(\s*NAME)\s+(?:OF\s+[\w.]+|:\s*[\w.]+)', r'\1 : BASE', line)` for a name
      that starts with a non-blank (parameter names are `\w+`): the declared type after the
      name is replaced by `: BASE`, the rest of the line is kept; a line that does not match
      is returned as it is. */
  function RewriteHead(line: string, name: string, base: string): string
  {
    var ws := Patterns.Run(line, Patterns.Space);
    var a := line[|ws|..];
    if !StartsWith(a, name) then line
    else
      match TypeClause(a[|name|..])
      case None => line
      case Some(tail) => ws + name + " : " + base + tail
  }

  /** `\s+(?:OF\s+[\w.]+|:\s*[\w.]+)` at the start of b: what follows the match. */
  function TypeClause(b: string): Option<string>
  {
    var sp := Patterns.Run(b, Patterns.Space);
    if sp == [] then None else KeywordTail(b[|sp|..])
  }

  /** `OF\s+[\w.]+|:\s*[\w.]+` at the start of c: what follows the match. */
  function KeywordTail(c: string): Option<string>
  {
    if StartsWith(c, "OF") then
      var d := c[2..];
      var sp2 := Patterns.Run(d, Patterns.Space);
      if sp2 == [] then None else PathTail(d[|sp2|..])
    else if StartsWith(c, ":") then
      var d := c[1..];
      PathTail(d[|Patterns.Run(d, Patterns.Space)|..])
    else None
  }

  /** `[\w.]+` at the start of e: what follows the run. */
  function PathTail(e: string): Option<string>
  {
    var path := Patterns.Run(e, Patterns.Name);
    if path == [] then None else Some(e[|path|..])
  }

  /** The definition with its first line rewritten and its lines joined with '\n'. */
  function RewriteDefinition(d: string, name: string, base: string): string
  {
    var ls := SplitLines(d);
    if ls == [] then "" else Join([RewriteHead(ls[0], name, base)] + ls[1..], "\n")
  }

  // ---------------------------------------------------------------- _resolve_nested_types

  /** The entry appended to corrected_tags_log. */
  function CorrectedEntry(aoi: string, param: string, from: string, to: string): string
  {
    "Corrected " + aoi + "." + param + ": from \"" + from + "\" to \"" + to + "\""
  }

  /** The parameter after a correction to `base`. */
  function Corrected(prm: AoiParameter, base: string): AoiParameter
  {
    prm.(dataType := base, isCorrected := true,
         definition := if HasText(prm.definition) then Some(RewriteDefinition(prm.definition.value, prm.name, base))
                       else prm.definition)
  }

  /** The base type a parameter resolves to, in the project as it stands. */
  function BaseOf(p: Project, a: string, q: string): string
    requires a in p.aois.vals && q in p.aois.vals[a].parameters.vals
  {
    var aoi := p.aois.vals[a];
    FindBaseType(p, aoi.parameters.vals[q].dataType, aoi, Fuel)
  }

  /** The parameter is dotted and resolves to a non-empty type other than its own. */
  predicate Changes(p: Project, a: string, q: string)
    requires a in p.aois.vals && q in p.aois.vals[a].parameters.vals
  {
    var t := p.aois.vals[a].parameters.vals[q].dataType;
    '.' in t && BaseOf(p, a, q) != "" && BaseOf(p, a, q) != t
  }

  /** One turn of the inner loop: parameter q of AOI a, corrected in place. */
  function ResolveParam(p: Project, log: seq<string>, a: string, q: string): (Project, seq<string>)
  {
    if a !in p.aois.vals || q !in p.aois.vals[a].parameters.vals || !Changes(p, a, q) then (p, log)
    else
      var aoi := p.aois.vals[a];
      var prm := aoi.parameters.vals[q];
      var base := BaseOf(p, a, q);
      (p.(aois := Put(p.aois, a, aoi.(parameters := Put(aoi.parameters, q, Corrected(prm, base))))),
       log + [CorrectedEntry(aoi.name, prm.name, prm.dataType, base)])
  }

  /** The inner loop from parameter j of AOI a. */
  function ParamsFrom(p: Project, log: seq<string>, a: string, qs: seq<string>, j: nat): (Project, seq<string>)
    requires j <= |qs|
    decreases |qs| - j
  {
    if j == |qs| then (p, log)
    else
      var r := ResolveParam(p, log, a, qs[j]);
      ParamsFrom(r.0, r.1, a, qs, j + 1)
  }

  /** The parameters of AOI a, in their order when the inner loop starts. */
  function ParamKeys(p: Project, a: string): seq<string>
  {
    if a in p.aois.vals then p.aois.vals[a].parameters.keys else []
  }

  /** The outer loop from AOI i. */
  function ResolveFrom(p: Project, log: seq<string>, names: seq<string>, i: nat): (Project, seq<string>)
    requires i <= |names|
    decreases |names| - i
  {
    if i == |names| then (p, log)
    else
      var r := ParamsFrom(p, log, names[i], ParamKeys(p, names[i]), 0);
      ResolveFrom(r.0, r.1, names, i + 1)
  }

  /** _resolve_nested_types on project p and log. */
  function ResolveNestedTypes(p: Project, log: seq<string>): (Project, seq<string>)
  {
    ResolveFrom(p, log, p.aois.keys, 0)
  }

  /** The loops of _resolve_nested_types. */
  method ResolveTypes(p: Project, log: seq<string>) returns (p': Project, log': seq<string>)
    ensures (p', log') == ResolveNestedTypes(p, log)
  {
    var names := p.aois.keys;
    p', log' := p, log;
    var i := 0;
    while i < |names|
      invariant i <= |names|
      invariant ResolveFrom(p', log', names, i) == ResolveNestedTypes(p, log)
      decreases |names| - i
    {
      var qs := ParamKeys(p', names[i]);
      ghost var before := (p', log');
      var j := 0;
      while j < |qs|
        invariant j <= |qs|
        invariant ParamsFrom(p', log', names[i], qs, j) == ParamsFrom(before.0, before.1, names[i], qs, 0)
        decreases |qs| - j
      {
        p', log' := ResolveOne(p', log', names[i], qs[j]);
        j := j + 1;
      }
      i := i + 1;
    }
  }

  /** The body of the inner loop. */
  method ResolveOne(p: Project, log: seq<string>, a: string, q: string) returns (p': Project, log': seq<string>)
    ensures (p', log') == ResolveParam(p, log, a, q)
  {
    p', log' := p, log;
    if a in p.aois.vals && q in p.aois.vals[a].parameters.vals {
      var aoi := p.aois.vals[a];
      var prm := aoi.parameters.vals[q];
      var original := prm.dataType;
      if '.' in original {
        var base := FindBaseType(p, original, aoi, Fuel);
        if base != "" && base != original {
          var def := prm.definition;
          if HasText(def) {
            def := Some(RewriteDefinition(def.value, prm.name, base));
          }
          var fixed := prm.(dataType := base, isCorrected := true, definition := def);
          p' := p.(aois := Put(p.aois, a, aoi.(parameters := Put(aoi.parameters, q, fixed))));
          log' := log + [CorrectedEntry(aoi.name, prm.name, original, base)];
        }
      }
    }
  }
}
