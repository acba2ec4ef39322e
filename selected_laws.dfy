/** What get_selected_content promises, proved about the Step and Run of SelectedContent:
    ROUTINE bodies leave no trace, a block goes out only when something in it was kept,
    `DefaultData :=` lines are dropped and everything else outside the blocks is copied,
    the output only grows and starts with the header, selected tags are rebuilt without
    their values, and the BIT-alias member pattern never decides a name. */
module SelectedLaws {
  import opened Text
  import opened OrderedMaps
  import opened Models
  import opened L5kStrings
  import opened SelectedContent
  import Patterns
  import Capture
  import Utils
  import PatternLaws

  // ---------------------------------------------------------------- one line

  /** The lemmas below are about Dispatch for a line of kind k whose stripped text is s; a
      turn of the loop is Dispatch at the line's own kind. */
  lemma StepIsDispatch(c: Inputs, lines: seq<string>, i: nat, f: Filter)
    requires i < |lines|
    ensures var s := Strip(lines[i]);
      Step(c, lines, i, f) == Dispatch(c, lines, i, s, Classify(s, f), f)
  {
  }

  /** The precondition Dispatch has at a line's own kind. */
  predicate Fits(s: string, k: LineKind, f: Filter)
  {
    (k == TagEntry ==> TagEntryName(s).Some?) &&
    (k == UdtLine ==> f.st.currentUdt.Some?) &&
    ((k == ParamLine || k == LocalLine) ==> f.st.currentAoi.Some?)
  }

  /** While skipping, a line changes nothing but the flag, which clears exactly at a line
      whose stripped text ends with ");". */
  lemma SkipLine(c: Inputs, lines: seq<string>, i: nat, s: string, f: Filter)
    requires i < |lines| && f.skip
    ensures Classify(s, f) == Skipped
    ensures Dispatch(c, lines, i, s, Skipped, f) == (i + 1, f.(skip := !EndsWith(s, ");")))
  {
  }

  /** A ROUTINE line only enters the routine, and an END_ROUTINE line inside one only leaves
      it; any other line inside one changes nothing. */
  lemma RoutineLines(c: Inputs, lines: seq<string>, i: nat, s: string, f: Filter)
    requires i < |lines| && !f.skip
    ensures !f.st.inRoutine && StartsWith(s, "ROUTINE") ==>
      Classify(s, f) == RoutineOpen &&
      Dispatch(c, lines, i, s, RoutineOpen, f) == (i + 1, f.(st := f.st.(inRoutine := true)))
    ensures f.st.inRoutine ==>
      (Classify(s, f) == RoutineBody &&
       Dispatch(c, lines, i, s, RoutineBody, f) ==
         (i + 1, if StartsWith(s, "END_ROUTINE") then f.(st := f.st.(inRoutine := false)) else f))
  {
  }

  /** A line inside a routine other than its END_ROUTINE changes nothing. */
  lemma RoutineStep(c: Inputs, lines: seq<string>, i: nat, f: Filter)
    requires i < |lines| && !f.skip && f.st.inRoutine
    requires !StartsWith(Strip(lines[i]), "END_ROUTINE")
    ensures Step(c, lines, i, f) == (i + 1, f)
  {
    StepIsDispatch(c, lines, i, f);
    RoutineLines(c, lines, i, Strip(lines[i]), f);
  }

  /** No line from i up to j is an END_ROUTINE line. */
  predicate InsideRoutine(lines: seq<string>, i: nat, j: nat)
    requires i <= j <= |lines|
  {
    forall k :: i <= k < j ==> !StartsWith(Strip(lines[k]), "END_ROUTINE")
  }

  /** A line inside a routine other than its END_ROUTINE leaves the rest of the walk as it
      was. */
  lemma RoutineRunSame(c: Inputs, lines: seq<string>, i: nat, f: Filter)
    requires i < |lines| && !f.skip && f.st.inRoutine
    requires !StartsWith(Strip(lines[i]), "END_ROUTINE")
    ensures Run(c, lines, i, f) == Run(c, lines, i + 1, f)
  {
    RoutineStep(c, lines, i, f);
  }

  /** Values that agree from each index to the next agree from i to j. */
  lemma {:induction false} Chain(g: nat -> Filter, i: nat, j: nat)
    requires i <= j
    requires forall k: nat :: i <= k < j ==> g(k) == g(k + 1)
    ensures g(i) == g(j)
    decreases j - i
  {
    if i < j {
      Chain(g, i + 1, j);
    }
  }

  /** The lines of a routine before its END_ROUTINE leave the state as it was. */
  lemma RoutineSkipped(c: Inputs, lines: seq<string>, i: nat, j: nat, f: Filter)
    requires i <= j <= |lines| && !f.skip && f.st.inRoutine
    requires InsideRoutine(lines, i, j)
    ensures Run(c, lines, i, f) == Run(c, lines, j, f)
  {
    var g := (k: nat) => Run(c, lines, k, f);
    forall k: nat | i <= k < j
      ensures g(k) == g(k + 1)
    {
      RoutineRunSame(c, lines, k, f);
    }
    Chain(g, i, j);
  }

  // ---------------------------------------------------------------- blocks

  /** The lines that close a TAG, DATATYPE or AOI block. */
  predicate Closes(k: LineKind) { k.TagClose? || k.UdtClose? || k.AoiClose? || k.EncodedClose? }

  /** A closing line emits the block with itself appended exactly when some line of the block
      was kept, and empties both buffers. */
  lemma BlockClose(c: Inputs, lines: seq<string>, i: nat, s: string, k: LineKind, f: Filter)
    requires i < |lines| && Closes(k)
    ensures var r := Dispatch(c, lines, i, s, k, f);
      r.0 == i + 1 && r.1.block == [] && r.1.kept == [] && r.1.skip == f.skip &&
      r.1.out == f.out + (if f.kept == [] then [] else f.block + [lines[i]])
  {
  }

  /** The captured CONTROLLER header replaces as many source lines; without one, the line is
      copied. */
  lemma ControllerLine(c: Inputs, lines: seq<string>, i: nat, s: string, f: Filter)
    requires i < |lines|
    ensures var r := Dispatch(c, lines, i, s, ControllerOpen, f);
      r.1.st.inController && r.1.block == f.block && r.1.kept == f.kept &&
      (if c.hdr != [] then r.0 == i + |c.hdr| && r.1.out == f.out + c.hdr
       else r.0 == i + 1 && r.1.out == f.out + [lines[i]])
  {
  }

  /** END_CONTROLLER and the lines outside every block are copied, except the ones carrying
      `DefaultData :=`, which are dropped. */
  lemma DefaultDataDropped(c: Inputs, lines: seq<string>, i: nat, s: string, k: LineKind, f: Filter)
    requires i < |lines| && (k.Outside? || k.ControllerClose?)
    ensures var r := Dispatch(c, lines, i, s, k, f);
      r.0 == i + 1 && r.1.block == f.block && r.1.kept == f.kept &&
      r.1.out == if Contains(s, "DefaultData :=") then f.out else f.out + [lines[i]]
  {
  }

  /** A line inside a DATATYPE always joins the block, and is kept exactly when it names a
      member and the UDT or the member (or one of its BIT children) is selected. */
  lemma UdtMemberLine(c: Inputs, lines: seq<string>, i: nat, s: string, f: Filter)
    requires i < |lines| && f.st.currentUdt.Some?
    ensures var r := Dispatch(c, lines, i, s, UdtLine, f);
      var u := f.st.currentUdt.value;
      var m := MemberName(s);
      r.0 == i + 1 && r.1.out == f.out && r.1.block == f.block + [lines[i]] &&
      r.1.kept == (if m.Some? && (u in c.sel.udts || ShouldKeep(c.project, u, m.value, Chosen(c.sel.udtMembers, u)))
                   then f.kept + [lines[i]] else f.kept)
  {
  }

  // ---------------------------------------------------------------- tags

  /** A tag line of a TAG section never goes out as written: an unselected tag changes
      nothing, a selected one marks the block and adds its rebuilt lines. */
  lemma TagEntryLine(c: Inputs, lines: seq<string>, i: nat, s: string, f: Filter)
    requires i < |lines| && TagEntryName(s).Some?
    ensures var n := TagEntryName(s).value;
      var r := Dispatch(c, lines, i, s, TagEntry, f);
      r.0 == i + 1 &&
      (n !in c.sel.tags ==> r.1 == f) &&
      (n in c.sel.tags ==> r.1 == f.(kept := f.kept + [""], block := f.block + TagBody(c.project, n, lines[i], s)))
  {
  }

  /** The fallback statement of a selected tag holds no `:=` outside parentheses and quotes:
      the value is gone. */
  lemma ValueFreeHasNoValue(s: string)
    ensures FirstOutsideParens(ValueFree(s), ":=") == -1
  {
    var idx := FirstOutsideParens(s, ":=");
    if idx != -1 {
      var x := ValueFree(s);
      assert x == s[..idx][..|x|];
      assert x == s[..|x|];
      forall k | 0 <= k < |x|
        ensures !Hit(x, ":=", k)
      {
        if Hit(x, ":=", k) {
          HitPrefix(s, |x|, k);
        }
      }
    }
  }

  /** A hit in a prefix of s is a hit in s. */
  lemma HitPrefix(s: string, m: nat, k: nat)
    requires k < m <= |s| && Hit(s[..m], ":=", k)
    ensures Hit(s, ":=", k)
  {
    FopPrefix(s, m, k);
    assert s[..m][k..] == s[k..m];
  }

  /** The scan state at k is the same in s and in any prefix of s reaching k. */
  lemma {:induction false} FopPrefix(s: string, m: nat, k: nat)
    requires k <= m <= |s|
    ensures FopAt(s[..m], k) == FopAt(s, k)
  {
    if k > 0 {
      FopPrefix(s, m, k - 1);
    }
  }

  // ---------------------------------------------------------------- after an injected definition

  /** As written, the line after a one-line declaration whose definition was injected is
      swallowed whatever it holds: it is classified as skipped and reaches neither the block
      nor the output, so a following `B : BOOL (Usage := Input);` loses its definition. */
  lemma AsWrittenSwallowsNextLine(c: Inputs, lines: seq<string>, i: nat, n: string, def: Option<string>,
                                  chosen: set<string>, f: Filter)
    requires i + 1 < |lines| && HasText(def) && Capture.SingleLine(lines[i])
    ensures var g := OnAoiMember(AsWritten, lines[i], Some(n), def, chosen, f);
      var s := Strip(lines[i + 1]);
      g.skip && Capture.BlockEnd(lines, i) == i + 1 && Classify(s, g) == Skipped &&
      Step(c, lines, i + 1, g) == (i + 2, g.(skip := !EndsWith(s, ");")))
  {
    var g := OnAoiMember(AsWritten, lines[i], Some(n), def, chosen, f);
    StepIsDispatch(c, lines, i + 1, g);
    SkipLine(c, lines, i + 1, Strip(lines[i + 1]), g);
  }

  /** The two rules differ only on one-line declarations: for a declaration that goes on past
      its line, both skip to its end. */
  lemma RulesAgreeOnLongDeclarations(line: string, name: Option<string>, def: Option<string>,
                                     chosen: set<string>, f: Filter)
    requires !Capture.SingleLine(line)
    ensures OnAoiMember(AsWritten, line, name, def, chosen, f) == OnAoiMember(Corrected, line, name, def, chosen, f)
  {
  }

  /** Corrected, skipping starts after an injected definition exactly when the declaration
      capture_block took for it runs past its first line, so the line after a one-line
      declaration is read as it would have been without the definition. */
  lemma InjectedSkipsCapturedLines(lines: seq<string>, i: nat, n: string, def: Option<string>,
                                   chosen: set<string>, f: Filter)
    requires i + 1 < |lines| && HasText(def)
    ensures var g := OnAoiMember(Corrected, lines[i], Some(n), def, chosen, f);
      g.st == f.st && (g.skip <==> Capture.BlockEnd(lines, i) > i + 1)
  {
    Capture.BlockEndSpec(lines, i);
    if !Capture.SingleLine(lines[i]) {
      Capture.BlockScanFirst(lines, i, i + 1);
    }
  }

  /** So the line after a one-line declaration is classified as it would be had the
      declaration carried no definition, and is not skipped. */
  lemma CorrectedReadsNextLine(lines: seq<string>, i: nat, n: string, def: Option<string>,
                               chosen: set<string>, f: Filter)
    requires i + 1 < |lines| && HasText(def) && Capture.SingleLine(lines[i]) && !f.skip
    ensures var g := OnAoiMember(Corrected, lines[i], Some(n), def, chosen, f);
      var s := Strip(lines[i + 1]);
      Classify(s, g) == Classify(s, OnAoiMember(Corrected, lines[i], Some(n), None, chosen, f)) && Classify(s, g) != Skipped
  {
    var g := OnAoiMember(Corrected, lines[i], Some(n), def, chosen, f);
    var h := OnAoiMember(Corrected, lines[i], Some(n), None, chosen, f);
    ClassifyFrame(Strip(lines[i + 1]), g, h);
  }

  /** A line's kind depends on the block flags and the skip flag only. */
  lemma ClassifyFrame(s: string, f: Filter, g: Filter)
    requires f.st == g.st && f.skip == g.skip
    ensures Classify(s, f) == Classify(s, g)
  {
  }

  // ---------------------------------------------------------------- member names

  /** Every BIT alias line already matches the type-first pattern with the alias as its name,
      so the BIT fallback of the member recogniser never decides. */
  lemma BitAliasIsTypeFirst(s: string)
    requires Patterns.UdtBitAlias(s).Some?
    ensures TypeFirstMember(s) == Some(Patterns.UdtBitAlias(s).value.alias)
    ensures MemberName(s) == Some(Patterns.UdtBitAlias(s).value.alias)
  {
    var w1, a, w2, w, y := PatternLaws.BitHeadParts(s);
    var w3, w4, d, rest := PatternLaws.BitTailParts(a, w, y);
    var z := w2 + (w + y);
    PatternLaws.Head(w2, w + y);
    TypeFirstOfBit(w1, a, z);
  }

  /** The type-first pattern on "BIT", blanks, a word and then a blank: that word. */
  lemma TypeFirstOfBit(w1: string, a: string, z: string)
    requires |w1| > 0 && Patterns.All(w1, Patterns.Space) && |a| > 0 && Patterns.All(a, Patterns.Word)
    requires z != [] && IsSpace(z[0])
    ensures TypeFirstMember("BIT" + (w1 + (a + z))) == Some(a)
  {
    PatternLaws.BitAsTypeFirst(w1, a, z);
  }

  // ---------------------------------------------------------------- the whole walk

  /** One turn never takes lines back out of the output. */
  lemma StepOutGrows(c: Inputs, lines: seq<string>, i: nat, f: Filter)
    requires i < |lines|
    ensures f.out <= Step(c, lines, i, f).1.out
  {
    var s := Strip(lines[i]);
    StepIsDispatch(c, lines, i, f);
    DispatchOutGrows(c, lines, i, s, Classify(s, f), f);
  }

  lemma DispatchOutGrows(c: Inputs, lines: seq<string>, i: nat, s: string, k: LineKind, f: Filter)
    requires i < |lines| && Fits(s, k, f)
    ensures f.out <= Dispatch(c, lines, i, s, k, f).1.out
  {
    if BlockKind(k) {
      BlockOutGrows(c, lines, i, s, k, f);
    }
  }

  lemma BlockOutGrows(c: Inputs, lines: seq<string>, i: nat, s: string, k: LineKind, f: Filter)
    requires i < |lines| && Fits(s, k, f) && BlockKind(k)
    ensures f.out <= DispatchBlock(c, lines, i, s, k, f).1.out
  {
    if Closes(k) {
      BlockClose(c, lines, i, s, k, f);
    } else {
      BlockLinesHoldOut(c, lines, i, s, k, f);
    }
  }

  /** Inside the DATATYPE and AOI blocks only the closing line writes to the output. */
  lemma BlockLinesHoldOut(c: Inputs, lines: seq<string>, i: nat, s: string, k: LineKind, f: Filter)
    requires i < |lines| && Fits(s, k, f) && BlockKind(k) && !Closes(k)
    ensures DispatchBlock(c, lines, i, s, k, f).1.out == f.out
  {
    if k.UdtOpen? || k.AoiOpen? || k.EncodedOpen? {
      OpensHoldOut(c, lines, i, s, k, f);
    } else if k.ParamLine? || k.LocalLine? || k.UdtLine? {
      MembersHoldOut(c, lines, i, s, k, f);
    } else {
      SectionsHoldOut(c, lines, i, s, k, f);
    }
  }

  lemma OpensHoldOut(c: Inputs, lines: seq<string>, i: nat, s: string, k: LineKind, f: Filter)
    requires i < |lines| && (k.UdtOpen? || k.AoiOpen? || k.EncodedOpen?)
    ensures DispatchBlock(c, lines, i, s, k, f).1.out == f.out
  {
  }

  lemma MembersHoldOut(c: Inputs, lines: seq<string>, i: nat, s: string, k: LineKind, f: Filter)
    requires i < |lines| && Fits(s, k, f) && (k.ParamLine? || k.LocalLine? || k.UdtLine?)
    ensures DispatchBlock(c, lines, i, s, k, f).1.out == f.out
  {
    var a := f.st.currentAoi;
    if k.ParamLine? {
      var n := Utils.MatchAoiParamName(s);
      AoiMemberHoldsOut(c.rule, lines[i], n, if n.Some? then ParamDefinition(c.project, a.value, n.value) else None,
                        Chosen(c.sel.aoiParameters, a.value), f);
    } else if k.LocalLine? {
      var n := Utils.MatchAoiLocalName(s);
      AoiMemberHoldsOut(c.rule, lines[i], n, if n.Some? then LocalDefinition(c.project, a.value, n.value) else None,
                        Chosen(c.sel.aoiLocaltags, a.value), f);
    }
  }

  /** A parameter or local tag line adds to the block, never to the output. */
  lemma AoiMemberHoldsOut(rule: SkipRule, line: string, name: Option<string>, def: Option<string>,
                          chosen: set<string>, f: Filter)
    ensures OnAoiMember(rule, line, name, def, chosen, f).out == f.out
  {
  }

  lemma SectionsHoldOut(c: Inputs, lines: seq<string>, i: nat, s: string, k: LineKind, f: Filter)
    requires i < |lines| && (k.ParamsOpen? || k.ParamsClose? || k.LocalsOpen? || k.LocalsClose? || k.AoiLine?)
    ensures DispatchBlock(c, lines, i, s, k, f).1.out == f.out
  {
  }

  /** The output of the walk extends the output it started with. */
  lemma {:induction false} RunOutGrows(c: Inputs, lines: seq<string>, i: nat, f: Filter)
    ensures f.out <= Run(c, lines, i, f).out
    decreases |lines| - i
  {
    if i < |lines| {
      var r := Step(c, lines, i, f);
      StepOutGrows(c, lines, i, f);
      RunOutGrows(c, lines, r.0, r.1);
    }
  }

  lemma JoinStarts(parts: seq<string>, sep: string)
    requires parts != []
    ensures StartsWith(Join(parts, sep), parts[0])
  {
    if |parts| > 1 {
      assert Join(parts, sep) == parts[0] + (sep + Join(parts[1..], sep));
    }
  }

  /** The exported text starts with the file header, when the project has one. */
  lemma HeaderFirst(c: Inputs, lines: seq<string>)
    requires HasText(c.project.header)
    ensures StartsWith(SelectedText(c, lines), c.project.header.value)
  {
    var h := c.project.header.value;
    var f := Run(c, Body(c.project, lines), 0, Start([h]));
    RunOutGrows(c, Body(c.project, lines), 0, Start([h]));
    JoinStarts(f.out, "\n");
  }

  // ---------------------------------------------------------------- the body

  /** Without a header the whole file is walked. */
  lemma BodyWithoutHeader(p: Project, lines: seq<string>)
    requires !HasText(p.header)
    ensures Body(p, lines) == lines
  {
  }

  /** With a header of n lines, the walk starts at the first CONTROLLER line from line n on. */
  lemma BodyAtController(p: Project, lines: seq<string>, j: nat)
    requires HasText(p.header)
    requires |SplitLines(p.header.value)| <= j < |lines|
    requires StartsAfterBlanks(lines[j], "CONTROLLER")
    requires forall k :: |SplitLines(p.header.value)| <= k < j ==> !StartsAfterBlanks(lines[k], "CONTROLLER")
    ensures Body(p, lines) == lines[j..]
  {
    var n := |SplitLines(p.header.value)|;
    var e := Capture.FirstController(lines, n);
    if e > j {
      Capture.FirstControllerFirst(lines, n, j);
    }
  }

  /** With a header of n lines and no CONTROLLER line from line n on, the walk starts at
      line n. */
  lemma BodyWithoutController(p: Project, lines: seq<string>)
    requires HasText(p.header)
    requires forall k :: |SplitLines(p.header.value)| <= k < |lines| ==> !StartsAfterBlanks(lines[k], "CONTROLLER")
    ensures var n := |SplitLines(p.header.value)|;
      Body(p, lines) == if n <= |lines| then lines[n..] else []
  {
  }
}
