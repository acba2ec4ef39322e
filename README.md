# L5K Tuner text pipeline, modelled in Dafny

L5K Tuner reads a Rockwell L5K export and builds a project model: the file header, the
CONTROLLER header, user-defined types (UDTs), add-on instructions (AOIs), controller tags and
program tags. It resolves the base types of AOI parameters declared through `OF` paths, and
writes a filtered L5K file back. That file holds only what the user ticked in a tree view.
Beside the GUI sit data-only pieces:
- the tree state (check marks, metadata, save and restore);
- the enabled/disabled view filter;
- the selection builder;
- the logical keys of a project;
- the merge of an updated export into the loaded project;
- the project's save format.

This project models that pipeline in Dafny and proves what each part promises:
- Strings are `seq<char>` and line lists are `seq<string>`.
- Every insertion-ordered dictionary is an `OrderedMap`: a key sequence plus a map, with
  distinct keys that match the map's domain.
- The regular expressions are hand-written recognisers with soundness and completeness lemmas.
- Character loops and line loops are methods with loop invariants, each proved equal to a
  specification function. The properties are proved as lemmas about those functions.
- The two objects whose fields change in place are classes: the TAG statement buffer and the
  tree state. So are the parser and the application's loaded project.

Module layout, following the source files:

| module (file) | models |
|---|---|
| `Text` (text.dfy) | Python string helpers used throughout: strip, find, join, split on '\n' |
| `Utils` (utils.dfy) | `utils.py`: paren_delta, extract_block_name, match_aoi_param_name, match_aoi_local_name |
| `L5kStrings` (strings.dfy) | `strings.py`: encode_l5k_string and its inverse, first_outside_parens, split_outer_attrs |
| `L5kAttributes` (attributes.dfy) | `strings.py`: get_desc, set_desc, strip_attrs with its three DefaultData rewrites |
| `Dedent` (dedent.dfy) | `strings.py`: dedent_lines (textwrap.dedent's common margin) |
| `Patterns`, `PatternLaws` (patterns.dfy, pattern_laws.dfy) | `patterns.py`: the recognisers and their shape lemmas |
| `Models` (models.dfy) | `models.py`: entities, add_*, display_name, every to_l5k, _dedent_lines, _indent_lines |
| `OrderedMaps` (ordered_maps.dfy) | Python dict: assignment, pop, values() |
| `TagBuffers` (tag_buffer.dfy) | `TagBuffer` in `l5k_parser.py` |
| `Capture` (capture.dfy) | `_parse_header`, `capture_block`, `_capture_controller_header` and the header/metadata captures |
| `TagFields` (tag_fields.dfy) | `_parse_tag_fields`, `_emit_tag_spec`, `_emit_prog_tag_spec` |
| `Structures`, `StructureLaws` (structures.dfy, structure_laws.dfy) | the `while i < n` loop of `_parse_structures` |
| `Resolver`, `ResolverLaws` (resolver.dfy, resolver_laws.dfy) | `_find_base_type`, `_resolve_nested_types` |
| `SelectedContent`, `SelectedLaws` (selected_content.dfy, selected_laws.dfy) | `get_selected_content` |
| `L5kParser` (l5k_parser.dfy) | the `L5KParser` object: parse, _ensure_*, _pad_local_tags, _render_program_header_line |
| `Exporter` (exporter.dfy) | `exporter.export_whitelist` |
| `Trees`, `TreeStates` (trees.dfy, tree_state.dfy) | an abstract parent/children tree; `TreeState` |
| `ViewFilter` (view_filter.dfy) | `apply_filter` |
| `GuiSelection`, `GuiKeys`, `GuiMerge`, `GuiPersist` | in `gui.py`: `_build_selection_structure`, `_keys_for_project`, the added/removed diff with `_apply_merge_changes`, and `_project_to_dict`/`_project_from_dict` |

## Model

| member | source | states |
|---|---|---|
| Utils.ComputeParenDelta | L5KTuner/utils.py:12-33 | the character loop, with its in-string and escape flags, returns the balance defined by the scan function ParenDelta |
| Utils.ParenDeltaPlain | L5KTuner/utils.py:26-32 | a line without a double quote has balance #'(' − #')' |
| Utils.ParenDeltaConcat | L5KTuner/utils.py:16-33 | for a prefix a without '"', paren_delta(a + b) == paren_delta(a) + paren_delta(b) |
| Utils.ParenDeltaNoParens | L5KTuner/utils.py:27-32 | only '(' and ')' change the count: a text without them has balance 0, whatever brackets, braces or single quotes it holds |
| Utils.QuotedScan | L5KTuner/utils.py:18-25 | inside a string, a backslash-escaped body and the closing quote leave the balance alone, so `\"` does not end the string |
| Utils.ParenDeltaQuoted | L5KTuner/utils.py:18-28 | a complete double-quoted literal in front of a line adds nothing to its balance, whatever parentheses it holds |
| Utils.ExtractBlockNameIff | L5KTuner/utils.py:36-44 | the name is returned exactly for lines `<header> <blanks> <name>…`, the name being the maximal run of non-blank, non-'(' characters; otherwise None |
| Utils.MatchAoiParamNameIff | L5KTuner/utils.py:47-50 | a name is returned exactly when the line is `<word> <blanks> (OF or :) <blanks> <[\w.]+ path>` |
| Utils.MatchAoiLocalNameIff | L5KTuner/utils.py:53-56 | a name is returned exactly when the line is `<word> [blanks] : [blanks] <word>` |
| L5kStrings.EncodeIsMap | L5KTuner/strings.py:113-115 | the chain of five replacements ('$' first) escapes each character on its own: `$`→`$$`, `"`→`$"`, `'`→`$'`, CR→`$R`, LF→`$N` |
| L5kStrings.EncodeEscaped | L5KTuner/strings.py:103-117 | every encoding is a well-formed literal body: no bare quote, CR or LF, and every '$' begins a two-character escape |
| L5kStrings.DecodeEncode | L5KTuner/strings.py:103-117 | decoding undoes the encoding: Decode(Encode(s)) == s |
| L5kStrings.EncodeDecode | L5KTuner/strings.py:103-117 | every well-formed literal body is the encoding of its decoding |
| L5kStrings.FirstOutsideParens | L5KTuner/strings.py:26-70 | the result is −1 exactly when no position qualifies; otherwise s[r..] starts with the target, r is at depth 0 outside both quote kinds, and no earlier position qualifies |
| L5kStrings.ComputeFirstOutsideParens | L5KTuner/strings.py:31-70 | the loop, with its depth, quote and escape variables, returns FirstOutsideParens |
| L5kStrings.FopDepthNonNegative | L5KTuner/strings.py:60-66 | the depth never goes negative: a closer at depth 0 is ignored |
| L5kStrings.DollarAbsorbs | L5KTuner/strings.py:36-51 | inside either quote kind '$' absorbs the next character, so `$"` and `$'` do not end the string |
| L5kStrings.EncodedLiteralSkipped | L5KTuner/strings.py:36-59 | a literal written by encode_l5k_string, in either quote kind, is skipped whole: the scan leaves it in the state it entered |
| L5kStrings.CutAtLastClose | L5KTuner/strings.py:78-83 | the right-trimmed text is cut after its last ')', and is kept whole when it has none |
| L5kStrings.LastTopOpen | L5KTuner/strings.py:88-96 | `start` ends as the last '(' opened at depth 0, or None when there is none |
| L5kStrings.SplitOuter | L5KTuner/strings.py:85-100 | a split exists exactly when the cut text ends with ')', has a top-level '(' and is balanced; it is (text before that '(' right-trimmed, text inside up to the final ')') |
| L5kStrings.ComputeSplitOuterAttrs | L5KTuner/strings.py:73-100 | the loop returns SplitOuterAttrs(left) |
| L5kStrings.SplitWithoutClose | L5KTuner/strings.py:78-86 | without any ')' the result is (left, "") |
| L5kStrings.SplitUnbalanced | L5KTuner/strings.py:97-100 | with unbalanced parentheses the result is (left, "") |
| L5kAttributes.GetDesc | L5KTuner/strings.py:130-133 | the result holds no '"', and is "" when RE_DESC matches nowhere (also line 11) |
| L5kAttributes.DescValueIff | L5KTuner/strings.py:11 | after the keyword, the value part yields d exactly when it reads `<blanks> := <blanks> "d"` with no quote in d |
| L5kAttributes.GetDescFirst | L5KTuner/strings.py:130-133 | re.search takes the first position: a match at i with none before it gives the result |
| L5kAttributes.GetDescRendered | L5KTuner/strings.py:130-133 | `Description := "d"` as a renderer writes it reads back as d (also line 11) |
| L5kAttributes.SetDesc | L5KTuner/strings.py:136-140 | a found non-empty description replaces the current one; otherwise the description is untouched |
| L5kAttributes.SetDescRendered | L5KTuner/strings.py:136-140 | setting from a rendered attribute installs exactly that description |
| L5kAttributes.Sub | L5KTuner/strings.py:153-155 | re.sub(pattern, '', t) never lengthens the text |
| L5kAttributes.StripAttrs | L5KTuner/strings.py:143-159 | an empty input, or one without the exact text "DefaultData", comes back unchanged; otherwise at most two rounds of the three rewrites are applied (a round changing nothing stops the loop); the names argument is ignored |
| L5kAttributes.ComputeStripAttrs | L5KTuner/strings.py:148-159 | the bounded loop with its early break returns StripAttrs |
| L5kAttributes.StripAttrsNoMatch | L5KTuner/strings.py:152-159 | where no rewrite matches at any position, strip_attrs returns its input |
| L5kAttributes.SubKeeps | L5KTuner/strings.py:153-155 | characters where no match starts are kept and the scan goes on after them |
| L5kAttributes.SubDrops | L5KTuner/strings.py:153-155 | a match is dropped whole and the scan resumes right after it |
| L5kAttributes.TrailCommaAccepts | L5KTuner/strings.py:15-19 | `DefaultData := v, ` with a plain v is removed by the second rewrite up to the next non-blank character (also line 154) |
| L5kAttributes.AtEndAccepts | L5KTuner/strings.py:20-23 | `DefaultData := v` with a plain v right before ')' is removed by the third rewrite, which leaves the ')' in place (also line 155) |
| L5kAttributes.LeadCommaAccepts | L5KTuner/strings.py:11-14 | `, DefaultData := v` with a plain v before ',' or ')' is removed by the first rewrite, which leaves that delimiter in place (also line 153) |
| L5kAttributes.MatchRestAhead | L5KTuner/strings.py:11-23 | the first and third rewrites stop in front of the ',' or ')' their look-ahead saw, so they never remove the ')' closing the attribute list |
| Dedent.Margin | L5KTuner/strings.py:125-127 | the margin is a common prefix of the indents of all non-blank lines, and None exactly when every line is blank |
| Dedent.MarginTight | L5KTuner/strings.py:125-127 | the margin cannot be extended: for any further character some non-blank line's indent does not continue with it |
| Dedent.DedentKeepsText | L5KTuner/strings.py:120-127 | dedenting removes exactly the margin from every non-blank line and empties blank ones, so relative indentation is kept |
| Dedent.SplitAllJoin | L5KTuner/strings.py:127 | splitting at '\n' undoes '\n'.join over lines without line breaks |
| Dedent.DedentIdempotent | L5KTuner/strings.py:120-127 | dedenting twice is dedenting once |
| PatternLaws.ControllerHeaderIff | L5KTuner/patterns.py:11-13 | a line is recognised with name n exactly when it is `CONTROLLER <blanks> <identifier n> [blanks]` followed by '(' or the end |
| PatternLaws.UdtTypeFirstIff | L5KTuner/patterns.py:16-20 | a member line is recognised exactly when it is `<type> <one blank> <name>[d(,d)*]…`, with the type, name and declarator as the three groups |
| PatternLaws.UdtTypeFirstPlain | L5KTuner/patterns.py:16-20 | `<type> <name><rest>` with no declarator is recognised with an empty name_dims |
| PatternLaws.UdtTypeFirstDims | L5KTuner/patterns.py:16-20 | `<type> <name>[d1,…]<rest>` is recognised with the declarator captured separately |
| PatternLaws.DimsLengthOf | L5KTuner/patterns.py:18 | a complete declarator is captured whole, whatever follows it |
| PatternLaws.UdtBitAliasIff | L5KTuner/patterns.py:21-23 | a line is recognised exactly when it is `BIT <alias> <word> : <digits>` with a word boundary after the digits; the groups are alias, word and bit number |
| PatternLaws.BitAsTypeFirst | L5KTuner/patterns.py:16-23 | the type-first pattern reads `BIT <blanks> <alias> …` with "BIT" as the type and no declarator |
| PatternLaws.FamilyTypeIdent | L5KTuner/patterns.py:24 | a recognised family type is an identifier |
| PatternLaws.FamilyTypeValueAccepts | L5KTuner/patterns.py:24 | `[blanks] := [blanks] <ident>` after the case-insensitive keyword yields the identifier |
| PatternLaws.FamilyTypeFirst | L5KTuner/patterns.py:24 | as with re.search, the result is the match at the first matching position, and None exactly when the pattern matches nowhere |
| PatternLaws.AoiParamIff | L5KTuner/patterns.py:26-30 | a parameter line is recognised exactly when it is `<name> <blanks> (OF or :) <blanks> <[\w.]+ path>`, with name and path as groups |
| PatternLaws.AoiLocalTagIff | L5KTuner/patterns.py:31 | a local tag line is recognised exactly when it is `<name> [blanks] : [blanks] <word>` |
| PatternLaws.TagPrefixName | L5KTuner/patterns.py:34-37 | a matched prefix starts, after blanks, with the dotted tag name it returns |
| PatternLaws.TagPrefixPlain | L5KTuner/patterns.py:34-37 | `<name> [blanks] : [blanks] <type>` yields the name and the right-trimmed remainder as the type |
| PatternLaws.TagPrefixAlias | L5KTuner/patterns.py:34-37 | `<name> <blanks> OF <blanks> <alias> <blanks> : [blanks] <type>` yields the name and the trimmed type; the alias RE_TAG_PREFIX captures as group 2 is never read by the parser (l5k_parser.py:961-962) |
| PatternLaws.TagPrefixBlanks | L5KTuner/patterns.py:34 | leading blanks do not change the match |
| PatternLaws.NameSearchAt | L5KTuner/patterns.py:34-37 | the longest name candidate wins when the rest of the pattern matches after it (the regex's backtracking order) |
| Models.AddMember | L5KTuner/models.py:74-75 | the member is stored under its name; an existing key is overwritten and keeps its position, a new key goes last, nothing else changes |
| Models.AddChild | L5KTuner/models.py:108-109 | the same law for a member's children |
| Models.AddParameter | L5KTuner/models.py:134-135 | the same law for an AOI's parameters |
| Models.AddLocalTag | L5KTuner/models.py:137-138 | the same law for an AOI's local tags |
| Models.DisplayName | L5KTuner/models.py:111-113 | the display name is the base name followed by the captured array declarator |
| Models.KeepNonBlankSpec | L5KTuner/models.py:253-255 | _dedent_lines keeps only lines that are not whitespace-only, taken from the input, and every such line appears in the result |
| Models.KeepNonBlankConcat | L5KTuner/models.py:253-255 | _dedent_lines works line by line: the kept lines of a + b are those of a followed by those of b, and one line is kept exactly when it is not blank, which fixes the order and the number of copies |
| Models.IndentLinesSpec | L5KTuner/models.py:257-259 | _indent_lines keeps the line count, and line i is prefix + rstrip(line i) |
| Models.IndentLinesAppend | L5KTuner/models.py:257-259 | indenting distributes over concatenation of line lists |
| Models.DefinitionLinesSpec | L5KTuner/models.py:253-259 | a stored definition renders as its non-blank lines, in order, each right-trimmed behind the prefix (also lines 116-118) |
| Models.MemberLinesCases | L5KTuner/models.py:115-120 | without a definition a member renders as exactly `<type> <name>;` behind `level` tabs; with one, as its non-blank lines behind the prefix |
| Models.UdtAttrs | L5KTuner/models.py:78-82 | the attribute list holds Description only when it is non-empty, and always ends with FamilyType, NoFamily when unset |
| Models.UdtHeaderAttrs | L5KTuner/models.py:77-83 | the DATATYPE header line carries Description exactly when the UDT has one, and ends with the FamilyType attribute |
| Models.RenderUdt | L5KTuner/models.py:77-88 | the loop returns the header, then each member's lines in insertion order, then END_DATATYPE |
| Models.UdtLinesAddMember | L5KTuner/models.py:74-88 | adding a member under a new name inserts exactly its lines before END_DATATYPE |
| Models.AttrsGroup | L5KTuner/models.py:178-180 | the greedy group `(.*)\)\s*;?\s*$` ends at the last ')' followed only by blanks and at most one ';' |
| Models.EmitPlainBool | L5KTuner/models.py:174-188 | the attribute text is salvaged and the block written, as PlainBoolLines states |
| Models.EmitBoolBlock | L5KTuner/models.py:183-188 | the output loop writes the opening line, every non-empty attribute line right-trimmed one level deeper, and the closing line |
| Models.PlainBoolBodyAll | L5KTuner/models.py:184-186 | every non-blank attribute line gives exactly one body line, in order |
| Models.PlainBoolShape | L5KTuner/models.py:174-188 | a bit-alias parameter renders as `<name> : BOOL (`, one line per non-blank attribute line, and `);` |
| Models.ParamLinesCases | L5KTuner/models.py:190-196 | the three cases of a parameter: bit alias → the BOOL block; a definition → its lines; otherwise `<name> : <type> ();` |
| Models.LocalLinesFallback | L5KTuner/models.py:210-213 | a local tag renders its definition, or `<name> : <type> ();` without one |
| Models.TagLinesShape | L5KTuner/models.py:227-234 | a tag renders as one line `name : type (Description := "d");` or `name : type;`; the stored definition, which may hold the value, is never used |
| Models.RenderAoi | L5KTuner/models.py:140-158 | the loops return AoiLines and count the emitted local tags |
| Models.ExtendParams | L5KTuner/models.py:143-147 | the parameter loop appends every parameter's lines in order |
| Models.ExtendLocals | L5KTuner/models.py:150-153 | the local-tag loop appends every local tag's lines in order and counts them |
| Models.AoiLinesFrame | L5KTuner/models.py:140-158 | an AOI opens with its definition line, has PARAMETERS next exactly when it has parameters, always has LOCAL_TAGS, and ends with END_LOCAL_TAGS, END_ADD_ON_INSTRUCTION_DEFINITION |
| Models.AoiPlaceholder | L5KTuner/models.py:154-155 | the placeholder flag matters only without local tags, and then adds exactly the `__EdgePad` line before END_LOCAL_TAGS |
| OrderedMaps.Put | L5KTuner/models.py:74-75 | `d[k] = v`: a new key is appended, an existing one keeps its position, the map gains k ↦ v |
| OrderedMaps.Remove | L5KTuner/gui.py:334 | `d.pop(k, None)`: the entry is dropped if present, the rest keep their order |
| OrderedMaps.Drop | L5KTuner/view_filter.py:43-46 | popping every key of a set drops exactly those entries and keeps the order of the rest |
| OrderedMaps.RemoveIsDrop | L5KTuner/view_filter.py:43-46 | a single pop is dropping one key |
| OrderedMaps.Values | L5KTuner/models.py:85 | d.values() lists the entries in key order |
| TagBuffers.TagBuffer.Reset | L5KTuner/l5k_parser.py:51-56 | no parts, depth 0, outside both quote kinds, no pending escape |
| TagBuffers.TagBuffer.Feed | L5KTuner/l5k_parser.py:58-94 | the chunk is appended, the scan state moves over it, and the result says whether it held a top-level ';', given the state left by the earlier chunks |
| TagBuffers.TagBuffer.Flush | L5KTuner/l5k_parser.py:96-99 | the parts joined with single spaces are returned and every field is reset |
| TagBuffers.CompletesIff | L5KTuner/l5k_parser.py:58-94 | feed reports completion exactly when some ';' of the chunk is reached outside quotes at depth 0 |
| TagBuffers.CompletesConcat | L5KTuner/l5k_parser.py:58-94 | state persists across chunks: feeding a then b reports completion and ends in the same state as feeding a + b at once |
| TagBuffers.EncodedLiteralNoEnd | L5KTuner/l5k_parser.py:62-77 | a literal written by encode_l5k_string, in either quote kind, never completes a statement and leaves the state as it was |
| TagBuffers.DepthSteps | L5KTuner/l5k_parser.py:85-91 | brackets inside a string do not move the depth, and a closer at depth 0 leaves it at 0 |
| Capture.ParseHeader | L5KTuner/l5k_parser.py:162-199 | the two loops return HeaderText: nothing without an open delimiter, else lines[start..min(close+2, n−1)] joined |
| Capture.FindOpen | L5KTuner/l5k_parser.py:175-179 | the first line whose stripped text opens a header |
| Capture.FindClose | L5KTuner/l5k_parser.py:184-188 | the first closing line at or after the open one |
| Capture.HeaderPresent | L5KTuner/l5k_parser.py:180-181 | there is a header exactly when some line opens one |
| Capture.HeaderStart | L5KTuner/l5k_parser.py:189-197 | the header starts at the first open line and runs to two past the first close at or after it (the open line when none closes), clipped to the last line |
| Capture.CaptureBlock | L5KTuner/l5k_parser.py:224-251 | the captured text is the lines from start to the returned index, that index is greater than start and at most n |
| Capture.BlockEndSpec | L5KTuner/l5k_parser.py:234-251 | a first line ending with `);`, or with ';' and no '(', is taken alone; otherwise lines are taken up to the first at which the running depth is 0 and the line ends with ';', or to the end of the file |
| Capture.BlockScanFirst | L5KTuner/l5k_parser.py:241-250 | the scan stops at the first line that closes the block |
| Capture.CaptureControllerHeader | L5KTuner/l5k_parser.py:1084-1116 | the header is lines[i..next], next is ControllerEnd, and the name is the controller recogniser's on the stripped first line |
| Capture.ControllerEndSpec | L5KTuner/l5k_parser.py:1092-1116 | the header always holds line i, holds the next line too when depth is 0 and that line starts with '(', then takes lines while the depth is positive; i < next <= n |
| Capture.DepthEndSpec | L5KTuner/l5k_parser.py:1111-1114 | taking lines while the depth is positive stops at the end of the file or once the running depth is no longer positive |
| Capture.DatatypeHeaderSpec | L5KTuner/l5k_parser.py:309-322 | the DATATYPE header is one line unless the first stripped line leaves parentheses open; then it runs until the running depth is no longer positive |
| Capture.CaptureDatatypeHeader | L5KTuner/l5k_parser.py:309-322 | the loop returns those header lines and the index after them |
| Capture.CaptureMeta | L5KTuner/l5k_parser.py:377-386 | the ENCODED_DATA metadata: the line and the lines after it up to and including the first holding ')', or to the end |
| Capture.FindController | L5KTuner/l5k_parser.py:1285-1290 | the first line whose stripped text starts with CONTROLLER, or n |
| Capture.FirstControllerFirst | L5KTuner/l5k_parser.py:1285-1286 | no earlier line starts with CONTROLLER |
| TagFields.DeclarationCut | L5KTuner/l5k_parser.py:946-955 | the declaration is a prefix of the statement that stops before the first top-level `:=`, and holds neither a top-level `:=` nor a top-level ',' |
| TagFields.DefinitionEnds | L5KTuner/l5k_parser.py:967-972 | the definition always ends with ';' |
| TagFields.ProgramTypeNoParen | L5KTuner/l5k_parser.py:963-964 | a program tag's data type holds no '(' |
| TagFields.ParseTagFieldsSpec | L5KTuner/l5k_parser.py:941-974 | None exactly when the prefix does not match RE_TAG_PREFIX; otherwise the name and type are the recogniser's, the description is read from the attributes, and the definition holds no assigned value |
| TagFields.StoreTagSpec | L5KTuner/l5k_parser.py:976-988 | a parsed tag is stored under its name; the other tags, their order and the rest of the project are unchanged |
| TagFields.StoreProgTagSpec | L5KTuner/l5k_parser.py:990-1007 | a program tag changes only that program's tags; an unknown or missing program changes nothing |
| Structures.OnDatatype | L5KTuner/l5k_parser.py:309-352 | a DATATYPE line captures its header, logs unbalanced parentheses, and makes a new UDT with name, description and FamilyType current; the next index is past the header |
| Structures.OnEncoded | L5KTuner/l5k_parser.py:377-408 | an ENCODED_DATA line captures its metadata; an encoded AOI with a Name becomes current; the next index is past the metadata |
| Structures.OnUdtData | L5KTuner/l5k_parser.py:479-543 | a UDT line is a hidden word, a BIT alias or a type-first member, each captured with capture_block; any other line is passed over |
| Structures.OnParamData | L5KTuner/l5k_parser.py:545-562 | a matching parameter line is captured, DefaultData-stripped and added to the current AOI; any other line is passed over |
| Structures.OnLocalData | L5KTuner/l5k_parser.py:564-582 | likewise for local tags |
| StructureLaws.HiddenWordSpec | L5KTuner/l5k_parser.py:481-499 | a hidden word is stored under its own name; a new one has no children, an updated one keeps everything but type, definition and the hidden flag |
| StructureLaws.HiddenWordInPlace | L5KTuner/l5k_parser.py:485-497 | a hidden SINT line never duplicates its word: an existing member is replaced in place, keeping its position and children |
| StructureLaws.BitAliasSpec | L5KTuner/l5k_parser.py:501-528 | a BIT line stores the alias as a BOOL bit member naming its word and bit; the word is present afterwards with the alias among its children; an existing word is reused |
| StructureLaws.DispatchKeeps | L5KTuner/l5k_parser.py:253-584 | every branch keeps the invariants: the current structure is held by the project, and every entry is stored under its own name |
| StructureLaws.DispatchCtrl | L5KTuner/l5k_parser.py:261-272 | only a CONTROLLER line touches the captured controller header |
| StructureLaws.RunKeeps | L5KTuner/l5k_parser.py:253-584 | the whole loop keeps those invariants, and the log only grows |
| StructureLaws.OnControllerCaptures | L5KTuner/l5k_parser.py:261-272 | the first CONTROLLER line reached captures the header lines up to where its parentheses close, and the controller name |
| StructureLaws.RunCaptures | L5KTuner/l5k_parser.py:261-272 | once a line captured the header, no later line changes it |
| StructureLaws.OnParamDataSkips | L5KTuner/l5k_parser.py:560-562 | a parameter line the pattern does not match changes nothing |
| StructureLaws.OnParamDataAdds | L5KTuner/l5k_parser.py:547-559 | a matching parameter line adds to the current AOI the parameter with the matched name and type path, the description found in its definition, the captured declaration with DefaultData stripped as its definition, and both flags false; the walk resumes where capture_block stopped |
| StructureLaws.OnLocalDataSkips | L5KTuner/l5k_parser.py:579-581 | a local tag line the pattern does not match changes nothing |
| StructureLaws.OnLocalDataAdds | L5KTuner/l5k_parser.py:566-578 | a matching local tag line adds to the current AOI the local tag with the matched name and type, the description found in its definition and the captured declaration with DefaultData stripped as its definition; the walk resumes where capture_block stopped |
| Resolver.ResolveTypes | L5KTuner/l5k_parser.py:586-613 | the loops of _resolve_nested_types return ResolveNestedTypes |
| Resolver.ResolveOne | L5KTuner/l5k_parser.py:593-612 | the inner loop's body returns ResolveParam |
| ResolverLaws.PlainPathKept | L5KTuner/l5k_parser.py:1126-1135 | base types and paths without '.' come back unchanged |
| ResolverLaws.ResolvedOrigin | L5KTuner/l5k_parser.py:1126-1150 | the result is the path itself, BOOL, or the declared type of a parameter of an AOI that the path leads to |
| ResolverLaws.FuelEnough | L5KTuner/l5k_parser.py:1145-1149 | more fuel never changes an answer already reached; only a cycle, or a chain of more than 1000 local-tag hops, runs the fuel out, and there Python raises RecursionError |
| ResolverLaws.BitOfWordIsBool | L5KTuner/l5k_parser.py:1137-1143 | `BitParam OF LocWord.3` with local `LocWord : DINT` resolves to BOOL |
| ResolverLaws.ThroughLocalTag | L5KTuner/l5k_parser.py:1145-1149 | `Ref OF InnerInst.X` with local `InnerInst : Inner` and parameter `X : DINT` of Inner resolves to DINT |
| ResolverLaws.NestedBitAlias | L5KTuner/l5k_parser.py:1126-1150 | a path through a local tag into an AOI parameter that is itself a bit of an integer word resolves to BOOL, corrected or not |
| ResolverLaws.TypeClauseSound | L5KTuner/l5k_parser.py:600-604 | a matched type clause has the shape `<blanks> (OF or :) <blanks> <path>` |
| ResolverLaws.RewriteHeadAccepts | L5KTuner/l5k_parser.py:600-604 | a line `<blanks> NAME <declared type> <tail>` becomes `<blanks> NAME : BASE <tail>` |
| ResolverLaws.RewriteHeadSound | L5KTuner/l5k_parser.py:600-604 | the rewrite changes a line only by replacing the declared type after the name |
| ResolverLaws.RewriteKeepsOtherLines | L5KTuner/l5k_parser.py:600-604 | only line 0 of a definition is rewritten |
| ResolverLaws.ResolveParamStep | L5KTuner/l5k_parser.py:593-612 | for one parameter: a change happens exactly when the parameter exists and its dotted type resolves to a non-empty type other than its own; the parameter then takes that type and the corrected flag, a definition with text gets its first line rewritten (one without stays), and exactly the entry `Corrected <aoi>.<param>: from "<old>" to "<new>"` is appended; otherwise project and log stay as they were |
| ResolverLaws.ResolveNestedTypesKeeps | L5KTuner/l5k_parser.py:586-613 | only dotted AOI parameter types, with their flag and definition, change; every order and every other part of the project stays; the log gains exactly one correction entry per parameter the pass changed, from its old type to its new one, AOI by AOI in AOI order and, within an AOI, in parameter order |
| SelectedContent.OnEncodedOpen | L5KTuner/l5k_parser.py:808-835 | an ENCODED_DATA line opens an AOI block of its metadata lines; the index moves past them |
| SelectedContent.HeaderAndBody | L5KTuner/l5k_parser.py:615-635 | without a header the whole file is the body; with one, the body starts at the first CONTROLLER line after it, or right after it |
| SelectedContent.AoiMemberLine | L5KTuner/l5k_parser.py:1170-1212 | a member line of an AOI section: an injected definition is pushed into both buffers whatever is selected and turns skipping on under the rule in effect (always, as the source writes it; only for a declaration that goes on past its line, corrected); otherwise the line joins the block and is kept when its name is chosen (also lines 907-927) |
| SelectedContent.FlushBlock | L5KTuner/l5k_parser.py:672-680 | flush_block emits the block plus the closing line only when something in it was kept, and empties both buffers |
| SelectedContent.UdtMemberLine | L5KTuner/l5k_parser.py:846-877 | a UDT member line joins the block and is kept when the UDT or the member is selected |
| SelectedContent.TagEntryLine | L5KTuner/l5k_parser.py:745-768 | a selected tag's line is rebuilt from the model without its value; an unselected one changes nothing |
| SelectedContent.FilterLines | L5KTuner/l5k_parser.py:682-934 | the `while i < body_len` loop returns the walk Run of the loop's transitions, under the skip rule its inputs name |
| SelectedContent.GetSelectedContent | L5KTuner/l5k_parser.py:637-936 | the result is SelectedText: the header text as the first line when there is one, then the filtered body, joined by line breaks, under the skip rule its inputs name |
| SelectedLaws.SkipLine | L5KTuner/l5k_parser.py:687-691 | while skipping, a line changes nothing but the flag, which clears exactly at a line ending with `);` |
| SelectedLaws.RoutineLines | L5KTuner/l5k_parser.py:694-703 | a ROUTINE line only enters the routine, and an END_ROUTINE line only leaves it |
| SelectedLaws.RoutineSkipped | L5KTuner/l5k_parser.py:694-703 | the lines of a routine before its END_ROUTINE leave the state as it was: none of them is emitted |
| SelectedLaws.BlockClose | L5KTuner/l5k_parser.py:780-806 | a closing line emits the block with itself appended exactly when some line of the block was kept, and empties both buffers (also lines 672-680, 733-742) |
| SelectedLaws.ControllerLine | L5KTuner/l5k_parser.py:705-716 | the captured CONTROLLER header replaces as many source lines; without one the line is copied |
| SelectedLaws.DefaultDataDropped | L5KTuner/l5k_parser.py:931-934 | END_CONTROLLER and lines outside every block are copied, except those holding `DefaultData :=`, which are dropped (also lines 718-725) |
| SelectedLaws.UdtMemberLine | L5KTuner/l5k_parser.py:1155-1168 | a line inside a DATATYPE always joins the block, and is kept exactly when it names a member and the UDT, the member or one of its BIT children is selected (also lines 846-877) |
| SelectedLaws.TagEntryLine | L5KTuner/l5k_parser.py:745-768 | a tag line is never copied as written: an unselected tag changes nothing, a selected one marks the block and adds its value-free line |
| SelectedLaws.ValueFreeHasNoValue | L5KTuner/l5k_parser.py:760-766 | the fallback statement of a selected tag holds no top-level `:=`: the value is gone |
| SelectedLaws.AsWrittenSwallowsNextLine | L5KTuner/l5k_parser.py:907-914 | as written, an injected definition always turns skipping on, and the line after a one-line declaration is then swallowed whatever it holds (also lines 687-691, 1185-1189, 1206-1210) |
| SelectedLaws.InjectedSkipsCapturedLines | L5KTuner/l5k_parser.py:907-922 | corrected: skipping starts after an injected definition exactly when the declaration capture_block took runs past its first line |
| SelectedLaws.CorrectedReadsNextLine | L5KTuner/l5k_parser.py:907-922 | corrected: the line after a one-line declaration is classified as if the declaration had no definition, and is not skipped |
| SelectedLaws.RulesAgreeOnLongDeclarations | L5KTuner/l5k_parser.py:907-922 | the two skip rules give the same state after any declaration that goes on past its line |
| SelectedLaws.BitAliasIsTypeFirst | L5KTuner/l5k_parser.py:850-862 | every BIT alias line already matches the type-first pattern with the alias as name, so the BIT fallback never decides |
| SelectedLaws.StepOutGrows | L5KTuner/l5k_parser.py:682-934 | one turn never takes lines back out of the output |
| SelectedLaws.BlockLinesHoldOut | L5KTuner/l5k_parser.py:770-927 | inside DATATYPE and AOI blocks only the closing line writes to the output |
| SelectedLaws.RunOutGrows | L5KTuner/l5k_parser.py:682-934 | the output of the walk extends the output it started with |
| SelectedLaws.HeaderFirst | L5KTuner/l5k_parser.py:653-660 | the exported text starts with the file header when the project has one |
| SelectedLaws.BodyWithoutHeader | L5KTuner/l5k_parser.py:625-627 | without a header the whole file is walked |
| SelectedLaws.BodyAtController | L5KTuner/l5k_parser.py:626-633 | with a header of n lines the walk starts at the first CONTROLLER line from n on |
| SelectedLaws.BodyWithoutController | L5KTuner/l5k_parser.py:626-635 | with a header of n lines and no CONTROLLER line after it, the walk starts at line n |
| L5kParser.Parser.constructor | L5KTuner/l5k_parser.py:145-153 | a fresh parser over the file split into lines, with an empty project and log |
| L5kParser.Parser.ParseHeader | L5KTuner/l5k_parser.py:162-199 | a header block found in the lines becomes the header text and the project's header; without one nothing changes |
| L5kParser.Parser.ParseStructures | L5KTuner/l5k_parser.py:201-584 | the loop over all lines from a fresh state leaves the project, log and controller header of Structures.Run |
| L5kParser.Parser.StepLine | L5KTuner/l5k_parser.py:253-584 | one turn of the loop, buffers included, is Structures.Step |
| L5kParser.Parser.BufferLine | L5KTuner/l5k_parser.py:429-458 | a line that works a TAG buffer moves the buffers and project as BufferStep states (also lines 279-307) |
| L5kParser.Parser.CloseTagBlock | L5KTuner/l5k_parser.py:284-292 | END_TAG of the controller emits a pending statement; the buffer is reset either way |
| L5kParser.Parser.FeedControllerTag | L5KTuner/l5k_parser.py:450-458 | a completed controller statement is emitted |
| L5kParser.Parser.FeedProgramTag | L5KTuner/l5k_parser.py:443-448 | a completed program statement goes into the current program |
| L5kParser.Parser.FlushProgramTags | L5KTuner/l5k_parser.py:429-441 | END_TAG or END_PROGRAM inside a program emits a pending statement into it; the buffer is reset either way (also lines 299-307) |
| L5kParser.Parser.ResolveNestedTypes | L5KTuner/l5k_parser.py:586-613 | the second pass rewrites the parser's project and extends its log as Resolver.ResolveNestedTypes |
| L5kParser.Parser.Parse | L5KTuner/l5k_parser.py:155-160 | header, structures, then the base-type pass; the project and the log are returned |
| L5kParser.Parser.GetSelectedContent | L5KTuner/l5k_parser.py:637-936 | the filtered file of the parsed project, the captured controller header and the lines, with the skip after an injected definition as the source writes it; nothing changes |
| L5kParser.Parser.EnsureHeaderForExport | L5KTuner/l5k_parser.py:1263-1275 | a held header text is kept; else the project's non-empty header is taken; else the header is parsed from the lines |
| L5kParser.Parser.EnsureControllerHeader | L5KTuner/l5k_parser.py:1277-1290 | without captured lines, the first CONTROLLER line is captured with its attribute block and name; otherwise nothing changes |
| L5kParser.DatatypeLine | L5KTuner/l5k_parser.py:309-352 | the DATATYPE branch returns OnDatatype's state |
| L5kParser.EncodedLine | L5KTuner/l5k_parser.py:377-408 | the ENCODED_DATA branch returns OnEncoded's state |
| L5kParser.ProgramLine | L5KTuner/l5k_parser.py:410-428 | the PROGRAM branch creates the named program, or gives an existing one a missing description |
| L5kParser.UdtDataLine | L5KTuner/l5k_parser.py:479-543 | a UDT member line returns OnUdtData's state |
| L5kParser.ParamDataLine | L5KTuner/l5k_parser.py:545-562 | a parameter line returns OnParamData's state |
| L5kParser.LocalDataLine | L5KTuner/l5k_parser.py:564-582 | a local tag line returns OnLocalData's state |
| L5kParser.ParseTextLaws | L5KTuner/l5k_parser.py:155-160 | a parsed file's header is the header block of its lines, every entry is stored under its own name, and the log holds the first pass's entries followed by correction entries |
| L5kParser.PadLocalTag | L5KTuner/l5k_parser.py:1292-1305 | the result is the first of `__Pad`, `__Pad2`, `__Pad3`, … that is not a local tag of the AOI |
| L5kParser.PadCandidateInjective | L5KTuner/l5k_parser.py:1299-1304 | different attempts try different names, so the loop ends |
| L5kParser.ProgramHeaderShape | L5KTuner/l5k_parser.py:1253-1261 | the PROGRAM line is indent, `PROGRAM `, the name, and a Description attribute with the encoded text only when non-blank |
| L5kParser.ProgramHeaderName | L5KTuner/l5k_parser.py:1253-1261 | the rendered PROGRAM line names the program again when read by the parser (also lines 410-416) |
| Exporter.ExportWhitelist | L5KTuner/exporter.py:15-137 | the parser's header and controller header are ensured first, then the text is WhitelistText of the parser's state; the log is unchanged |
| Exporter.RenderWhitelist | L5KTuner/exporter.py:33-137 | the appends return WhitelistText |
| Exporter.ExportFrame | L5KTuner/exporter.py:33-50 | the file opens with the header and a blank line when there is one, then the captured controller header or `CONTROLLER <name or "Controller">`, and ends with END_CONTROLLER (also lines 133-137) |
| Exporter.ExportEndsWithEndController | L5KTuner/exporter.py:133-137 | the text ends with END_CONTROLLER and a line break |
| Exporter.UdtsSelected | L5KTuner/exporter.py:52-57 | the UDT section holds the selected UDTs whole, in project order, each followed by a blank line |
| Exporter.MemberSelectionIgnored | L5KTuner/exporter.py:52-57 | which UDT members are selected never changes the file (also line 20) |
| Exporter.AoisSelected | L5KTuner/exporter.py:64-69 | an AOI is written exactly when it, one of its parameters or one of its local tags is selected, in project order |
| Exporter.AoiBlockFrame | L5KTuner/exporter.py:70-102 | an AOI block opens with its definition line, has PARAMETERS next exactly when a parameter is selected, and closes with END_LOCAL_TAGS and END_ADD_ON_INSTRUCTION_DEFINITION |
| Exporter.ParamsSelected | L5KTuner/exporter.py:80-86 | PARAMETERS holds the selected parameters in the AOI's order |
| Exporter.LocalsSelected | L5KTuner/exporter.py:88-99 | LOCAL_TAGS holds the selected local tags in order, and the placeholder exactly when the AOI is selected and none of its local tags were written |
| Exporter.TagsSelected | L5KTuner/exporter.py:105-117 | the TAG block is present exactly when a tag is selected, and holds the selected controller tags in project order |
| Exporter.ProgramsSelected | L5KTuner/exporter.py:119-131 | a program gets a block exactly when one of its tags is selected; the block holds its header line and its selected tags in order |
| Exporter.EmitUdts | L5KTuner/exporter.py:53-57 | the UDT loop appends UdtSection |
| Exporter.EmitParams | L5KTuner/exporter.py:82-84 | the parameter loop appends the selected parameters |
| Exporter.EmitLocals | L5KTuner/exporter.py:91-95 | the local loop appends the selected locals and counts them |
| Exporter.EmitAois | L5KTuner/exporter.py:64-102 | the AOI loop appends AoiSection |
| Exporter.EmitTags | L5KTuner/exporter.py:109-113 | the tag loops append the chosen tags in order (also lines 126-129) |
| Exporter.EmitPrograms | L5KTuner/exporter.py:119-131 | the program loop appends ProgramSection |
| TreeStates.TreeState.Reset | L5KTuner/tree_state.py:31-34 | meta, checks and the key index are emptied |
| TreeStates.TreeState.SetMeta | L5KTuner/tree_state.py:36-40 | the meta is stored under the iid, its logical key indexes the iid, and checks are unchanged |
| TreeStates.TreeState.GetMeta | L5KTuner/tree_state.py:42-43 | the stored meta, or None for an unknown iid |
| TreeStates.TreeState.SetChecked | L5KTuner/tree_state.py:45-46 | only the iid's check changes |
| TreeStates.TreeState.GetChecked | L5KTuner/tree_state.py:48-49 | the stored state, else the default |
| TreeStates.TreeState.LogicalKeyForIid | L5KTuner/tree_state.py:51-56 | the (type name, name, parent) key of a known iid, else None |
| TreeStates.TreeState.Serialize | L5KTuner/tree_state.py:58-74 | one entry per iid in checks that has meta, in checks order, with its key and state |
| TreeStates.TreeState.Restore | L5KTuner/tree_state.py:76-85 | only iids whose key was saved change, each to the last saved state for its key; meta is unchanged |
| TreeStates.TreeState.UpdateParentStates | L5KTuner/tree_state.py:87-108 | every ancestor of an item with meta ends as the OR of its children; every other check is unchanged; the selected item's new state is returned |
| TreeStates.CheckedIn | L5KTuner/tree_state.py:48-49 | get_checked over a state dictionary: the stored state, else the default |
| TreeStates.WithMeta | L5KTuner/tree_state.py:61-64 | exactly the iids that have meta, in order |
| TreeStates.Target | L5KTuner/tree_state.py:78-81 | the saved keys are exactly the target's keys, a later entry overriding an earlier one |
| TreeStates.Restored | L5KTuner/tree_state.py:82-85 | an item whose key was saved gets the saved state; every other keeps its own |
| TreeStates.TypeNameInjective | L5KTuner/tree_state.py:51-56 | distinct kinds have distinct type names, so a logical key determines its item's kind |
| TreeStates.SavedKeysDiffer | L5KTuner/tree_state.py:58-74 | entries for two different items hold different keys |
| TreeStates.RestoreSerialized | L5KTuner/tree_state.py:58-85 | restoring what serialize wrote, over the same meta, gives every item its saved state and leaves the others alone |
| TreeStates.SavedStateFound | L5KTuner/tree_state.py:58-74 | the saved data holds the state of every item with meta and a state |
| TreeStates.UnsavedStateMissing | L5KTuner/tree_state.py:58-74 | the saved data holds no key of an item that had no state |
| TreeStates.SetStep | L5KTuner/tree_state.py:98-104 | one round of the walk up: after x takes the OR of its children, everything that was consistent, and x, is consistent, except possibly x's parent |
| TreeStates.WalkAll | L5KTuner/tree_state.py:97-105 | after the walks from every item, all their ancestors are consistent, and nothing else changes |
| TreeStates.BubbleOne | L5KTuner/tree_state.py:99-104 | the item takes the OR of its children, written only when it changes |
| Trees.RootNotAncestor | L5KTuner/tree_state.py:98 | the invisible root "" is nobody's ancestor, so the walk up stops there |
| ViewFilter.ApplyFilter | L5KTuner/view_filter.py:14-48 | mode "all" changes nothing; otherwise exactly the items not kept are deleted, together with their meta and check entries; the rest stays |
| ViewFilter.Dfs | L5KTuner/view_filter.py:24-34 | dfs returns the keep rule for x and adds exactly the kept items of x's subtree |
| ViewFilter.Prune | L5KTuner/view_filter.py:39-46 | prune deletes exactly the subtree's items outside `keep`, children first, with their meta and state |
| ViewFilter.KeepAll | L5KTuner/view_filter.py:36-37 | the kept items of the whole tree |
| ViewFilter.PruneAll | L5KTuner/view_filter.py:47-48 | every item of the tree outside `keep` is deleted |
| ViewFilter.ParentKept | L5KTuner/view_filter.py:27-32 | a kept item's parent is kept |
| ViewFilter.AncestorsKept | L5KTuner/view_filter.py:27-32 | every ancestor of a kept item is kept |
| ViewFilter.DroppedSubtree | L5KTuner/view_filter.py:39-46 | an item that is not kept has no kept item below it, so deleting it deletes nothing kept |
| ViewFilter.DroppedNotKept | L5KTuner/view_filter.py:42-46 | deleting what is outside the kept set deletes exactly the items not kept |
| GuiSelection.BuildSelectionStructure | L5KTuner/gui.py:997-1048 | the selection built from the state's checks and meta, as SelectionOf the checked metas |
| GuiSelection.BuildSelection | L5KTuner/gui.py:1014-1046 | the loop over checks returns SelectionOf the checked items' metas |
| GuiSelection.AddChecked | L5KTuner/gui.py:1020-1046 | the if-chain for one checked item is AddNode |
| GuiSelection.CheckedMetasExactly | L5KTuner/gui.py:1014-1019 | the gathered metas are exactly those of the checked items that have meta |
| GuiSelection.StateSets | L5KTuner/gui.py:1024-1043 | a set-valued entry names x exactly when some checked item with meta gives x: the UDT, AOI or parentless TAG itself, or the parent of a checked member, parameter or local tag |
| GuiSelection.StateMaps | L5KTuner/gui.py:1030-1046 | a per-parent entry lists x under p exactly when some checked item with meta of that kind and parent p is named x; parented TAGs go only to program_tags |
| GuiKeys.KeysForProject | L5KTuner/gui.py:183-202 | the loops return exactly the keys of IsProjectKey |
| GuiKeys.ProjectKeysIff | L5KTuner/gui.py:183-202 | one key per UDT, UDT member and hidden-word child (under the UDT's name), AOI, AOI parameter, AOI local tag, controller tag and program tag |
| GuiKeys.UdtKeysIff | L5KTuner/gui.py:185-190 | the keys of a UDT are its own, its members' and its members' children's |
| GuiKeys.AoiKeysIff | L5KTuner/gui.py:191-196 | the keys of an AOI are its own, its parameters' and its local tags' |
| GuiKeys.ProgramKeysIff | L5KTuner/gui.py:199-201 | one PROGRAM_TAG key per tag of each program, under the program's name |
| GuiMerge.SortedKeys | L5KTuner/gui.py:1099-1100 | sorted(): the keys in strictly increasing order, each once |
| GuiMerge.Insert | L5KTuner/gui.py:1099-1100 | inserting into a sorted list keeps it sorted and adds exactly one element |
| GuiMerge.KeyLessTotal | L5KTuner/gui.py:1099-1100 | tuple order on (kind, name, parent) is total, so sorted() is defined |
| GuiMerge.MergeDiff | L5KTuner/gui.py:1098-1100 | added holds exactly the new keys not previously present, removed exactly the reverse, both sorted, and the two are disjoint |
| GuiMerge.MergeKeys | L5KTuner/gui.py:1098-1100 | added holds exactly the keys of the updated project that the loaded one lacks, removed the reverse |
| GuiMerge.TunerApp.ApplyMergeChanges | L5KTuner/gui.py:293-350 | nothing without a loaded project; otherwise the additions, then the removals, are applied in list order |
| GuiMerge.ApplyAdditions | L5KTuner/gui.py:304-329 | the addition loop is AddAll |
| GuiMerge.ApplyRemovals | L5KTuner/gui.py:332-350 | the removal loop is RemoveAll |
| GuiMerge.AddNeedsParents | L5KTuner/gui.py:307-320 | a member-level addition is a no-op unless the parent is in both projects |
| GuiMerge.AddChildKeyIgnored | L5KTuner/gui.py:307-310 | a key under a hidden word, a BIT child that is not itself a member, is not added |
| GuiMerge.AddProgramTag | L5KTuner/gui.py:323-329 | a program tag whose program is missing brings the whole program; otherwise only the tag is copied |
| GuiMerge.AddEntryAdds | L5KTuner/gui.py:304-329 | an applicable addition of a key of the new project makes it a key of the loaded one |
| GuiMerge.RemoveAbsent | L5KTuner/gui.py:332-350 | removing an entry the loaded project lacks changes nothing |
| GuiMerge.RemoveMemberEverywhere | L5KTuner/gui.py:335-340 | removing a UDT member removes the name from the members and from every remaining member's children |
| GuiMerge.RemoveEntryRemoves | L5KTuner/gui.py:332-350 | after removing a well-shaped key, it is no longer a key of the loaded project |
| GuiMerge.RemoveEntryShrinks | L5KTuner/gui.py:332-350 | a removal never brings a key in |
| GuiMerge.RemoveEntryWellKeyed | L5KTuner/gui.py:332-350 | removals keep entries stored under their own names |
| GuiMerge.RemoveAllRemoves | L5KTuner/gui.py:332-350 | after the removals none of the removed keys is left |
| GuiPersist.ProjectToDict | L5KTuner/gui.py:1111-1201 | the nested loops return ToData(p) |
| GuiPersist.UdtDicts | L5KTuner/gui.py:1113-1140 | the UDT loop with its member loop |
| GuiPersist.AoiDicts | L5KTuner/gui.py:1141-1175 | the AOI loop with its parameter and local loops |
| GuiPersist.ProgramDicts | L5KTuner/gui.py:1176-1195 | the program loop with its tag loop |
| GuiPersist.ProjectFromDict | L5KTuner/gui.py:1203-1279 | the rebuilding loops return FromData(d) |
| GuiPersist.UdtsFromDicts | L5KTuner/gui.py:1210-1234 | the UDT loop, each UDT stored under its name |
| GuiPersist.AoisFromDicts | L5KTuner/gui.py:1235-1260 | the AOI loop: parameters, then local tags, then the AOI under its name |
| GuiPersist.ProgramsFromDicts | L5KTuner/gui.py:1261-1277 | the program loop: its tags, then the program under its name |
| GuiPersist.SaveLoadRoundTrip | L5KTuner/gui.py:1111-1279 | for a project whose entries are stored under their own names, loading what was saved gives the project back with is_corrected reset, grandchildren dropped and an empty header turned into None |
| GuiPersist.SaveLoadIdentity | L5KTuner/gui.py:1111-1279 | for such a project with nothing to drop, save then load is the identity |
| GuiPersist.NormalizedPlain | L5KTuner/gui.py:1111-1279 | normalizing a project with nothing to drop changes nothing |
| GuiPersist.HeaderSaved | L5KTuner/gui.py:1112 | the saved header is the header's content, or "" without one |
| GuiPersist.RoundTripMap | L5KTuner/gui.py:1111-1279 | saving then rebuilding one dictionary gives each entry through the combined step, keys and order intact |

## Left out

- File I/O, JSON, Tk widgets, logging and the background parse thread: none of it is data logic. The project file's JSON text is modelled by typed records (`GuiPersist.ProjectData`).
- The Python regex engine: each pattern is a hand-written recogniser. `\s` is the Unicode whitespace set of `str.isspace`, while `\w`, `\d` and IGNORECASE cover ASCII only, and the byte-order mark in the header patterns is not modelled.
- textwrap.dedent is modelled by its common-margin rule (`Dedent`), over lines split at '\n' only. `str.splitlines` is modelled as a split at '\n'; CR and the other Unicode line breaks are not.
- Object aliasing: entities are values. The parser and the GUI share the project object, and a merge stores objects of the new project by reference. Mutating one afterwards is not modelled.
- Resolver.FindBaseType: the recursion has no cycle guard in the source. The model carries a fuel bound of 1000 and returns the path unchanged when it runs out (ResolverLaws.FuelEnough: more fuel never changes an answer already reached; only a cycle, or a chain of more than 1000 local-tag hops, runs the fuel out, and there Python raises RecursionError).
- ResolverLaws.RewriteHeadAccepts: proved for names that start with a non-blank character only.
- `_emit_param_as_plain_bool` and `_stmt_has_terminating_semicolon` are unused and not modelled. The static helpers duplicated in `L5KParser` are modelled once, in `Utils` and `L5kStrings`.
- A program's description is taken as written from the source line. The unused `aoi_selected` variable of get_selected_content has no counterpart.
- `utils.name_for_display`, `L5KHeader.__repr__` and the other `__repr__` methods are presentation only.
- ViewFilter.ApplyFilter: deleting Tk tree items is modelled as the returned set of deleted iids. Iids unknown to the tree are not modelled.
- GuiPersist.ProjectFromDict: `.get` defaults for missing fields and values of the wrong JSON type are not modelled. Every saved record carries every field.
- GuiMerge.KeyLess: Python 3 raises TypeError when sorted() compares a None parent with a str. The model orders None first instead.
- GuiMerge.AddEntryAdds: stated for keys whose entry in the new project is stored under its own name. A BIT child key is not added, as GuiMerge.AddChildKeyIgnored shows.
- GuiPersist.SaveLoadRoundTrip: holds for projects whose entries are stored under their own names. The saved format drops grandchildren and is_corrected, so the round trip is up to Normalized.
- Structures.OnUdtData: a BIT line whose alias equals its word makes Python link the member to itself. In the model the member's children then hold the previous value of the word.
- Resolver: the test that a member name is a bit index and the upper-casing of a word type cover ASCII digits and letters only. Python's `str.isdigit` and `str.upper` are Unicode-wide.
- SelectedContent.GetSelectedContent: the skip after an injected definition is a field of the walk's inputs (SkipRule). The parser's get_selected_content runs it AsWritten, as l5k_parser.py does. The Corrected rule is the one described under Findings.
- The exporter's docstring says UDT member selection limits the members written. The code never consults it, and the model follows the code (Exporter.MemberSelectionIgnored).

## Findings

| source | as written | input that shows it | evidently intended | confidence | as-written member | corrected member |
|---|---|---|---|---|---|---|
| L5KTuner/l5k_parser.py:1185-1189, 1206-1210 with 687-691, 907-922 | an AOI parameter or local tag line whose stored definition is injected always sets `skip_until_block_end`, so source lines are dropped up to the next line ending with `);` | a one-line declaration `A : BOOL (Usage := Input);` with a stored definition, followed by `B : BOOL (Usage := Input);`: the B line is skipped and B's definition never reaches the output | skip only the remaining lines of a multi-line declaration that capture_block took | not executed | L5kParser.Parser.GetSelectedContent, SelectedLaws.AsWrittenSwallowsNextLine | SelectedContent.GetSelectedContent, SelectedLaws.InjectedSkipsCapturedLines, SelectedLaws.CorrectedReadsNextLine |
