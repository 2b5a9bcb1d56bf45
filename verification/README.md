# headify in Dafny

headify turns one C source file that marks its exported declarations with a
`*` at the start of a line into a header text and an implementation text.
This project models the text-analysis pipeline of `headify.c` and proves
properties of it:

- **Scanner** (`scanner.dfy`): `scan_next` reads one element at a position of
  the source text. An element is whitespace, a token, a directive, a comment,
  `;`, a line break, a `(…)`/`[…]`/`{…}` group, a closing brace, `=`, a public
  marker or the end of the source. `Scan`, `ScanAt`, `ScanPlain`, `ScanGroup`,
  `GroupGoesOn` and `CloseGroup` state what one call returns. A group ends at
  the first closer at its own level (`Interior`), in both directions. The
  method `ScanNext` runs the C loops and is proved to return `Scan`.
  `count_line_breaks` is `CountLineBreaks`.
- **Element list and lexer** (`element_list.dfy`, `lexer.dfy`): the linked
  `ElementList` of `util.h`'s `generate_list` is a class with `first`/`last`
  fields and an `Append` that relinks nodes in place. `get_elements` is the
  method `GetElements`. It is proved to build exactly the list `Tokenize`
  describes, or to fail with its error. A successful `Tokenize` tiles the whole
  text. `TokenExamples` shows that three sources of `get_phrase_test` scan
  into the element lists the classifier examples use.
- **Phrase classifier** (`classifier.dfy`, `phrase_shapes.dfy`,
  `phrase_examples.dfy`): `skip_whi_lbr(_sem)`, `next`, `symbol`, the `f_…`
  states and `get_phrase`.
  - The automaton is a transition function `Step` over states.
  - Its recursive descent is `Run`.
  - `get_phrase` is `PhraseAt`. The method `GetPhrase` (over `Descend`) works
    on a `State` as the C code does.
  - `PhraseShape` proves, in both directions, which element shapes give which
    phrase type.
- **Emitters** (`emitter.dfy`): `xappend_string_until`, `fun_name`,
  `create_header` and `create_impl`.
  - The methods `CreateHeader` and `CreateImpl` are the C loops over growing
    strings. They are proved to compute `Header` and `Impl`.
  - Both refuse an empty element list (`EmptyList`), as their not-null check on
    the list does.
  - The implementation keeps every line break of the source.
  - The header ends in `#endif`. It is the include guard alone exactly when no
    phrase is public.
  - The two emitters fail together, with the same error line.
- **`examples/next_state.c`** (`next_state.dfy`): the 8×8 table-driven
  lexical state machine and its test vectors.

Representation:

- The source text is a `string`. The C terminating NUL sits at index `|text|`.
- Elements are index spans `Element(kind, begin, end)`. `begin` is
  inclusive and `end` is exclusive.
- Phrases are inclusive index ranges `first..last` into the element sequence.
  `last == |elems|` stands for the C `NULL`.
- The global `indent` flag is threaded through every scan. The globals
  `error_message` and `error_pos` become the `ScanError` in the result.
- `exit(EXIT_FAILURE)` becomes a `Fail` result carrying the reported line. A
  failed not-null check on the emitters' list becomes `Fail(EmptyList)`.

Where the code and headify's own descriptions differ, the model follows the
code:

- The include guard is `<basename>_h_INCLUDED`, with the name as given. It
  is not upper-cased.
- A `(…)`, `[…]` or `{…}` group clears the indentation flag. A public marker
  and a block comment leave it unchanged.
- The phrase's `first` is the element `get_phrase` is given. It is not the
  first significant element.
- `var_def` and `arr_def` accept anything up to the `;`. The grammar comments
  in `headify.h` say `token` or `curly_pair`.
- `create_impl` copies the text after the last phrase as well, so the whole
  output has as many line breaks as the whole source.
- An error phrase is reported with the line only (`<file>:<line>: Error`).

## Model

| member | source | states |
|---|---|---|
| Types.LineBreaksConcat | headify.c:90-98 | the line breaks of two adjacent pieces add up |
| Types.Newlines | headify.c:968-969 | the loop's output has exactly `lines` characters and `lines` line breaks |
| Types.TilingOrdered | headify.h:64-69 | in a tiling, later elements begin and end no earlier, and disjoint elements do not overlap |
| NextState.InputClass | examples/next_state.c:23-41 | the class is below 8 and is 0..6 exactly for `"`, `'`, escape, `//`, `/*`, `*/`, backslash before a line break or NUL |
| NextState.NextState | examples/next_state.c:21-44 | a valid state leads to a valid state |
| NextState.TableClosed | examples/next_state.c:4-15 | the table is 8×8 and every entry is a valid state |
| NextState.StringLiteral | examples/next_state.c:54-61 | `"` opens and closes a string, a backslash escapes in it, and any other character stays in it |
| NextState.CharLiteral | examples/next_state.c:47-56 | `'` opens and closes a character literal |
| NextState.Comments | examples/next_state.c:50-51 | `//` and `/*` leave code; a block comment is left only on `*/` and otherwise stays |
| NextState.Absorbing | examples/next_state.c:10-12 | states 3 and 5 never change |
| NextState.TestVectors | examples/next_state.c:46-63 | the remaining test vectors of next_state_test |
| ElementList.Node.constructor | headify.c:24-45 | a new node carries the element and links to nothing |
| ElementList.List.constructor | headify.c:441 | the list starts as {NULL, NULL} with no elements |
| ElementList.List.Append | util.h:75-85 | the node becomes last; an empty list also gets it as first; otherwise it is linked after the old last and first is kept; the contents grow by exactly its element |
| Scanner.TokEnd | headify.c:248-260 | a token stops at the first stop character or at the end, and contains none |
| Scanner.PreEnd | headify.c:127-136 | a directive stops at the end or on a line break, and a line break it stops on past its start is not preceded by a backslash |
| Scanner.WhiEnd | headify.c:140-149 | a whitespace run covers only blanks and the two characters of backslash-newline pairs, and stops at the end or at a character that is neither |
| Scanner.LitEnd | headify.c:154-165 | a closed literal ends just after its delimiter |
| Scanner.LcoEnd | headify.c:191-202 | a line comment stops before the first line break, or at the end |
| Scanner.BcoEnd | headify.c:206-212 | a block comment ends just after the first `*/`, and there is none when it is unterminated |
| Scanner.ScanLiteral | headify.c:151-186 | a literal is one token from the quote; unterminated it is an error at the opening quote covering the rest; the flag is cleared |
| Scanner.ScanSlash | headify.c:187-219 | `/` gives a line comment, a block comment or a one-character token; an unterminated block comment is an error at the `/`; block comments keep the flag, the others clear it |
| Scanner.Scan | headify.c:112-262 | eos exactly at the end, empty and keeping the flag; every element but an error starts at the position and is non-empty; an error (also one passed up from inside a group) carries a position at or after it; a closer and a public marker are one character; a group runs from its opener to a closer of the same kind (that it is the first closer at the group's level is stated by ScanGroup and FirstCloserEndsGroup); the flag changes as IndentAfter says |
| Scanner.ScanAt | headify.c:118-261 | Scan's guarantees for a position inside the text |
| Scanner.ScanPlain | headify.c:119-260 | every element that does not start with an opener: non-empty at the position, or an error at it |
| Scanner.ScanGroup | headify.c:220-241 | a group is its kind from the opener through a matching closer and clears the flag, and the elements read from t land on that closer without meeting another closer, an error or the end (it is the first closer at the group's level); otherwise an error at or after the opener |
| Scanner.GroupGoesOn | headify.c:223-237 | an inner error is passed up unchanged; otherwise the group keeps ScanGroup's guarantees, and after an element that is not a closer the interior goes on from that element to the group's closer |
| Scanner.OpenerScansGroup | headify.c:220-222 | an opener starts the group loop just after it with the flag cleared |
| Scanner.CloserScans | headify.c:242-244 | a closer is a one-character closer element whatever the flag, and clears it |
| Scanner.InteriorReachesCloser | headify.c:220-241 | when the elements read from t land on a closer without meeting another closer, the group loop ends at that closer: the group if the braces match, otherwise "braces do not match" at it |
| Scanner.FirstCloserEndsGroup | headify.c:220-241 | the first closer at the opener's level decides the group: it ends there, a group exactly when the braces match, otherwise "braces do not match" at that closer |
| Scanner.InteriorReachesEnd | headify.c:220-241 | when the elements read after an opener run to the end of the text without a closer at its level, the group loop reports "unterminated braces" at that opener |
| Scanner.UnterminatedRunsToEnd | headify.c:220-241 | conversely, "unterminated braces" at an opener means the elements after it reach the end of the text without a closer at its level, so the innermost unclosed opener is the one reported |
| Scanner.CloseGroup | headify.c:227-236 | a matching closer gives the group; a non-matching one gives "braces do not match" at the closer, spanning opener through closer |
| Scanner.ScanNext | headify.c:112-262 | the C loops compute Scan |
| Scanner.SkipDirective | headify.c:127-136 | the directive loop stops where PreEnd says |
| Scanner.SkipBlanks | headify.c:140-149 | the whitespace loop stops where WhiEnd says |
| Scanner.SkipLiteral | headify.c:153-165 | the literal loop stops where LitEnd says |
| Scanner.SkipLineComment | headify.c:191-202 | the line comment loop stops where LcoEnd says |
| Scanner.SkipBlockComment | headify.c:206-212 | the block comment loop stops where BcoEnd says |
| Scanner.SkipToken | headify.c:248-259 | the token loop stops where TokEnd says |
| Scanner.ScanGroupLoop | headify.c:220-241 | the group loop computes ScanGroup |
| Scanner.CountLineBreaks | headify.c:90-98 | the count is the number of line breaks from s to t |
| Scanner.LitEndFirstUnescaped | headify.c:154-165 | a literal ends at the first delimiter preceded by an even number of backslashes; every earlier delimiter has an odd number |
| Scanner.PreEndStopsAtPlainNewline | headify.c:127-136 | every line break inside a directive follows a backslash, and the one that ends it does not |
| Scanner.DirectiveSpan | headify.c:124-137 | a directive starts with `#` in the indentation region and ends before a line break that is not continued; every line break inside it is continued |
| Scanner.MarkerRules | headify.c:121-126 | `*` is a public marker and `#` a directive exactly when the flag is set; otherwise each is a one-character token |
| Scanner.ScanExamplesSimple | headify.c:286-298 | scan_next_test: end of source, line break, `*` with and without the flag |
| Scanner.ScanExamplesRuns | headify.c:300-323 | scan_next_test: a token, and a directive continued over a line |
| Scanner.ScanExamplesLiterals | headify.c:335-396 | scan_next_test: a string, and an unterminated string |
| Scanner.ScanExamplesComments | headify.c:350-360 | scan_next_test: line and block comments |
| Scanner.ScanExampleGroup | headify.c:365-366 | scan_next_test: a parenthesised group |
| Scanner.ScanExampleMismatch | headify.c:377-378 | scan_next_test: a mismatched closer gives the error from the inner opener through the closer, at the closer |
| Lexer.TokenizeFrom | headify.c:442-451 | a reported error line lies between 1 and the number of lines |
| Lexer.TokenizeFromTiles | headify.c:442-451 | the elements scanned from a position cover the rest of the text exactly |
| Lexer.Tokenize | headify.c:438-453 | a reported error line lies between 1 and the number of lines |
| Lexer.TokenizeTiles | headify.c:438-453 | a successful scan tiles the whole text: non-empty, contiguous, no error, every public marker a single `*` |
| Lexer.ReportScanError | headify.c:444-447 | the report is the problem and count_line_breaks up to the error position plus one, the error Tokenize ends with |
| Lexer.AppendElement | headify.c:449 | a new node with the element goes at the end of the list |
| Lexer.GetElements | headify.c:438-453 | the list holds exactly Tokenize's elements, or the failure is Tokenize's error |
| Classifier.NextSignificant | headify.c:485-492 | the result is at or after i and is significant, or the end |
| Classifier.NextSignificantSkips | headify.c:485-492 | everything skipped is whitespace or a line break |
| Classifier.NextPhraseStart | headify.c:498-505 | the result is at or after i and can start a phrase, or the end |
| Classifier.NextPhraseStartSkips | headify.c:498-505 | everything skipped is whitespace, a line break or `;` |
| Classifier.SkipWhiLbr | headify.c:485-492 | the loop computes NextSignificant |
| Classifier.SkipWhiLbrSem | headify.c:498-505 | the loop computes NextPhraseStart |
| Classifier.NextInput | headify.c:533-543 | next moves a non-NULL input strictly forward to a significant element or NULL, and leaves NULL where it is |
| Classifier.NextInputSkips | headify.c:533-543 | nothing next passes over is significant |
| Classifier.Symbol | headify.c:549-554 | the symbol is the input element's kind, and eos at NULL |
| Classifier.Step | headify.c:561-708 | unknown is never recorded; `;` always stops; only the four states that seek `;` go on at eos, to themselves; only f_start reaches f_pub, on pub; no state returns to f_start |
| Classifier.FirstSymbol | headify.c:561-601 | f_start/f_pub go on only on a token, to the state its word selects |
| Classifier.AfterTokens | headify.c:603-613 | f_tok goes on only to f_tok, f_tok_paren, f_tok_bracket or f_tok_asg, never at `;` or eos |
| Classifier.AfterParen | headify.c:615-622 | f_tok_paren goes on only to itself, over comments |
| Classifier.AfterBracket | headify.c:647-655 | f_tok_bracket goes on only to itself or f_tok_bracket_asg |
| Classifier.Run | headify.c:561-708 | a descent that stops records a type other than unknown at a significant element, or error at NULL; one that never stops has no `;` ahead |
| Classifier.RunFrom | headify.c:717-718 | Run's guarantees from the element skip_whi_lbr gives |
| Classifier.RunOneStep | headify.c:561-708 | the descent is one Step followed by the descent from the next state at next's input; at NULL a go-on is endless |
| Classifier.RunStepPastFirst | headify.c:603-692 | past f_start and f_pub a step does not read the token's characters |
| Classifier.PhraseAt | headify.c:713-721 | first is the start, last is at or after it, NULL only for error; public exactly when the first significant element is pub, and then more follows; endless only with no `;` ahead |
| Classifier.GetPhrase | headify.c:713-721 | get_phrase on a State computes PhraseAt |
| Classifier.Descend | headify.c:561-708 | the f_… functions on a State: the phrase type and last where the descent stops, is_public set by f_pub |
| Classifier.DescendGoto | headify.c:582-583 | a go-on step leaves the outcome unchanged and sets is_public only on entering f_pub |
| Classifier.Classify | headify.c:713-721 | get_phrase's phrase when it returns; an error phrase with last NULL where it would not |
| PhraseShapes.StepIgnoresWord | headify.c:603-692 | only f_start and f_pub look at the token's characters |
| PhraseShapes.FunctionShapeAt | headify.h:91-92 | func_decl/func_def: tokens and comments, then `(…)`, then what follows the parentheses |
| PhraseShapes.VarDefShapeAt | headify.h:94 | var_def: tokens and comments, then `=`, then anything up to `;` |
| PhraseShapes.ArrayShapeAt | headify.h:95-96 | arr_decl/arr_def: tokens and comments, then `[…]`, then what follows the brackets |
| PhraseShapes.TokensShapeAt | headify.h:91-96 | the shape after the first token is decided at the first element that is neither a token nor a comment |
| PhraseShapes.BracketShapeAt | headify.h:95-96 | the shape after the first brackets is decided at the first element that is neither a bracket nor a comment |
| PhraseShapes.SeekStep | headify.c:636-641 | a state seeking `;` stops at `;` with its type and never returns at NULL |
| PhraseShapes.SeekTail | headify.c:636-692 | f_tok_asg, f_tok_bracket_asg, f_struct_union_enum and f_typedef stop with type t at l exactly when l is the first `;` |
| PhraseShapes.ParenStep | headify.c:615-622 | f_tok_paren after comments: `;` gives fun_dec, `{…}` fun_def, anything else error |
| PhraseShapes.ParenTail | headify.c:615-630 | f_tok_paren stops with a non-error type exactly on the ParenShape |
| PhraseShapes.BracketStep | headify.c:647-655 | f_tok_bracket after brackets and comments: `;` gives arr_dec, `=` goes on to f_tok_bracket_asg, anything else error |
| PhraseShapes.BracketAt | headify.c:647-670 | f_tok_bracket from that element stops with a non-error type exactly on its shape |
| PhraseShapes.BracketTail | headify.c:647-670 | f_tok_bracket stops with a non-error type exactly on the BracketShape |
| PhraseShapes.TokensStep | headify.c:603-613 | f_tok after tokens and comments: `;` var_dec, `(…)`, `[…]`, `=` go on, anything else or NULL error |
| PhraseShapes.TokensAt | headify.c:603-613 | f_tok from that element stops with a non-error type exactly on its shape |
| PhraseShapes.TokensTail | headify.c:603-692 | f_tok stops with a non-error type exactly on the TokensShape |
| PhraseShapes.BodyTail | headify.c:561-601 | f_start/f_pub stop with a non-error type exactly when the body is a directive, a comment or a first token followed by the shape its word selects |
| PhraseShapes.BodyStart | headify.c:715-717 | the body starts at a significant element or the end |
| PhraseShapes.PhraseShape | headify.c:713-721 | get_phrase gives a non-error phrase of type t ending at l exactly when the body after the optional marker has the shape of t |
| PhraseShapes.SecondMarkerIsError | headify.c:582-599 | a second public marker is an error phrase ending at it |
| PhraseShapes.SemicolonEndsDescent | headify.c:636-688 | get_phrase returns whenever a `;` follows the phrase start |
| PhraseExamples.FirstWords | headify.c:466-479 | `int` and `x` select f_tok, `struct` selects f_struct_union_enum |
| PhraseExamples.VarDecExample | headify.c:742 | get_phrase_test: `*int i;X` is a public var_dec ending at the `;` |
| PhraseExamples.VarDecMarker | headify.c:574 | f_start on the marker goes to f_pub |
| PhraseExamples.VarDecFirstWord | headify.c:585-593 | f_pub on `int` goes to f_tok |
| PhraseExamples.VarDecTail | headify.c:603-634 | f_tok on `i`, then `;` records var_dec |
| PhraseExamples.StructExample | headify.c:774 | get_phrase_test: `struct s;X` is a private struct_union_enum_def |
| PhraseExamples.StructFirstWord | headify.c:563-566 | f_start on `struct` goes to f_struct_union_enum |
| PhraseExamples.DivergenceExample | headify.c:636-641 | on `x=5` get_phrase never returns |
| PhraseExamples.DivergenceFromStart | headify.c:561-641 | the descent on `x=5` from f_start is endless |
| PhraseExamples.DivergenceFirstWord | headify.c:563-571 | f_start on `x` goes to f_tok |
| PhraseExamples.DivergenceAfterAsg | headify.c:533-541 | f_tok_asg on `5` and then at NULL calls itself again without moving |
| PhraseExamples.DivergenceClassified | headify.c:713-721 | Classify makes `x=5` an error phrase with last NULL |
| TokenExamples.DivergeSourceTokens | headify.c:438-453 | get_elements on `x=5` gives the element list of the divergence example |
| TokenExamples.VarDecSourceTokens | headify.c:438-453 | get_elements on `*int i;X` gives the element list of the var_dec example |
| TokenExamples.StructSourceTokens | headify.c:438-453 | get_elements on `struct s;X` gives the element list of the struct example |
| Emitter.Span | headify.c:859 | the text of elements i..j is non-empty and as long as their extent |
| Emitter.GapIsSpan | headify.c:938 | the text copied before a phrase is empty when no element lies before it, and otherwise exactly the text of the elements from e up to the phrase; its length is the distance between their starts |
| Emitter.ClassifiedEmittable | headify.c:850-853 | a non-error phrase at a phrase start lies inside the list, and a public one starts with its marker and has more after it |
| Emitter.StopIndex | headify.c:816 | the stop element found is of the stop kind, or NULL |
| Emitter.StopIndexFirst | headify.c:816 | no earlier element is of the stop kind |
| Emitter.LastNonBlank | headify.c:817-819 | the last element kept is first or not whitespace |
| Emitter.LastNonBlankTrailing | headify.c:816-820 | only whitespace lies between the last kept element and the stop |
| Emitter.UntilStop | headify.c:813-822 | nothing is appended exactly when first is NULL or is itself a stop |
| Emitter.UntilStopCut | headify.c:813-822 | the text up to the stop is the appended text followed by whitespace only, and the appended text holds no stop element |
| Emitter.AppendUntil | headify.c:813-822 | the loop appends UntilStop |
| Emitter.HeaderEntryShape | headify.c:850-893 | a private phrase contributes nothing; a public one ends in a line break, has `extern ` for variables and arrays and `;` before the line break for definitions |
| Emitter.LastTokenIn | headify.c:910-915 | the token found lies in the phrase before last |
| Emitter.LastTokenInIsLast | headify.c:910-915 | no token follows the one found, and none exists when none is found |
| Emitter.FunName | headify.c:907-921 | the loop computes the last token before last for a function phrase, "" otherwise |
| Emitter.PublicSpan | headify.c:851-853 | a public phrase's text is `*` followed by the text from the element after it |
| Emitter.ImplEntryShape | headify.c:952-1004 | an entry has exactly the line breaks of its phrase; a private entry ends in the phrase's text and is longer exactly when it gets `static ` |
| Emitter.Impl | headify.c:927-1012 | a successful implementation has as many line breaks as the source; an empty list is refused |
| Emitter.ImplFromLineBreaks | headify.c:932-1010 | the walk from an element keeps the line breaks of the text from there |
| Emitter.ImplPhraseLineBreaks | headify.c:938-1010 | the gap, a phrase's entry and the walk after it keep the line breaks of the text from there |
| Emitter.ImplPieceLineBreaks | headify.c:938-1004 | gap, entry and rest together have the line breaks of the text they replace |
| Emitter.HeaderFromEnds | headify.c:836-899 | a successful header walk ends in `#endif\n` |
| Emitter.HeaderPhraseEnds | headify.c:839-899 | so does the walk from a phrase |
| Emitter.HeaderFromPrivate | headify.c:836-899 | the walk appends only `#endif\n` exactly when every phrase it meets is private and none is an error |
| Emitter.HeaderPhrasePrivate | headify.c:850-899 | the same from a phrase |
| Emitter.EntryBeforeEndif | headify.c:850-893 | a phrase leaves `#endif\n` alone only when it is private and the rest is `#endif\n` alone |
| Emitter.HeaderGuardOnly | headify.c:827-901 | the header is the guard and `#endif\n` alone exactly when the list is not empty, no phrase is public and none is an error |
| Emitter.FailTogether | headify.c:844-849 | the two walks fail together, with the same error line |
| Emitter.FailTogetherPhrase | headify.c:946-951 | the same from a phrase |
| Emitter.EmittersFailTogether | headify.c:827-828 | create_header fails exactly when create_impl does, with the same error: both refuse an empty list, and both stop at the same error phrase with the same line |
| Emitter.ClassifyPhrase | headify.c:839 | the phrase the emitters use is Classify's |
| Emitter.ReportError | headify.c:844-848 | the reported line is count_line_breaks to the end of last (or of first when last is NULL) plus one |
| Emitter.AppendHeaderEntry | headify.c:850-893 | create_header's switch appends the phrase's HeaderEntry |
| Emitter.AppendImplEntry | headify.c:952-1005 | create_impl's switch appends the phrase's ImplEntry |
| Emitter.AppendPublicEntry | headify.c:952-974 | the public branch appends the ImplEntry |
| Emitter.AppendPrivateEntry | headify.c:975-1004 | the private branch appends the ImplEntry |
| Emitter.HeaderFromStep | headify.c:836-898 | one round of create_header's loop: the error of an error phrase, otherwise the entry before the rest of the walk |
| Emitter.ImplFromStep | headify.c:932-1010 | one round of create_impl's loop: the error of an error phrase, otherwise the gap and entry before the rest |
| Emitter.CreateHeader | headify.c:827-901 | the not-null check and the C loop compute Header: EmptyList for an empty list, otherwise the guard, the entries and `#endif\n`, or the first error |
| Emitter.CreateImpl | headify.c:927-928 | the not-null check and the loop compute Impl: EmptyList for an empty list |
| Emitter.ImplLoop | headify.c:930-1012 | the C loop over a non-empty list computes the walk ImplFrom from the first element |

## Left out

- `main` (headify.c:1014-1095) is not modelled: argument checking, basename and suffix derivation, output file names, reading and writing files.
- Printing and debugging are left out: `print_element(s)`, `print_phrase(s)` and every `DEBUG` branch. `DEBUG` is the constant false (headify.c:9), so those branches never run.
- The test harnesses (`base_test_equal_element`, `scan_next_test`, `base_test_phrase`, `get_phrase_test`, `next_state_test`) are not code of the model. Some of their inputs appear as example lemmas.
  - Only three of `get_phrase_test`'s inputs are written out, to keep the proofs small. The others are instances of `PhraseShapes.PhraseShape`.
- Heap management is left out: `xmalloc` failure and `elements_free`.
- The classifier and the emitters work on the element sequence. `GetElements` builds the linked list whose contents are that sequence. Following `next` pointers is not modelled beyond `List.Append`.
- `fprintf` and `exit(EXIT_FAILURE)` become `Fail` results. Lexer.ReportScanError carries the problem (its text is `Scanner.Message`) and the line, not the file name. Emitter.ReportError carries only the line.
- The message of a failed not-null check (`util.h`:141-145: file, line, function name and argument) is not modelled; the emitters return `EmptyList` instead. An empty list is the sequence model of a `NULL` list pointer. The checks on other arguments (`basename`, the strings) have no counterpart, because Dafny values are never null.
- The `String` buffers of `util.h` are `string` values that the methods reassign. `util.h` declares but does not define `xappend_*`, `make_string2` and `cstring_equal`. They are modelled as concatenation, slicing and equality. Capacity and growth are not modelled.
- The `NOT HANDLED` default branch of `create_header` (headify.c:887-891) and the `unknown` phrase type are not modelled. The classifier never records `unknown` (`Classifier.Step`), and an error phrase stops the emitters first.
- The C call stack is not modelled. Deep nesting of groups, or long phrases, could exhaust it, because `scan_next` and the `f_…` states recurse.
- The `indent` flag starts set, as at program start. It is threaded explicitly. A second `get_elements` call that inherits a stale flag in the same process is not modelled.
- ElementList.List.Append: requires the node to be unlinked and not yet in the list. The C append accepts any node, and appending one already in the list would make it cyclic, which the model does not represent.
- ElementList.Node.constructor: does not require `begin <= end` as `new_element` does, because every caller passes a scanned element, which satisfies it.
- The `basename` parameter of `create_impl` is only used in its error message, so `CreateImpl` does not take it.

## Findings

| source | as written | input that shows it | evidently intended | confidence | as-written member | corrected member |
|---|---|---|---|---|---|---|
| headify.c:636-641 | `f_tok_asg` calls itself on every symbol but `;`. So do `f_tok_bracket_asg` (661-666), `f_struct_union_enum` (672-677) and `f_typedef` (683-688). At the end of the list `next` leaves the `NULL` input where it is (headify.c:537), so without a later `;` the recursion never returns. | the text `x=5` | recognition stops at the end of the input with an error phrase whose `last` is `NULL`, which the emitters already report (headify.c:845, 947) | high; not executed | PhraseExamples.DivergenceExample | Classifier.Classify |
