# Mox notation: parser, tokenizer and formatters

`mox` is a Go library for Mox, a small Lisp-like notation. The repository
holds two separate drafts of a read-and-reformat pipeline. Their grammars
disagree on comment syntax, delimiters, the hex prefix and string escapes,
so this model keeps them in separate modules and never mixes them.

**Draft B** covers the lossless parser and reprinter of `ast.go` and the
whitespace and comment normaliser of `ast_fmt.go`.

- `MoxNodes` holds the node variants, their text, `Format` and the
  character classes.
- `MoxGrammar` holds a pure specification of every `Parser.Pop*` method.
  Each function returns the node, the error and the new cursor. It also
  returns how many blocks end of input closed implicitly.
- `MoxParser.Parser` is the cursor-based parser as a class. Every method is
  proved to compute what its `MoxGrammar` function specifies.
- `MoxParseProps` proves the round trip `Format(Parse(s)) == s + ")"*open`,
  partial results, the dispatch order and number shape.
- `MoxParseExamples` holds concrete inputs, among them the cases of
  `ast_test.go`.
- `MoxAstFmt` holds the two regular-expression replacements, written as
  scanners, and proves they normalise and only delete. `trimPolyMultilines`
  appears twice: as its pattern matches, backtracking into `\r\n` pairs
  included, and as evidently intended. `FmtNodeSpace`, `FmtNodeComment`
  and the in-place `FmtMox` use the pattern as written;
  `FmtNodeSpaceIntended` is the intended variant. The module also holds
  `countNewlines`.

**Draft A** covers the streaming tokenizer of `ast/tok.go` and the
formatter of `archive/ast/fmt.go`. The formatter runs over those tokens.

- `TokGrammar` holds the token kinds, the error causes and one pure
  function per `maybe*` classifier. It also has `TokenAt`, one step of
  `Tokenizer.Token`.
- `TokScanner.Tokenizer` is the tokenizer as a class with a cursor and a
  stack of expected closers. Each method is proved against its
  `TokGrammar` function.
- `TokProps` holds `Tokenize`, the whole token stream. It proves that the
  stream reproduces the source, the comment shape, the string escape rules
  and the closer-stack discipline.
- `FmtMachine` is the formatter `fmter` as functions on a state value. The
  state holds the output, the previous token, the delimiter balance, the
  indentation level, the per-line shift and the inline flag.
- `FmtFormatter.Fmter` is the formatter as a class whose methods update
  those fields. Each method is proved to follow its `FmtMachine` function.
- `FmtProps` proves the effect of each write. It also proves the states
  that can be reached, for example that the shift is never +1. It proves
  that output is only ever appended, and that `Fmt` equals the handlers
  folded over `Tokenize`.
- `FmtExamples` works out `Fmt` on small inputs.

Input text is `seq<char>`. The character classes are the source's own
ASCII tables. `strings.TrimSpace` and `bytes.TrimSpace` are modelled with
Unicode's full white-space set, as `unicode.IsSpace` defines it
(`GoStrings.IsSpace`). Panics and `recover` become result values. An error
is a cursor and a cause.

Where the code and its tests or comments disagree, the model follows the
code:

- Three places where the code evidently does not do what its author meant
  (see "## Findings") are modelled as written on the main path:
  `FmtNodeSpace`, `FmtNodeComment` and `FmtMox` use the as-written
  `trimPolyMultilines`, and the tokenizer reports the as-written preview
  and unterminated-string errors. The intended variants sit beside them.
- `ast_test.go` and `ast_fmt.go` write `NodeSpace` and `[...]` comments.
  `ast.go` has `NodeWhitespace` and `{{ }}`. The model uses the names from
  `ast.go` and translates the test inputs.
- `ast_test.go:131-137` expects the input `(` to fail. `PopBlock` instead
  returns the open block with no error (`MoxParseExamples.UnclosedBlockAccepted`).
- The comment on `hasNonWhitespaceSuffix` speaks of the last newline. The
  code uses the first one (`FmtProps.FirstNewlineDecides`).

## Model

Functions that only compute a value carry no contract of their own. The
lemma or method rows below state their properties:

- `MoxNodes.Format`, `FormatAfter`, `Spaced`, `RequiresWhitespaceInfix`:
  FormatSpacing, FormatAfterSpacing, SpacedCons, FormatAfterCons.
- `MoxNodes.NodeText`, `Quote`: NodeRoundTrip, BlockText and the other
  round-trip rows.
- `MoxNodes.IsCharIn`: CharMapTable.
- `MoxAstFmt.FmtNodeSpace`: FmtNodeSpaceNormal, FmtNodeSpaceStable,
  FmtNodeSpaceNotIdempotent. `MoxAstFmt.FmtNodeComment`: CommentSingleLine,
  CommentMultiLine, CommentNotIdempotent.
- `TokGrammar.TokenString`: TokenText, CommentText, NumberText,
  NoPrefixesText. `TokGrammar.UnterminatedAsWritten`: StringBody,
  DoubleStringUnterminated, UnterminatedAsWrittenMisnames.
- `FmtMachine.WriteBytes`, `WriteNewlines`, `WriteIndent`,
  `WriteIndentFrom`, `Before`, `Space`, `DelimDec`, `CountNewlines`: the
  FmtProps rows WriteBytesEffect, WriteNewlinesEffect, WriteIndentEffect,
  BeforeIndents, BeforeSeparates, SpaceLines, DelimDecOnce, CrLfCountsTwice.
- `FmtMachine.DelimInc`, `WriteToken`: FmtFormatter.Fmter.DelimInc and
  FmtFormatter.Fmter.WriteToken, and StringKeepsBalance.
- `FmtMachine.AfterFirstNewline`, `NonBlank`, `HasNonWhitespaceSuffix`:
  AfterFirstNewlineShape, NonBlankExists, NonBlankTrim, FirstNewlineDecides.
- `FmtMachine.OnToken`, `OnTokens`, `TopFrom`, `Fmt`, and the handlers
  `Atom`, `StringToken`, `DelimOpen`, `DelimClose`: the `*Sane` and
  `*Extends` rows, StringKeepsBalance, DelimCloseNewlineFirst, OnTokensCons,
  TopFromTokens, FmtResult; each is also the specification a method of
  `FmtFormatter.Fmter` is proved against.
- `GoStrings.IsSpace`: the TrimLeft, TrimRight and TrimSpace rows.

| member | source | states |
|---|---|---|
| MoxNodes.NonNil | ast.go:426-430 | the entries Format keeps: none of them is nil |
| MoxNodes.FormatSpacing | ast.go:418-441 | Format is the non-nil nodes' texts, with one blank between two consecutive words and nothing else |
| MoxNodes.FormatAfterSpacing | ast.go:424-440 | Format continued after a previous node adds that node's separator, then the spaced non-nil nodes |
| MoxNodes.NonNilStep | ast.go:426-440 | one inductive step of FormatAfterSpacing: a non-nil head sets the previous node and is written |
| MoxNodes.SpacedCons | ast.go:432-438 | a non-nil node followed by more is its text, its separator, then the rest |
| MoxNodes.FormatAfterCons | ast.go:432-439 | one loop turn of Format: a space exactly when requiresWhitespaceInfix holds, then the node's text |
| MoxNodes.FormatIgnoresNil | ast.go:428-430 | dropping nil entries first does not change Format |
| MoxNodes.NonNilIdempotent | ast.go:428-430 | removing nil entries twice is removing them once |
| MoxNodes.FormatWithNilExample | ast_test.go:29-38 | nil entries between identifiers are skipped: "one two" |
| MoxNodes.FormatAddingWhitespaceExample | ast_test.go:110-128 | a blank goes between adjacent identifier and number nodes |
| MoxNodes.FormatNotAddingWhitespaceExample | ast_test.go:110-128 | no blank goes next to strings or operators |
| MoxNodes.FormatBlockExample | ast_test.go:10-27 | a comment, a blank and a block print as `{{#}} (1 "a")` |
| MoxNodes.CharMapTable | ast.go:460-472 | isCharIn on each table finds exactly the characters of the string literal stringCharMap builds it from |
| MoxGrammar.RunEnd | ast.go:207-209 | the end of the longest run of characters of one class from a position |
| MoxGrammar.WhitespaceAt | ast.go:104-115 | PopWhitespace succeeds exactly on a white-space character and takes the maximal run |
| MoxGrammar.CommentClose | ast.go:122-145 | the position of the `}}` that brings the nesting level to zero, when there is one |
| MoxGrammar.CommentAt | ast.go:117-146 | a comment node holds the text between `{{` and its matching `}}`, and its text is its source |
| MoxGrammar.FloatAt | ast.go:178-221 | a number in one base: the node text is the source and no identifier character follows it |
| MoxGrammar.FloatEnd | ast.go:185-201 | after the integer digits: an identifier character is an ExpectedDigit error, a `.` starts the fraction, anything else ends the number |
| MoxGrammar.FractionAt | ast.go:203-212 | a `.` must be followed by at least one digit, and no identifier character may follow the fraction |
| MoxGrammar.FloatWithPrefixAt | ast.go:164-176 | a prefixed number keeps its prefix in the node text |
| MoxGrammar.IdentifierAt | ast.go:223-235 | an identifier is a letter or `_` then letters, digits and `_`, taken maximally |
| MoxGrammar.OperatorAt | ast.go:237-248 | an operator is a maximal run of operator characters |
| MoxGrammar.Find | ast.go:269-281 | the first occurrence of the closing quote, or none |
| MoxGrammar.StringBetweenAt | ast.go:261-284 | string text is raw and holds no closing quote; empty text and a missing closer are errors |
| MoxGrammar.StringAt | ast.go:250-259 | a string node's text is its source text |
| MoxGrammar.NumberAt | ast.go:81-88 | the base is chosen by prefix: `0b`, `0o`, `0x`, else decimal |
| MoxGrammar.NodeAt | ast.go:65-102 | a successful step strictly advances; a node's text is its source; a word ends where no identifier character follows |
| MoxGrammar.BlockAt | ast.go:286-310 | a block step stays within the input and errors are reported at the stopping cursor |
| MoxGrammar.ChildrenAt | ast.go:294-307 | children stop at the first own-level `)`; end of input closes the block and is no error |
| MoxGrammar.NodesAt | ast.go:46-63 | nodes are parsed to the end of input, or up to the first error, which is reported at the cursor |
| MoxParser.Parser.constructor | ast.go:36-39 | a parser starts at cursor 0 on its source |
| MoxParser.Parser.Advance | ast.go:362-366 | skipping a matched prefix moves the cursor by its length |
| MoxParser.Parser.AdvanceNextChar | ast.go:368-371 | the cursor moves by one character unless at the end |
| MoxParser.Parser.PopNodes | ast.go:46-63 | returns the nodes, the error and the cursor that NodesAt specifies |
| MoxParser.Parser.PopNode | ast.go:65-102 | returns the node, the error and the cursor that NodeAt specifies |
| MoxParser.Parser.PopNumber | ast.go:148-162 | agrees with NumberAt |
| MoxParser.Parser.PopWhitespace | ast.go:104-115 | agrees with WhitespaceAt |
| MoxParser.Parser.PopComment | ast.go:117-146 | agrees with CommentAt |
| MoxParser.Parser.PopCommentBody | ast.go:122-145 | the body runs to the matching `}}`, or fails with ExpectedCommentClose at the end of input |
| MoxParser.Parser.PopCommentChar | ast.go:126-143 | one loop turn keeps the matching close position unchanged and advances the cursor |
| MoxParser.Parser.PopFloatWithPrefix | ast.go:164-176 | agrees with FloatWithPrefixAt |
| MoxParser.Parser.PopFloat | ast.go:178-221 | agrees with FloatAt |
| MoxParser.Parser.PopFloatEnd | ast.go:185-201 | agrees with FloatEnd |
| MoxParser.Parser.SkipCharsIn | ast.go:207-209 | the cursor ends at the end of the character run |
| MoxParser.Parser.PopFraction | ast.go:203-212 | agrees with FractionAt |
| MoxParser.Parser.PopIdentifier | ast.go:223-235 | agrees with IdentifierAt |
| MoxParser.Parser.PopOperator | ast.go:237-248 | agrees with OperatorAt |
| MoxParser.Parser.PopString | ast.go:250-259 | agrees with StringAt |
| MoxParser.Parser.PopStringBetween | ast.go:261-284 | agrees with StringBetweenAt |
| MoxParser.Parser.PopBlock | ast.go:286-310 | agrees with BlockAt |
| MoxParser.CommentCloseOpen | ast.go:128-131 | a `{{` raises the nesting level by one and skips two characters |
| MoxParser.CommentCloseEnd | ast.go:133-141 | the last `}}` ends the comment; an inner one lowers the level and skips only one character |
| MoxParser.CommentCloseOther | ast.go:142 | any other character is skipped |
| MoxParser.NodesAtCons | ast.go:51-58 | after a successful node, the rest of the node list continues from its end |
| MoxGrammar.ParseSource | ast.go:36-39 | Parse stays within the input; without an error it reads all of it; an error is reported at the stopping cursor, with no block open, and is never EndOfInput |
| MoxParser.Parse | ast.go:36-39 | Parse returns what ParseSource specifies |
| MoxParseProps.UnexpectedIff | ast.go:76-101 | PopNode reports Unexpected at the cursor exactly when no node kind starts there |
| MoxParseProps.StrayCloseIsUnexpected | ast.go:99-100 | a `)` outside a block is Unexpected at its own position |
| MoxParseProps.NodeRoundTrip | ast.go:27-34 | the text of a parsed node is its source text, plus the `)`s that end of input supplied, for nodes whose double-quoted strings strconv.Quote writes unchanged |
| MoxParseProps.BlockRoundTrip | ast.go:286-310 | the same for a block: `(` + Format(children) + `)` is its source |
| MoxParseProps.BlockText | ast.go:34 | a block's text is `(`, its formatted children and `)` |
| MoxParseProps.ChildrenRoundTrip | ast.go:294-307 | formatting a block's children, then `)`, gives their source back |
| MoxParseProps.ChildrenJoin | ast.go:300-306 | one child parsed, then the rest: the round trip is kept |
| MoxParseProps.ChildrenEnd | ast.go:294-298 | a block that stops at `)` or at end of input has no more children |
| MoxParseProps.ChildrenCons | ast.go:300-306 | a child is never nil, the next one never needs a blank before it, and only the last can be left open |
| MoxParseProps.ChildrenStep | ast.go:300-306 | one child prepended keeps the formatted-children round trip |
| MoxParseProps.NodesRoundTrip | ast.go:46-63 | Format of the parsed nodes is the source with the implicit `)`s appended |
| MoxParseProps.NodesStep | ast.go:51-58 | one node prepended keeps the node-list round trip |
| MoxParseProps.FormatParseRoundTrip | ast_test.go:66-69 | for input that parses and whose double-quoted strings strconv.Quote writes unchanged, Format(Parse(src)) == src + one `)` per block left open |
| MoxParseProps.NodesErrorPrefix | ast.go:46-63 | on error, the partial nodes format to a prefix of the source up to the error |
| MoxParseProps.ErrorPrefixStep | ast.go:51-58 | one node prepended keeps the partial-result prefix property |
| MoxParseProps.FloatShape | ast.go:178-221 | an accepted number is digits of its base, optionally `.` and more digits |
| MoxParseProps.FloatSlice | ast.go:185-212 | digits, then optionally `.` and a digit run, have that shape |
| MoxParseProps.FloatAccepted | ast.go:185-212 | an accepted number ends at its digit run or after its fraction |
| MoxParseProps.NumberShape | ast.go:148-176 | an accepted number is an optional base prefix, then that shape |
| MoxParseProps.IntegerAccepted | ast.go:185-201 | decimal digits not followed by `.` or an identifier character are accepted as one number |
| MoxParseExamples.NestedCommentExample | ast.go:133-141 | `{{{{x}}}}` gives comment `{{x}` and then an Unexpected `}` at 8 |
| MoxParseExamples.NestedCommentClose | ast.go:122-145 | in `{{{{x}}}}` the matching `}}` is at 6 |
| MoxParseExamples.StrayAt | ast.go:99-100 | a `}` or `)` where a node is expected is Unexpected |
| MoxParseExamples.NodesAtStep | ast.go:51-58 | a successful node is prepended to the parse of the rest |
| MoxParseExamples.CommentDispatch | ast.go:79-80 | `{{` dispatches to PopComment |
| MoxParseExamples.NumberDispatch | ast.go:81-88 | a decimal digit dispatches to the number parsers |
| MoxParseExamples.IdentifierDispatch | ast.go:89-90 | an identifier start dispatches to PopIdentifier |
| MoxParseExamples.StringDispatch | ast.go:93-96 | `"` and `` ` `` dispatch to the two string parsers |
| MoxParseExamples.BlockDispatch | ast.go:97-98 | `(` dispatches to PopBlock |
| MoxParseExamples.UnclosedCommentExample | ast.go:145 | `{{a` is ExpectedCommentClose at the end of input |
| MoxParseExamples.BinaryDigitRejected | ast.go:190-192 | `0b102` is rejected at the `2` |
| MoxParseExamples.LetterAfterDigitsRejected | ast.go:190-192 | `12a` is rejected at the `a` |
| MoxParseExamples.TrailingDotRejected | ast.go:203-206 | `12.` is rejected: a fraction needs a digit |
| MoxParseExamples.UpperHexRejected | ast.go:467 | hexadecimal digits are lower case only: `0xAB` is rejected |
| MoxParseExamples.HexFractionExample | ast.go:164-212 | `0x1f.a` is one number and keeps its prefix |
| MoxParseExamples.HexFractionDigits | ast.go:178-212 | hexadecimal digits take a hexadecimal fraction |
| MoxParseExamples.EmptyStringRejected | ast.go:271-273 | `""` is an empty-string error |
| MoxParseExamples.LoneDoubleQuoteRejected | ast_test.go:139-145 | `"` alone is an unterminated string |
| MoxParseExamples.LoneGraveQuoteRejected | ast_test.go:147-153 | `` ` `` alone is an unterminated string |
| MoxParseExamples.UnterminatedStringRejected | ast.go:283 | a grave string that is never closed fails at the end of input |
| MoxParseExamples.UnclosedBlockAccepted | ast.go:294-309 | `(` parses to an empty block with no error, against ast_test.go:131-137 |
| MoxParseExamples.PartialBlockExample | ast.go:301-304 | a child's error returns the block built so far with that error |
| MoxParseExamples.PartialBlockChildren | ast.go:301-304 | the children before the failing one are kept |
| MoxParseExamples.StrayCloseExample | ast.go:46-63 | `a)` returns the identifier parsed before the Unexpected `)` |
| MoxAstFmt.HSpaceRunEnd | ast_fmt.go:59 | the end of a maximal run of space, tab and vertical tab |
| MoxAstFmt.BreakRunEnd | ast_fmt.go:65 | the end of a maximal run of `\r` and `\n` |
| MoxAstFmt.TrimTrailing | ast_fmt.go:51-59 | trimTrailingSpaceMultiline keeps a leading non-space and never lengthens |
| MoxAstFmt.TrimTrailingNoTrailingSpace | ast_fmt.go:51-59 | afterwards no space, tab or vertical tab comes right before a line break |
| MoxAstFmt.TrimTrailingFixpoint | ast_fmt.go:51-59 | text with no space before a break is unchanged |
| MoxAstFmt.TrimTrailingSubsequence | ast_fmt.go:51-59 | it only deletes characters |
| MoxAstFmt.TrimTrailingKeepsText | ast_fmt.go:51-59 | it deletes only horizontal white space: everything else stays, in order |
| MoxAstFmt.TrimTrailingLast | ast_fmt.go:51-59 | a last character that is not horizontal white space stays last |
| MoxAstFmt.SqueezeRun | ast_fmt.go:65 | a run of breaks keeps its first two breaks, `\r\n` counted as one |
| MoxAstFmt.FirstTwoBreaks | ast_fmt.go:65 | the prefix of a run that holds exactly two breaks |
| MoxAstFmt.TrimPolyMultilines | ast_fmt.go:61-65 | trimPolyMultilines as intended: keeps a leading character and never lengthens |
| MoxAstFmt.TrimPolyFewBreaks | ast_fmt.go:61-65 | afterwards no run holds more than two breaks |
| MoxAstFmt.TrimPolyFixpoint | ast_fmt.go:61-65 | text with no run of three breaks is unchanged |
| MoxAstFmt.TrimPolySubsequence | ast_fmt.go:61-65 | it only deletes characters |
| MoxAstFmt.TrimPolyKeepsText | ast_fmt.go:61-65 | it deletes only break characters |
| MoxAstFmt.TrimPolyNoTrailingSpace | ast_fmt.go:26-30 | it keeps the no-space-before-a-break property of its input |
| MoxAstFmt.TrimPolyLast | ast_fmt.go:61-65 | a last character that is no break stays last |
| MoxAstFmt.BacktrackGroup | ast_fmt.go:65 | the `$1` group the backtracking match captures at a run of three or more break characters: two to four characters, always leaving at least one for the `+` part |
| MoxAstFmt.BreakCountLength | ast_fmt.go:65 | a run never holds more line breaks than characters |
| MoxAstFmt.GroupBreaks | ast_fmt.go:65 | the captured group holds at most two line breaks |
| MoxAstFmt.SqueezeRunAsWritten | ast_fmt.go:61-65 | as written, a run of three or more break characters is cut to a prefix of two to four characters with at most two breaks; a shorter run stays |
| MoxAstFmt.TrimPolyMultilinesAsWritten | ast_fmt.go:61-65 | trimPolyMultilines as the pattern matches: keeps a leading character and never lengthens |
| MoxAstFmt.TrimPolyAsWrittenFewBreaks | ast_fmt.go:61-65 | as written, too, no run holds more than two breaks afterwards |
| MoxAstFmt.TrimPolyAsWrittenFixpoint | ast_fmt.go:61-65 | as written, text whose break runs are at most two characters long is unchanged |
| MoxAstFmt.TrimPolyAsWrittenSubsequence | ast_fmt.go:61-65 | as written, it only deletes characters |
| MoxAstFmt.TrimPolyAsWrittenKeepsText | ast_fmt.go:61-65 | as written, it deletes only break characters |
| MoxAstFmt.TrimPolyAsWrittenNoTrailingSpace | ast_fmt.go:26-30 | as written, it keeps the no-space-before-a-break property of its input |
| MoxAstFmt.TrimPolyAsWrittenLast | ast_fmt.go:61-65 | as written, a last character that is no break stays last |
| MoxAstFmt.BreakCountWithoutCr | ast_fmt.go:65 | without `\r`, every break character is one line break |
| MoxAstFmt.TrimPolyAgreeWithoutCr | ast_fmt.go:61-65 | on text without `\r` the as-written and the intended trimPolyMultilines agree |
| MoxAstFmt.TrimPolyAsWrittenSplitsCrLf | ast_fmt.go:65 | as written, `a\r\n\r\nb` is rewritten to `a\r\n\rb`; as intended it is unchanged |
| MoxAstFmt.FmtNodeSpaceNormal | ast_fmt.go:26-30 | FmtNodeSpace, as written: the output has no space before a break and no run of three breaks, and it is a subsequence of the input |
| MoxAstFmt.FmtNodeSpaceStable | ast_fmt.go:26-30 | a second FmtNodeSpace leaves the output unchanged when its break runs are at most two characters long |
| MoxAstFmt.NoHSpaceUntrimmed | ast_fmt.go:51-59 | text without horizontal white space is left alone by trimTrailingSpaceMultiline |
| MoxAstFmt.FmtNodeSpaceNotIdempotent | ast_fmt.go:26-30 | as written, FmtNodeSpace is not idempotent: `\r\n\r\n` gives `\r\n\r`, which gives `\r\n` |
| MoxAstFmt.FmtNodeSpaceIntendedNormal | ast_fmt.go:26-30 | with the intended trimPolyMultilines the output is normal in the same sense |
| MoxAstFmt.FmtNodeSpaceIntendedIdempotent | ast_fmt.go:26-30 | with the intended trimPolyMultilines, FmtNodeSpace applied twice is FmtNodeSpace applied once |
| MoxAstFmt.CountNewlines | ast_fmt.go:67-75 | the loop counts the `\n` characters only |
| MoxAstFmt.NewlineCountZero | ast_fmt.go:36 | the count is zero exactly when the text has no `\n` |
| MoxAstFmt.CommentSingleLine | ast_fmt.go:32-41 | FmtNodeComment on content without `\n` returns it trimmed and unpadded: no white space at either end, no space before a break, all else kept |
| MoxAstFmt.CommentMultiLine | ast_fmt.go:43-47 | otherwise FmtNodeComment gives `\n`, the content through the as-written FmtNodeSpace, `\n`; the content is trimmed, normalised and a subsequence of the input |
| MoxAstFmt.CommentNotIdempotent | ast_fmt.go:32-49 | as written, FmtNodeComment turns `a\r\r\r\nb` into `\na\r\rb\n`, which in turn gives `a\r\rb` |
| MoxAstFmt.FmtEntry | ast_fmt.go:14-22 | white space and comments keep their kind; every other entry, blocks included, is unchanged |
| MoxAstFmt.FmtEntryNotIdempotent | ast_fmt.go:16-17 | rewriting the white-space entry `\r\n\r\n` gives `\r\n\r`, and a second pass gives `\r\n` |
| MoxAstFmt.FmtEntryWhitespaceStable | ast_fmt.go:16-17 | a white-space entry whose rewritten break runs are at most two characters long is not changed by a second rewrite |
| MoxAstFmt.FmtMox | ast_fmt.go:13-24 | every array slot is replaced in place by its rewritten entry, using the as-written normaliser |
| MoxAstFmt.ReplaceEach | ast_fmt.go:14-23 | every slot i holds f(old slot i) |
| TokGrammar.RunEnd | ast/tok.go:195-197 | the end of a run of bytes from one class |
| TokGrammar.PreviewFrom | ast/tok.go:372-378 | as intended: at most 32 characters from the start, then ` ...` when more follow |
| TokGrammar.PreviewFromAsWritten | ast/tok.go:372-378 | as written, the cut depends on what is left after the cursor: the preview is the rest of the input from `start`, or its 32 characters from `start` and ` ...` when more than 32 follow the cursor; from the cursor itself it is the intended preview |
| TokGrammar.Preview | ast/tok.go:368-370 | the preview at the cursor is at most 36 characters: the rest of the input, or its first 32 and ` ...` |
| TokGrammar.SpaceAt | ast/tok.go:88-98 | a space token exactly at white space; its text is the run |
| TokGrammar.CommentEnd | ast/tok.go:127-133 | where a comment ends: after the first line break or at the end of input |
| TokGrammar.CommentAt | ast/tok.go:122-136 | a comment token exactly at `;`; its text starts after the `;` |
| TokGrammar.NumberAt | ast/tok.go:169-209 | a number token's text is its digits; one that runs to end of input without a `.` is not accepted |
| TokGrammar.FractionAt | ast/tok.go:191-200 | a fraction must hold at least one digit |
| TokGrammar.Unterminated | ast/tok.go:257 | as intended, the missing closer named in the error is the string's own |
| TokGrammar.StringBody | ast/tok.go:238-257 | the string loop stays within the input; running out of input is the as-written error that names the grave quote |
| TokGrammar.StringBodyShape | ast/tok.go:238-257 | the body ends just after its closer with raw text, or fails at the end of input |
| TokGrammar.StringBodyClose | ast/tok.go:239-243 | the closer ends the string, and its text runs up to it |
| TokGrammar.StringBetween | ast/tok.go:230-258 | no opener passes; a quoted text lies between opener and closer; an error is at the end of input |
| TokGrammar.StringAt | ast/tok.go:211-228 | string tokens come only from `"` or `` ` ``, and their text is the source taken |
| TokGrammar.OperatorAt | ast/tok.go:260-275 | an operator token is a maximal run of operator bytes; a digit after a final `.` fails with the as-written preview from the operator's start |
| TokGrammar.IdentAt | ast/tok.go:277-287 | an identifier token exactly at an identifier start |
| TokGrammar.DelimsAt | ast/tok.go:304-317 | an opener or matching closer advances by one; a closer that does not match is UnexpectedClosing at the cursor |
| TokGrammar.AnyDelimAt | ast/tok.go:289-299 | parens, brackets, then braces |
| TokGrammar.NumberStep | ast/tok.go:138-167 | a number is tried exactly at `0b`, `0o`, `0h` or a digit, and the prefix is dropped from its text |
| TokGrammar.TokenAt | ast/tok.go:56-86 | a token step advances, or it fails with EndOfInput exactly at the end of input |
| TokGrammar.AfterNumber | ast/tok.go:73-84 | the steps after a number keep the same guarantee |
| TokScanner.Tokenizer.constructor | ast/tok.go:46-48 | a tokenizer starts at cursor 0 with no closers expected |
| TokScanner.Tokenizer.SkipByte | ast/tok.go:396-398 | one byte is skipped |
| TokScanner.Tokenizer.SkipChar | ast/tok.go:400-403 | one character is skipped unless at the end |
| TokScanner.Tokenizer.SkippedByte | ast/tok.go:413-419 | a byte is skipped exactly when it is next |
| TokScanner.Tokenizer.SkippedString | ast/tok.go:421-427 | a prefix is skipped exactly when it is next |
| TokScanner.Tokenizer.SkippedNewline | ast/tok.go:332-334 | `\r\n` is skipped as one break, `\n` or `\r` alone as one |
| TokScanner.Tokenizer.MaybeSpace | ast/tok.go:88-98 | agrees with SpaceAt |
| TokScanner.Tokenizer.MaybeComment | ast/tok.go:122-136 | agrees with CommentAt |
| TokScanner.Tokenizer.MaybeNumber | ast/tok.go:138-161 | agrees with NumberStep |
| TokScanner.Tokenizer.MaybeNumberWithPrefix | ast/tok.go:163-167 | with the prefix next, the number starts after it; else it passes |
| TokScanner.Tokenizer.NumberWith | ast/tok.go:169-209 | agrees with NumberAt |
| TokScanner.Tokenizer.NumberFraction | ast/tok.go:191-200 | agrees with FractionAt |
| TokScanner.Tokenizer.MaybeString | ast/tok.go:211-228 | agrees with StringAt |
| TokScanner.Tokenizer.MaybeStringBetween | ast/tok.go:230-258 | agrees with StringBetween |
| TokScanner.Tokenizer.StringChar | ast/tok.go:239-254 | one loop turn advances and keeps what the body will return |
| TokScanner.Tokenizer.MaybeOperator | ast/tok.go:260-275 | agrees with OperatorAt |
| TokScanner.Tokenizer.MaybeIdent | ast/tok.go:277-287 | agrees with IdentAt |
| TokScanner.Tokenizer.PushCloser | ast/tok.go:319-321 | the closer is pushed onto the stack |
| TokScanner.Tokenizer.PopCloser | ast/tok.go:323-330 | the top is popped exactly when it is the given closer |
| TokScanner.Tokenizer.MaybeDelims | ast/tok.go:304-317 | agrees with DelimsAt, closer stack included |
| TokScanner.Tokenizer.Token | ast/tok.go:56-86 | the token, the error, the cursor and the stack are those of TokenAt |
| TokProps.Tokenize | ast/tok.go:56-86 | the token stream up to the first failing step, which stops within the input |
| TokProps.Tokens | ast/tok.go:56-86 | one token per lexeme |
| TokProps.DelimText | ast/tok.go:304-317 | a delimiter token's text is the byte taken |
| TokProps.AnyDelimText | ast/tok.go:289-299 | the same for all three delimiter pairs |
| TokProps.TokenText | ast/tok.go:30-44 | what one step takes is its dropped prefix then the token's String |
| TokProps.CommentText | ast/tok.go:122-136 | a comment's source is `;` then its String |
| TokProps.NumberText | ast/tok.go:138-167 | a number's source is its prefix then its String |
| TokProps.AfterNumberText | ast/tok.go:73-84 | the same for the steps after a number |
| TokProps.TokenizeText | ast/tok.go:30-44 | the lexemes' texts spell the source up to where tokenizing stopped |
| TokProps.TokenizeEnd | ast/tok.go:81-85 | the stream ends with EndOfInput exactly when it reached the end of input |
| TokProps.NoPrefixesText | ast/tok.go:30-44 | without number prefixes, the lexemes' text is the tokens' String |
| TokProps.Reproduction | archive/ast/mox_test.go:42-57 | a stream that ends at EndOfInput reproduces the source; without prefixes its Strings alone do |
| TokProps.Chomp | ast/tok.go:332-334 | dropping a final line break shortens by at most two |
| TokProps.CommentEndShape | ast/tok.go:122-136 | a comment holds no break before its final one, and lacks one only at end of input |
| TokProps.CommentEndCr | ast/tok.go:332-334 | a comment ending in `\r` is not followed by `\n`: `\r\n` is one break |
| TokProps.CommentShape | archive/ast/mox_test.go:44 | a comment's text holds exactly one final break, or runs to end of input |
| TokProps.NumberFollowed | ast/tok.go:176-209 | an accepted number has a fraction or is followed by input, and no identifier byte follows it |
| TokProps.NumberAtEndRejected | ast/tok.go:176-194 | a digit run that reaches end of input is rejected |
| TokProps.OperatorDot | ast/tok.go:260-275 | an operator fails exactly when it ends in `.` and a digit follows |
| TokProps.EscapedSkipped | ast/tok.go:245-252 | a backslash and the following character are skipped together |
| TokProps.QuotedEscaped | ast/tok.go:238-257 | double-quoted text is a sequence of plain characters and backslash pairs |
| TokProps.DoubleStringRoundTrip | ast/tok.go:216-221 | any escaped text between `"`s, empty included, is one StringDouble token with that raw text |
| TokProps.DoubleStringEscaped | ast/tok.go:216-221 | every StringDouble token's text is well-escaped |
| TokProps.DoubleStringUnterminated | ast/tok.go:257 | a `"` and escaped text with no closer fail at the end of input, with the as-written error naming `` ` `` |
| TokProps.GraveSkipped | ast/tok.go:238-255 | grave strings skip every non-closer, backslashes included |
| TokProps.GraveStringRoundTrip | ast/tok.go:223-228 | any text without `` ` `` between two `` ` ``s, empty included, is one StringGrave token with that text |
| TokProps.GraveQuotedRaw | ast/tok.go:238-255 | grave text never holds a `` ` `` |
| TokProps.GraveStringRaw | ast/tok.go:223-228 | a StringGrave token's text holds no `` ` `` |
| TokProps.DelimStack | ast/tok.go:304-317 | an opener pushes its closer and a closer pops its own |
| TokProps.TokenStack | ast/tok.go:56-86 | each step moves the closer stack as its token says |
| TokProps.AfterNumberStack | ast/tok.go:73-84 | the same for the steps after a number |
| TokProps.StackAfterCons | ast/tok.go:319-330 | the stack after several tokens, one token at a time |
| TokProps.TokenizeStack | ast/tok.go:304-330 | the final stack is the one the tokens' openers and closers give |
| TokProps.UnexpectedCloser | ast/tok.go:310-315 | a closer not on top of the stack is UnexpectedClosing at its own position |
| TokProps.UnclosedAtEnd | ast/tok.go:85 | at end of input the step is EndOfInput, whatever openers remain |
| TokExamples.HexNumberExample | ast/tok.go:154 | `0h1f` is the number `1f`, prefix dropped |
| TokExamples.IntegerAtEndExample | ast/tok.go:176-194 | `12` at the end of input is rejected |
| TokExamples.FractionAtEndExample | ast/tok.go:191-200 | `1.5` at the end of input is accepted |
| TokExamples.DotDigitExample | ast/tok.go:270-271 | `.5` is DigitAfterDot after the dot |
| TokExamples.EscapeAtEndExample | ast/tok.go:245-249 | a backslash at end of input is ExpectedEscaped |
| TokExamples.CommentExample | archive/ast/mox_test.go:44 | `; one\n` is a comment token that keeps its break |
| TokExamples.BracketsExample | archive/ast/mox_test.go:53-56 | `[six]\n` tokenizes to open, identifier, close, space, and the stack ends empty |
| TokExamples.PreviewAsWrittenUncut | ast/tok.go:372-378 | 40 dots then `1`: OperatorAt fails at 40 with the as-written preview, all 41 characters from 0; the corrected preview is 36 |
| TokExamples.UnterminatedAsWrittenMisnames | ast/tok.go:257 | StringAt on `"abc` fails at 4 with the as-written error naming `` ` ``, which differs from the corrected one naming `"` |
| FmtMachine.NewlineReset | archive/ast/fmt.go:166-173 | the level rises by one exactly when the balance was positive; balance and shift become 0; inline off |
| FmtFormatter.Fmter.constructor | archive/ast/fmt.go:35-42 | a formatter with a fresh tokenizer on the source, in the initial state |
| FmtFormatter.Fmter.NewlineReset | archive/ast/fmt.go:166-173 | the fields change as FmtMachine.NewlineReset says |
| FmtFormatter.Fmter.WriteBytes | archive/ast/fmt.go:214-225 | as FmtMachine.WriteBytes |
| FmtFormatter.Fmter.WriteSeparator | archive/ast/fmt.go:175-177 | writes one blank |
| FmtFormatter.Fmter.WriteNewline | archive/ast/fmt.go:179-181 | writes one `\n` |
| FmtFormatter.Fmter.WriteNewlines | archive/ast/fmt.go:183-188 | as FmtMachine.WriteNewlines |
| FmtFormatter.Fmter.WriteIndent | archive/ast/fmt.go:190-194 | as FmtMachine.WriteIndent |
| FmtFormatter.Fmter.WriteToken | archive/ast/fmt.go:196-198 | writes the token's String |
| FmtFormatter.Fmter.DelimInc | archive/ast/fmt.go:154-156 | raises the balance |
| FmtFormatter.Fmter.DelimDec | archive/ast/fmt.go:158-164 | as FmtMachine.DelimDec |
| FmtFormatter.Fmter.Before | archive/ast/fmt.go:146-152 | as FmtMachine.Before |
| FmtFormatter.Fmter.Space | archive/ast/fmt.go:88-97 | as FmtMachine.Space |
| FmtFormatter.Fmter.Atom | archive/ast/fmt.go:109-113 | as FmtMachine.Atom |
| FmtFormatter.Fmter.StringToken | archive/ast/fmt.go:115-121 | as FmtMachine.StringToken |
| FmtFormatter.Fmter.DelimOpen | archive/ast/fmt.go:123-128 | as FmtMachine.DelimOpen |
| FmtFormatter.Fmter.DelimClose | archive/ast/fmt.go:130-136 | as FmtMachine.DelimClose |
| FmtFormatter.Fmter.OnToken | archive/ast/fmt.go:71-86 | as FmtMachine.OnToken |
| FmtFormatter.Fmter.Top | archive/ast/fmt.go:62-69 | the output and error are those of TopFrom from the tokenizer's current state |
| FmtFormatter.CountNewlines | archive/ast/fmt.go:290-303 | the loop counts every `\r` and every `\n` |
| FmtFormatter.Fmt | archive/ast/fmt.go:35-42 | the output and error are those of FmtMachine.Fmt |
| FmtProps.WriteBytesEffect | archive/ast/fmt.go:214-225 | a write appends its text and resets the line exactly when it holds `\n`; inline is on after a non-blank suffix |
| FmtProps.AfterFirstNewlineShape | archive/ast/fmt.go:236-239 | what follows the first `\n`: a suffix, with one `\n` before it and none earlier |
| FmtProps.NonBlankExists | archive/ast/fmt.go:240 | non-blank means some character is not white space |
| FmtProps.NonBlankTrim | archive/ast/fmt.go:232-241 | hasNonWhitespaceSuffix is `len(TrimSpace(after first newline)) > 0` |
| FmtProps.FirstNewlineDecides | archive/ast/fmt.go:232-241 | the first `\n` decides, not the last as its comment says |
| FmtProps.WriteNewlinesEffect | archive/ast/fmt.go:183-188 | n line breaks are appended, and for n > 0 the line is reset |
| FmtProps.SpaceLines | archive/ast/fmt.go:88-97 | space writes min(newlines, 2) line breaks, and nothing at the start or after an opener |
| FmtProps.CrLfCountsTwice | archive/ast/fmt.go:294 | `\r\n` counts as two: the guard never fires |
| FmtProps.WriteIndentEffect | archive/ast/fmt.go:190-194 | writeIndent writes indent copies of Indent, none at a level of zero or below |
| FmtProps.BeforeIndents | archive/ast/fmt.go:147-148 | off the inline state, before writes the indentation and changes nothing else |
| FmtProps.BeforeSeparates | archive/ast/fmt.go:149-151 | inline, before writes one blank between non-delimiters and nothing next to a delimiter |
| FmtProps.SeparatorWrite | archive/ast/fmt.go:175-177 | a blank changes only the output |
| FmtProps.BeforeKeeps | archive/ast/fmt.go:146-152 | before changes only the output and the inline flag |
| FmtProps.BeforeOffLine | archive/ast/fmt.go:147-148 | off the inline state, before is writeIndent |
| FmtProps.WriteIndentSane | archive/ast/fmt.go:190-194 | writeIndent keeps the shift at 0 or -1 |
| FmtProps.WriteNewlinesSane | archive/ast/fmt.go:183-188 | so does writeNewlines |
| FmtProps.WriteBytesSane | archive/ast/fmt.go:214-225 | so does any write |
| FmtProps.BeforeSane | archive/ast/fmt.go:146-152 | so does before |
| FmtProps.SpaceSane | archive/ast/fmt.go:88-97 | so does space |
| FmtProps.AtomSane | archive/ast/fmt.go:109-113 | so does atom |
| FmtProps.StringSane | archive/ast/fmt.go:115-121 | so does string |
| FmtProps.DelimOpenSane | archive/ast/fmt.go:123-128 | so does delimOpen |
| FmtProps.DelimCloseSane | archive/ast/fmt.go:130-136 | so does delimClose |
| FmtProps.OnTokenSane | archive/ast/fmt.go:71-86 | every token handler keeps the shift at 0 or -1 |
| FmtProps.OnTokensSane | archive/ast/fmt.go:62-69 | so does any sequence of tokens |
| FmtProps.ShiftNeverPositive | archive/ast/fmt.go:56 | from the start, the shift is always 0 or -1, never +1 |
| FmtProps.DelimDecOnce | archive/ast/fmt.go:158-164 | delimDec lowers the level at most once per line, by one, only from an unshifted line |
| FmtProps.TokenOnLine | archive/ast/fmt.go:71-86 | tokens other than space and closers keep the level within one line's bound |
| FmtProps.StringKeepsBalance | archive/ast/fmt.go:115-121 | the inc and dec around a string leave balance, level and shift as they were |
| FmtProps.WriteIndentExtends | archive/ast/fmt.go:190-194 | writeIndent only appends |
| FmtProps.WriteNewlinesExtends | archive/ast/fmt.go:183-188 | writeNewlines only appends |
| FmtProps.BeforeExtends | archive/ast/fmt.go:146-152 | before only appends |
| FmtProps.DelimCloseNewlineFirst | archive/ast/fmt.go:130-136 | delimClose writes `\n` first and the closer last |
| FmtProps.TokenAfterExtends | archive/ast/fmt.go:109-128 | before then the token only appends |
| FmtProps.OnTokenExtends | archive/ast/fmt.go:71-86 | every handler only appends to the output |
| FmtProps.OnTokensExtends | archive/ast/fmt.go:62-69 | the output written so far is never taken back |
| FmtProps.OnTokensCons | archive/ast/fmt.go:65-67 | tokens are handled one at a time, in order |
| FmtProps.TopFromTokens | archive/ast/fmt.go:62-69 | top is the handlers folded over the token stream; EndOfInput is no error, another error is returned |
| FmtProps.FmtResult | archive/ast/fmt.go:35-42 | Fmt's output is all tokens handled; its error is none exactly at EndOfInput, else the tokenizer's |
| FmtExamples.OneLineTokens | ast/tok.go:56-86 | `(a)` tokenizes to open, identifier, close |
| FmtExamples.TwoLineTokens | ast/tok.go:56-86 | `(a\n)` tokenizes to open, identifier, space, close |
| FmtExamples.CloseAfter | archive/ast/fmt.go:130-136 | a closer after an atom: a break, a shifted level, then the closer |
| FmtExamples.FmtOneLine | archive/ast/fmt.go:35-42 | `(a)` formats to `(a\n)` |
| FmtExamples.FmtTwoLines | archive/ast/fmt.go:35-42 | `(a\n)` formats to `(a\n\n)` |
| FmtExamples.FmtNotIdempotent | archive/ast/fmt.go:94-131 | formatting Fmt's own output changes it |
| GoStrings.TrimLeft | ast_fmt.go:33 | the leading white space of strings.TrimSpace: a suffix, with only white space cut and no white space at its start |
| GoStrings.TrimRight | ast_fmt.go:33 | the trailing white space: a prefix, with only white space cut and no white space at its end |
| GoStrings.TrimSpace | ast_fmt.go:33 | no white space at either end of the result, and never longer |
| GoStrings.TrimSpaceSlice | ast_fmt.go:33 | the result is a slice of the input with only white space around it |

## Left out

- Panics and `recover` (ast/tok.go:57-68, archive/ast/fmt.go:62-69 and 265-288) are not modelled as control flow: each failing step returns an error value instead.
- The `io.Writer` of the formatter is infallible: the output is a string that is appended to, so the writer-error path of `writeBytes` is not modelled.
- Text is `seq<char>`: the UTF-8 detail of `skipChar`, `AdvanceNextChar` and `range` over a string is not modelled, and neither is byte-versus-rune cursor arithmetic.
- Error values keep a cursor and a cause. Message text, `Error.Format`, `Unwrap` and the `fmt.State` flags are left out. The preview inside an error is kept as `previewFrom` computes it, its as-written cut included (TokGrammar.PreviewFromAsWritten).
- The sanity checks that panic after an accepted number (ast.go:216-219, ast/tok.go:204-207) cannot fire and are not modelled.
- `MoxNodes.Quote`: `strconv.Quote` is modelled as identity quoting; its escape table is not modelled. Go escapes `\`, `"` and non-printable characters, so the round-trip lemmas (NodeRoundTrip, BlockRoundTrip, ChildrenRoundTrip, NodesRoundTrip, NodesErrorPrefix, FormatParseRoundTrip) require `ExactQuotes`: every double-quoted string holds only characters that Go writes unchanged. The text equalities in the contracts of MoxGrammar.StringAt and MoxGrammar.NodeAt describe Go's output only for such strings.
- Go's `int` is modelled unbounded: no realistic input overflows a cursor or a counter.
- GoStrings.IsSpace, GoStrings.TrimSpace: the Unicode white-space set is copied as a table of code points, not derived from a Unicode database.
- The small dispatch wrappers are folded into their callers: `PopNumberBinary`/`Octal`/`Hex`/`Decimal`, `maybeNumberBin`/`Oct`/`Hex`/`Dec` and `maybeParens`/`Brackets`/`Braces`. The same holds for `nextToken`, `rec` and `allowErr`, which are folded into `top`.
- `mustHaveAdvanced` (ast.go:373-377) is a postcondition instead of a panic: every successful `NodeAt` step advances.
- The cursor helpers `From`, `Left`, `headByte`, `isNextString` and `isNextByteIn` are plain expressions in the model.
- `bufByte`, `bufRune` and `writeRune` are not modelled: `writeRune` is never called, and the buffers only feed bytes to `writeBytes`.
- `charMapString` appears only inside error messages and is not modelled.
- `TestFmtMoxFile` (ast_test.go:156-189) is skipped in the source and reads files.
- The command-line tools (`moxfmt/moxfmt.go`, `ast/moxfmt.go`) and the editor plugins are input/output plumbing and are not part of this model.
- `PopNodes` (ast.go:52-54) stops on io.EOF from PopNode. That branch cannot be reached, because PopNode returns io.EOF only when no input is left. It is modelled and never taken.
- `Fmt` is not idempotent (FmtExamples.FmtNotIdempotent). `FmtNodeComment` is not either, on lone `\r` characters (MoxAstFmt.CommentNotIdempotent). Neither is claimed.
- The `countNewlines` guard of archive/ast/fmt.go:294 never fires. This is modelled as written: `\r\n` counts twice (FmtProps.CrLfCountsTwice).

## Findings

The model's main path follows each of these as written; the corrected
member is proved beside it.

| source | as written | input that shows it | evidently intended | confidence | as-written member | corrected member |
|---|---|---|---|---|---|---|
| ast_fmt.go:65 | the regular expression backtracks into a `\r\n` pair, so a run of exactly two breaks is rewritten | `a\r\n\r\nb` becomes `a\r\n\rb` | runs of at most two breaks, `\r\n` counted as one, stay as they are | not executed | MoxAstFmt.TrimPolyAsWrittenSplitsCrLf | MoxAstFmt.TrimPolyMultilines |
| ast/tok.go:372-378 | previewFrom tests what is left after the cursor, not after `start`, before cutting at 32 | 40 dots then `1`: the error at 40 previews all 41 characters from 0 | at most 32 characters from `start`, then ` ...` | not executed | TokExamples.PreviewAsWrittenUncut | TokGrammar.PreviewFrom |
| ast/tok.go:257 | the unterminated-string error always names the grave quote | `"abc` reports a missing `` ` `` | the missing closer is the string's own | not executed | TokExamples.UnterminatedAsWrittenMisnames | TokGrammar.Unterminated |
