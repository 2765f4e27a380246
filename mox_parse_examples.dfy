/**
 * Worked inputs of the current draft's parser (ast.go), including the cases
 * of ast_test.go, with comments written `{{ }}` as ast.go does.
 */
module MoxParseExamples {
  import opened Options
  import opened MoxNodes
  import opened MoxGrammar

  /**
   * A `}}` that does not close the outermost comment moves the cursor by one
   * character only, so `{{{{x}}}}` holds the comment `{{x}` and leaves a stray `}`.
   */
  lemma NestedCommentExample()
    ensures ParseSource("{{{{x}}}}")
         == PoppedMany([Comment("{{x}")], Some(Error(8, Unexpected)), 8, 0)
  {
    var s := "{{{{x}}}}";
    NestedCommentClose();
    NextTwo(s, 0, CommentStart);
    CommentDispatch(s, 0);
    assert s[2..6] == "{{x}";
    assert NodeAt(s, 0) == Popped(Comment("{{x}"), None, 8, 0);
    StrayAt(s, 8);
    NodesAtStep(s, 0);
  }

  /** The `}}` at 6 closes the comment opened at 0: the one at 5 closed the inner `{{`. */
  lemma NestedCommentClose()
    ensures CommentClose("{{{{x}}}}", 2, 1) == Some(6)
  {
    var s := "{{{{x}}}}";
    NextTwo(s, 6, CommentStart);
    NextTwo(s, 6, CommentEnd);
    assert CommentClose(s, 6, 1) == Some(6);
    NextTwo(s, 5, CommentStart);
    NextTwo(s, 5, CommentEnd);
    assert CommentClose(s, 5, 2) == Some(6);
    NextTwo(s, 4, CommentStart);
    NextTwo(s, 4, CommentEnd);
    NextTwo(s, 2, CommentStart);
  }

  /** No node starts at a `}` or a `)`, which stops PopNodes with an error there. */
  lemma StrayAt(s: string, c: nat)
    requires c < |s| && (s[c] == '}' || s[c] == ')')
    ensures NodeAt(s, c) == Popped(Nil, Some(Error(c, Unexpected)), c, 0)
    ensures NodesAt(s, c) == PoppedMany([], Some(Error(c, Unexpected)), c, 0)
  {
    NextTwo(s, c, CommentStart);
    NextOne(s, c, BlockStart);
    assert !NextCharIn(s, c, WhitespaceMap) && !NextCharIn(s, c, DecimalMap);
    assert !NextCharIn(s, c, IdentifierStartMap) && !NextCharIn(s, c, OperatorMap);
    assert !NextChar(s, c, '"') && !NextChar(s, c, '`');
  }

  /** PopNodes after a node parsed without an error. */
  lemma NodesAtStep(s: string, i: nat)
    requires i < |s| && NodeAt(s, i).err.None?
    ensures var p := NodeAt(s, i); var rest := NodesAt(s, p.next);
      NodesAt(s, i) == PoppedMany([p.node] + rest.nodes, rest.err, rest.next, p.open + rest.open)
  {
  }

  /** PopNode hands a `{{` to PopComment. */
  lemma CommentDispatch(s: string, c: nat)
    requires Next(s, c, CommentStart)
    ensures NodeAt(s, c) == CommentAt(s, c)
  {
    NextTwo(s, c, CommentStart);
    assert !NextCharIn(s, c, WhitespaceMap);
  }

  /** PopNode hands a decimal digit to the number cases. */
  lemma NumberDispatch(s: string, c: nat)
    requires c < |s| && IsDecimalDigit(s[c])
    ensures NodeAt(s, c) == NumberAt(s, c)
  {
    NextTwo(s, c, CommentStart);
    assert !NextCharIn(s, c, WhitespaceMap);
  }

  /** PopNode hands a letter or `_` to PopIdentifier. */
  lemma IdentifierDispatch(s: string, c: nat)
    requires c < |s| && IsCharIn(IdentifierStartMap, s[c])
    ensures NodeAt(s, c) == IdentifierAt(s, c)
  {
    NextTwo(s, c, CommentStart);
    assert !NextCharIn(s, c, WhitespaceMap) && !NextCharIn(s, c, DecimalMap);
  }

  /** PopNode hands a `"` or a grave quote to the string cases. */
  lemma StringDispatch(s: string, c: nat)
    requires c < |s| && (s[c] == '"' || s[c] == '`')
    ensures NodeAt(s, c) == StringAt(s, c, s[c] == '"')
  {
    NextTwo(s, c, CommentStart);
    assert !NextCharIn(s, c, WhitespaceMap) && !NextCharIn(s, c, DecimalMap);
    assert !NextCharIn(s, c, IdentifierStartMap) && !NextCharIn(s, c, OperatorMap);
  }

  /** A comment still open at end of input is an error at the end. */
  lemma UnclosedCommentExample()
    ensures ParseSource("{{a") == PoppedMany([], Some(Error(3, ExpectedCommentClose)), 3, 0)
  {
    var s := "{{a";
    NextTwo(s, 2, CommentStart);
    assert CommentClose(s, 2, 1) == None;
    NextTwo(s, 0, CommentStart);
    CommentDispatch(s, 0);
    assert NodeAt(s, 0) == Popped(Comment(""), Some(Error(3, ExpectedCommentClose)), 3, 0);
  }

  /** A binary number followed by a digit outside its base. */
  lemma BinaryDigitRejected()
    ensures NodeAt("0b102", 0) == Popped(Number(""), Some(Error(4, ExpectedDigit(BinaryMap))), 4, 0)
  {
    NumberDispatch("0b102", 0);
    NextTwo("0b102", 0, "0b");
    assert RunEnd("0b102", 2, BinaryMap) == 4;
  }

  /** A digit run directly followed by a letter. */
  lemma LetterAfterDigitsRejected()
    ensures NodeAt("12a", 0) == Popped(Number(""), Some(Error(2, ExpectedDigit(DecimalMap))), 2, 0)
  {
    NumberDispatch("12a", 0);
    NextTwo("12a", 0, "0b");
    NextTwo("12a", 0, "0o");
    NextTwo("12a", 0, "0x");
    assert RunEnd("12a", 0, DecimalMap) == 2;
  }

  /** A `.` must be followed by a digit. */
  lemma TrailingDotRejected()
    ensures NodeAt("12.", 0) == Popped(Number(""), Some(Error(3, ExpectedDigit(DecimalMap))), 3, 0)
  {
    NumberDispatch("12.", 0);
    NextTwo("12.", 0, "0b");
    NextTwo("12.", 0, "0o");
    NextTwo("12.", 0, "0x");
    assert RunEnd("12.", 0, DecimalMap) == 2;
  }

  /** Hexadecimal digits are lower-case only. */
  lemma UpperHexRejected()
    ensures NodeAt("0xAB", 0) == Popped(Number(""), Some(Error(2, ExpectedDigit(HexadecimalMap))), 2, 0)
  {
    NumberDispatch("0xAB", 0);
    NextTwo("0xAB", 0, "0b");
    NextTwo("0xAB", 0, "0o");
    NextTwo("0xAB", 0, "0x");
  }

  /** A prefixed fraction keeps its prefix in the node's text. */
  lemma HexFractionExample()
    ensures NodeAt("0x1f.a", 0) == Popped(Number("0x1f.a"), None, 6, 0)
  {
    var s := "0x1f.a";
    NumberDispatch(s, 0);
    NextTwo(s, 0, "0b");
    NextTwo(s, 0, "0o");
    NextTwo(s, 0, "0x");
    HexFractionDigits();
    assert FloatWithPrefixAt(s, 0, "0x", HexadecimalMap) == Popped(Number("0x" + "1f.a"), None, 6, 0);
    HexFractionText();
  }

  lemma HexFractionDigits()
    ensures FloatAt("0x1f.a", 2, HexadecimalMap) == Popped(Number("1f.a"), None, 6, 0)
  {
    var s := "0x1f.a";
    assert RunEnd(s, 2, HexadecimalMap) == 4;
    assert RunEnd(s, 5, HexadecimalMap) == 6;
    assert s[2..6] == "1f.a";
  }

  lemma HexFractionText()
    ensures "0x" + "1f.a" == "0x1f.a"
  {
  }

  /** An empty string is an error at its closing quote. */
  lemma EmptyStringRejected()
    ensures NodeAt("\"\"", 0) == Popped(StringDouble(""), Some(Error(1, EmptyString('"'))), 1, 0)
  {
    StringDispatch("\"\"", 0);
    assert Find("\"\"", 1, '"') == Some(1);
  }

  /** A lone double quote fails to parse (ast_test.go:139-145). */
  lemma LoneDoubleQuoteRejected()
    ensures ParseSource("\"") == PoppedMany([], Some(Error(1, UnterminatedString('"'))), 1, 0)
  {
    StringDispatch("\"", 0);
    assert Find("\"", 1, '"') == None;
    assert NodeAt("\"", 0) == Popped(StringDouble(""), Some(Error(1, UnterminatedString('"'))), 1, 0);
  }

  /** A lone grave quote fails to parse (ast_test.go:147-153). */
  lemma LoneGraveQuoteRejected()
    ensures ParseSource("`") == PoppedMany([], Some(Error(1, UnterminatedString('`'))), 1, 0)
  {
    StringDispatch("`", 0);
    assert Find("`", 1, '`') == None;
    assert NodeAt("`", 0) == Popped(StringGrave(""), Some(Error(1, UnterminatedString('`'))), 1, 0);
  }

  /** A string missing its closing quote is an error at end of input. */
  lemma UnterminatedStringRejected()
    ensures NodeAt("`ab", 0) == Popped(StringGrave(""), Some(Error(3, UnterminatedString('`'))), 3, 0)
  {
    StringDispatch("`ab", 0);
    assert Find("`ab", 1, '`') == None;
  }

  /**
   * ast_test.go:131-137 expects `(` to fail, but PopBlock returns the empty
   * block without an error when the input runs out; Format then prints `()`.
   */
  lemma UnclosedBlockAccepted()
    ensures ParseSource("(") == PoppedMany([Block([])], None, 1, 1)
    ensures Format(ParseSource("(").nodes) == "()"
  {
    BlockDispatch("(", 0);
    NextOne("(", 0, BlockStart);
    assert NodeAt("(", 0) == Popped(Block([]), None, 1, 1);
    NodesAtStep("(", 0);
  }

  /** PopNode hands a `(` to PopBlock. */
  lemma BlockDispatch(s: string, c: nat)
    requires c < |s| && s[c] == '('
    ensures NodeAt(s, c) == BlockAt(s, c)
  {
    NextOne(s, c, BlockStart);
    NextTwo(s, c, CommentStart);
    assert !NextCharIn(s, c, WhitespaceMap) && !NextCharIn(s, c, DecimalMap);
    assert !NextCharIn(s, c, IdentifierStartMap) && !NextCharIn(s, c, OperatorMap);
    assert !NextChar(s, c, '"') && !NextChar(s, c, '`');
  }

  /** PopBlock returns the children parsed before a child's error, with that error. */
  lemma PartialBlockExample()
    ensures NodeAt("(a`", 0) == Popped(Block([Identifier("a")]), Some(Error(3, UnterminatedString('`'))), 3, 0)
  {
    var s := "(a`";
    BlockDispatch(s, 0);
    PartialBlockChildren();
    assert BlockAt(s, 0) == Popped(Block([Identifier("a")]), Some(Error(3, UnterminatedString('`'))), 3, 0);
  }

  lemma PartialBlockChildren()
    ensures ChildrenAt("(a`", 1) == PoppedMany([Identifier("a")], Some(Error(3, UnterminatedString('`'))), 3, 0)
  {
    var s := "(a`";
    NextOne(s, 1, BlockEnd);
    NextOne(s, 2, BlockEnd);
    IdentifierDispatch(s, 1);
    assert RunEnd(s, 2, IdentifierMap) == 2;
    assert NodeAt(s, 1) == Popped(Identifier("a"), None, 2, 0);
    StringDispatch(s, 2);
    assert Find(s, 3, '`') == None;
    assert NodeAt(s, 2) == Popped(StringGrave(""), Some(Error(3, UnterminatedString('`'))), 3, 0);
  }

  /** A `)` at top level is unexpected; the nodes before it come with the error. */
  lemma StrayCloseExample()
    ensures ParseSource("a)") == PoppedMany([Identifier("a")], Some(Error(1, Unexpected)), 1, 0)
  {
    IdentifierDispatch("a)", 0);
    assert RunEnd("a)", 1, IdentifierMap) == 1;
    assert NodeAt("a)", 0) == Popped(Identifier("a"), None, 1, 0);
    StrayAt("a)", 1);
    NodesAtStep("a)", 0);
    assert NodesAt("a)", 0) == PoppedMany([Identifier("a")], Some(Error(1, Unexpected)), 1, 0);
  }
}
