/**
 * Concrete inputs for the streaming tokenizer of ast/tok.go, among them a
 * slice of TestTokenize (archive/ast/mox_test.go), and the two places where
 * the code differs from what it evidently means.
 */
module TokExamples {
  import opened TokGrammar
  import opened TokProps

  /** The hexadecimal prefix is `0h`, and the token's text leaves it out. */
  lemma HexNumberExample(src: string)
    requires src == "0h1f "
    ensures NumberStep(src, 0) == Step(Emit(Number("1f")), 4, [], "0h")
  {
    NextTwo(src, 0, "0b");
    NextTwo(src, 0, "0o");
    NextTwo(src, 0, "0h");
    assert RunEnd(src, 4, HexDigits) == 4;
    assert RunEnd(src, 2, HexDigits) == 4;
    assert src[2..4] == "1f";
  }

  /** An integer that runs into the end of input is rejected ... */
  lemma IntegerAtEndExample(src: string)
    requires src == "12"
    ensures NumberStep(src, 0) == Step(Fail(Error(2, ExpectedDigit(DecDigits, ""))), 2, [], "")
  {
    NextTwo(src, 0, "0b");
    NextTwo(src, 0, "0o");
    NextTwo(src, 0, "0h");
  }

  /** ... while one with a fraction is not. */
  lemma FractionAtEndExample(src: string)
    requires src == "1.5"
    ensures NumberStep(src, 0) == Step(Emit(Number("1.5")), 3, [], "")
  {
    NextTwo(src, 0, "0b");
    NextTwo(src, 0, "0o");
    NextTwo(src, 0, "0h");
    assert src[0..3] == src;
  }

  /** A dot right before a digit is an error, reported after the dot. */
  lemma DotDigitExample(src: string)
    requires src == ".5"
    ensures TokenAt(src, 0, []) == Step(Fail(Error(1, DigitAfterDot(".5"))), 1, [], "")
  {
    NextOne(src, 0, CommentStart);
    NotNumber(src, 0);
    DotDigitOperator(src);
    assert StringAt(src, 0).out.Pass?;
    assert AfterNumber(src, 0, []) == Plain(OperatorAt(src, 0), []);
  }

  lemma DotDigitOperator(src: string)
    requires src == ".5"
    ensures OperatorAt(src, 0) == Scan(Fail(Error(1, DigitAfterDot(".5"))), 1)
  {
    assert RunEnd(src, 1, OperatorBytes) == 1;
    assert RunEnd(src, 0, OperatorBytes) == 1;
    assert src[0..] == src;
  }

  /** A backslash at the end of a double-quoted string is an error at the end of input. */
  lemma EscapeAtEndExample(src: string)
    requires src == "\"a\\"
    ensures StringAt(src, 0) == Scan(Fail(Error(3, ExpectedEscaped)), 3)
  {
    assert StringBody(src, 1, 2, '"', true) == Between(QuoteError(Error(3, ExpectedEscaped)), 3);
    assert StringBody(src, 1, 1, '"', true) == Between(QuoteError(Error(3, ExpectedEscaped)), 3);
  }

  /** The comment of TestTokenize keeps its line break. */
  lemma CommentExample(src: string)
    requires src == "; one\n10"
    ensures TokenAt(src, 0, []) == Step(Emit(Comment(" one\n")), 6, [], "")
  {
    NextOne(src, 0, CommentStart);
    NextTwo(src, 1, "\r\n");
    NextTwo(src, 2, "\r\n");
    NextTwo(src, 3, "\r\n");
    NextTwo(src, 4, "\r\n");
    NextTwo(src, 5, "\r\n");
    assert CommentEnd(src, 5) == 6;
    assert CommentEnd(src, 3) == 6;
    assert CommentEnd(src, 1) == 6;
    assert src[1..6] == " one\n";
  }

  /** The last line of TestTokenize: brackets push and pop their closer. */
  lemma BracketsExample(src: string)
    requires src == "[six]\n"
    ensures Tokens(Tokenize(src, 0, []).lexemes) == [BracketOpen, Ident("six"), BracketClose, Space("\n")]
    ensures Tokenize(src, 0, []).err == Error(6, EndOfInput)
    ensures Tokenize(src, 0, []).closers == []
  {
    BracketOpenStep(src);
    IdentStep(src);
    BracketCloseStep(src);
    SpaceStep(src);
    UnclosedAtEnd(src, []);
    var r4 := Tokenize(src, 6, []);
    var r3 := Tokenize(src, 5, []);
    assert Tokens(r3.lexemes) == [Space("\n")];
    var r2 := Tokenize(src, 4, [']']);
    assert Tokens(r2.lexemes) == [BracketClose] + Tokens(r3.lexemes);
    var r1 := Tokenize(src, 1, [']']);
    assert Tokens(r1.lexemes) == [Ident("six")] + Tokens(r2.lexemes);
  }

  lemma NotNumber(src: string, c: nat)
    requires c < |src| && src[c] != '0' && !IsDecimal(src[c])
    ensures NumberStep(src, c).out.Pass?
  {
    NextTwo(src, c, "0b");
    NextTwo(src, c, "0o");
    NextTwo(src, c, "0h");
  }

  lemma BracketOpenStep(src: string)
    requires src == "[six]\n"
    ensures TokenAt(src, 0, []) == Step(Emit(BracketOpen), 1, [']'], "")
  {
    NextOne(src, 0, CommentStart);
    NotNumber(src, 0);
  }

  lemma IdentStep(src: string)
    requires src == "[six]\n"
    ensures TokenAt(src, 1, [']']) == Step(Emit(Ident("six")), 4, [']'], "")
  {
    NextOne(src, 1, CommentStart);
    NotNumber(src, 1);
    assert RunEnd(src, 4, IdentBytes) == 4;
    assert RunEnd(src, 2, IdentBytes) == 4;
    assert src[1..4] == "six";
  }

  lemma BracketCloseStep(src: string)
    requires src == "[six]\n"
    ensures TokenAt(src, 4, [']']) == Step(Emit(BracketClose), 5, [], "")
  {
    NextOne(src, 4, CommentStart);
    NotNumber(src, 4);
  }

  lemma SpaceStep(src: string)
    requires src == "[six]\n"
    ensures TokenAt(src, 5, []) == Step(Emit(Space("\n")), 6, [], "")
  {
    assert src[5..6] == "\n";
  }

  // ----- findings -----

  /**
   * previewFrom as written decides the cut by what is left after the cursor:
   * forty dots and a digit fail after the dots, with one character left, so
   * the whole 41-character run is quoted, where at most 32 characters and
   * " ..." were meant.
   */
  lemma PreviewAsWrittenUncut(src: string)
    requires |src| == 41 && src[40] == '1'
    requires forall k :: 0 <= k < 40 ==> src[k] == '.'
    ensures OperatorAt(src, 0) == Scan(Fail(Error(40, DigitAfterDot(PreviewFromAsWritten(src, 40, 0)))), 40)
    ensures PreviewFromAsWritten(src, 40, 0) == src && |src| > PreviewLimit + 4
    ensures |PreviewFrom(src, 0)| == PreviewLimit + 4
  {
    DotRun(src, 0);
  }

  lemma {:induction false} DotRun(src: string, i: nat)
    requires |src| == 41 && src[40] == '1' && i <= 40
    requires forall k :: 0 <= k < 40 ==> src[k] == '.'
    decreases 40 - i
    ensures RunEnd(src, i, OperatorBytes) == 40
  {
    if i < 40 {
      DotRun(src, i + 1);
    }
  }

  /**
   * The unterminated-string error as written names the grave quote even for
   * a double-quoted string; the intended error names `"`.
   */
  lemma UnterminatedAsWrittenMisnames(src: string)
    requires src == "\"abc"
    ensures StringAt(src, 0) == Scan(Fail(Error(4, ExpectedClosing('`'))), 4)
    ensures Unterminated('"') == ExpectedClosing('"') != ExpectedClosing('`')
  {
    assert Escaped("abc"[2..]) && Escaped("abc"[1..]);
    DoubleStringUnterminated("abc");
    assert "\"" + "abc" == src;
  }
}
