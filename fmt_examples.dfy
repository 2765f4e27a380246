/**
 * The formatter of archive/ast/fmt.go on two small inputs: a closer always
 * goes on a line of its own, so formatting its own output again adds a
 * blank line, and Fmt is not idempotent.
 */
module FmtExamples {
  import opened Options
  import opened TokGrammar
  import opened TokProps
  import opened TokExamples
  import opened FmtMachine
  import opened FmtProps

  // ----- tokens -----

  lemma ParenOpenStep(src: string)
    requires |src| > 0 && src[0] == '('
    ensures TokenAt(src, 0, []) == Step(Emit(ParenOpen), 1, [')'], "")
  {
    NextOne(src, 0, CommentStart);
    NotNumber(src, 0);
  }

  lemma IdentAStep(src: string)
    requires |src| > 2 && src[1] == 'a' && src[2] in ")\n"
    ensures TokenAt(src, 1, [')']) == Step(Emit(Ident("a")), 2, [')'], "")
  {
    NextOne(src, 1, CommentStart);
    NotNumber(src, 1);
    assert RunEnd(src, 2, IdentBytes) == 2;
    assert src[1..2] == "a";
  }

  lemma ParenCloseStep(src: string, c: nat)
    requires c < |src| && src[c] == ')'
    ensures TokenAt(src, c, [')']) == Step(Emit(ParenClose), c + 1, [], "")
  {
    NextOne(src, c, CommentStart);
    NotNumber(src, c);
  }

  lemma OneLineTokens(src: string)
    requires src == "(a)"
    ensures var r := Tokenize(src, 0, []);
      Tokens(r.lexemes) == [ParenOpen, Ident("a"), ParenClose] && r.err == Error(3, EndOfInput)
  {
    ParenOpenStep(src);
    IdentAStep(src);
    ParenCloseStep(src, 2);
    UnclosedAtEnd(src, []);
    var r3 := Tokenize(src, 3, []);
    assert r3.lexemes == [] && r3.err == Error(3, EndOfInput);
    var r2 := Tokenize(src, 2, [')']);
    assert Tokens(r2.lexemes) == [ParenClose];
    var r1 := Tokenize(src, 1, [')']);
    assert Tokens(r1.lexemes) == [Ident("a")] + Tokens(r2.lexemes);
  }

  lemma TwoLineTokens(src: string)
    requires src == "(a\n)"
    ensures var r := Tokenize(src, 0, []);
      Tokens(r.lexemes) == [ParenOpen, Ident("a"), Space("\n"), ParenClose] && r.err == Error(4, EndOfInput)
  {
    ParenOpenStep(src);
    IdentAStep(src);
    BreakStep(src);
    ParenCloseStep(src, 3);
    UnclosedAtEnd(src, []);
    var r4 := Tokenize(src, 4, []);
    assert r4.lexemes == [] && r4.err == Error(4, EndOfInput);
    TokenizeCons(src, 3, [')']);
    var r3 := Tokenize(src, 3, [')']);
    assert Tokens(r3.lexemes) == [ParenClose];
    TokenizeCons(src, 2, [')']);
    var r2 := Tokenize(src, 2, [')']);
    assert Tokens(r2.lexemes) == [Space("\n")] + Tokens(r3.lexemes);
    TokenizeCons(src, 1, [')']);
    var r1 := Tokenize(src, 1, [')']);
    assert Tokens(r1.lexemes) == [Ident("a")] + Tokens(r2.lexemes);
    TokenizeCons(src, 0, []);
  }

  lemma BreakStep(src: string)
    requires src == "(a\n)"
    ensures TokenAt(src, 2, [')']) == Step(Emit(Space("\n")), 3, [')'], "")
  {
    assert RunEnd(src, 3, WhitespaceBytes) == 3;
    assert src[2..3] == "\n";
  }

  // ----- the handlers -----

  /** A write of text without white space or `\n`: appended, and the line goes inline. */
  lemma WriteWord(st: FmtState, s: string)
    requires s in ["(", ")", "a"]
    ensures WriteBytes(st, s) == st.(out := st.out + s, inline := true)
  {
    assert !HasNewline(s) && AfterFirstNewline(s) == s;
    assert NonBlank(s);
  }

  lemma WriteBreak(st: FmtState)
    ensures WriteBytes(st, Newline) == NewlineReset(st.(out := st.out + Newline))
  {
    assert AfterFirstNewline(Newline) == "";
  }

  lemma OpenFirst(st: FmtState)
    requires st == Initial
    ensures OnToken(st, FmtConfDefault, ParenOpen) == FmtState("(", Some(ParenOpen), 1, 0, 0, true)
  {
    var conf := FmtConfDefault;
    assert !HasNewline(conf.indent);
    BeforeIndents(st, conf, ParenOpen);
    var b := Before(st, conf, ParenOpen);
    assert b == st;
    WriteWord(b, "(");
    var w := WriteToken(b, ParenOpen);
    assert w == FmtState("(", None, 0, 0, 0, true);
    assert DelimOpen(st, conf, ParenOpen) == DelimInc(w).(prev := Some(ParenOpen));
    DispatchOpen(st, conf, ParenOpen);
  }

  lemma DispatchOpen(st: FmtState, conf: FmtConf, t: Token)
    requires t.ParenOpen?
    ensures OnToken(st, conf, t) == DelimOpen(st, conf, t)
  {
  }

  lemma DispatchClose(st: FmtState, conf: FmtConf, t: Token)
    requires t.ParenClose?
    ensures OnToken(st, conf, t) == DelimClose(st, conf, t)
  {
  }

  lemma DispatchAtom(st: FmtState, conf: FmtConf, t: Token)
    requires t.Ident?
    ensures OnToken(st, conf, t) == Atom(st, conf, t)
  {
  }

  lemma IdentAfterOpen(st: FmtState)
    requires st == FmtState("(", Some(ParenOpen), 1, 0, 0, true)
    ensures OnToken(st, FmtConfDefault, Ident("a")) == FmtState("(a", Some(Ident("a")), 1, 0, 0, true)
  {
    BeforeSeparates(st, FmtConfDefault, Ident("a"));
    var b := Before(st, FmtConfDefault, Ident("a"));
    assert b == st;
    WriteWord(b, "a");
    DispatchAtom(st, FmtConfDefault, Ident("a"));
  }

  /** The closer: a break, the line reset raises the level, the negative balance shifts it back. */
  lemma CloseAfter(st: FmtState, out: string, delims: int)
    requires st.prev.Some? && !IsDelimOpen(st.prev) && st.indent == 1 - delims && st.shifted == 0
    requires st.delims == delims && st.out == out && 0 <= delims <= 1
    ensures OnToken(st, FmtConfDefault, ParenClose)
      == FmtState(out + "\n)", Some(ParenClose), -1, 0, -1, true)
  {
    var conf := FmtConfDefault;
    assert !HasNewline(conf.indent);
    WriteBreak(st);
    var n := WriteBytes(st, Newline);
    assert n == FmtState(out + "\n", st.prev, 0, 1, 0, false);
    var d := DelimDec(n);
    assert d == FmtState(out + "\n", st.prev, -1, 0, -1, false);
    BeforeIndents(d, conf, ParenClose);
    var b := Before(d, conf, ParenClose);
    assert b == d;
    WriteWord(b, ")");
    var w := WriteToken(b, ParenClose);
    assert w == FmtState(out + "\n)", st.prev, -1, 0, -1, true);
    assert DelimClose(st, conf, ParenClose) == w.(prev := Some(ParenClose));
    DispatchClose(st, conf, ParenClose);
  }

  lemma SpaceAfterIdent(st: FmtState)
    requires st == FmtState("(a", Some(Ident("a")), 1, 0, 0, true)
    ensures OnToken(st, FmtConfDefault, Space("\n")) == FmtState("(a\n", Some(Space("\n")), 0, 1, 0, false)
  {
    assert multiset("\n") == multiset{'\n'};
    assert CountNewlines("\n") == 1;
    WriteBreak(st);
    assert WriteNewlines(st, 1) == WriteNewlines(WriteBytes(st, Newline), 0);
  }

  // ----- Fmt -----

  /** One line: the closer is moved to a line of its own. */
  lemma FmtOneLine()
    ensures Fmt("(a)", FmtConfDefault) == Formatted("(a\n)", None)
  {
    var src := "(a)";
    OneLineTokens(src);
    FmtResult(src, FmtConfDefault);
    var s1 := OnToken(Initial, FmtConfDefault, ParenOpen);
    OpenFirst(Initial);
    var s2 := OnToken(s1, FmtConfDefault, Ident("a"));
    IdentAfterOpen(s1);
    CloseAfter(s2, "(a", 1);
    OnTokensCons(Initial, FmtConfDefault, ParenOpen, [Ident("a"), ParenClose]);
    OnTokensCons(s1, FmtConfDefault, Ident("a"), [ParenClose]);
    OnTokensCons(s2, FmtConfDefault, ParenClose, []);
  }

  /** Formatting that output again keeps its break and adds another before the closer. */
  lemma FmtTwoLines()
    ensures Fmt("(a\n)", FmtConfDefault) == Formatted("(a\n\n)", None)
  {
    var src := "(a\n)";
    TwoLineTokens(src);
    FmtResult(src, FmtConfDefault);
    var s1 := OnToken(Initial, FmtConfDefault, ParenOpen);
    OpenFirst(Initial);
    var s2 := OnToken(s1, FmtConfDefault, Ident("a"));
    IdentAfterOpen(s1);
    var s3 := OnToken(s2, FmtConfDefault, Space("\n"));
    SpaceAfterIdent(s2);
    CloseAfter(s3, "(a\n", 0);
    OnTokensCons(Initial, FmtConfDefault, ParenOpen, [Ident("a"), Space("\n"), ParenClose]);
    OnTokensCons(s1, FmtConfDefault, Ident("a"), [Space("\n"), ParenClose]);
    OnTokensCons(s2, FmtConfDefault, Space("\n"), [ParenClose]);
    OnTokensCons(s3, FmtConfDefault, ParenClose, []);
  }

  /** Fmt is not idempotent: formatting its own output changes it. */
  lemma FmtNotIdempotent()
    ensures var once := Fmt("(a)", FmtConfDefault).out;
      Fmt(once, FmtConfDefault).out != once
  {
    FmtOneLine();
    FmtTwoLines();
  }
}
