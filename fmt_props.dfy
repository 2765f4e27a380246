/**
 * What the formatter sketch of archive/ast/fmt.go does, stated over its
 * state machine: the line breaks `space` keeps, the three cases of
 * `before`, the shift that happens at most once per line, the reset on
 * every write with a `\n`, and what Fmt returns.
 */
module FmtProps {
  import opened Options
  import opened GoStrings
  import opened TokGrammar
  import opened TokProps
  import opened FmtMachine

  /** `n` line breaks. */
  function Newlines(n: nat): (r: string)
    ensures |r| == n && forall k :: 0 <= k < n ==> r[k] == '\n'
  {
    if n == 0 then "" else Newlines(n - 1) + "\n"
  }

  /** `n` copies of `s`. */
  function Repeat(s: string, n: nat): string {
    if n == 0 then "" else Repeat(s, n - 1) + s
  }

  /** `b` starts with `a`: nothing written is taken back. */
  predicate Extends(a: string, b: string) {
    |a| <= |b| && b[..|a|] == a
  }

  lemma ExtendsTrans(a: string, b: string, c: string)
    requires Extends(a, b) && Extends(b, c)
    ensures Extends(a, c)
  {
    assert c[..|a|] == c[..|b|][..|a|];
  }

  // ----- writes -----

  /**
   * writeBytes appends its input. A write holding a `\n` resets the line:
   * the level rises by one exactly when the balance was positive, balance
   * and shift become 0, and inline is then whether non-blank text follows
   * the first `\n`. A write without one leaves the level, balance and
   * shift alone and can only turn inline on.
   */
  lemma WriteBytesEffect(st: FmtState, input: string)
    ensures var r := WriteBytes(st, input);
      && r.out == st.out + input && r.prev == st.prev
      && (HasNewline(input) ==>
            && r.indent == (if st.delims > 0 then st.indent + 1 else st.indent)
            && r.delims == 0 && r.shifted == 0 && r.inline == HasNonWhitespaceSuffix(input))
      && (!HasNewline(input) ==>
            && r.indent == st.indent && r.delims == st.delims && r.shifted == st.shifted
            && r.inline == (st.inline || HasNonWhitespaceSuffix(input)))
  {
  }

  /** indexRune: the text after the first `\n`, which the text before it does not hold; all of `s` without one. */
  lemma {:induction false} AfterFirstNewlineShape(s: string)
    ensures var r := AfterFirstNewline(s);
      && |r| <= |s| && r == s[|s| - |r|..]
      && (!HasNewline(s) ==> r == s)
      && (HasNewline(s) ==> |r| < |s| && s[|s| - |r| - 1] == '\n' && !HasNewline(s[..|s| - |r| - 1]))
  {
    if HasNewline(s) && s[0] != '\n' {
      assert '\n' in s[1..];
      AfterFirstNewlineShape(s[1..]);
      var r := AfterFirstNewline(s[1..]);
      assert s[1..][..|s| - 1 - |r| - 1] == s[1..|s| - |r| - 1];
      assert s[..|s| - |r| - 1] == [s[0]] + s[1..|s| - |r| - 1];
    }
  }

  lemma {:induction false} NonBlankExists(s: string)
    decreases |s|
    ensures NonBlank(s) <==> exists k :: 0 <= k < |s| && !IsSpace(s[k])
  {
    if s != [] {
      NonBlankExists(s[1..]);
      if !IsSpace(s[0]) {
      } else if exists k :: 0 <= k < |s| && !IsSpace(s[k]) {
        var k :| 0 <= k < |s| && !IsSpace(s[k]);
        assert s[1..][k - 1] == s[k];
      } else {
        assert forall k :: 0 <= k < |s| - 1 ==> s[1..][k] == s[k + 1];
      }
    }
  }

  /** The inline test is Go's `len(strings.TrimSpace(s)) > 0` on what follows the first `\n`. */
  lemma NonBlankTrim(s: string)
    ensures NonBlank(s) <==> |TrimSpace(s)| > 0
    ensures HasNonWhitespaceSuffix(s) <==> |TrimSpace(AfterFirstNewline(s))| > 0
  {
    TrimNonBlank(s);
    TrimNonBlank(AfterFirstNewline(s));
  }

  lemma TrimNonBlank(s: string)
    ensures NonBlank(s) <==> |TrimSpace(s)| > 0
  {
    NonBlankExists(s);
    var l := TrimLeft(s);
    var r := TrimRight(l);
    if |TrimSpace(s)| > 0 {
      assert !IsSpace(r[0]) && r[0] == s[|s| - |l|];
    }
  }

  /**
   * The inline test looks after the first `\n` of a write, not the last:
   * text between two breaks turns inline on, text before a single break
   * does not.
   */
  lemma FirstNewlineDecides()
    ensures HasNonWhitespaceSuffix("\nx\n")
    ensures !HasNonWhitespaceSuffix("x\n")
    ensures HasNonWhitespaceSuffix("x")
  {
    assert AfterFirstNewline("\nx\n") == "x\n";
    assert AfterFirstNewline("x\n") == "";
  }

  lemma {:induction false} WriteNewlinesEffect(st: FmtState, n: nat)
    decreases n
    ensures var r := WriteNewlines(st, n);
      && r.out == st.out + Newlines(n) && r.prev == st.prev
      && (n == 0 ==> r == st)
      && (n > 0 ==> r.delims == 0 && r.shifted == 0 && !r.inline)
  {
    if n > 0 {
      var w := WriteBytes(st, Newline);
      assert AfterFirstNewline(Newline) == "";
      WriteNewlinesEffect(w, n - 1);
      assert st.out + Newline + Newlines(n - 1) == st.out + Newlines(n) by {
        NewlinesCons(n);
      }
    }
  }

  lemma {:induction false} NewlinesCons(n: nat)
    requires n > 0
    ensures Newline + Newlines(n - 1) == Newlines(n)
  {
  }

  /**
   * space keeps at most two of the line breaks it holds and writes nothing
   * else; at the start of the output or right after an opener it writes
   * nothing and is not recorded.
   */
  lemma SpaceLines(st: FmtState, t: Token)
    requires t.Space?
    ensures var n := CountNewlines(t.text); var lines := if n > 2 then 2 else n;
      if st.prev.Some? && !IsDelimOpen(st.prev)
      then FmtMachine.Space(st, t).out == st.out + Newlines(lines) && FmtMachine.Space(st, t).prev == Some(t)
      else FmtMachine.Space(st, t) == st
  {
    var n := CountNewlines(t.text);
    WriteNewlinesEffect(st, if n > 2 then 2 else n);
  }

  /** countNewlines counts a `\r\n` pair twice. */
  lemma CrLfCountsTwice()
    ensures CountNewlines("\r\n") == 2
    ensures CountNewlines("a\rb") == 1
  {
    assert multiset("\r\n") == multiset{'\r', '\n'};
    assert multiset("a\rb") == multiset{'a', '\r', 'b'};
  }

  // ----- before -----

  lemma {:induction false} WriteIndentEffect(st: FmtState, conf: FmtConf, i: int)
    requires !HasNewline(conf.indent)
    decreases st.indent - i
    ensures var r := WriteIndentFrom(st, conf, i);
      && r.out == st.out + Repeat(conf.indent, if st.indent > i then st.indent - i else 0)
      && r.prev == st.prev && r.delims == st.delims && r.indent == st.indent && r.shifted == st.shifted
      && (st.indent <= i ==> r == st)
  {
    if i < st.indent {
      var w := WriteBytes(st, conf.indent);
      WriteBytesEffect(st, conf.indent);
      WriteIndentEffect(w, conf, i + 1);
      assert WriteIndentFrom(st, conf, i) == WriteIndentFrom(w, conf, i + 1);
      RepeatCons(conf.indent, st.indent - i);
      assert w.out + Repeat(conf.indent, st.indent - i - 1) == st.out + (conf.indent + Repeat(conf.indent, st.indent - i - 1));
    }
  }

  lemma RepeatCons(s: string, n: nat)
    requires n > 0
    ensures s + Repeat(s, n - 1) == Repeat(s, n)
  {
    if n > 1 {
      RepeatCons(s, n - 1);
    }
  }

  /** Off the inline state, before writes one Indent per level, none at a level of zero or below. */
  lemma BeforeIndents(st: FmtState, conf: FmtConf, next: Token)
    requires !HasNewline(conf.indent) && !st.inline
    ensures var r := Before(st, conf, next);
      && r.out == st.out + Repeat(conf.indent, if st.indent > 0 then st.indent else 0)
      && r.prev == st.prev && r.delims == st.delims && r.indent == st.indent && r.shifted == st.shifted
      && (st.indent <= 0 ==> r == st)
  {
    assert Before(st, conf, next) == WriteIndentFrom(st, conf, 0);
    WriteIndentEffect(st, conf, 0);
  }

  /** Inline, before writes one separator between two non-delimiters and nothing next to a delimiter. */
  lemma BeforeSeparates(st: FmtState, conf: FmtConf, next: Token)
    requires st.inline
    ensures var r := Before(st, conf, next);
      && (!IsDelim(st.prev) && !IsDelim(Some(next)) ==> r == st.(out := st.out + Separator))
      && (IsDelim(st.prev) || IsDelim(Some(next)) ==> r == st)
  {
    if !IsDelim(st.prev) && !IsDelim(Some(next)) {
      assert Before(st, conf, next) == WriteBytes(st, Separator);
      SeparatorWrite(st);
    }
  }

  /** The separator is one blank: it changes only the output. */
  lemma SeparatorWrite(st: FmtState)
    ensures WriteBytes(st, Separator) == st.(out := st.out + Separator)
  {
    assert !HasNewline(Separator);
    assert AfterFirstNewline(Separator) == Separator;
    assert Separator[1..] == [];
    assert !NonBlank(Separator);
  }

  /** With an Indent without `\n`, before changes only the output. */
  lemma BeforeKeeps(st: FmtState, conf: FmtConf, next: Token)
    requires !HasNewline(conf.indent)
    ensures var r := Before(st, conf, next);
      r.prev == st.prev && r.delims == st.delims && r.indent == st.indent && r.shifted == st.shifted
  {
    if st.inline {
      BeforeSeparates(st, conf, next);
    } else {
      BeforeIndents(st, conf, next);
    }
  }

  // ----- the shift -----

  /** The states the formatter can be in: a shift of 0 or -1, and -1 whenever the balance is negative. */
  predicate Sane(st: FmtState) {
    (st.shifted == 0 || st.shifted == -1) && (st.delims < 0 ==> st.shifted == -1)
  }

  lemma {:induction false} WriteIndentSane(st: FmtState, conf: FmtConf, i: int)
    requires Sane(st)
    decreases if st.delims > 0 then 1 else 0, st.indent - i
    ensures Sane(WriteIndentFrom(st, conf, i))
  {
    if i < st.indent {
      var w := WriteBytes(st, conf.indent);
      WriteBytesEffect(st, conf.indent);
      WriteIndentSane(w, conf, i + 1);
      assert WriteIndentFrom(st, conf, i) == WriteIndentFrom(w, conf, i + 1);
    }
  }

  lemma {:induction false} WriteNewlinesSane(st: FmtState, n: int)
    requires Sane(st)
    decreases n
    ensures Sane(WriteNewlines(st, n))
  {
    if n > 0 {
      WriteNewlinesSane(WriteBytes(st, Newline), n - 1);
    }
  }

  lemma WriteBytesSane(st: FmtState, input: string)
    requires Sane(st)
    ensures Sane(WriteBytes(st, input))
  {
    WriteBytesEffect(st, input);
  }

  lemma BeforeSane(st: FmtState, conf: FmtConf, next: Token)
    requires Sane(st)
    ensures Sane(Before(st, conf, next))
  {
    if st.inline {
      if !IsDelim(st.prev) && !IsDelim(Some(next)) {
        assert Before(st, conf, next) == WriteBytes(st, Separator);
        WriteBytesSane(st, Separator);
      }
    } else {
      assert Before(st, conf, next) == WriteIndentFrom(st, conf, 0);
      WriteIndentSane(st, conf, 0);
    }
  }

  lemma SpaceSane(st: FmtState, t: Token)
    requires Sane(st) && t.Space?
    ensures Sane(FmtMachine.Space(st, t))
  {
    var n := CountNewlines(t.text);
    WriteNewlinesSane(st, if n > 2 then 2 else n);
  }

  lemma AtomSane(st: FmtState, conf: FmtConf, t: Token)
    requires Sane(st)
    ensures Sane(Atom(st, conf, t))
  {
    var b := Before(st, conf, t);
    BeforeSane(st, conf, t);
    WriteBytesSane(b, TokenString(t));
  }

  lemma StringSane(st: FmtState, conf: FmtConf, t: Token)
    requires Sane(st)
    ensures Sane(StringToken(st, conf, t))
  {
    var b := Before(st, conf, t);
    BeforeSane(st, conf, t);
    WriteBytesSane(DelimInc(b), TokenString(t));
  }

  lemma DelimOpenSane(st: FmtState, conf: FmtConf, t: Token)
    requires Sane(st)
    ensures Sane(DelimOpen(st, conf, t))
  {
    var b := Before(st, conf, t);
    BeforeSane(st, conf, t);
    WriteBytesSane(b, TokenString(t));
  }

  lemma DelimCloseSane(st: FmtState, conf: FmtConf, t: Token)
    requires Sane(st)
    ensures Sane(DelimClose(st, conf, t))
  {
    WriteBytesSane(st, Newline);
    var d := DelimDec(WriteBytes(st, Newline));
    var b := Before(d, conf, t);
    BeforeSane(d, conf, t);
    WriteBytesSane(b, TokenString(t));
  }

  /** Every token handler keeps the formatter's states sane: no handler ever makes the shift +1. */
  lemma OnTokenSane(st: FmtState, conf: FmtConf, t: Token)
    requires Sane(st)
    ensures Sane(OnToken(st, conf, t))
  {
    if t.Space? {
      SpaceSane(st, t);
    } else if t.StringDouble? || t.StringGrave? {
      StringSane(st, conf, t);
    } else if IsDelimOpen(Some(t)) {
      DelimOpenSane(st, conf, t);
    } else if IsDelimClose(Some(t)) {
      DelimCloseSane(st, conf, t);
    } else {
      AtomSane(st, conf, t);
    }
  }

  lemma {:induction false} OnTokensSane(st: FmtState, conf: FmtConf, ts: seq<Token>)
    requires Sane(st)
    decreases |ts|
    ensures Sane(OnTokens(st, conf, ts))
  {
    if ts != [] {
      OnTokenSane(st, conf, ts[0]);
      OnTokensSane(OnToken(st, conf, ts[0]), conf, ts[1..]);
    }
  }

  /** From the initial state, every state the formatter reaches has a shift of 0 or -1. */
  lemma ShiftNeverPositive(conf: FmtConf, ts: seq<Token>)
    ensures var st := OnTokens(Initial, conf, ts); st.shifted == 0 || st.shifted == -1
  {
    OnTokensSane(Initial, conf, ts);
  }

  /**
   * The level a line started at, and the shift it has taken: at most one
   * step down, taken the first time the balance goes negative.
   */
  predicate OnLine(st: FmtState, base: int) {
    (st.shifted == 0 && st.indent == base) || (st.shifted == -1 && st.indent == base - 1)
  }

  /** delimDec lowers the level only from an unshifted line, by one, and marks it shifted. */
  lemma DelimDecOnce(st: FmtState, base: int)
    requires OnLine(st, base)
    ensures OnLine(DelimDec(st), base)
    ensures DelimDec(st).indent < st.indent ==> st.shifted == 0 && DelimDec(st).indent == st.indent - 1
    ensures st.shifted == -1 ==> DelimDec(st).indent == st.indent
  {
  }

  /**
   * Within a line (a token and an Indent without `\n`, and no closer, whose
   * handler starts with a newline) the level never drops below the line's
   * base minus one.
   */
  lemma TokenOnLine(st: FmtState, conf: FmtConf, t: Token, base: int)
    requires OnLine(st, base) && !HasNewline(conf.indent) && !HasNewline(TokenString(t))
    requires !t.Space? && !IsDelimClose(Some(t))
    ensures OnLine(OnToken(st, conf, t), base)
  {
    var b := Before(st, conf, t);
    BeforeKeeps(st, conf, t);
    if t.StringDouble? || t.StringGrave? {
      var w := WriteToken(DelimInc(b), t);
      WriteBytesEffect(DelimInc(b), TokenString(t));
      DelimDecOnce(w, base);
      assert OnToken(st, conf, t) == DelimDec(w).(prev := Some(t));
    } else {
      var w := WriteToken(b, t);
      WriteBytesEffect(b, TokenString(t));
      if IsDelimOpen(Some(t)) {
        assert OnToken(st, conf, t) == DelimInc(w).(prev := Some(t));
      } else {
        assert OnToken(st, conf, t) == w.(prev := Some(t));
      }
    }
  }

  /** A string token without a `\n` leaves the balance, level and shift of a sane state as they were. */
  lemma StringKeepsBalance(st: FmtState, conf: FmtConf, t: Token)
    requires Sane(st) && !HasNewline(conf.indent) && !HasNewline(TokenString(t))
    requires t.StringDouble? || t.StringGrave?
    ensures var r := StringToken(st, conf, t);
      r.delims == st.delims && r.indent == st.indent && r.shifted == st.shifted
  {
    var b := Before(st, conf, t);
    BeforeKeeps(st, conf, t);
    var w := WriteToken(DelimInc(b), t);
    WriteBytesEffect(DelimInc(b), TokenString(t));
    assert w.delims == st.delims + 1 && w.indent == st.indent && w.shifted == st.shifted;
  }

  // ----- the output -----

  lemma {:induction false} WriteIndentExtends(st: FmtState, conf: FmtConf, i: int)
    decreases if st.delims > 0 then 1 else 0, st.indent - i
    ensures Extends(st.out, WriteIndentFrom(st, conf, i).out)
  {
    if i < st.indent {
      var w := WriteBytes(st, conf.indent);
      WriteBytesEffect(st, conf.indent);
      WriteIndentExtends(w, conf, i + 1);
      assert WriteIndentFrom(st, conf, i) == WriteIndentFrom(w, conf, i + 1);
      ExtendsTrans(st.out, w.out, WriteIndentFrom(w, conf, i + 1).out);
    }
  }

  lemma {:induction false} WriteNewlinesExtends(st: FmtState, n: int)
    decreases n
    ensures Extends(st.out, WriteNewlines(st, n).out)
  {
    if n > 0 {
      var w := WriteBytes(st, Newline);
      WriteNewlinesExtends(w, n - 1);
      ExtendsTrans(st.out, w.out, WriteNewlines(w, n - 1).out);
    }
  }

  lemma BeforeExtends(st: FmtState, conf: FmtConf, next: Token)
    ensures Extends(st.out, Before(st, conf, next).out)
  {
    if !st.inline {
      BeforeOffLine(st, conf, next);
      WriteIndentExtends(st, conf, 0);
    } else {
      BeforeSeparates(st, conf, next);
      ExtendsAppend(st.out, Separator);
      ExtendsAppend(st.out, "");
    }
  }

  lemma BeforeOffLine(st: FmtState, conf: FmtConf, next: Token)
    requires !st.inline
    ensures Before(st, conf, next) == WriteIndentFrom(st, conf, 0)
  {
  }

  lemma ExtendsAppend(a: string, b: string)
    ensures Extends(a, a + b)
  {
    assert (a + b)[..|a|] == a;
  }

  /** delimClose starts with a line break and ends with the closer. */
  lemma DelimCloseNewlineFirst(st: FmtState, conf: FmtConf, t: Token)
    ensures var r := DelimClose(st, conf, t).out;
      && Extends(st.out + Newline, r)
      && |r| >= |st.out| + 1 + |TokenString(t)|
      && r[|r| - |TokenString(t)|..] == TokenString(t)
  {
    var w := DelimDec(WriteBytes(st, Newline));
    WriteBytesEffect(st, Newline);
    assert w.out == st.out + Newline;
    BeforeExtends(w, conf, t);
    var b := Before(w, conf, t);
    var r := DelimClose(st, conf, t).out;
    assert r == b.out + TokenString(t);
    ExtendsAppend(b.out, TokenString(t));
    ExtendsTrans(st.out + Newline, b.out, r);
  }

  lemma TokenAfterExtends(st: FmtState, conf: FmtConf, t: Token, inc: bool)
    ensures var b := Before(st, conf, t);
      Extends(st.out, WriteToken(if inc then DelimInc(b) else b, t).out)
  {
    var b := Before(st, conf, t);
    BeforeExtends(st, conf, t);
    ExtendsAppend(b.out, TokenString(t));
    ExtendsTrans(st.out, b.out, b.out + TokenString(t));
  }

  lemma OnTokenExtends(st: FmtState, conf: FmtConf, t: Token)
    ensures Extends(st.out, OnToken(st, conf, t).out)
  {
    if t.Space? {
      var n := CountNewlines(t.text);
      WriteNewlinesExtends(st, if n > 2 then 2 else n);
      ExtendsAppend(st.out, "");
    } else if t.StringDouble? || t.StringGrave? {
      TokenAfterExtends(st, conf, t, true);
    } else if IsDelimOpen(Some(t)) {
      TokenAfterExtends(st, conf, t, false);
    } else if IsDelimClose(Some(t)) {
      DelimCloseNewlineFirst(st, conf, t);
      ExtendsAppend(st.out, Newline);
      ExtendsTrans(st.out, st.out + Newline, DelimClose(st, conf, t).out);
    } else {
      TokenAfterExtends(st, conf, t, false);
    }
  }

  lemma {:induction false} OnTokensExtends(st: FmtState, conf: FmtConf, ts: seq<Token>)
    decreases |ts|
    ensures Extends(st.out, OnTokens(st, conf, ts).out)
  {
    if ts != [] {
      var n := OnToken(st, conf, ts[0]);
      OnTokenExtends(st, conf, ts[0]);
      OnTokensExtends(n, conf, ts[1..]);
      ExtendsTrans(st.out, n.out, OnTokens(n, conf, ts[1..]).out);
    }
  }

  lemma OnTokensCons(st: FmtState, conf: FmtConf, t: Token, ts: seq<Token>)
    ensures OnTokens(st, conf, [t] + ts) == OnTokens(OnToken(st, conf, t), conf, ts)
  {
    assert ([t] + ts)[1..] == ts;
  }

  lemma {:induction false} TopFromTokens(src: string, c: nat, closers: seq<char>, st: FmtState, conf: FmtConf)
    requires c <= |src|
    decreases |src| - c
    ensures var r := Tokenize(src, c, closers);
      TopFrom(src, c, closers, st, conf)
        == Formatted(OnTokens(st, conf, Tokens(r.lexemes)).out, if r.err.cause == EndOfInput then None else Some(r.err))
  {
    var t := TokenAt(src, c, closers);
    if !t.out.Fail? {
      var rest := Tokenize(src, t.next, t.closers);
      TokenizeCons(src, c, closers);
      TopFromTokens(src, t.next, t.closers, OnToken(st, conf, t.out.token), conf);
      var l := Lexeme(t.prefix, t.out.token);
      assert ([l] + rest.lexemes)[1..] == rest.lexemes;
      assert Tokens([l] + rest.lexemes) == [t.out.token] + Tokens(rest.lexemes);
      OnTokensCons(st, conf, t.out.token, Tokens(rest.lexemes));
    }
  }

  /**
   * Fmt handles the source's tokens in order and returns what they wrote:
   * with no error when the tokens ran to io.EOF, and otherwise with the
   * first tokenizer error, the output up to it kept.
   */
  lemma FmtResult(src: string, conf: FmtConf)
    ensures var r := Tokenize(src, 0, []); var f := Fmt(src, conf);
      && f.out == OnTokens(Initial, conf, Tokens(r.lexemes)).out
      && (f.err.None? <==> r.err.cause == EndOfInput)
      && (f.err.Some? ==> f.err.value == r.err)
  {
    TopFromTokens(src, 0, [], Initial, conf);
  }
}
