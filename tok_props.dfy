/**
 * What the streaming tokenizer of ast/tok.go promises across calls of
 * Token: the tokens print back to the source, comments end at the first
 * line break, numbers need a follower, strings round-trip, and the closer
 * stack is a stack.
 */
module TokProps {
  import opened Options
  import opened TokGrammar

  /** A token with the base prefix skipped before it (`0b`, `0o`, `0h`, or none). */
  datatype Lexeme = Lexeme(prefix: string, token: Token)

  /**
   * Calls of Token until the first error, io.EOF included: the tokens, the
   * cursor the failing call started from, its error, and the closer stack left.
   */
  datatype Run = Run(lexemes: seq<Lexeme>, stop: nat, err: Error, closers: seq<char>)

  function Tokenize(src: string, c: nat, closers: seq<char>): (r: Run)
    requires c <= |src|
    decreases |src| - c
    ensures c <= r.stop <= r.err.cursor <= |src|
  {
    var t := TokenAt(src, c, closers);
    if t.out.Fail? then Run([], c, t.out.err, t.closers)
    else
      var rest := Tokenize(src, t.next, t.closers);
      Run([Lexeme(t.prefix, t.out.token)] + rest.lexemes, rest.stop, rest.err, rest.closers)
  }

  /** The text of a run of lexemes: each prefix, then each token's String. */
  function Text(ls: seq<Lexeme>): string {
    if ls == [] then "" else ls[0].prefix + TokenString(ls[0].token) + Text(ls[1..])
  }

  /** The tokens of a run of lexemes. */
  function Tokens(ls: seq<Lexeme>): (ts: seq<Token>)
    ensures |ts| == |ls|
  {
    if ls == [] then [] else [ls[0].token] + Tokens(ls[1..])
  }

  /** Concatenated String of the tokens. */
  function Strings(ts: seq<Token>): string {
    if ts == [] then "" else TokenString(ts[0]) + Strings(ts[1..])
  }

  predicate NoPrefixes(ls: seq<Lexeme>) {
    forall i :: 0 <= i < |ls| ==> ls[i].prefix == ""
  }

  // ----- the text of one token -----

  lemma DelimText(src: string, c: nat, closers: seq<char>, opener: char, closer: char, open: Token, close: Token)
    requires c <= |src| && TokenString(open) == [opener] && TokenString(close) == [closer]
    ensures var t := DelimsAt(src, c, closers, opener, closer, open, close);
      t.out.Emit? ==> src[c..t.next] == TokenString(t.out.token)
  {
    if c < |src| {
      assert src[c..c + 1] == [src[c]];
    }
  }

  lemma AnyDelimText(src: string, c: nat, closers: seq<char>)
    requires c <= |src|
    ensures var t := AnyDelimAt(src, c, closers);
      t.out.Emit? ==> src[c..t.next] == TokenString(t.out.token)
  {
    DelimText(src, c, closers, '(', ')', ParenOpen, ParenClose);
    DelimText(src, c, closers, '[', ']', BracketOpen, BracketClose);
    DelimText(src, c, closers, '{', '}', BraceOpen, BraceClose);
  }

  /** Every token Token emits is the text it consumed, after the skipped base prefix. */
  lemma TokenText(src: string, c: nat, closers: seq<char>)
    requires c <= |src|
    ensures var t := TokenAt(src, c, closers);
      t.out.Emit? ==> src[c..t.next] == t.prefix + TokenString(t.out.token)
  {
    if !SpaceAt(src, c).out.Pass? {
    } else if !CommentAt(src, c).out.Pass? {
      CommentText(src, c);
    } else if !NumberStep(src, c).out.Pass? {
      NumberText(src, c);
    } else {
      AfterNumberText(src, c, closers);
    }
  }

  lemma CommentText(src: string, c: nat)
    requires c <= |src|
    ensures var s := CommentAt(src, c); s.out.Emit? ==> src[c..s.next] == TokenString(s.out.token)
  {
    var s := CommentAt(src, c);
    if s.out.Emit? {
      NextOne(src, c, CommentStart);
      assert src[c..s.next] == [src[c]] + src[c + 1..s.next];
    }
  }

  lemma NumberText(src: string, c: nat)
    requires c <= |src|
    ensures var t := NumberStep(src, c); t.out.Emit? ==> src[c..t.next] == t.prefix + TokenString(t.out.token)
  {
    var t := NumberStep(src, c);
    if t.out.Emit? {
      var p := t.prefix;
      assert src[c..t.next] == src[c..c + |p|] + src[c + |p|..t.next];
    }
  }

  lemma AfterNumberText(src: string, c: nat, closers: seq<char>)
    requires c <= |src|
    ensures var t := AfterNumber(src, c, closers);
      t.out.Emit? ==> src[c..t.next] == t.prefix + TokenString(t.out.token)
  {
    if StringAt(src, c).out.Pass? && OperatorAt(src, c).out.Pass? && IdentAt(src, c).out.Pass? {
      AnyDelimText(src, c, closers);
    }
  }

  lemma TextCons(l: Lexeme, ls: seq<Lexeme>)
    ensures Text([l] + ls) == l.prefix + TokenString(l.token) + Text(ls)
  {
    assert ([l] + ls)[1..] == ls;
  }

  /** One emitted token of a run. */
  lemma TokenizeCons(src: string, c: nat, closers: seq<char>)
    requires c <= |src| && !TokenAt(src, c, closers).out.Fail?
    ensures var t := TokenAt(src, c, closers);
      var rest := Tokenize(src, t.next, t.closers);
      Tokenize(src, c, closers) == Run([Lexeme(t.prefix, t.out.token)] + rest.lexemes, rest.stop, rest.err, rest.closers)
  {
  }

  lemma TextJoin(src: string, c: nat, m: nat, e: nat, l: Lexeme, ls: seq<Lexeme>)
    requires c <= m <= e <= |src|
    requires src[c..m] == l.prefix + TokenString(l.token) && Text(ls) == src[m..e]
    ensures Text([l] + ls) == src[c..e]
  {
    TextCons(l, ls);
    assert src[c..e] == src[c..m] + src[m..e];
  }

  /** Printing the tokens of a run gives back the source up to the call that failed. */
  lemma {:induction false} TokenizeText(src: string, c: nat, closers: seq<char>)
    requires c <= |src|
    decreases |src| - c
    ensures var r := Tokenize(src, c, closers); Text(r.lexemes) == src[c..r.stop]
  {
    var t := TokenAt(src, c, closers);
    if !t.out.Fail? {
      var rest := Tokenize(src, t.next, t.closers);
      TokenizeCons(src, c, closers);
      TokenizeText(src, t.next, t.closers);
      TokenText(src, c, closers);
      TextJoin(src, c, t.next, rest.stop, Lexeme(t.prefix, t.out.token), rest.lexemes);
    }
  }

  /** A run ends in io.EOF exactly when its last call started at the end of the source. */
  lemma {:induction false} TokenizeEnd(src: string, c: nat, closers: seq<char>)
    requires c <= |src|
    decreases |src| - c
    ensures var r := Tokenize(src, c, closers); r.err.cause == EndOfInput <==> r.stop == |src|
  {
    var t := TokenAt(src, c, closers);
    if !t.out.Fail? {
      TokenizeEnd(src, t.next, t.closers);
    }
  }

  lemma {:induction false} NoPrefixesText(ls: seq<Lexeme>)
    requires NoPrefixes(ls)
    ensures Text(ls) == Strings(Tokens(ls))
  {
    if ls != [] {
      NoPrefixesText(ls[1..]);
    }
  }

  /**
   * Tokenizing a whole source to io.EOF and printing the tokens reproduces
   * it: exactly, when no number carried a base prefix.
   */
  lemma Reproduction(src: string)
    ensures var r := Tokenize(src, 0, []);
      r.err.cause == EndOfInput ==> Text(r.lexemes) == src
    ensures var r := Tokenize(src, 0, []);
      r.err.cause == EndOfInput && NoPrefixes(r.lexemes) ==> Strings(Tokens(r.lexemes)) == src
  {
    var r := Tokenize(src, 0, []);
    TokenizeText(src, 0, []);
    TokenizeEnd(src, 0, []);
    if r.err.cause == EndOfInput {
      assert src[0..|src|] == src;
      if NoPrefixes(r.lexemes) {
        NoPrefixesText(r.lexemes);
      }
    }
  }

  // ----- comments -----

  predicate NoBreak(s: string) {
    forall k :: 0 <= k < |s| ==> s[k] != '\n' && s[k] != '\r'
  }

  /** The text without its one trailing line break, if it has one. */
  function Chomp(s: string): (r: string)
    ensures |s| - 2 <= |r| <= |s|
  {
    if |s| >= 2 && s[|s| - 2..] == "\r\n" then s[..|s| - 2]
    else if s != [] && (s[|s| - 1] == '\n' || s[|s| - 1] == '\r') then s[..|s| - 1]
    else s
  }

  lemma {:induction false} CommentEndShape(src: string, i: nat)
    requires i <= |src|
    decreases |src| - i
    ensures var e := CommentEnd(src, i);
      && NoBreak(Chomp(src[i..e]))
      && (Chomp(src[i..e]) == src[i..e] ==> e == |src|)
  {
    if i == |src| {
    } else if Next(src, i, "\r\n") {
      CrLfShape(src, i);
    } else if src[i] == '\n' || src[i] == '\r' {
      BreakShape(src, i);
    } else {
      var e := CommentEnd(src, i + 1);
      assert CommentEnd(src, i) == e;
      CommentEndShape(src, i + 1);
      OtherShape(src, i, e);
    }
  }

  /** A comment never stops between the two characters of a `\r\n`. */
  lemma {:induction false} CommentEndCr(src: string, i: nat)
    requires i <= |src|
    decreases |src| - i
    ensures var e := CommentEnd(src, i); i < e && src[e - 1] == '\r' ==> !NextChar(src, e, '\n')
  {
    if i < |src| && !Next(src, i, "\r\n") && src[i] != '\n' && src[i] != '\r' {
      CommentEndCr(src, i + 1);
    } else if i < |src| {
      NextTwo(src, i, "\r\n");
    }
  }

  lemma CrLfShape(src: string, i: nat)
    requires Next(src, i, "\r\n")
    ensures var s := src[i..i + 2]; Chomp(s) == [] && s != Chomp(s) && src[i + 1] != '\r'
  {
  }

  lemma BreakShape(src: string, i: nat)
    requires i < |src| && (src[i] == '\n' || src[i] == '\r') && !Next(src, i, "\r\n")
    ensures var s := src[i..i + 1]; Chomp(s) == [] && s != Chomp(s)
    ensures src[i] == '\r' ==> !NextChar(src, i + 1, '\n')
  {
    NextTwo(src, i, "\r\n");
    assert src[i..i + 1] == [src[i]];
  }

  lemma OtherShape(src: string, i: nat, e: nat)
    requires i < e <= |src| && src[i] != '\n' && src[i] != '\r'
    requires NoBreak(Chomp(src[i + 1..e]))
    requires Chomp(src[i + 1..e]) == src[i + 1..e] ==> e == |src|
    ensures NoBreak(Chomp(src[i..e])) && (Chomp(src[i..e]) == src[i..e] ==> e == |src|)
    ensures src[i..e][|src[i..e]| - 1] == src[e - 1]
  {
    var rest := src[i + 1..e];
    assert src[i..e] == [src[i]] + rest;
    ConsShape(src[i], rest);
  }

  lemma ConsShape(ch: char, s: string)
    requires ch != '\n' && ch != '\r' && NoBreak(Chomp(s))
    ensures NoBreak(Chomp([ch] + s))
    ensures Chomp([ch] + s) == [ch] + s ==> Chomp(s) == s
  {
    ChompCons(ch, s);
    var c := Chomp(s);
    assert forall k :: 0 < k < |[ch] + c| ==> ([ch] + c)[k] == c[k - 1];
    if Chomp([ch] + s) == [ch] + s {
      assert [ch] + Chomp(s) == [ch] + s;
      assert Chomp(s) == ([ch] + Chomp(s))[1..];
    }
  }

  lemma ChompCons(ch: char, s: string)
    requires ch != '\n' && ch != '\r'
    ensures Chomp([ch] + s) == [ch] + Chomp(s)
  {
    var t := [ch] + s;
    if |s| >= 2 && s[|s| - 2..] == "\r\n" {
      assert t[|t| - 2..] == s[|s| - 2..];
      assert t[..|t| - 2] == [ch] + s[..|s| - 2];
    } else if s != [] && (s[|s| - 1] == '\n' || s[|s| - 1] == '\r') {
      assert t[..|t| - 1] == [ch] + s[..|s| - 1];
      if |t| >= 2 {
        assert t[|t| - 2..] == [t[|t| - 2], t[|t| - 1]];
        if |s| >= 2 {
          assert s[|s| - 2..] == [s[|s| - 2], s[|s| - 1]];
        }
      }
    } else if |t| >= 2 {
      assert t[|t| - 2..] == [t[|t| - 2], t[|t| - 1]];
    }
  }

  /**
   * A comment holds one line: its text is line-break free but for one break
   * at its end (`\r\n` taken whole), and only a comment at end of input may
   * lack it.
   */
  lemma CommentShape(src: string, c: nat)
    requires c <= |src|
    ensures var s := CommentAt(src, c);
      s.out.Emit? ==>
        var text := s.out.token.text;
        && NoBreak(Chomp(text))
        && (Chomp(text) == text ==> s.next == |src|)
        && (text != [] && text[|text| - 1] == '\r' ==> !NextChar(src, s.next, '\n'))
  {
    if Next(src, c, CommentStart) {
      CommentEndShape(src, c + 1);
      CommentEndCr(src, c + 1);
    }
  }

  // ----- numbers -----

  /**
   * A number must be followed by something: an integer part that runs into
   * the end of input is rejected, so a number emitted at the very end has a
   * fraction. Nor is a number ever followed by an identifier character.
   */
  lemma NumberFollowed(src: string, start: nat, m: ByteMap)
    requires start <= |src|
    ensures var s := NumberAt(src, start, m);
      s.out.Emit? ==> (s.next < |src| || '.' in src[start..s.next]) && !NextIn(src, s.next, IdentBytes)
  {
    var s := NumberAt(src, start, m);
    if s.out.Emit? && NextIn(src, start, m) {
      var j := RunEnd(src, start, m);
      if j < |src| && !NextIn(src, j, IdentBytes) && src[j] == '.' {
        assert src[start..s.next][j - start] == '.';
      }
    }
  }

  /** An integer with nothing after it is an error at the end of the input. */
  lemma NumberAtEndRejected(src: string, start: nat, m: ByteMap)
    requires start < |src|
    requires forall k :: start <= k < |src| ==> IsByteIn(m, src[k])
    ensures NumberAt(src, start, m).out.Fail?
  {
    NumberFollowed(src, start, m);
  }

  // ----- operators -----

  /**
   * An operator is the longest run of operator characters; it is an error
   * exactly when the run ends in `.` right before a decimal digit.
   */
  lemma OperatorDot(src: string, c: nat)
    requires c <= |src|
    ensures var s := OperatorAt(src, c);
      && (s.out.Emit? ==> !NextIn(src, s.next, OperatorBytes))
      && (!s.out.Pass? ==> (s.out.Fail? <==> src[s.next - 1] == '.' && NextIn(src, s.next, DecDigits)))
      && (s.out.Fail? ==> s.out.err.cause.DigitAfterDot?)
  {
  }

  // ----- strings -----

  /** Double-quoted content as the tokenizer reads it: no bare `"`, every backslash escapes one character. */
  predicate Escaped(t: string)
    decreases |t|
  {
    t == []
    || (t[0] == CharEscape && |t| >= 2 && Escaped(t[2..]))
    || (t[0] != CharEscape && t[0] != '"' && Escaped(t[1..]))
  }

  lemma {:induction false} EscapedSkipped(src: string, start: nat, i: nat, u: string)
    requires start <= i && i + |u| <= |src| && src[i..i + |u|] == u && Escaped(u)
    decreases |u|
    ensures StringBody(src, start, i, '"', true) == StringBody(src, start, i + |u|, '"', true)
  {
    if u != [] {
      assert u[0] == src[i];
      if u[0] == CharEscape {
        assert u[1] == src[i + 1];
        assert src[i + 2..i + 2 + |u[2..]|] == u[2..];
        EscapedSkipped(src, start, i + 2, u[2..]);
      } else {
        assert src[i + 1..i + 1 + |u[1..]|] == u[1..];
        EscapedSkipped(src, start, i + 1, u[1..]);
      }
    }
  }

  lemma {:induction false} QuotedEscaped(src: string, start: nat, i: nat)
    requires start <= i <= |src|
    decreases |src| - i
    ensures var b := StringBody(src, start, i, '"', true);
      b.q.Quoted? ==> i < b.next && Escaped(src[i..b.next - 1])
  {
    StringBodyShape(src, start, i, '"', true);
    var b := StringBody(src, start, i, '"', true);
    if i < |src| && src[i] != '"' {
      if src[i] == CharEscape {
        if i + 1 < |src| {
          QuotedEscaped(src, start, i + 2);
          if b.q.Quoted? {
            StringBodyShape(src, start, i + 2, '"', true);
            assert src[i..b.next - 1][2..] == src[i + 2..b.next - 1];
          }
        }
      } else {
        QuotedEscaped(src, start, i + 1);
        if b.q.Quoted? {
          assert src[i..b.next - 1][1..] == src[i + 1..b.next - 1];
        }
      }
    }
  }

  /**
   * A double-quoted string round-trips: its content is exactly a raw escaped
   * text, and every such text, quoted, is read back as itself (empty
   * content included).
   */
  lemma DoubleStringRoundTrip(t: string, rest: string)
    requires Escaped(t)
    ensures StringAt("\"" + t + "\"" + rest, 0) == Scan(Emit(StringDouble(t)), |t| + 2)
  {
    Enclosed('"', t, rest);
    DoubleAt("\"" + t + "\"" + rest, t);
  }

  /** Where the quotes and the content sit in a quoted text. */
  lemma Enclosed(q: char, t: string, rest: string)
    ensures var src := [q] + t + [q] + rest;
      |t| + 2 <= |src| && src[0] == q && src[1..1 + |t|] == t && src[1 + |t|] == q
  {
    var src := [q] + t + [q] + rest;
    assert src[1..1 + |t|] == t;
  }

  lemma DoubleAt(src: string, t: string)
    requires |t| + 2 <= |src| && src[0] == '"' && src[1..1 + |t|] == t && src[1 + |t|] == '"'
    requires Escaped(t)
    ensures StringAt(src, 0) == Scan(Emit(StringDouble(t)), |t| + 2)
  {
    EscapedSkipped(src, 1, 1, t);
    StringBodyClose(src, 1, 1 + |t|, '"', true);
    assert StringBetween(src, 0, '"', '"', true) == Between(Quoted(t), |t| + 2);
  }

  lemma DoubleStringEscaped(src: string, c: nat)
    requires c <= |src|
    ensures var s := StringAt(src, c); s.out.Emit? && s.out.token.StringDouble? ==> Escaped(s.out.token.text)
  {
    if NextChar(src, c, '"') {
      QuotedEscaped(src, c + 1, c + 1);
      StringBodyShape(src, c + 1, c + 1, '"', true);
    }
  }

  /**
   * A double-quoted string with no closer fails at the end of the input.
   * The error names the grave quote, whatever the string's own quote.
   */
  lemma DoubleStringUnterminated(t: string)
    requires Escaped(t)
    ensures StringAt("\"" + t, 0) == Scan(Fail(Error(|t| + 1, ExpectedClosing('`'))), |t| + 1)
  {
    var src := "\"" + t;
    assert src[1..1 + |t|] == t;
    EscapedSkipped(src, 1, 1, t);
  }

  lemma {:induction false} GraveSkipped(src: string, start: nat, i: nat, u: string)
    requires start <= i && i + |u| <= |src| && src[i..i + |u|] == u && '`' !in u
    decreases |u|
    ensures StringBody(src, start, i, '`', false) == StringBody(src, start, i + |u|, '`', false)
  {
    if u != [] {
      assert u[0] == src[i];
      assert src[i + 1..i + 1 + |u[1..]|] == u[1..];
      GraveSkipped(src, start, i + 1, u[1..]);
    }
  }

  /** Grave strings are raw: any content without a grave quote is read back unchanged, and only such. */
  lemma GraveStringRoundTrip(t: string, rest: string)
    requires '`' !in t
    ensures StringAt("`" + t + "`" + rest, 0) == Scan(Emit(StringGrave(t)), |t| + 2)
  {
    var src := "`" + t + "`" + rest;
    assert src[1..1 + |t|] == t;
    GraveSkipped(src, 1, 1, t);
    StringBodyClose(src, 1, 1 + |t|, '`', false);
  }

  lemma {:induction false} GraveQuotedRaw(src: string, start: nat, i: nat)
    requires start <= i <= |src|
    requires '`' !in src[start..i]
    decreases |src| - i
    ensures var b := StringBody(src, start, i, '`', false); b.q.Quoted? ==> '`' !in b.q.text
  {
    if i < |src| && src[i] != '`' {
      assert src[start..i + 1] == src[start..i] + [src[i]];
      GraveQuotedRaw(src, start, i + 1);
    }
  }

  lemma GraveStringRaw(src: string, c: nat)
    requires c <= |src|
    ensures var s := StringAt(src, c); s.out.Emit? && s.out.token.StringGrave? ==> '`' !in s.out.token.text
  {
    if !NextChar(src, c, '"') && NextChar(src, c, '`') {
      GraveQuotedRaw(src, c + 1, c + 1);
    }
  }

  // ----- the closer stack -----

  /** The closer an opening delimiter token pushes. */
  function CloserOf(t: Token): Option<char> {
    match t
    case ParenOpen => Some(')')
    case BracketOpen => Some(']')
    case BraceOpen => Some('}')
    case _ => None
  }

  /** The character a closing delimiter token must find on top of the stack. */
  function ClosedBy(t: Token): Option<char> {
    match t
    case ParenClose => Some(')')
    case BracketClose => Some(']')
    case BraceClose => Some('}')
    case _ => None
  }

  /** Reference stack discipline over tokens: openers push, closers must pop their own closer. */
  function StackAfter(closers: seq<char>, ts: seq<Token>): Option<seq<char>>
    decreases |ts|
  {
    if ts == [] then Some(closers)
    else if CloserOf(ts[0]).Some? then StackAfter(closers + [CloserOf(ts[0]).value], ts[1..])
    else if ClosedBy(ts[0]).Some? then
      if OnTop(closers, ClosedBy(ts[0]).value) then StackAfter(closers[..|closers| - 1], ts[1..])
      else None
    else StackAfter(closers, ts[1..])
  }

  lemma DelimStack(src: string, c: nat, closers: seq<char>, opener: char, closer: char, open: Token, close: Token)
    requires c <= |src| && CloserOf(open) == Some(closer) && ClosedBy(close) == Some(closer)
    requires CloserOf(close).None? && ClosedBy(open).None?
    ensures var t := DelimsAt(src, c, closers, opener, closer, open, close);
      t.out.Emit? ==> StackAfter(closers, [t.out.token]) == Some(t.closers)
  {
  }

  /** Each token moves the closer stack as the reference discipline says. */
  lemma TokenStack(src: string, c: nat, closers: seq<char>)
    requires c <= |src|
    ensures var t := TokenAt(src, c, closers);
      t.out.Emit? ==> StackAfter(closers, [t.out.token]) == Some(t.closers)
  {
    if SpaceAt(src, c).out.Pass? && CommentAt(src, c).out.Pass? && NumberStep(src, c).out.Pass? {
      AfterNumberStack(src, c, closers);
    } else {
      var t := TokenAt(src, c, closers);
      if t.out.Emit? {
        assert !t.out.token.ParenOpen? && !t.out.token.BracketOpen? && !t.out.token.BraceOpen?;
        assert !t.out.token.ParenClose? && !t.out.token.BracketClose? && !t.out.token.BraceClose?;
        assert [t.out.token][1..] == [];
      }
    }
  }

  lemma AfterNumberStack(src: string, c: nat, closers: seq<char>)
    requires c <= |src|
    ensures var t := AfterNumber(src, c, closers);
      t.out.Emit? ==> StackAfter(closers, [t.out.token]) == Some(t.closers)
  {
    if StringAt(src, c).out.Pass? && OperatorAt(src, c).out.Pass? && IdentAt(src, c).out.Pass? {
      DelimStack(src, c, closers, '(', ')', ParenOpen, ParenClose);
      DelimStack(src, c, closers, '[', ']', BracketOpen, BracketClose);
      DelimStack(src, c, closers, '{', '}', BraceOpen, BraceClose);
    } else {
      var t := AfterNumber(src, c, closers);
      if t.out.Emit? {
        assert !t.out.token.ParenOpen? && !t.out.token.BracketOpen? && !t.out.token.BraceOpen?;
        assert !t.out.token.ParenClose? && !t.out.token.BracketClose? && !t.out.token.BraceClose?;
        assert [t.out.token][1..] == [];
      }
    }
  }

  lemma StackAfterCons(closers: seq<char>, t: Token, ts: seq<Token>, mid: seq<char>)
    requires StackAfter(closers, [t]) == Some(mid)
    ensures StackAfter(closers, [t] + ts) == StackAfter(mid, ts)
  {
    assert ([t] + ts)[1..] == ts;
    assert [t][1..] == [];
  }

  /** The closer stack a run leaves is the reference discipline applied to its tokens. */
  lemma {:induction false} TokenizeStack(src: string, c: nat, closers: seq<char>)
    requires c <= |src|
    decreases |src| - c
    ensures var r := Tokenize(src, c, closers); StackAfter(closers, Tokens(r.lexemes)) == Some(r.closers)
  {
    var t := TokenAt(src, c, closers);
    if !t.out.Fail? {
      var rest := Tokenize(src, t.next, t.closers);
      TokenizeStack(src, t.next, t.closers);
      TokenStack(src, c, closers);
      var l := Lexeme(t.prefix, t.out.token);
      assert ([l] + rest.lexemes)[1..] == rest.lexemes;
      StackAfterCons(closers, t.out.token, Tokens(rest.lexemes), t.closers);
    }
  }

  /** A closer that is not on top of the stack is an error at the cursor. */
  lemma UnexpectedCloser(src: string, c: nat, closers: seq<char>)
    requires c < |src| && src[c] in ")]}" && !OnTop(closers, src[c])
    ensures TokenAt(src, c, closers) == Step(Fail(Error(c, UnexpectedClosing(src[c]))), c, closers, "")
  {
    assert !NextIn(src, c, WhitespaceBytes) && !NextIn(src, c, OperatorBytes);
    NextOne(src, c, CommentStart);
    NextTwo(src, c, "0b");
    NextTwo(src, c, "0o");
    NextTwo(src, c, "0h");
  }

  /** Openers still open at the end of the input are not an error: Token reports io.EOF. */
  lemma UnclosedAtEnd(src: string, closers: seq<char>)
    ensures TokenAt(src, |src|, closers) == Step(Fail(Error(|src|, EndOfInput)), |src|, closers, "")
  {
    NextOne(src, |src|, CommentStart);
    NextTwo(src, |src|, "0b");
    NextTwo(src, |src|, "0o");
    NextTwo(src, |src|, "0h");
  }
}
