/**
 * The streaming Tokenizer of ast/tok.go: a cursor over the source and the
 * stack of closers that the open delimiters expect. The panics that carry a
 * token or an error out of a classifier become an Outcome that the caller
 * returns as soon as it is not Pass. Each method is proved to compute the
 * function of TokGrammar that specifies it.
 */
module TokScanner {
  import opened Options
  import opened TokGrammar

  class Tokenizer {
    const Source: string
    var cursor: nat
    var closers: seq<char>

    /** NewTokenizer. */
    constructor (src: string)
      ensures Source == src && cursor == 0 && closers == []
    {
      Source := src;
      cursor := 0;
      closers := [];
    }

    predicate Valid()
      reads this
    {
      cursor <= |Source|
    }

    predicate More()
      reads this
    {
      cursor < |Source|
    }

    /** The text from `start` to the cursor, empty when `start` is not before it. */
    function From(start: nat): string
      reads this
      requires Valid()
    {
      if start < cursor then Source[start..cursor] else ""
    }

    method SkipByte()
      requires More()
      modifies this
      ensures cursor == old(cursor) + 1 && closers == old(closers)
    {
      cursor := cursor + 1;
    }

    /** skipChar: one character; at end of input there is none to skip. */
    method SkipChar()
      requires Valid()
      modifies this
      ensures Valid() && closers == old(closers)
      ensures cursor == if old(cursor) < |Source| then old(cursor) + 1 else old(cursor)
    {
      if cursor < |Source| {
        cursor := cursor + 1;
      }
    }

    method SkippedByte(ch: char) returns (skipped: bool)
      requires Valid()
      modifies this
      ensures Valid() && closers == old(closers)
      ensures skipped == NextChar(Source, old(cursor), ch)
      ensures cursor == if skipped then old(cursor) + 1 else old(cursor)
    {
      skipped := NextChar(Source, cursor, ch);
      if skipped {
        cursor := cursor + 1;
      }
    }

    method SkippedString(prefix: string) returns (skipped: bool)
      requires Valid()
      modifies this
      ensures Valid() && closers == old(closers)
      ensures skipped == Next(Source, old(cursor), prefix)
      ensures cursor == if skipped then old(cursor) + |prefix| else old(cursor)
    {
      skipped := Next(Source, cursor, prefix);
      if skipped {
        cursor := cursor + |prefix|;
      }
    }

    /** skippedNewline: `\r\n`, else `\n`, else `\r`. */
    method SkippedNewline() returns (skipped: bool)
      requires Valid()
      modifies this
      ensures Valid() && closers == old(closers)
      ensures var c := old(cursor);
        skipped == (Next(Source, c, "\r\n") || NextChar(Source, c, '\n') || NextChar(Source, c, '\r'))
      ensures var c := old(cursor);
        cursor == if Next(Source, c, "\r\n") then c + 2 else if skipped then c + 1 else c
    {
      skipped := SkippedString("\r\n");
      if !skipped {
        skipped := SkippedByte('\n');
      }
      if !skipped {
        skipped := SkippedByte('\r');
      }
    }

    method MaybeSpace() returns (o: Outcome)
      requires Valid()
      modifies this
      ensures Valid() && closers == old(closers)
      ensures Scan(o, cursor) == SpaceAt(Source, old(cursor))
    {
      var start := cursor;
      while NextIn(Source, cursor, WhitespaceBytes)
        invariant Valid() && start <= cursor
        invariant RunEnd(Source, cursor, WhitespaceBytes) == RunEnd(Source, start, WhitespaceBytes)
        invariant closers == old(closers)
        decreases |Source| - cursor
      {
        SkipByte();
      }
      var tok := From(start);
      if |tok| > 0 {
        return Emit(Space(tok));
      }
      return Pass;
    }

    method MaybeComment() returns (o: Outcome)
      requires Valid()
      modifies this
      ensures Valid() && closers == old(closers)
      ensures Scan(o, cursor) == CommentAt(Source, old(cursor))
    {
      var semicolon := SkippedString(CommentStart);
      if !semicolon {
        return Pass;
      }
      var start := cursor;
      ghost var end := CommentEnd(Source, start);
      while More()
        invariant Valid() && start <= cursor && closers == old(closers)
        invariant CommentEnd(Source, cursor) == end
        decreases |Source| - cursor
      {
        var newline := SkippedNewline();
        if newline {
          break;
        }
        SkipChar();
      }
      return Emit(Comment(From(start)));
    }

    method MaybeNumber() returns (o: Outcome)
      requires Valid()
      modifies this
      ensures Valid() && closers == old(closers)
      ensures var t := NumberStep(Source, old(cursor)); o == t.out && cursor == t.next
    {
      o := MaybeNumberWithPrefix("0b", BinDigits);
      if !o.Pass? {
        return;
      }
      o := MaybeNumberWithPrefix("0o", OctDigits);
      if !o.Pass? {
        return;
      }
      o := MaybeNumberWithPrefix("0h", HexDigits);
      if !o.Pass? {
        return;
      }
      if NextIn(Source, cursor, DecDigits) {
        o := NumberWith(DecDigits);
      }
    }

    method MaybeNumberWithPrefix(prefix: string, m: ByteMap) returns (o: Outcome)
      requires Valid()
      modifies this
      ensures Valid() && closers == old(closers)
      ensures Next(Source, old(cursor), prefix) ==> Scan(o, cursor) == NumberAt(Source, old(cursor) + |prefix|, m)
      ensures !Next(Source, old(cursor), prefix) ==> o == Pass && cursor == old(cursor)
    {
      o := Pass;
      var skipped := SkippedString(prefix);
      if skipped {
        o := NumberWith(m);
      }
    }

    /** numberWith, up to the `fraction:` label. */
    method NumberWith(m: ByteMap) returns (o: Outcome)
      requires Valid()
      modifies this
      ensures Valid() && closers == old(closers)
      ensures Scan(o, cursor) == NumberAt(Source, old(cursor), m)
    {
      var start := cursor;
      if !NextIn(Source, cursor, m) {
        return Fail(Error(cursor, ExpectedDigit(m, Preview(Source, cursor))));
      }
      ghost var j := RunEnd(Source, start, m);
      while More()
        invariant Valid() && start <= cursor <= j && closers == old(closers)
        invariant RunEnd(Source, cursor, m) == j
        invariant cursor == start ==> NextIn(Source, cursor, m)
        decreases |Source| - cursor
      {
        if NextIn(Source, cursor, m) {
          SkipByte();
          continue;
        }
        assert cursor == j;
        if NextIn(Source, cursor, IdentBytes) {
          return Fail(Error(cursor, ExpectedDigit(m, Preview(Source, cursor))));
        }
        var dot := SkippedByte('.');
        if dot {
          o := NumberFraction(start, m);
          return;
        }
        return Emit(Number(From(start)));
      }
      o := NumberFraction(start, m);
    }

    /** numberWith from the `fraction:` label with the number started at `start`. */
    method NumberFraction(start: nat, m: ByteMap) returns (o: Outcome)
      requires Valid() && start < cursor
      modifies this
      ensures Valid() && closers == old(closers)
      ensures Scan(o, cursor) == FractionAt(Source, start, old(cursor), m)
    {
      if !NextIn(Source, cursor, m) {
        return Fail(Error(cursor, ExpectedDigit(m, Preview(Source, cursor))));
      }
      ghost var c0 := cursor;
      while NextIn(Source, cursor, m)
        invariant Valid() && c0 <= cursor && closers == old(closers)
        invariant RunEnd(Source, cursor, m) == RunEnd(Source, c0, m)
        decreases |Source| - cursor
      {
        SkipByte();
      }
      if NextIn(Source, cursor, IdentBytes) {
        return Fail(Error(cursor, ExpectedDigit(m, Preview(Source, cursor))));
      }
      return Emit(Number(From(start)));
    }

    method MaybeString() returns (o: Outcome)
      requires Valid()
      modifies this
      ensures Valid() && closers == old(closers)
      ensures Scan(o, cursor) == StringAt(Source, old(cursor))
    {
      var d := MaybeStringBetween('"', '"', true);
      match d
      case Quoted(t) => return Emit(StringDouble(t));
      case QuoteError(e) => return Fail(e);
      case NoOpener =>
      var g := MaybeStringBetween('`', '`', false);
      match g
      case Quoted(t) => return Emit(StringGrave(t));
      case QuoteError(e) => return Fail(e);
      case NoOpener => return Pass;
    }

    method MaybeStringBetween(opener: char, closer: char, escapes: bool) returns (q: Quoted)
      requires Valid()
      modifies this
      ensures Valid() && closers == old(closers)
      ensures Between(q, cursor) == StringBetween(Source, old(cursor), opener, closer, escapes)
    {
      if !NextChar(Source, cursor, opener) {
        return NoOpener;
      }
      ghost var c0 := cursor;
      SkipByte();
      var start := cursor;
      ghost var b := StringBody(Source, start, start, closer, escapes);
      assert b == StringBetween(Source, c0, opener, closer, escapes);
      while More()
        invariant Valid() && start <= cursor && closers == old(closers)
        invariant StringBody(Source, start, cursor, closer, escapes) == b
        decreases |Source| - cursor
      {
        var stop := StringChar(start, closer, escapes);
        if stop.Some? {
          return stop.value;
        }
      }
      assert b == Between(QuoteError(Error(cursor, UnterminatedAsWritten(closer))), cursor);
      return QuoteError(Error(cursor, UnterminatedAsWritten(closer)));
    }

    /**
     * One pass of the loop of maybeStringBetween: the closer ends the string,
     * an escape takes the next character with it (and fails at end of input),
     * any other character is skipped. None means the loop goes on.
     */
    method StringChar(start: nat, closer: char, escapes: bool) returns (stop: Option<Quoted>)
      requires More() && start <= cursor
      modifies this
      ensures Valid() && closers == old(closers) && old(cursor) < cursor
      ensures stop.None? ==>
        StringBody(Source, start, cursor, closer, escapes) == StringBody(Source, start, old(cursor), closer, escapes)
      ensures stop.Some? ==> Between(stop.value, cursor) == StringBody(Source, start, old(cursor), closer, escapes)
    {
      if NextChar(Source, cursor, closer) {
        var str := From(start);
        assert str == Source[start..cursor];
        StringBodyClose(Source, start, cursor, closer, escapes);
        SkipByte();
        return Some(Quoted(str));
      }
      if escapes && NextChar(Source, cursor, CharEscape) {
        SkipByte();
        if !More() {
          return Some(QuoteError(Error(cursor, ExpectedEscaped)));
        }
        SkipChar();
        return None;
      }
      SkipChar();
      return None;
    }

    method MaybeOperator() returns (o: Outcome)
      requires Valid()
      modifies this
      ensures Valid() && closers == old(closers)
      ensures Scan(o, cursor) == OperatorAt(Source, old(cursor))
    {
      var start := cursor;
      while NextIn(Source, cursor, OperatorBytes)
        invariant Valid() && start <= cursor && closers == old(closers)
        invariant RunEnd(Source, cursor, OperatorBytes) == RunEnd(Source, start, OperatorBytes)
        decreases |Source| - cursor
      {
        SkipByte();
      }
      var tok := From(start);
      if |tok| > 0 {
        if tok[|tok| - 1] == '.' && NextIn(Source, cursor, DecDigits) {
          return Fail(Error(cursor, DigitAfterDot(PreviewFromAsWritten(Source, cursor, start))));
        }
        return Emit(Operator(tok));
      }
      return Pass;
    }

    method MaybeIdent() returns (o: Outcome)
      requires Valid()
      modifies this
      ensures Valid() && closers == old(closers)
      ensures Scan(o, cursor) == IdentAt(Source, old(cursor))
    {
      var start := cursor;
      if NextIn(Source, cursor, IdentStartBytes) {
        SkipByte();
        ghost var c1 := cursor;
        while NextIn(Source, cursor, IdentBytes)
          invariant Valid() && c1 <= cursor && closers == old(closers)
          invariant RunEnd(Source, cursor, IdentBytes) == RunEnd(Source, c1, IdentBytes)
          decreases |Source| - cursor
        {
          SkipByte();
        }
        return Emit(Ident(From(start)));
      }
      return Pass;
    }

    method PushCloser(ch: char)
      modifies this
      ensures closers == old(closers) + [ch] && cursor == old(cursor)
    {
      closers := closers + [ch];
    }

    /** popCloser: pops `ch` when it is on top of the stack. */
    method PopCloser(ch: char) returns (popped: bool)
      modifies this
      ensures popped == OnTop(old(closers), ch) && cursor == old(cursor)
      ensures closers == if popped then old(closers)[..|old(closers)| - 1] else old(closers)
    {
      var index := |closers| - 1;
      if index >= 0 && closers[index] == ch {
        closers := closers[..index];
        return true;
      }
      return false;
    }

    method MaybeDelims(opener: char, closer: char, open: Token, close: Token) returns (o: Outcome)
      requires Valid()
      modifies this
      ensures Valid()
      ensures Step(o, cursor, closers, "") == DelimsAt(Source, old(cursor), old(closers), opener, closer, open, close)
    {
      var pushed := SkippedByte(opener);
      if pushed {
        PushCloser(closer);
        return Emit(open);
      }
      if NextChar(Source, cursor, closer) {
        var popped := PopCloser(closer);
        if popped {
          SkipByte();
          return Emit(close);
        }
        return Fail(Error(cursor, UnexpectedClosing(closer)));
      }
      return Pass;
    }

    /** Token: the first classifier that does not pass decides. */
    method Token() returns (tok: Option<Token>, err: Option<Error>)
      requires Valid()
      modifies this
      ensures Valid()
      ensures var t := TokenAt(Source, old(cursor), old(closers));
        && cursor == t.next && closers == t.closers
        && tok == (if t.out.Emit? then Some(t.out.token) else None)
        && err == (if t.out.Fail? then Some(t.out.err) else None)
    {
      var o := MaybeSpace();
      if !o.Pass? {
        return TokenOf(o), ErrorOf(o);
      }
      o := MaybeComment();
      if !o.Pass? {
        return TokenOf(o), ErrorOf(o);
      }
      o := MaybeNumber();
      if !o.Pass? {
        return TokenOf(o), ErrorOf(o);
      }
      o := MaybeString();
      if !o.Pass? {
        return TokenOf(o), ErrorOf(o);
      }
      o := MaybeOperator();
      if !o.Pass? {
        return TokenOf(o), ErrorOf(o);
      }
      o := MaybeIdent();
      if !o.Pass? {
        return TokenOf(o), ErrorOf(o);
      }
      o := MaybeDelims('(', ')', ParenOpen, ParenClose);
      if !o.Pass? {
        return TokenOf(o), ErrorOf(o);
      }
      o := MaybeDelims('[', ']', BracketOpen, BracketClose);
      if !o.Pass? {
        return TokenOf(o), ErrorOf(o);
      }
      o := MaybeDelims('{', '}', BraceOpen, BraceClose);
      if !o.Pass? {
        return TokenOf(o), ErrorOf(o);
      }
      if More() {
        return None, Some(Error(cursor, FailedToParse(Preview(Source, cursor))));
      }
      return None, Some(Error(cursor, EndOfInput));
    }
  }

  function TokenOf(o: Outcome): Option<Token> {
    if o.Emit? then Some(o.token) else None
  }

  function ErrorOf(o: Outcome): Option<Error> {
    if o.Fail? then Some(o.err) else None
  }
}
