/**
 * The tokens of the streaming draft (ast/tok.go) and what one call of
 * Tokenizer.Token computes, written as pure functions of the source text,
 * the cursor and the closer stack. The Tokenizer class in TokScanner is
 * proved to compute exactly these.
 *
 * Every classifier either passes (it leaves the state alone and the next
 * one is tried), emits a token (the panic with a token in ast/tok.go) or
 * fails (the panic with an error). The cursor of an error is always the
 * cursor the tokenizer stopped at.
 */
module TokGrammar {
  import opened Options

  const CommentStart := ";"
  const CharEscape := '\\'
  /** The number of characters previewFrom shows before it cuts with " ...". */
  const PreviewLimit := 32

  /** The byte tables of ast/tok.go; `IsByteIn` is the table lookup. */
  datatype ByteMap =
    | WhitespaceBytes
    | OperatorBytes
    | IdentStartBytes
    | IdentBytes
    | BinDigits
    | OctDigits
    | DecDigits
    | HexDigits

  predicate IsLetter(c: char) {
    'A' <= c <= 'Z' || 'a' <= c <= 'z'
  }

  predicate IsDecimal(c: char) {
    '0' <= c <= '9'
  }

  predicate IsByteIn(m: ByteMap, c: char) {
    match m
    case WhitespaceBytes => c == ' ' || c == '\n' || c == '\r' || c == '\t' || c == '\U{000B}'
    case OperatorBytes =>
      c in {'~', '!', '@', '#', '$', '%', '^', '&', '*', ':', '<', '>', '.', '?', '/', '\\', '|', '=', '+', '-'}
    case IdentStartBytes => IsLetter(c) || c == '_'
    case IdentBytes => IsLetter(c) || c == '_' || IsDecimal(c)
    case BinDigits => c == '0' || c == '1'
    case OctDigits => '0' <= c <= '7'
    case DecDigits => IsDecimal(c)
    // Lower-case letters only, as in byteMapDigitsHex.
    case HexDigits => IsDecimal(c) || 'a' <= c <= 'f'
  }

  /** The token types; the delimiters carry no text. */
  datatype Token =
    | Space(text: string)
    | Comment(text: string)
    | Number(text: string)
    | StringDouble(text: string)
    | StringGrave(text: string)
    | Ident(text: string)
    | Operator(text: string)
    | ParenOpen
    | ParenClose
    | BracketOpen
    | BracketClose
    | BraceOpen
    | BraceClose

  /** The `String` method of each token type. */
  function TokenString(t: Token): string {
    match t
    case Space(s) => s
    case Comment(s) => CommentStart + s
    case Number(s) => s
    case StringDouble(s) => "\"" + s + "\""
    case StringGrave(s) => "`" + s + "`"
    case Ident(s) => s
    case Operator(s) => s
    case ParenOpen => "("
    case ParenClose => ")"
    case BracketOpen => "["
    case BracketClose => "]"
    case BraceOpen => "{"
    case BraceClose => "}"
  }

  /** The cause of a tokenizer error, with the preview the message quotes. */
  datatype Cause =
    | EndOfInput                                  // io.EOF
    | FailedToParse(found: string)                // `failed to parse %q`
    | ExpectedDigit(digits: ByteMap, found: string) // `expected one of %q, found %q`
    | ExpectedEscaped                             // `expected escaped character after '\\', got EOF`
    | ExpectedClosing(quote: char)                // `expected closing %q, got EOF`
    | DigitAfterDot(found: string)                // `unexpected digit after dot: %q`
    | UnexpectedClosing(closer: char)             // `unexpected closing %q`

  /** Error: the cursor of the tokenizer when it failed, and the cause. */
  datatype Error = Error(cursor: nat, cause: Cause)

  /** What a classifier does: nothing, a token, or an error. */
  datatype Outcome = Pass | Emit(token: Token) | Fail(err: Error)

  /** A classifier's outcome and the cursor it leaves. */
  datatype Scan = Scan(out: Outcome, next: nat)

  /**
   * One call of Token: its outcome (never Pass), the cursor and closer stack
   * it leaves, and the base prefix it skipped before a number, which the
   * token's text does not hold.
   */
  datatype Step = Step(out: Outcome, next: nat, closers: seq<char>, prefix: string)

  /** The facts every classifier keeps. */
  predicate Scanned(src: string, c: nat, s: Scan) {
    && c <= s.next <= |src|
    && (s.out.Pass? ==> s.next == c)
    && (s.out.Emit? ==> c < s.next)
    && (s.out.Fail? ==> s.out.err.cursor == s.next && s.out.err.cause != EndOfInput)
  }

  predicate Next(src: string, c: nat, prefix: string) {
    c + |prefix| <= |src| && src[c..c + |prefix|] == prefix
  }

  predicate NextChar(src: string, c: nat, ch: char) {
    c < |src| && src[c] == ch
  }

  predicate NextIn(src: string, c: nat, m: ByteMap) {
    c < |src| && IsByteIn(m, src[c])
  }

  /** A two-character prefix, character by character. */
  lemma NextTwo(src: string, c: nat, prefix: string)
    requires |prefix| == 2
    ensures Next(src, c, prefix) <==> c + 2 <= |src| && src[c] == prefix[0] && src[c + 1] == prefix[1]
  {
    if c + 2 <= |src| {
      assert src[c..c + 2] == [src[c], src[c + 1]];
      assert prefix == [prefix[0], prefix[1]];
    }
  }

  /** A one-character prefix is the character. */
  lemma NextOne(src: string, c: nat, prefix: string)
    requires |prefix| == 1
    ensures Next(src, c, prefix) <==> NextChar(src, c, prefix[0])
  {
    if c < |src| {
      assert src[c..c + 1] == [src[c]];
      assert prefix == [prefix[0]];
    }
  }

  /** The end of the longest run of `m` characters starting at `i`. */
  function RunEnd(src: string, i: nat, m: ByteMap): (j: nat)
    requires i <= |src|
    decreases |src| - i
    ensures i <= j <= |src|
    ensures !NextIn(src, j, m)
  {
    if NextIn(src, i, m) then RunEnd(src, i + 1, m) else i
  }

  // ----- previews -----

  /**
   * previewFrom as written: the cut is decided by what is left after the
   * cursor `c`, but the text shown starts at `start`. It is the intended
   * preview when `start` is the cursor; otherwise the uncut text can run
   * `c - start` characters past the limit.
   */
  function PreviewFromAsWritten(src: string, c: nat, start: nat): (r: string)
    requires start <= c <= |src|
    ensures c == start ==> r == PreviewFrom(src, start)
    ensures |r| <= c - start + PreviewLimit + 4
    ensures r == src[start..] || (|src| - c > PreviewLimit && r == src[start..start + PreviewLimit] + " ...")
  {
    if |src| - c > PreviewLimit then src[start..start + PreviewLimit] + " ..." else src[start..]
  }

  /** previewFrom as intended: at most PreviewLimit characters from `start`, then " ...". */
  function PreviewFrom(src: string, start: nat): (r: string)
    requires start <= |src|
    ensures |src| - start > PreviewLimit ==> r == src[start..start + PreviewLimit] + " ..."
    ensures |src| - start <= PreviewLimit ==> r == src[start..]
  {
    if |src| - start > PreviewLimit then src[start..start + PreviewLimit] + " ..." else src[start..]
  }

  /** preview: previewFrom at the cursor, where as written and as intended agree. */
  function Preview(src: string, c: nat): (r: string)
    requires c <= |src|
    ensures |r| <= PreviewLimit + 4
    ensures r == src[c..] || (|src| - c > PreviewLimit && r == src[c..c + PreviewLimit] + " ...")
  {
    PreviewFromAsWritten(src, c, c)
  }

  // ----- classifiers -----

  /** maybeSpace. */
  function SpaceAt(src: string, c: nat): (s: Scan)
    requires c <= |src|
    ensures Scanned(src, c, s) && !s.out.Fail?
    ensures s.out.Emit? <==> NextIn(src, c, WhitespaceBytes)
    ensures s.out.Emit? ==> s.out.token == Space(src[c..(s.next)])
  {
    var j := RunEnd(src, c, WhitespaceBytes);
    if j == c then Scan(Pass, c) else Scan(Emit(Space(src[c..j])), j)
  }

  /**
   * The loop of maybeComment from `i`: the cursor after the first line break
   * (`\r\n` taken whole, before `\n` and `\r`), or end of input.
   */
  function CommentEnd(src: string, i: nat): (e: nat)
    requires i <= |src|
    decreases |src| - i
    ensures i <= e <= |src|
  {
    if i == |src| then i
    else if Next(src, i, "\r\n") then i + 2
    else if src[i] == '\n' || src[i] == '\r' then i + 1
    else CommentEnd(src, i + 1)
  }

  /** maybeComment: the token holds what follows `;`, its line break included. */
  function CommentAt(src: string, c: nat): (s: Scan)
    requires c <= |src|
    ensures Scanned(src, c, s) && !s.out.Fail?
    ensures s.out.Emit? <==> Next(src, c, CommentStart)
    ensures s.out.Emit? ==> s.out.token == Comment(src[c + 1..(s.next)])
  {
    if !Next(src, c, CommentStart) then Scan(Pass, c)
    else
      var e := CommentEnd(src, c + 1);
      Scan(Emit(Comment(src[c + 1..e])), e)
  }

  function DigitError(src: string, at: nat, m: ByteMap): (s: Scan)
    requires at <= |src|
  {
    Scan(Fail(Error(at, ExpectedDigit(m, Preview(src, at)))), at)
  }

  /**
   * numberWith from `start`: at least one `m` digit; a run that stops at an
   * identifier character is an error, one that stops at `.` goes on to the
   * fraction, one that reaches end of input falls into the fraction check and
   * fails there.
   */
  function NumberAt(src: string, start: nat, m: ByteMap): (s: Scan)
    requires start <= |src|
    ensures Scanned(src, start, s) && !s.out.Pass?
    ensures s.out.Emit? ==> s.out.token == Number(src[start..(s.next)])
    ensures s.out.Emit? ==> s.next < |src| || '.' in src[start..(s.next)]
  {
    if !NextIn(src, start, m) then DigitError(src, start, m)
    else
      var j := RunEnd(src, start, m);
      if j == |src| then FractionAt(src, start, j, m)
      else if NextIn(src, j, IdentBytes) then DigitError(src, j, m)
      else if src[j] == '.' then FractionAt(src, start, j + 1, m)
      else Scan(Emit(Number(src[start..j])), j)
  }

  /** The `fraction:` part of numberWith, entered with the cursor at `i`. */
  function FractionAt(src: string, start: nat, i: nat, m: ByteMap): (s: Scan)
    requires start < i <= |src|
    ensures Scanned(src, start, s) && !s.out.Pass?
    ensures s.out.Emit? ==> s.out.token == Number(src[start..(s.next)]) && i < s.next
  {
    if !NextIn(src, i, m) then DigitError(src, i, m)
    else
      var k := RunEnd(src, i, m);
      if NextIn(src, k, IdentBytes) then DigitError(src, k, m)
      else Scan(Emit(Number(src[start..k])), k)
  }

  /** The error an unterminated string reports, as written: it always names the grave quote. */
  function UnterminatedAsWritten(closer: char): Cause {
    ExpectedClosing('`')
  }

  /** The error an unterminated string reports, as intended: it names its own closer. */
  function Unterminated(closer: char): (r: Cause)
    ensures r.ExpectedClosing? && r.quote == closer
  {
    ExpectedClosing(closer)
  }

  /** What maybeStringBetween returns: no opener, the raw content, or an error. */
  datatype Quoted = NoOpener | Quoted(text: string) | QuoteError(err: Error)

  datatype Between = Between(q: Quoted, next: nat)

  /**
   * The loop of maybeStringBetween from `i`, the content starting at `start`.
   * With escapes on, a backslash takes the next character with it.
   */
  function StringBody(src: string, start: nat, i: nat, closer: char, escapes: bool): (b: Between)
    requires start <= i <= |src|
    decreases |src| - i
    ensures i <= b.next <= |src|
  {
    if i == |src| then Between(QuoteError(Error(|src|, UnterminatedAsWritten(closer))), |src|)
    else if src[i] == closer then Between(Quoted(src[start..i]), i + 1)
    else if escapes && src[i] == CharEscape then
      if i + 1 == |src| then Between(QuoteError(Error(i + 1, ExpectedEscaped)), i + 1)
      else StringBody(src, start, i + 2, closer, escapes)
    else StringBody(src, start, i + 1, closer, escapes)
  }

  /**
   * The string loop either stops just after a closer, with the content up to
   * it, or fails at end of input; it never reports end of input itself.
   */
  lemma {:induction false} StringBodyShape(src: string, start: nat, i: nat, closer: char, escapes: bool)
    requires start <= i <= |src|
    decreases |src| - i
    ensures var b := StringBody(src, start, i, closer, escapes);
      && (i < b.next || b.next == i == |src|)
      && !b.q.NoOpener?
      && (b.q.Quoted? ==> b.next > start && b.q.text == src[start..b.next - 1] && src[b.next - 1] == closer)
      && (b.q.QuoteError? ==> b.next == |src| == b.q.err.cursor && b.q.err.cause != EndOfInput)
  {
    if i == |src| || src[i] == closer {
    } else if escapes && src[i] == CharEscape {
      if i + 1 < |src| {
        StringBodyShape(src, start, i + 2, closer, escapes);
      }
    } else {
      StringBodyShape(src, start, i + 1, closer, escapes);
    }
  }

  /** A closer ends the string loop. */
  lemma StringBodyClose(src: string, start: nat, i: nat, closer: char, escapes: bool)
    requires start <= i < |src| && src[i] == closer
    ensures StringBody(src, start, i, closer, escapes) == Between(Quoted(src[start..i]), i + 1)
  {
  }

  /** maybeStringBetween. */
  function StringBetween(src: string, c: nat, opener: char, closer: char, escapes: bool): (b: Between)
    requires c <= |src|
    ensures c <= b.next <= |src|
    ensures b.q.NoOpener? <==> !NextChar(src, c, opener)
    ensures b.q.NoOpener? ==> b.next == c
    ensures b.q.Quoted? ==> c + 2 <= b.next && b.q.text == src[c + 1..(b.next - 1)] && src[b.next - 1] == closer
    ensures b.q.QuoteError? ==> b.next == |src| == b.q.err.cursor && b.q.err.cause != EndOfInput
  {
    if !NextChar(src, c, opener) then Between(NoOpener, c)
    else
      StringBodyShape(src, c + 1, c + 1, closer, escapes);
      StringBody(src, c + 1, c + 1, closer, escapes)
  }

  /** maybeString: a double-quoted string with escapes, then a raw grave string. */
  function StringAt(src: string, c: nat): (s: Scan)
    requires c <= |src|
    ensures Scanned(src, c, s)
    ensures s.out.Emit? ==> s.out.token.StringDouble? || s.out.token.StringGrave?
    ensures s.out.Emit? ==> src[c..(s.next)] == TokenString(s.out.token)
  {
    var d := StringBetween(src, c, '"', '"', true);
    match d.q
    case Quoted(t) => QuotedText(src, c, d.next, '"'); Scan(Emit(StringDouble(t)), d.next)
    case QuoteError(e) => Scan(Fail(e), d.next)
    case NoOpener =>
      var g := StringBetween(src, c, '`', '`', false);
      match g.q
      case Quoted(t) => QuotedText(src, c, g.next, '`'); Scan(Emit(StringGrave(t)), g.next)
      case QuoteError(e) => Scan(Fail(e), g.next)
      case NoOpener => Scan(Pass, c)
  }

  lemma QuotedText(src: string, c: nat, e: nat, q: char)
    requires c + 2 <= e <= |src| && src[c] == q && src[e - 1] == q
    ensures src[c..e] == [q] + src[c + 1..e - 1] + [q]
  {
  }

  /**
   * maybeOperator: the longest run of operator characters; one that ends in
   * `.` right before a decimal digit is an error.
   */
  function OperatorAt(src: string, c: nat): (s: Scan)
    requires c <= |src|
    ensures Scanned(src, c, s)
    ensures s.out.Pass? <==> !NextIn(src, c, OperatorBytes)
    ensures s.out.Emit? ==> s.out.token == Operator(src[c..(s.next)])
  {
    var j := RunEnd(src, c, OperatorBytes);
    if j == c then Scan(Pass, c)
    else if src[j - 1] == '.' && NextIn(src, j, DecDigits) then
      Scan(Fail(Error(j, DigitAfterDot(PreviewFromAsWritten(src, j, c)))), j)
    else Scan(Emit(Operator(src[c..j])), j)
  }

  /** maybeIdent. */
  function IdentAt(src: string, c: nat): (s: Scan)
    requires c <= |src|
    ensures Scanned(src, c, s) && !s.out.Fail?
    ensures s.out.Emit? <==> NextIn(src, c, IdentStartBytes)
    ensures s.out.Emit? ==> s.out.token == Ident(src[c..(s.next)])
  {
    if !NextIn(src, c, IdentStartBytes) then Scan(Pass, c)
    else
      var j := RunEnd(src, c + 1, IdentBytes);
      Scan(Emit(Ident(src[c..j])), j)
  }

  /** popCloser's test: the closer stack is not empty and `closer` is on top. */
  predicate OnTop(closers: seq<char>, closer: char) {
    closers != [] && closers[|closers| - 1] == closer
  }

  /**
   * maybeDelims: an opener pushes its closer; a closer must be the top of the
   * stack, which it pops, and is an error otherwise.
   */
  function DelimsAt(src: string, c: nat, closers: seq<char>, opener: char, closer: char, open: Token, close: Token): (t: Step)
    requires c <= |src|
    ensures t.prefix == ""
    ensures t.out.Pass? ==> t.next == c && t.closers == closers
    ensures t.out.Emit? ==> t.next == c + 1
    ensures t.out.Fail? ==> t.next == c == t.out.err.cursor && t.closers == closers
    ensures t.out.Fail? ==> t.out.err.cause == UnexpectedClosing(closer)
  {
    if NextChar(src, c, opener) then Step(Emit(open), c + 1, closers + [closer], "")
    else if NextChar(src, c, closer) then
      if OnTop(closers, closer) then Step(Emit(close), c + 1, closers[..|closers| - 1], "")
      else Step(Fail(Error(c, UnexpectedClosing(closer))), c, closers, "")
    else Step(Pass, c, closers, "")
  }

  /** maybeParens, maybeBrackets and maybeBraces, in this order. */
  function AnyDelimAt(src: string, c: nat, closers: seq<char>): (t: Step)
    requires c <= |src|
    ensures t.prefix == ""
    ensures t.out.Pass? ==> t.next == c && t.closers == closers
    ensures t.out.Emit? ==> t.next == c + 1
    ensures t.out.Fail? ==> t.next == c == t.out.err.cursor && t.closers == closers
    ensures t.out.Fail? ==> t.out.err.cause.UnexpectedClosing?
  {
    var p := DelimsAt(src, c, closers, '(', ')', ParenOpen, ParenClose);
    if !p.out.Pass? then p
    else
      var b := DelimsAt(src, c, closers, '[', ']', BracketOpen, BracketClose);
      if !b.out.Pass? then b
      else DelimsAt(src, c, closers, '{', '}', BraceOpen, BraceClose)
  }

  /** maybeNumber: `0b`, `0o`, `0h`, then a decimal digit. The prefix is skipped before the digits. */
  function NumberStep(src: string, c: nat): (t: Step)
    requires c <= |src|
    ensures t.out.Pass? <==> !Next(src, c, "0b") && !Next(src, c, "0o") && !Next(src, c, "0h") && !NextIn(src, c, DecDigits)
    ensures t.out.Pass? ==> t.next == c && t.prefix == ""
    ensures !t.out.Pass? ==> Next(src, c, t.prefix) && Scanned(src, c + |t.prefix|, Scan(t.out, t.next))
    ensures t.out.Emit? ==> t.out.token == Number(src[c + |t.prefix|..(t.next)])
    ensures t.prefix in {"", "0b", "0o", "0h"}
  {
    if Next(src, c, "0b") then Prefixed(NumberAt(src, c + 2, BinDigits), "0b")
    else if Next(src, c, "0o") then Prefixed(NumberAt(src, c + 2, OctDigits), "0o")
    else if Next(src, c, "0h") then Prefixed(NumberAt(src, c + 2, HexDigits), "0h")
    else if NextIn(src, c, DecDigits) then Prefixed(NumberAt(src, c, DecDigits), "")
    else Step(Pass, c, [], "")
  }

  function Prefixed(s: Scan, prefix: string): Step {
    Step(s.out, s.next, [], prefix)
  }

  /** A classifier's scan as a step of Token, with the closer stack untouched. */
  function Plain(s: Scan, closers: seq<char>): Step {
    Step(s.out, s.next, closers, "")
  }

  /** The facts every call of Token keeps. */
  predicate Stepped(src: string, c: nat, closers: seq<char>, t: Step) {
    && c <= t.next <= |src|
    && !t.out.Pass?
    && (t.out.Emit? ==> c < t.next)
    && (t.out.Fail? ==> t.out.err.cursor == t.next)
    && (t.out.Fail? && t.out.err.cause == EndOfInput <==> c == |src|)
    && (t.out.Fail? ==> t.closers == closers)
  }

  /**
   * Token: whitespace, comment, number, string, operator, identifier, then
   * parens, brackets and braces; the first classifier that does not pass
   * decides. With none left, a character that starts no token is an error
   * and end of input is io.EOF.
   */
  function TokenAt(src: string, c: nat, closers: seq<char>): (t: Step)
    requires c <= |src|
    ensures Stepped(src, c, closers, t)
  {
    var sp := SpaceAt(src, c);
    if !sp.out.Pass? then Plain(sp, closers)
    else
      var cm := CommentAt(src, c);
      if !cm.out.Pass? then Plain(cm, closers)
      else
        var nm := NumberStep(src, c);
        if !nm.out.Pass? then nm.(closers := closers)
        else AfterNumber(src, c, closers)
  }

  /** Token after the whitespace, comment and number classifiers passed. */
  function AfterNumber(src: string, c: nat, closers: seq<char>): (t: Step)
    requires c <= |src|
    ensures Stepped(src, c, closers, t)
  {
    var st := StringAt(src, c);
    if !st.out.Pass? then Plain(st, closers)
    else
      var op := OperatorAt(src, c);
      if !op.out.Pass? then Plain(op, closers)
      else
        var id := IdentAt(src, c);
        if !id.out.Pass? then Plain(id, closers)
        else
          var dl := AnyDelimAt(src, c, closers);
          if !dl.out.Pass? then dl
          else if c < |src| then Step(Fail(Error(c, FailedToParse(Preview(src, c)))), c, closers, "")
          else Step(Fail(Error(c, EndOfInput)), c, closers, "")
  }
}
