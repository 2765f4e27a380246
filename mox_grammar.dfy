/**
 * What each `Pop*` method of the current draft's Parser (ast.go) computes,
 * written as pure functions of the source text and the cursor. The Parser
 * class in MoxParser is proved to compute exactly these.
 *
 * Every result carries the cursor the parser stops at (`next`) and, for a
 * successful step, `open`: how many blocks end of input closed without a
 * `)` (PopBlock returns its children without an error when the input runs
 * out). A failed step carries the error, whose cursor is always `next`.
 */
module MoxGrammar {
  import opened Options
  import opened MoxNodes

  /** The kind of a parse error; the message text of ast.go is not modelled. */
  datatype Cause =
    | EndOfInput                      // io.EOF, wrapped
    | Unexpected                      // `unexpected %q`
    | ExpectedWhitespace
    | ExpectedOpening(opening: string)
    | ExpectedCommentClose            // `expected closing "}}", found unexpected EOF`
    | ExpectedDigit(digits: CharMap)  // `expected one of %q`
    | ExpectedIdentifierStart
    | ExpectedOperator
    | EmptyString(quote: char)        // `expected character, found unexpected closing`
    | UnterminatedString(quote: char) // `expected character or closing %q, found EOF`

  /** Error: the cursor of the parser when it failed, and the cause. */
  datatype Error = Error(cursor: nat, cause: Cause)

  /** The outcome of one `Pop*` call. */
  datatype Popped = Popped(node: Node, err: Option<Error>, next: nat, open: nat)

  /** The outcome of a loop collecting nodes (PopNodes, the loop of PopBlock). */
  datatype PoppedMany = PoppedMany(nodes: seq<Node>, err: Option<Error>, next: nat, open: nat)

  /** The facts every `Pop*` step keeps, which make the parsing loops terminate. */
  predicate Step(src: string, c: nat, p: Popped) {
    && c <= p.next <= |src|
    && (p.err.None? ==> p.next > c && p.node != Nil)
    && (p.err.Some? ==> p.err.value.cursor == p.next && p.open == 0)
    && (p.open > 0 ==> p.next == |src|)
    && (p.err.Some? && p.err.value.cause == EndOfInput ==> c == |src|)
  }

  predicate Next(src: string, c: nat, prefix: string) {
    c + |prefix| <= |src| && src[c..c + |prefix|] == prefix
  }

  /** A two-character prefix, character by character. */
  lemma NextTwo(src: string, c: nat, prefix: string)
    requires |prefix| == 2
    ensures Next(src, c, prefix) <==> c + 2 <= |src| && src[c] == prefix[0] && src[c + 1] == prefix[1]
  {
    if c + 2 <= |src| {
      assert src[c..c + 2] == [src[c], src[c + 1]];
      assert prefix == [prefix[0], prefix[1]];
    }
  }

  /** A one-character prefix is the character. */
  lemma NextOne(src: string, c: nat, prefix: string)
    requires |prefix| == 1
    ensures Next(src, c, prefix) <==> c < |src| && src[c] == prefix[0]
  {
    if c < |src| {
      assert src[c..c + 1] == [src[c]];
      assert prefix == [prefix[0]];
    }
  }

  predicate NextChar(src: string, c: nat, ch: char) {
    c < |src| && src[c] == ch
  }

  predicate NextCharIn(src: string, c: nat, m: CharMap) {
    c < |src| && IsCharIn(m, src[c])
  }

  /** The end of the longest run of `m` characters starting at `i`. */
  function RunEnd(src: string, i: nat, m: CharMap): (j: nat)
    requires i <= |src|
    decreases |src| - i
    ensures i <= j <= |src|
    ensures forall k :: i <= k < j ==> IsCharIn(m, src[k])
    ensures !NextCharIn(src, j, m)
  {
    if NextCharIn(src, i, m) then RunEnd(src, i + 1, m) else i
  }

  function Fail(node: Node, at: nat, cause: Cause): Popped {
    Popped(node, Some(Error(at, cause)), at, 0)
  }

  /** PopWhitespace. */
  function WhitespaceAt(src: string, c: nat): (p: Popped)
    requires c <= |src|
    ensures Step(src, c, p)
    ensures p.err.None? <==> NextCharIn(src, c, WhitespaceMap)
    ensures p.err.None? ==> p.node == Whitespace(src[c..(p.next)])
    ensures p.err.None? ==> NodeText(p.node) == src[c..(p.next)]
  {
    var j := RunEnd(src, c, WhitespaceMap);
    if j == c then Fail(Whitespace(""), c, ExpectedWhitespace)
    else Popped(Whitespace(src[c..j]), None, j, 0)
  }

  /**
   * The loop of PopComment from cursor `i` with `levels` open comments: the
   * index of the `}}` that closes the outermost one, if the input has it.
   */
  function CommentClose(src: string, i: nat, levels: nat): (r: Option<nat>)
    requires i <= |src| && levels >= 1
    decreases |src| - i
    ensures r.Some? ==> i <= r.value && Next(src, r.value, CommentEnd)
  {
    if i == |src| then None
    else if Next(src, i, CommentStart) then CommentClose(src, i + 2, levels + 1)
    else if Next(src, i, CommentEnd) && levels == 1 then Some(i)
    else if Next(src, i, CommentEnd) then CommentClose(src, i + 1, levels - 1)
    else CommentClose(src, i + 1, levels)
  }

  /** PopComment. */
  function CommentAt(src: string, c: nat): (p: Popped)
    requires c <= |src|
    ensures Step(src, c, p)
    ensures p.err.None? ==> c + 4 <= p.next && p.node == Comment(src[c + 2..(p.next - 2)])
    ensures p.err.None? ==> NodeText(p.node) == src[c..(p.next)]
  {
    if !Next(src, c, CommentStart) then Fail(Comment(""), c, ExpectedOpening(CommentStart))
    else match CommentClose(src, c + 2, 1)
      case None => Fail(Comment(""), |src|, ExpectedCommentClose)
      case Some(e) =>
        assert src[c..e + 2] == src[c..c + 2] + src[c + 2..e] + src[e..e + 2];
        Popped(Comment(src[c + 2..e]), None, e + 2, 0)
  }

  /**
   * popFloat: at least one `m` digit, then, if the run stops at `.`, at least
   * one more `m` digit; a run followed by an identifier character is an error.
   */
  function FloatAt(src: string, c: nat, m: CharMap): (p: Popped)
    requires c <= |src|
    ensures Step(src, c, p)
    ensures p.err.None? ==> p.node == Number(src[c..(p.next)])
    ensures p.err.None? ==> IsCharIn(m, src[c]) && !NextCharIn(src, p.next, IdentifierMap)
  {
    if !NextCharIn(src, c, m) then Fail(Number(""), c, ExpectedDigit(m))
    else FloatEnd(src, c, RunEnd(src, c, m), m)
  }

  /** popFloat after its integer digits, which run from `c` to `j`. */
  function FloatEnd(src: string, c: nat, j: nat, m: CharMap): (p: Popped)
    requires c < j <= |src|
    ensures Step(src, c, p)
    ensures p.err.None? ==> p.node == Number(src[c..(p.next)])
    ensures p.err.None? ==> !NextCharIn(src, p.next, IdentifierMap)
  {
    if j == |src| then Popped(Number(src[c..j]), None, j, 0)
    else if IsCharIn(IdentifierMap, src[j]) then Fail(Number(""), j, ExpectedDigit(m))
    else if src[j] == '.' then FractionAt(src, c, j + 1, m)
    else Popped(Number(src[c..j]), None, j, 0)
  }

  /** The `fraction:` part of popFloat, for a number that started at `c`. */
  function FractionAt(src: string, c: nat, f: nat, m: CharMap): (p: Popped)
    requires c < f <= |src|
    ensures Step(src, c, p)
    ensures p.err.None? ==> p.node == Number(src[c..(p.next)])
    ensures p.err.None? ==> !NextCharIn(src, p.next, IdentifierMap)
  {
    if !NextCharIn(src, f, m) then Fail(Number(""), f, ExpectedDigit(m))
    else
      var k := RunEnd(src, f, m);
      if NextCharIn(src, k, IdentifierMap) then Fail(Number(""), k, ExpectedDigit(m))
      else Popped(Number(src[c..k]), None, k, 0)
  }

  /** popFloatWithPrefix: the prefix is part of the node's text. */
  function FloatWithPrefixAt(src: string, c: nat, prefix: string, m: CharMap): (p: Popped)
    requires c <= |src| && |prefix| > 0
    ensures Step(src, c, p)
    ensures p.err.None? ==> p.node == Number(src[c..(p.next)])
    ensures p.err.None? ==> Next(src, c, prefix) && !NextCharIn(src, p.next, IdentifierMap)
  {
    if !Next(src, c, prefix) then Fail(Number(""), c, ExpectedOpening(prefix))
    else
      var q := FloatAt(src, c + |prefix|, m);
      if q.err.Some? then Popped(Number(""), q.err, q.next, 0)
      else
        assert src[c..q.next] == prefix + src[c + |prefix|..q.next];
        Popped(Number(prefix + q.node.text), None, q.next, 0)
  }

  /** PopIdentifier. */
  function IdentifierAt(src: string, c: nat): (p: Popped)
    requires c <= |src|
    ensures Step(src, c, p)
    ensures p.err.None? <==> NextCharIn(src, c, IdentifierStartMap)
    ensures p.err.None? ==> p.node == Identifier(src[c..(p.next)])
    ensures p.err.None? ==> forall k :: c < k < p.next ==> IsCharIn(IdentifierMap, src[k])
    ensures p.err.None? ==> !NextCharIn(src, p.next, IdentifierMap)
  {
    if !NextCharIn(src, c, IdentifierStartMap) then Fail(Identifier(""), c, ExpectedIdentifierStart)
    else
      var j := RunEnd(src, c + 1, IdentifierMap);
      Popped(Identifier(src[c..j]), None, j, 0)
  }

  /** PopOperator. */
  function OperatorAt(src: string, c: nat): (p: Popped)
    requires c <= |src|
    ensures Step(src, c, p)
    ensures p.err.None? <==> NextCharIn(src, c, OperatorMap)
    ensures p.err.None? ==> p.node == Operator(src[c..(p.next)])
    ensures p.err.None? ==> forall k :: c <= k < p.next ==> IsCharIn(OperatorMap, src[k])
    ensures p.err.None? ==> !NextCharIn(src, p.next, OperatorMap)
  {
    if !NextCharIn(src, c, OperatorMap) then Fail(Operator(""), c, ExpectedOperator)
    else
      var j := RunEnd(src, c, OperatorMap);
      Popped(Operator(src[c..j]), None, j, 0)
  }

  /** The first index at or after `i` holding `q`, if any. */
  function Find(src: string, i: nat, q: char): (r: Option<nat>)
    requires i <= |src|
    decreases |src| - i
    ensures r.Some? ==> i <= r.value < |src| && src[r.value] == q
    ensures r.Some? ==> forall k :: i <= k < r.value ==> src[k] != q
    ensures r.None? ==> forall k :: i <= k < |src| ==> src[k] != q
  {
    if i == |src| then None
    else if src[i] == q then Some(i)
    else Find(src, i + 1, q)
  }

  /** The result of popStringBetween: the contents, an error, and where it stopped. */
  datatype Between = Between(text: string, err: Option<Error>, next: nat)

  /** popStringBetween, with the same character as opening and closing quote. */
  function StringBetweenAt(src: string, c: nat, q: char): (b: Between)
    requires c <= |src|
    ensures c <= b.next <= |src|
    ensures b.err.Some? ==> b.text == "" && b.err.value.cursor == b.next
    ensures b.err.None? ==> c + 2 < b.next && b.text == src[c + 1..(b.next - 1)]
    ensures b.err.None? ==> src[c] == q && src[b.next - 1] == q && q !in b.text
  {
    if !NextChar(src, c, q) then Between("", Some(Error(c, ExpectedOpening([q]))), c)
    else match Find(src, c + 1, q)
      case None => Between("", Some(Error(|src|, UnterminatedString(q))), |src|)
      case Some(e) =>
        if e == c + 1 then Between("", Some(Error(e, EmptyString(q))), e)
        else Between(src[c + 1..e], None, e + 1)
  }

  /** PopStringDouble, and PopStringGrave when `double` is false. */
  function StringAt(src: string, c: nat, double: bool): (p: Popped)
    requires c <= |src|
    ensures Step(src, c, p)
    ensures p.err.None? ==> NodeText(p.node) == src[c..(p.next)]
  {
    var b := StringBetweenAt(src, c, if double then '"' else '`');
    Popped(if double then StringDouble(b.text) else StringGrave(b.text), b.err, b.next, 0)
  }

  /**
   * The four number cases of PopNode, in their order there: each of them
   * starts with a decimal digit, and no earlier case does.
   */
  function NumberAt(src: string, c: nat): (p: Popped)
    requires c < |src| && IsDecimalDigit(src[c])
    ensures Step(src, c, p)
    ensures p.err.None? ==> p.node == Number(src[c..(p.next)]) && !NextCharIn(src, p.next, IdentifierMap)
  {
    if Next(src, c, "0b") then FloatWithPrefixAt(src, c, "0b", BinaryMap)
    else if Next(src, c, "0o") then FloatWithPrefixAt(src, c, "0o", OctalMap)
    else if Next(src, c, "0x") then FloatWithPrefixAt(src, c, "0x", HexadecimalMap)
    else FloatAt(src, c, DecimalMap)
  }

  /** PopNode: the dispatch, in the order of the source. */
  function NodeAt(src: string, c: nat): (p: Popped)
    requires c <= |src|
    decreases |src| - c, 2
    ensures Step(src, c, p)
    ensures p.err.None? && !p.node.Block? ==> NodeText(p.node) == src[c..(p.next)]
    ensures p.err.None? && IsWord(p.node) ==>
      IsCharIn(IdentifierMap, src[c]) && !NextCharIn(src, p.next, IdentifierMap)
    ensures p.node.Block? ==> Next(src, c, BlockStart) && p == BlockAt(src, c)
  {
    if c == |src| then Fail(Nil, c, EndOfInput)
    else if NextCharIn(src, c, WhitespaceMap) then WhitespaceAt(src, c)
    else if Next(src, c, CommentStart) then CommentAt(src, c)
    else if NextCharIn(src, c, DecimalMap) then NumberAt(src, c)
    else if NextCharIn(src, c, IdentifierStartMap) then IdentifierAt(src, c)
    else if NextCharIn(src, c, OperatorMap) then OperatorAt(src, c)
    else if NextChar(src, c, '"') then StringAt(src, c, true)
    else if NextChar(src, c, '`') then StringAt(src, c, false)
    else if Next(src, c, BlockStart) then BlockAt(src, c)
    else Fail(Nil, c, Unexpected)
  }

  /** PopBlock: on a child's error the block collected so far comes with it. */
  function BlockAt(src: string, c: nat): (p: Popped)
    requires c <= |src|
    decreases |src| - c, 1
    ensures Step(src, c, p)
  {
    if !Next(src, c, BlockStart) then Fail(Nil, c, ExpectedOpening(BlockStart))
    else
      var ch := ChildrenAt(src, c + 1);
      Popped(Block(ch.nodes), ch.err, ch.next, ch.open)
  }

  /**
   * The loop of PopBlock from cursor `i`: children up to the `)` that closes
   * the block (then `open` is the children's own), or up to end of input
   * (then the block itself is one more open block).
   */
  function ChildrenAt(src: string, i: nat): (r: PoppedMany)
    requires i <= |src|
    decreases |src| - i, 3
    ensures i <= r.next <= |src|
    ensures r.err.Some? ==> r.err.value.cursor == r.next && r.open == 0
    ensures r.err.Some? ==> r.err.value.cause != EndOfInput
    ensures r.open > 0 ==> r.err.None? && r.next == |src|
    ensures r.err.None? && r.open == 0 ==> r.next > i
  {
    if i == |src| then PoppedMany([], None, i, 1)
    else if Next(src, i, BlockEnd) then PoppedMany([], None, i + 1, 0)
    else
      var p := NodeAt(src, i);
      if p.err.Some? then PoppedMany([], p.err, p.next, 0)
      else
        var rest := ChildrenAt(src, p.next);
        PoppedMany([p.node] + rest.nodes, rest.err, rest.next, p.open + rest.open)
  }

  /**
   * PopNodes from cursor `i`: nodes up to end of input, or up to the first
   * error, which comes with the nodes parsed before it.
   */
  function NodesAt(src: string, i: nat): (r: PoppedMany)
    requires i <= |src|
    decreases |src| - i
    ensures i <= r.next <= |src|
    ensures r.err.Some? ==> r.err.value.cursor == r.next && r.open == 0
    ensures r.err.Some? ==> r.err.value.cause != EndOfInput
    ensures r.err.None? ==> r.next == |src|
  {
    if i == |src| then PoppedMany([], None, i, 0)
    else
      var p := NodeAt(src, i);
      // errors.Is(err, io.EOF) ends the loop without an error.
      if p.err.Some? then PoppedMany([], if p.err.value.cause == EndOfInput then None else p.err, p.next, 0)
      else
        var rest := NodesAt(src, p.next);
        PoppedMany([p.node] + rest.nodes, rest.err, rest.next, p.open + rest.open)
  }

  /**
   * Parse: the nodes of the whole input, or those before the first error.
   * An error is reported at the cursor where parsing stopped, and io.EOF is
   * never one.
   */
  function ParseSource(src: string): (r: PoppedMany)
    ensures r.next <= |src|
    ensures r.err.None? ==> r.next == |src|
    ensures r.err.Some? ==> r.err.value.cursor == r.next && r.open == 0 && r.err.value.cause != EndOfInput
  {
    NodesAt(src, 0)
  }
}
