/**
 * The Parser of the current draft (ast.go): a source text and a cursor that
 * the `Pop*` methods advance. Each method is proved to compute the function
 * of MoxGrammar that describes it; the internal `mustHaveAdvanced` panics
 * become assertions that the verifier discharges.
 */
module MoxParser {
  import opened Options
  import opened MoxNodes
  import opened MoxGrammar

  class Parser {
    const Source: string
    var Cursor: nat

    constructor (source: string)
      ensures Source == source && Cursor == 0
    {
      Source := source;
      Cursor := 0;
    }

    predicate Valid()
      reads this
    {
      Cursor <= |Source|
    }

    predicate More()
      reads this
    {
      Cursor < |Source|
    }

    /** The text from `start` to the cursor, empty when `start` is not before it. */
    function From(start: nat): string
      reads this
      requires Valid()
    {
      if start < Cursor then Source[start..Cursor] else ""
    }

    /** Skips `str`, which the caller has just seen at the cursor. */
    method Advance(str: string)
      requires Valid() && Next(Source, Cursor, str)
      modifies this
      ensures Valid() && Cursor == old(Cursor) + |str|
    {
      Cursor := Cursor + |str|;
    }

    /** Skips one character; at end of input there is none, and the cursor stays. */
    method AdvanceNextChar()
      requires Valid()
      modifies this
      ensures Valid() && Cursor == if old(Cursor) < |Source| then old(Cursor) + 1 else old(Cursor)
    {
      if Cursor < |Source| {
        Cursor := Cursor + 1;
      }
    }

    method PopNodes() returns (nodes: seq<Node>, err: Option<Error>)
      requires Valid()
      modifies this
      ensures Valid()
      ensures var r := NodesAt(Source, old(Cursor)); nodes == r.nodes && err == r.err && Cursor == r.next
    {
      ghost var whole := NodesAt(Source, Cursor);
      nodes := [];
      while More()
        invariant Valid()
        invariant nodes + NodesAt(Source, Cursor).nodes == whole.nodes
        invariant NodesAt(Source, Cursor).err == whole.err && NodesAt(Source, Cursor).next == whole.next
        decreases |Source| - Cursor
      {
        ghost var before := Cursor;
        var node, e := PopNode();
        if e.Some? && e.value.cause == EndOfInput {
          break;
        }
        if e.Some? {
          return nodes, e;
        }
        assert Cursor > before; // mustHaveAdvanced
        NodesAtCons(Source, before);
        nodes := nodes + [node];
      }
      return nodes, None;
    }

    method PopNode() returns (node: Node, err: Option<Error>)
      requires Valid()
      modifies this
      decreases |Source| - Cursor, 2
      ensures Valid()
      ensures var p := NodeAt(Source, old(Cursor)); node == p.node && err == p.err && Cursor == p.next
    {
      if !More() {
        return Nil, Some(Error(Cursor, EndOfInput));
      }
      ghost var start := Cursor;
      if NextCharIn(Source, Cursor, WhitespaceMap) {
        node, err := PopWhitespace();
      } else if Next(Source, Cursor, CommentStart) {
        node, err := PopComment();
      } else if NextCharIn(Source, Cursor, DecimalMap) {
        node, err := PopNumber();
      } else if NextCharIn(Source, Cursor, IdentifierStartMap) {
        node, err := PopIdentifier();
      } else if NextCharIn(Source, Cursor, OperatorMap) {
        node, err := PopOperator();
      } else if NextChar(Source, Cursor, '"') {
        node, err := PopString(true);
      } else if NextChar(Source, Cursor, '`') {
        node, err := PopString(false);
      } else if Next(Source, Cursor, BlockStart) {
        node, err := PopBlock();
      } else {
        return Nil, Some(Error(Cursor, Unexpected));
      }
      assert err.None? ==> Cursor > start; // mustHaveAdvanced, deferred
    }

    /** The four number cases of PopNode, which all start with a decimal digit. */
    method PopNumber() returns (node: Node, err: Option<Error>)
      requires Valid() && More() && IsDecimalDigit(Source[Cursor])
      modifies this
      ensures Valid()
      ensures Popped(node, err, Cursor, 0) == NumberAt(Source, old(Cursor))
    {
      if Next(Source, Cursor, "0b") {
        node, err := PopFloatWithPrefix("0b", BinaryMap);
      } else if Next(Source, Cursor, "0o") {
        node, err := PopFloatWithPrefix("0o", OctalMap);
      } else if Next(Source, Cursor, "0x") {
        node, err := PopFloatWithPrefix("0x", HexadecimalMap);
      } else {
        node, err := PopFloat(DecimalMap);
      }
    }

    method PopWhitespace() returns (node: Node, err: Option<Error>)
      requires Valid()
      modifies this
      ensures Valid()
      ensures Popped(node, err, Cursor, 0) == WhitespaceAt(Source, old(Cursor))
    {
      var start := Cursor;
      while NextCharIn(Source, Cursor, WhitespaceMap)
        invariant start <= Cursor <= |Source|
        invariant RunEnd(Source, Cursor, WhitespaceMap) == RunEnd(Source, start, WhitespaceMap)
        decreases |Source| - Cursor
      {
        AdvanceNextChar();
      }
      var text := From(start);
      if |text| == 0 {
        return Whitespace(""), Some(Error(Cursor, ExpectedWhitespace));
      }
      return Whitespace(text), None;
    }

    method PopComment() returns (node: Node, err: Option<Error>)
      requires Valid()
      modifies this
      ensures Valid()
      ensures Popped(node, err, Cursor, 0) == CommentAt(Source, old(Cursor))
    {
      if !Next(Source, Cursor, CommentStart) {
        return Comment(""), Some(Error(Cursor, ExpectedOpening(CommentStart)));
      }
      Advance(CommentStart);
      node, err := PopCommentBody();
    }

    /** The loop of PopComment, after the opening `{{`, with one comment open. */
    method PopCommentBody() returns (node: Node, err: Option<Error>)
      requires Valid()
      modifies this
      ensures Valid()
      ensures match CommentClose(Source, old(Cursor), 1)
        case None => node == Comment("") && err == Some(Error(|Source|, ExpectedCommentClose)) && Cursor == |Source|
        case Some(e) => node == Comment(Source[old(Cursor)..e]) && err.None? && Cursor == e + 2
    {
      var start := Cursor;
      ghost var close := CommentClose(Source, start, 1);
      var levels: nat := 1;
      while More()
        invariant Valid() && start <= Cursor && levels >= 1
        invariant CommentClose(Source, Cursor, levels) == close
        decreases |Source| - Cursor
      {
        levels := PopCommentChar(levels);
        if levels == 0 {
          node := Comment(From(start));
          Advance(CommentEnd);
          return node, None;
        }
      }
      return Comment(""), Some(Error(Cursor, ExpectedCommentClose));
    }

    /**
     * One turn of PopComment's loop with `levels` comments open. At the closing
     * `}}` of the outermost one it returns 0 and leaves the cursor on it.
     */
    method PopCommentChar(levels: nat) returns (next: nat)
      requires Valid() && More() && levels >= 1
      modifies this
      ensures Valid()
      ensures next == 0 ==> Cursor == old(Cursor) && Next(Source, Cursor, CommentEnd)
      ensures next == 0 ==> CommentClose(Source, Cursor, levels) == Some(Cursor)
      ensures next > 0 ==> old(Cursor) < Cursor
      ensures next > 0 ==> CommentClose(Source, Cursor, next) == CommentClose(Source, old(Cursor), levels)
    {
      if Next(Source, Cursor, CommentStart) {
        CommentCloseOpen(Source, Cursor, levels);
        Advance(CommentStart);
        return levels + 1;
      }
      next := levels;
      if Next(Source, Cursor, CommentEnd) {
        CommentCloseEnd(Source, Cursor, levels);
        next := levels - 1;
        if next == 0 {
          return;
        }
      } else {
        CommentCloseOther(Source, Cursor, levels);
      }
      AdvanceNextChar();
    }

    method PopFloatWithPrefix(prefix: string, m: CharMap) returns (node: Node, err: Option<Error>)
      requires Valid() && |prefix| > 0
      modifies this
      ensures Valid()
      ensures Popped(node, err, Cursor, 0) == FloatWithPrefixAt(Source, old(Cursor), prefix, m)
    {
      if !Next(Source, Cursor, prefix) {
        return Number(""), Some(Error(Cursor, ExpectedOpening(prefix)));
      }
      Advance(prefix);
      var num, e := PopFloat(m);
      if e.Some? {
        return Number(""), e;
      }
      return Number(prefix + num.text), None;
    }

    method PopFloat(m: CharMap) returns (node: Node, err: Option<Error>)
      requires Valid()
      modifies this
      ensures Valid()
      ensures Popped(node, err, Cursor, 0) == FloatAt(Source, old(Cursor), m)
    {
      var start := Cursor;
      if !NextCharIn(Source, Cursor, m) {
        return Number(""), Some(Error(Cursor, ExpectedDigit(m)));
      }
      SkipCharsIn(m);
      node, err := PopFloatEnd(start, m);
    }

    /** popFloat after the integer digits of the number that started at `start`. */
    method PopFloatEnd(start: nat, m: CharMap) returns (node: Node, err: Option<Error>)
      requires Valid() && start < Cursor
      modifies this
      ensures Valid()
      ensures Popped(node, err, Cursor, 0) == FloatEnd(Source, start, old(Cursor), m)
    {
      // The run stops at end of input or at a character outside `m`.
      if NextCharIn(Source, Cursor, IdentifierMap) {
        return Number(""), Some(Error(Cursor, ExpectedDigit(m)));
      }
      if NextChar(Source, Cursor, '.') {
        AdvanceNextChar();
        node, err := PopFraction(start, m);
        return;
      }
      return Number(From(start)), None;
    }

    /** The digit loops of popFloat: skips the run of `m` characters at the cursor. */
    method SkipCharsIn(m: CharMap)
      requires Valid()
      modifies this
      ensures Valid() && Cursor == RunEnd(Source, old(Cursor), m)
    {
      ghost var start := Cursor;
      while NextCharIn(Source, Cursor, m)
        invariant start <= Cursor <= |Source|
        invariant RunEnd(Source, Cursor, m) == RunEnd(Source, start, m)
        decreases |Source| - Cursor
      {
        AdvanceNextChar();
      }
    }

    /** The `fraction:` part of popFloat, for the number that started at `start`. */
    method PopFraction(start: nat, m: CharMap) returns (node: Node, err: Option<Error>)
      requires Valid() && start < Cursor
      modifies this
      ensures Valid()
      ensures Popped(node, err, Cursor, 0) == FractionAt(Source, start, old(Cursor), m)
    {
      if !NextCharIn(Source, Cursor, m) {
        return Number(""), Some(Error(Cursor, ExpectedDigit(m)));
      }
      SkipCharsIn(m);
      if NextCharIn(Source, Cursor, IdentifierMap) {
        return Number(""), Some(Error(Cursor, ExpectedDigit(m)));
      }
      return Number(From(start)), None;
    }

    method PopIdentifier() returns (node: Node, err: Option<Error>)
      requires Valid()
      modifies this
      ensures Valid()
      ensures Popped(node, err, Cursor, 0) == IdentifierAt(Source, old(Cursor))
    {
      if !NextCharIn(Source, Cursor, IdentifierStartMap) {
        return Identifier(""), Some(Error(Cursor, ExpectedIdentifierStart));
      }
      var start := Cursor;
      AdvanceNextChar();
      while NextCharIn(Source, Cursor, IdentifierMap)
        invariant start < Cursor <= |Source|
        invariant RunEnd(Source, Cursor, IdentifierMap) == RunEnd(Source, start + 1, IdentifierMap)
        decreases |Source| - Cursor
      {
        AdvanceNextChar();
      }
      return Identifier(From(start)), None;
    }

    method PopOperator() returns (node: Node, err: Option<Error>)
      requires Valid()
      modifies this
      ensures Valid()
      ensures Popped(node, err, Cursor, 0) == OperatorAt(Source, old(Cursor))
    {
      if !NextCharIn(Source, Cursor, OperatorMap) {
        return Operator(""), Some(Error(Cursor, ExpectedOperator));
      }
      var start := Cursor;
      while NextCharIn(Source, Cursor, OperatorMap)
        invariant start <= Cursor <= |Source|
        invariant RunEnd(Source, Cursor, OperatorMap) == RunEnd(Source, start, OperatorMap)
        decreases |Source| - Cursor
      {
        AdvanceNextChar();
      }
      return Operator(From(start)), None;
    }

    /** PopStringDouble (`double`) and PopStringGrave. */
    method PopString(double: bool) returns (node: Node, err: Option<Error>)
      requires Valid()
      modifies this
      ensures Valid()
      ensures Popped(node, err, Cursor, 0) == StringAt(Source, old(Cursor), double)
    {
      var text, e := PopStringBetween(if double then '"' else '`');
      node := if double then StringDouble(text) else StringGrave(text);
      err := e;
    }

    method PopStringBetween(q: char) returns (text: string, err: Option<Error>)
      requires Valid()
      modifies this
      ensures Valid()
      ensures Between(text, err, Cursor) == StringBetweenAt(Source, old(Cursor), q)
    {
      if !NextChar(Source, Cursor, q) {
        return "", Some(Error(Cursor, ExpectedOpening([q])));
      }
      AdvanceNextChar();
      var start := Cursor;
      while More()
        invariant start <= Cursor <= |Source|
        invariant Find(Source, Cursor, q) == Find(Source, start, q)
        decreases |Source| - Cursor
      {
        if NextChar(Source, Cursor, q) {
          if Cursor == start {
            return "", Some(Error(Cursor, EmptyString(q)));
          }
          text := From(start);
          AdvanceNextChar();
          return text, None;
        }
        AdvanceNextChar();
      }
      return "", Some(Error(Cursor, UnterminatedString(q)));
    }

    method PopBlock() returns (node: Node, err: Option<Error>)
      requires Valid()
      modifies this
      decreases |Source| - Cursor, 1
      ensures Valid()
      ensures var p := BlockAt(Source, old(Cursor)); node == p.node && err == p.err && Cursor == p.next
    {
      if !Next(Source, Cursor, BlockStart) {
        return Nil, Some(Error(Cursor, ExpectedOpening(BlockStart)));
      }
      Advance(BlockStart);
      ghost var start := Cursor;
      var nodes: seq<Node> := [];
      while More()
        invariant start <= Cursor <= |Source|
        invariant var r, whole := ChildrenAt(Source, Cursor), ChildrenAt(Source, start);
          nodes + r.nodes == whole.nodes && r.err == whole.err && r.next == whole.next
        decreases |Source| - Cursor
      {
        if Next(Source, Cursor, BlockEnd) {
          Advance(BlockEnd);
          return Block(nodes), None;
        }
        var before := Cursor;
        var child, e := PopNode();
        if e.Some? {
          return Block(nodes), e;
        }
        assert Cursor > before; // mustHaveAdvanced
        assert ChildrenAt(Source, before).nodes == [child] + ChildrenAt(Source, Cursor).nodes;
        nodes := nodes + [child];
      }
      return Block(nodes), None;
    }
  }

  /** CommentClose past an opening `{{`. */
  lemma CommentCloseOpen(src: string, i: nat, levels: nat)
    requires i < |src| && levels >= 1 && Next(src, i, CommentStart)
    ensures CommentClose(src, i, levels) == CommentClose(src, i + 2, levels + 1)
  {
  }

  /** CommentClose at a closing `}}` that is not also an opening. */
  lemma CommentCloseEnd(src: string, i: nat, levels: nat)
    requires i < |src| && levels >= 1 && !Next(src, i, CommentStart) && Next(src, i, CommentEnd)
    ensures levels == 1 ==> CommentClose(src, i, levels) == Some(i)
    ensures levels > 1 ==> CommentClose(src, i, levels) == CommentClose(src, i + 1, levels - 1)
  {
  }

  /** CommentClose past any other character. */
  lemma CommentCloseOther(src: string, i: nat, levels: nat)
    requires i < |src| && levels >= 1 && !Next(src, i, CommentStart) && !Next(src, i, CommentEnd)
    ensures CommentClose(src, i, levels) == CommentClose(src, i + 1, levels)
  {
  }

  /** One successful step of PopNodes, unfolded. */
  lemma NodesAtCons(src: string, i: nat)
    requires i < |src| && NodeAt(src, i).err.None?
    ensures var p := NodeAt(src, i); var r, rest := NodesAt(src, i), NodesAt(src, p.next);
      r.nodes == [p.node] + rest.nodes && r.err == rest.err && r.next == rest.next
  {
  }

  /** Parse. */
  method Parse(input: string) returns (nodes: seq<Node>, err: Option<Error>)
    ensures var r := ParseSource(input); nodes == r.nodes && err == r.err
  {
    var parser := new Parser(input);
    nodes, err := parser.PopNodes();
  }
}
