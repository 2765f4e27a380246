/**
 * The node tree of the current draft (ast.go): the character tables, the
 * node variants with their textual forms, and the verbatim reprinter Format.
 */
module MoxNodes {

  const CommentStart := "{{"
  const CommentEnd := "}}"
  const BlockStart := "("
  const BlockEnd := ")"

  /** The character tables of ast.go; `IsCharIn` is the table lookup. */
  datatype CharMap =
    | WhitespaceMap
    | OperatorMap
    | IdentifierStartMap
    | IdentifierMap
    | BinaryMap
    | OctalMap
    | DecimalMap
    | HexadecimalMap

  predicate IsLetter(c: char) {
    'A' <= c <= 'Z' || 'a' <= c <= 'z'
  }

  predicate IsDecimalDigit(c: char) {
    '0' <= c <= '9'
  }

  predicate IsCharIn(m: CharMap, c: char) {
    match m
    case WhitespaceMap => c == ' ' || c == '\n' || c == '\r' || c == '\t' || c == '\U{000B}'
    case OperatorMap =>
      c in {'~', '!', '@', '#', '$', '%', '^', '&', '*', ':', '<', '>', '.', '?', '/', '\\', '|', '=', '+', '-'}
    case IdentifierStartMap => IsLetter(c) || c == '_'
    case IdentifierMap => IsLetter(c) || c == '_' || IsDecimalDigit(c)
    case BinaryMap => c == '0' || c == '1'
    case OctalMap => '0' <= c <= '7'
    case DecimalMap => IsDecimalDigit(c)
    // Lower-case letters only: there is no upper-case hexadecimal alphabet.
    case HexadecimalMap => IsDecimalDigit(c) || 'a' <= c <= 'f'
  }

  const UpperCase := "ABCDEFGHIJKLMNOPQRSTUVWXYZ"
  const LowerCase := "abcdefghijklmnopqrstuvwxyz"
  const DecimalDigits := "0123456789"

  /** The string literal stringCharMap builds each table of ast.go from. */
  function TableString(m: CharMap): string {
    match m
    case WhitespaceMap => " \n\r\t\U{000B}"
    case OperatorMap => "~!@#$%^&*:<>.?/\\|=+-"
    case IdentifierStartMap => UpperCase + LowerCase + "_"
    case IdentifierMap => UpperCase + LowerCase + "_" + DecimalDigits
    case BinaryMap => "01"
    case OctalMap => "01234567"
    case DecimalMap => DecimalDigits
    case HexadecimalMap => DecimalDigits + "abcdef"
  }

  /**
   * isCharIn on a table built by stringCharMap finds exactly the characters
   * of the string it was built from.
   */
  lemma CharMapTable(m: CharMap, c: char)
    ensures IsCharIn(m, c) <==> c in TableString(m)
  {
    UpperCaseTable(c);
    LowerCaseTable(c);
    DigitsTable(c);
  }

  lemma UpperCaseTable(c: char)
    ensures 'A' <= c <= 'Z' <==> c in UpperCase
  {
    if 'A' <= c <= 'Z' {
      assert UpperCase[c as int - 'A' as int] == c;
    }
  }

  lemma LowerCaseTable(c: char)
    ensures 'a' <= c <= 'z' <==> c in LowerCase
  {
    if 'a' <= c <= 'z' {
      assert LowerCase[c as int - 'a' as int] == c;
    }
  }

  lemma DigitsTable(c: char)
    ensures '0' <= c <= '9' <==> c in DecimalDigits
  {
    if '0' <= c <= '9' {
      assert DecimalDigits[c as int - '0' as int] == c;
    }
  }

  /**
   * A slice entry. `Nil` is the nil interface value that a []Node may hold;
   * the reprinter skips it, so a node can be "deleted" by overwriting it.
   */
  datatype Node =
    | Nil
    | Whitespace(text: string)
    | Comment(text: string)
    | Number(text: string)
    | StringDouble(text: string)
    | StringGrave(text: string)
    | Identifier(text: string)
    | Operator(text: string)
    | Block(children: seq<Node>)

  /**
   * A character strconv.Quote writes as it is: not `"`, not `\`, and no
   * ASCII control character.
   */
  predicate QuotesAsIs(c: char) {
    c != '"' && c != '\\' && ' ' <= c < '\U{007F}'
  }

  /** Contents that strconv.Quote only wraps in quotes: printable ASCII without `\` or `"`. */
  predicate QuotesPlain(s: string) {
    forall k :: 0 <= k < |s| ==> QuotesAsIs(s[k])
  }

  /**
   * strconv.Quote, read as identity quoting: what Go writes for contents
   * that satisfy QuotesPlain. Its escape table for the other characters is
   * not modelled.
   */
  function Quote(s: string): string {
    "\"" + s + "\""
  }

  /** Every double-quoted string in `n`, at any depth, has contents that QuotesPlain accepts. */
  predicate ExactQuotes(n: Node)
    decreases n, 1
  {
    match n
    case StringDouble(s) => QuotesPlain(s)
    case Block(cs) => AllExactQuotes(cs)
    case _ => true
  }

  predicate AllExactQuotes(nodes: seq<Node>)
    decreases nodes, 0
  {
    forall k :: 0 <= k < |nodes| ==> ExactQuotes(nodes[k])
  }

  /** The `String` method of each node type (calling it on nil panics in Go). */
  function NodeText(n: Node): string
    requires n != Nil
    decreases n, 0
  {
    match n
    case Whitespace(s) => s
    case Comment(s) => CommentStart + s + CommentEnd
    case Number(s) => s
    case StringDouble(s) => Quote(s)
    case StringGrave(s) => "`" + s + "`"
    case Identifier(s) => s
    case Operator(s) => s
    case Block(cs) => BlockStart + FormatAfter(Nil, cs) + BlockEnd
  }

  predicate IsWord(n: Node) {
    n.Identifier? || n.Number?
  }

  /** requiresWhitespaceInfix: two adjacent identifier/number nodes need a space. */
  predicate RequiresWhitespaceInfix(left: Node, right: Node) {
    IsWord(left) && IsWord(right)
  }

  /** The verbatim reprinter. */
  function Format(nodes: seq<Node>): string
  {
    FormatAfter(Nil, nodes)
  }

  /** The loop of Format from the point where `prev` is the last non-nil node printed. */
  function FormatAfter(prev: Node, nodes: seq<Node>): string
    decreases nodes, 1
  {
    if nodes == [] then ""
    else if nodes[0] == Nil then FormatAfter(prev, nodes[1..])
    else
      (if RequiresWhitespaceInfix(prev, nodes[0]) then " " else "")
      + NodeText(nodes[0]) + FormatAfter(nodes[0], nodes[1..])
  }

  predicate NoNil(nodes: seq<Node>) {
    forall i :: 0 <= i < |nodes| ==> nodes[i] != Nil
  }

  /** The entries that are not nil, in order. */
  function NonNil(nodes: seq<Node>): (r: seq<Node>)
    ensures NoNil(r)
  {
    if nodes == [] then []
    else if nodes[0] == Nil then NonNil(nodes[1..])
    else [nodes[0]] + NonNil(nodes[1..])
  }

  /**
   * Reference reading of Format on a nil-free list: each node's text, with one
   * space after it exactly when it and its successor are both identifiers or
   * numbers.
   */
  function Spaced(nodes: seq<Node>): string
    requires NoNil(nodes)
  {
    if nodes == [] then ""
    else
      NodeText(nodes[0])
      + (if |nodes| > 1 && IsWord(nodes[0]) && IsWord(nodes[1]) then " " else "")
      + Spaced(nodes[1..])
  }

  /** Format ignores nil entries and separates exactly the adjacent word pairs. */
  lemma {:induction false} FormatSpacing(nodes: seq<Node>)
    ensures Format(nodes) == Spaced(NonNil(nodes))
  {
    FormatAfterSpacing(Nil, nodes);
  }

  /** The separator Format puts before `nodes` when `prev` was printed last. */
  function Separator(prev: Node, nodes: seq<Node>): string {
    if nodes != [] && RequiresWhitespaceInfix(prev, nodes[0]) then " " else ""
  }

  lemma {:induction false} FormatAfterSpacing(prev: Node, nodes: seq<Node>)
    decreases nodes
    ensures FormatAfter(prev, nodes) == Separator(prev, NonNil(nodes)) + Spaced(NonNil(nodes))
  {
    if nodes == [] {
    } else if nodes[0] == Nil {
      FormatAfterSpacing(prev, nodes[1..]);
    } else {
      FormatAfterSpacing(nodes[0], nodes[1..]);
      NonNilStep(prev, nodes);
    }
  }

  /** One non-nil step of FormatAfterSpacing, given the claim for the tail. */
  lemma NonNilStep(prev: Node, nodes: seq<Node>)
    requires nodes != [] && nodes[0] != Nil
    requires FormatAfter(nodes[0], nodes[1..])
          == Separator(nodes[0], NonNil(nodes[1..])) + Spaced(NonNil(nodes[1..]))
    ensures FormatAfter(prev, nodes) == Separator(prev, NonNil(nodes)) + Spaced(NonNil(nodes))
  {
    var n, rest := nodes[0], NonNil(nodes[1..]);
    assert NonNil(nodes) == [n] + rest;
    SpacedCons(n, rest);
    var sep, text := Separator(prev, NonNil(nodes)), NodeText(n);
    assert FormatAfter(prev, nodes) == sep + text + FormatAfter(n, nodes[1..]);
    Associate(sep, text, Separator(n, rest), Spaced(rest));
  }

  lemma Associate(a: string, b: string, c: string, d: string)
    ensures a + b + (c + d) == a + (b + c + d)
  {
  }

  lemma SpacedCons(n: Node, rest: seq<Node>)
    requires n != Nil && NoNil(rest)
    ensures NoNil([n] + rest)
    ensures Spaced([n] + rest) == NodeText(n) + Separator(n, rest) + Spaced(rest)
  {
    assert ([n] + rest)[1..] == rest;
  }

  /** Dropping nil entries never changes the output. */
  lemma FormatIgnoresNil(nodes: seq<Node>)
    ensures Format(NonNil(nodes)) == Format(nodes)
  {
    NonNilIdempotent(nodes);
    FormatSpacing(nodes);
    FormatSpacing(NonNil(nodes));
  }

  lemma {:induction false} NonNilIdempotent(nodes: seq<Node>)
    ensures NonNil(NonNil(nodes)) == NonNil(nodes)
  {
    if nodes != [] {
      NonNilIdempotent(nodes[1..]);
      if nodes[0] != Nil {
        assert NonNil(nodes) == [nodes[0]] + NonNil(nodes[1..]);
        assert NonNil(nodes)[1..] == NonNil(nodes[1..]);
      }
    }
  }

  // The reprinter tests of ast_test.go, with `[` `]` comment delimiters read as `{{` `}}`
  // and NodeSpace read as Whitespace.

  /** TestFormatWithNil (ast_test.go:29-38). */
  lemma FormatWithNilExample()
    ensures Format([Nil, Identifier("one"), Nil, Identifier("two"), Nil]) == "one two"
  {
  }

  /**
   * TestFormatAddingWhitespace (ast_test.go:110-128), in two halves with
   * shorter texts: identifier and number neighbours get a space ...
   */
  lemma FormatAddingWhitespaceExample()
    ensures Format([Identifier("a"), Identifier("b"), Number("1"), Number("2"), Identifier("e")])
         == "a b 1 2 e"
  {
    var ns := [Identifier("a"), Identifier("b"), Number("1"), Number("2"), Identifier("e")];
    assert FormatAfter(ns[3], ns[4..]) == " e";
    assert FormatAfter(ns[2], ns[3..]) == " 2 e";
    assert FormatAfter(ns[1], ns[2..]) == " 1 2 e";
    assert FormatAfter(ns[0], ns[1..]) == " b 1 2 e";
  }

  /** ... and every other pair of neighbours is printed without one. */
  lemma FormatNotAddingWhitespaceExample()
    ensures Format([Identifier("b"), StringDouble("c"), Identifier("d"), Operator("+"), Identifier("f")])
         == "b\"c\"d+f"
  {
    var ns := [Identifier("b"), StringDouble("c"), Identifier("d"), Operator("+"), Identifier("f")];
    assert FormatAfter(ns[3], ns[4..]) == "f";
    assert FormatAfter(ns[2], ns[3..]) == "+f";
    assert FormatAfter(ns[1], ns[2..]) == "d+f";
    assert FormatAfter(ns[0], ns[1..]) == "\"c\"d+f";
  }

  /** One non-nil step of the reprinter. */
  lemma FormatAfterCons(prev: Node, n: Node, rest: seq<Node>)
    requires n != Nil
    ensures FormatAfter(prev, [n] + rest)
         == (if RequiresWhitespaceInfix(prev, n) then " " else "") + NodeText(n) + FormatAfter(n, rest)
  {
    assert ([n] + rest)[1..] == rest;
  }

  /** TestFormat (ast_test.go:10-27), with shorter texts. */
  lemma FormatBlockExample()
    ensures Format([Comment("#"), Whitespace(" "), Block([Number("1"), Whitespace(" "), StringDouble("a")])])
         == "{{#}} (1 \"a\")"
  {
    var inner := [Number("1"), Whitespace(" "), StringDouble("a")];
    assert FormatAfter(inner[1], inner[2..]) == "\"a\"";
    assert FormatAfter(inner[0], inner[1..]) == " \"a\"";
    assert FormatAfter(Nil, inner) == "1 \"a\"";
    var ns := [Comment("#"), Whitespace(" "), Block(inner)];
    assert NodeText(ns[2]) == "(1 \"a\")";
    assert FormatAfter(ns[1], ns[2..]) == "(1 \"a\")";
    assert FormatAfter(ns[0], ns[1..]) == " (1 \"a\")";
  }
}
