/**
 * Properties of the current draft's parser (ast.go): the dispatch of PopNode,
 * the round trip Format(Parse(s)) == s, the partial results that come with an
 * error, and the tests of ast_test.go.
 */
module MoxParseProps {
  import opened Options
  import opened MoxNodes
  import opened MoxGrammar

  /** The characters at which PopNode finds a node to parse. */
  predicate StartsNode(src: string, c: nat) {
    || NextCharIn(src, c, WhitespaceMap)
    || Next(src, c, CommentStart)
    || NextCharIn(src, c, DecimalMap)
    || NextCharIn(src, c, IdentifierStartMap)
    || NextCharIn(src, c, OperatorMap)
    || NextChar(src, c, '"')
    || NextChar(src, c, '`')
    || Next(src, c, BlockStart)
  }

  /** PopNode reports "unexpected" exactly where no node can start, at the cursor. */
  lemma UnexpectedIff(src: string, c: nat)
    requires c <= |src|
    ensures NodeAt(src, c).err == Some(Error(c, Unexpected)) <==> c < |src| && !StartsNode(src, c)
  {
  }

  /** A closing paren where a node should start is unexpected, as at top level. */
  lemma StrayCloseIsUnexpected(src: string, c: nat)
    requires c < |src| && src[c] == ')'
    ensures NodeAt(src, c) == Popped(Nil, Some(Error(c, Unexpected)), c, 0)
  {
    NextTwo(src, c, CommentStart);
    NextOne(src, c, BlockStart);
    assert !NextCharIn(src, c, WhitespaceMap) && !NextCharIn(src, c, DecimalMap);
    assert !NextCharIn(src, c, IdentifierStartMap) && !NextCharIn(src, c, OperatorMap);
    assert !NextChar(src, c, '"') && !NextChar(src, c, '`');
  }

  // ----- round trip -----

  /** `n` closing parens: what Format adds for the blocks end of input closed. */
  function Closers(n: nat): string {
    if n == 0 then "" else Closers(n - 1) + BlockEnd
  }

  /** Format inserts no space at `i` after `prev`: `prev` is no word, or no word starts at `i`. */
  predicate NoJoin(prev: Node, src: string, i: nat) {
    IsWord(prev) ==> !NextCharIn(src, i, IdentifierMap)
  }

  /**
   * The text of a parsed node is its source text, plus the parens end of
   * input closed; for Go's strconv.Quote this needs double-quoted contents
   * that it writes unescaped.
   */
  lemma {:induction false} NodeRoundTrip(src: string, c: nat)
    requires c <= |src| && NodeAt(src, c).err.None? && ExactQuotes(NodeAt(src, c).node)
    decreases |src| - c, 2
    ensures var p := NodeAt(src, c); NodeText(p.node) == src[c..p.next] + Closers(p.open)
  {
    var p := NodeAt(src, c);
    if p.node.Block? {
      BlockRoundTrip(src, c);
    }
  }

  lemma {:induction false} BlockRoundTrip(src: string, c: nat)
    requires c < |src| && Next(src, c, BlockStart) && BlockAt(src, c).err.None?
    requires ExactQuotes(BlockAt(src, c).node)
    decreases |src| - c, 1
    ensures var p := BlockAt(src, c); NodeText(p.node) == src[c..p.next] + Closers(p.open)
  {
    ChildrenRoundTrip(src, c + 1, Nil);
    BlockText(src, c, ChildrenAt(src, c + 1));
  }

  /** A block's text from its children's: `(` is the character at `c`. */
  lemma BlockText(src: string, c: nat, ch: PoppedMany)
    requires c < ch.next <= |src| && src[c] == '('
    requires FormatAfter(Nil, ch.nodes) + BlockEnd == src[c + 1..ch.next] + Closers(ch.open)
    ensures NodeText(Block(ch.nodes)) == src[c..ch.next] + Closers(ch.open)
  {
    calc {
      NodeText(Block(ch.nodes));
      BlockStart + (FormatAfter(Nil, ch.nodes) + BlockEnd);
      BlockStart + (src[c + 1..ch.next] + Closers(ch.open));
      { assert src[c..ch.next] == [src[c]] + src[c + 1..ch.next]; }
      src[c..ch.next] + Closers(ch.open);
    }
  }

  /** The loop of PopBlock: the children's text and the block's `)` are read back. */
  lemma {:induction false} ChildrenRoundTrip(src: string, i: nat, prev: Node)
    requires i <= |src| && ChildrenAt(src, i).err.None? && NoJoin(prev, src, i)
    requires AllExactQuotes(ChildrenAt(src, i).nodes)
    decreases |src| - i, 3
    ensures var r := ChildrenAt(src, i); FormatAfter(prev, r.nodes) + BlockEnd == src[i..r.next] + Closers(r.open)
  {
    if i == |src| || Next(src, i, BlockEnd) {
      ChildrenEnd(src, i, prev);
    } else {
      var p := NodeAt(src, i);
      ChildrenCons(src, i, prev);
      ExactQuotesCons(p.node, ChildrenAt(src, p.next).nodes);
      NodeRoundTrip(src, i);
      ChildrenRoundTrip(src, p.next, p.node);
      ChildrenJoin(src, i, prev);
    }
  }

  /** ChildrenRoundTrip at `i` from the round trips of the child at `i` and of the children after it. */
  lemma ChildrenJoin(src: string, i: nat, prev: Node)
    requires i < |src| && !Next(src, i, BlockEnd) && ChildrenAt(src, i).err.None? && NoJoin(prev, src, i)
    requires var p := NodeAt(src, i); p.err.None? && i < p.next
    requires var p := NodeAt(src, i); NodeText(p.node) == src[i..p.next] + Closers(p.open)
    requires var p := NodeAt(src, i); var r := ChildrenAt(src, p.next);
      FormatAfter(p.node, r.nodes) + BlockEnd == src[p.next..r.next] + Closers(r.open)
    ensures var r := ChildrenAt(src, i); FormatAfter(prev, r.nodes) + BlockEnd == src[i..r.next] + Closers(r.open)
  {
    var p := NodeAt(src, i);
    ChildrenCons(src, i, prev);
    ChildrenStep(src, i, prev, p, ChildrenAt(src, p.next));
  }

  /** PopBlock stops at end of input (the block stays open) or at its `)`. */
  lemma ChildrenEnd(src: string, i: nat, prev: Node)
    requires i <= |src| && (i == |src| || Next(src, i, BlockEnd))
    ensures var r := ChildrenAt(src, i); FormatAfter(prev, r.nodes) + BlockEnd == src[i..r.next] + Closers(r.open)
  {
  }

  /** One child of a block, parsed without an error, and what ChildrenStep needs of it. */
  lemma ChildrenCons(src: string, i: nat, prev: Node)
    requires i < |src| && !Next(src, i, BlockEnd) && ChildrenAt(src, i).err.None? && NoJoin(prev, src, i)
    ensures var p := NodeAt(src, i); var rest := ChildrenAt(src, p.next);
      && p.err.None? && p.node != Nil && i < p.next
      && ChildrenAt(src, i) == PoppedMany([p.node] + rest.nodes, rest.err, rest.next, p.open + rest.open)
      && rest.err.None? && NoJoin(p.node, src, p.next) && !RequiresWhitespaceInfix(prev, p.node)
      && (p.open > 0 ==> p.next == |src| && rest == PoppedMany([], None, |src|, 1))
  {
  }

  /** Prepending one parsed node (as text from `i` to `p.next`) to the rest of a block. */
  lemma ChildrenStep(src: string, i: nat, prev: Node, p: Popped, rest: PoppedMany)
    requires i < p.next <= rest.next <= |src| && p.node != Nil
    requires NodeText(p.node) == src[i..p.next] + Closers(p.open)
    requires !RequiresWhitespaceInfix(prev, p.node)
    requires p.open > 0 ==> p.next == |src| && rest == PoppedMany([], None, |src|, 1)
    requires FormatAfter(p.node, rest.nodes) + BlockEnd == src[p.next..rest.next] + Closers(rest.open)
    ensures FormatAfter(prev, [p.node] + rest.nodes) + BlockEnd == src[i..rest.next] + Closers(p.open + rest.open)
  {
    FormatAfterCons(prev, p.node, rest.nodes);
    var x, a, f := FormatAfter(prev, [p.node] + rest.nodes), src[i..p.next], FormatAfter(p.node, rest.nodes);
    if p.open == 0 {
      assert x == a + f;
      assert src[i..rest.next] == a + src[p.next..rest.next];
      Glue(x, a, f, BlockEnd, src[p.next..rest.next], Closers(rest.open));
    } else {
      assert f == "" && x == a + Closers(p.open);
      assert Closers(p.open + rest.open) == Closers(p.open) + BlockEnd;
      assert src[i..rest.next] == a;
      Associate3(a, Closers(p.open), BlockEnd);
    }
  }

  /** Joining the text of a node to the text after it. */
  lemma Glue(x: string, a: string, f: string, e: string, b: string, c: string)
    requires x == a + f && f + e == b + c
    ensures x + e == a + b + c
  {
    Associate3(a, f, e);
    Associate3(a, b, c);
  }

  lemma Associate3(a: string, b: string, c: string)
    ensures a + b + c == a + (b + c)
  {
  }

  /** The first node and the rest of a list whose double-quoted strings all quote exactly. */
  lemma ExactQuotesCons(n: Node, rest: seq<Node>)
    requires AllExactQuotes([n] + rest)
    ensures ExactQuotes(n) && AllExactQuotes(rest)
  {
    assert ([n] + rest)[0] == n;
    forall k | 0 <= k < |rest| ensures ExactQuotes(rest[k]) {
      assert ([n] + rest)[k + 1] == rest[k];
    }
  }

  /** The loop of PopNodes: on success Format reads the rest of the input back. */
  lemma {:induction false} NodesRoundTrip(src: string, i: nat, prev: Node)
    requires i <= |src| && NodesAt(src, i).err.None? && NoJoin(prev, src, i)
    requires AllExactQuotes(NodesAt(src, i).nodes)
    decreases |src| - i
    ensures var r := NodesAt(src, i); FormatAfter(prev, r.nodes) == src[i..r.next] + Closers(r.open)
  {
    if i < |src| {
      var p := NodeAt(src, i);
      NodesCons(src, i, prev);
      NodeRoundTrip(src, i);
      NodesRoundTrip(src, p.next, p.node);
      NodesStep(src, i, prev, p, NodesAt(src, p.next));
    }
  }

  /** One top-level node parsed without an error, and what NodesStep needs of it. */
  lemma NodesCons(src: string, i: nat, prev: Node)
    requires i < |src| && NodesAt(src, i).err.None? && NoJoin(prev, src, i)
    requires AllExactQuotes(NodesAt(src, i).nodes)
    ensures var p := NodeAt(src, i); var rest := NodesAt(src, p.next);
      && p.err.None? && p.node != Nil && i < p.next && ExactQuotes(p.node)
      && rest.err.None? && AllExactQuotes(rest.nodes) && NoJoin(p.node, src, p.next)
      && !RequiresWhitespaceInfix(prev, p.node)
      && (p.open > 0 ==> p.next == |src| && rest == PoppedMany([], None, |src|, 0))
  {
    var p := NodeAt(src, i);
    assert p.err.None? by {
      assert Step(src, i, p);
    }
    var rest := NodesAt(src, p.next);
    assert NodesAt(src, i) == PoppedMany([p.node] + rest.nodes, rest.err, rest.next, p.open + rest.open);
    ExactQuotesCons(p.node, rest.nodes);
  }

  /** Prepending one parsed node to the rest of the top-level list. */
  lemma NodesStep(src: string, i: nat, prev: Node, p: Popped, rest: PoppedMany)
    requires i < p.next <= rest.next <= |src| && p.node != Nil
    requires NodeText(p.node) == src[i..p.next] + Closers(p.open)
    requires !RequiresWhitespaceInfix(prev, p.node)
    requires p.open > 0 ==> p.next == |src| && rest == PoppedMany([], None, |src|, 0)
    requires FormatAfter(p.node, rest.nodes) == src[p.next..rest.next] + Closers(rest.open)
    ensures FormatAfter(prev, [p.node] + rest.nodes) == src[i..rest.next] + Closers(p.open + rest.open)
  {
    FormatAfterCons(prev, p.node, rest.nodes);
    if p.open == 0 {
      assert NodeText(p.node) == src[i..p.next];
      assert src[i..rest.next] == src[i..p.next] + src[p.next..rest.next];
    } else {
      assert FormatAfter(p.node, rest.nodes) == "";
      assert src[i..rest.next] == src[i..p.next];
    }
  }

  /**
   * Format(Parse(s)) == s, up to the `)` of the blocks that end of input
   * closed; with every block closed in the source it is exactly s. Go's
   * strconv.Quote keeps this for double-quoted strings of printable ASCII
   * without a backslash only.
   */
  lemma FormatParseRoundTrip(src: string)
    requires ParseSource(src).err.None? && AllExactQuotes(ParseSource(src).nodes)
    ensures Format(ParseSource(src).nodes) == src + Closers(ParseSource(src).open)
  {
    NodesRoundTrip(src, 0, Nil);
    var r := NodesAt(src, 0);
    assert r.next == |src| && src[0..|src|] == src;
  }

  /** On an error, the nodes PopNodes returns read back a prefix of the input. */
  lemma {:induction false} NodesErrorPrefix(src: string, i: nat, prev: Node)
    requires i <= |src| && NodesAt(src, i).err.Some? && NoJoin(prev, src, i)
    requires AllExactQuotes(NodesAt(src, i).nodes)
    decreases |src| - i
    ensures var r := NodesAt(src, i);
      exists k :: i <= k <= r.next && FormatAfter(prev, r.nodes) == src[i..k]
  {
    var p := NodeAt(src, i);
    if p.err.Some? {
      assert FormatAfter(prev, []) == src[i..i];
    } else {
      var rest := NodesAt(src, p.next);
      assert NodesAt(src, i) == PoppedMany([p.node] + rest.nodes, rest.err, rest.next, p.open + rest.open);
      ExactQuotesCons(p.node, rest.nodes);
      NodeRoundTrip(src, i);
      assert p.open == 0;
      NodesErrorPrefix(src, p.next, p.node);
      var k :| p.next <= k <= rest.next && FormatAfter(p.node, rest.nodes) == src[p.next..k];
      ErrorPrefixStep(src, i, k, prev, p, rest);
    }
  }

  /** Prepending one parsed node to a list that reads back `src[p.next..k]`. */
  lemma ErrorPrefixStep(src: string, i: nat, k: nat, prev: Node, p: Popped, rest: PoppedMany)
    requires i < p.next <= k <= |src| && p.node != Nil
    requires NodeText(p.node) == src[i..p.next]
    requires !RequiresWhitespaceInfix(prev, p.node)
    requires FormatAfter(p.node, rest.nodes) == src[p.next..k]
    ensures FormatAfter(prev, [p.node] + rest.nodes) == src[i..k]
  {
    FormatAfterCons(prev, p.node, rest.nodes);
    assert src[i..k] == src[i..p.next] + src[p.next..k];
  }

  // ----- number syntax -----

  /** A non-empty run of digits of `m`. */
  predicate Digits(s: string, m: CharMap) {
    |s| > 0 && forall k :: 0 <= k < |s| ==> IsCharIn(m, s[k])
  }

  /** Digits of `m`, optionally followed by `.` and more digits of `m`. */
  predicate FloatText(s: string, m: CharMap) {
    exists i :: 0 < i <= |s| && Digits(s[..i], m) &&
      (i == |s| || (s[i] == '.' && Digits(s[i + 1..], m)))
  }

  /** The number syntax: an optional base prefix, then a float in that base. */
  predicate NumberText(s: string) {
    || (|s| >= 2 && s[..2] == "0b" && FloatText(s[2..], BinaryMap))
    || (|s| >= 2 && s[..2] == "0o" && FloatText(s[2..], OctalMap))
    || (|s| >= 2 && s[..2] == "0x" && FloatText(s[2..], HexadecimalMap))
    || FloatText(s, DecimalMap)
  }

  /** What popFloat accepts has the float syntax. */
  lemma FloatShape(src: string, c: nat, m: CharMap)
    requires c <= |src| && FloatAt(src, c, m).err.None?
    ensures var p := FloatAt(src, c, m); FloatText(src[c..p.next], m)
  {
    FloatAccepted(src, c, m);
    FloatSlice(src, c, RunEnd(src, c, m), FloatAt(src, c, m).next, m);
  }

  /** A run of `m`, optionally followed by `.` and a second run, is a float. */
  lemma FloatSlice(src: string, c: nat, j: nat, next: nat, m: CharMap)
    requires c < j <= next <= |src|
    requires forall k :: c <= k < j ==> IsCharIn(m, src[k])
    requires next == j || (j < |src| && src[j] == '.' && j + 1 < next == RunEnd(src, j + 1, m))
    ensures FloatText(src[c..next], m)
  {
    RunDigits(src, c, j, m);
    var s := src[c..next];
    assert s[..j - c] == src[c..j];
    if next != j {
      RunDigits(src, j + 1, next, m);
      assert s[j - c] == '.' && s[j - c + 1..] == src[j + 1..next];
    }
    FloatTextAt(s, j - c, m);
  }

  /** Where an accepted float ends: after its integer run, or after a `.` and a second run. */
  lemma FloatAccepted(src: string, c: nat, m: CharMap)
    requires c <= |src| && FloatAt(src, c, m).err.None?
    ensures var j, next := RunEnd(src, c, m), FloatAt(src, c, m).next;
      && c < j
      && (next == j || (j < |src| && src[j] == '.' && j + 1 < next == RunEnd(src, j + 1, m)))
  {
  }

  /** FloatText from its split point. */
  lemma FloatTextAt(s: string, i: nat, m: CharMap)
    requires 0 < i <= |s| && Digits(s[..i], m)
    requires i == |s| || (s[i] == '.' && Digits(s[i + 1..], m))
    ensures FloatText(s, m)
  {
  }

  /** A non-empty stretch of `m` characters is a digit string. */
  lemma RunDigits(src: string, i: nat, j: nat, m: CharMap)
    requires i < j <= |src| && forall k :: i <= k < j ==> IsCharIn(m, src[k])
    ensures Digits(src[i..j], m)
  {
  }

  /** Every number PopNode accepts has the number syntax. */
  lemma NumberShape(src: string, c: nat)
    requires c < |src| && IsDecimalDigit(src[c]) && NumberAt(src, c).err.None?
    ensures NumberText(NumberAt(src, c).node.text)
  {
    var p := NumberAt(src, c);
    var s := src[c..p.next];
    if Next(src, c, "0b") || Next(src, c, "0o") || Next(src, c, "0x") {
      var m := if Next(src, c, "0b") then BinaryMap else if Next(src, c, "0o") then OctalMap else HexadecimalMap;
      FloatShape(src, c + 2, m);
      assert s[..2] == src[c..c + 2];
      assert s[2..] == src[c + 2..p.next];
    } else {
      FloatShape(src, c, DecimalMap);
    }
  }

  /** A run of `m` characters from `i` to `j` that stops at `j` is the longest one. */
  lemma {:induction false} RunEndAt(src: string, i: nat, j: nat, m: CharMap)
    requires i <= j <= |src| && !NextCharIn(src, j, m)
    requires forall k :: i <= k < j ==> IsCharIn(m, src[k])
    decreases j - i
    ensures RunEnd(src, i, m) == j
  {
    if i < j {
      RunEndAt(src, i + 1, j, m);
    }
  }

  /**
   * The converse for decimal integers: a digit run that ends at a character
   * that is neither part of an identifier nor `.` is one number node.
   */
  lemma IntegerAccepted(src: string, c: nat, j: nat)
    requires c < j <= |src| && Digits(src[c..j], DecimalMap)
    requires !NextCharIn(src, j, IdentifierMap) && !NextChar(src, j, '.')
    ensures NodeAt(src, c) == Popped(Number(src[c..j]), None, j, 0)
  {
    forall k | c <= k < j
      ensures IsCharIn(DecimalMap, src[k])
    {
      assert src[c..j][k - c] == src[k];
    }
    RunEndAt(src, c, j, DecimalMap);
    assert IsDecimalDigit(src[c]);
    if c + 1 < |src| {
      assert src[c..c + 2] == [src[c], src[c + 1]];
    }
    assert !Next(src, c, "0b") && !Next(src, c, "0o") && !Next(src, c, "0x");
    assert !Next(src, c, CommentStart);
  }
}
