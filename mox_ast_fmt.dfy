/**
 * The whitespace and comment normaliser of the current draft (ast_fmt.go).
 * The two regular-expression replacements are written as scanners over
 * maximal runs of characters; trimPolyMultilines is modelled twice, as the
 * pattern matches and as evidently intended. FmtNodeSpace, FmtNodeComment
 * and FmtMox use the pattern as written; FmtNodeSpaceIntended is the
 * intended variant.
 */
module MoxAstFmt {
  import opened MoxNodes
  import opened GoStrings

  /** The `[ \t\v]` class of regTrailingSpaceMultiline. */
  predicate IsHSpace(c: char) {
    c == ' ' || c == '\t' || c == '\U{000B}'
  }

  /** A character of a line break `\r\n`, `\r` or `\n`. */
  predicate IsBreakChar(c: char) {
    c == '\r' || c == '\n'
  }

  /** The end of the run of horizontal whitespace starting at `i`. */
  function HSpaceRunEnd(s: string, i: nat): (j: nat)
    requires i <= |s|
    decreases |s| - i
    ensures i <= j <= |s|
    ensures forall k :: i <= k < j ==> IsHSpace(s[k])
    ensures j < |s| ==> !IsHSpace(s[j])
  {
    if i < |s| && IsHSpace(s[i]) then HSpaceRunEnd(s, i + 1) else i
  }

  /** The end of the run of line-break characters starting at `i`. */
  function BreakRunEnd(s: string, i: nat): (j: nat)
    requires i <= |s|
    decreases |s| - i
    ensures i <= j <= |s|
    ensures forall k :: i <= k < j ==> IsBreakChar(s[k])
    ensures j < |s| ==> !IsBreakChar(s[j])
  {
    if i < |s| && IsBreakChar(s[i]) then BreakRunEnd(s, i + 1) else i
  }

  // ----- subsequences -----

  /** `a` is `b` with some characters deleted. */
  predicate Subsequence(a: string, b: string)
    decreases |b|
  {
    a == [] || (b != [] && ((a[0] == b[0] && Subsequence(a[1..], b[1..])) || Subsequence(a, b[1..])))
  }

  lemma {:induction false} SubsequenceRefl(a: string)
    decreases |a|
    ensures Subsequence(a, a)
  {
    if a != [] {
      SubsequenceRefl(a[1..]);
    }
  }

  lemma {:induction false} SubsequenceConcat(a1: string, b1: string, a2: string, b2: string)
    requires Subsequence(a1, b1) && Subsequence(a2, b2)
    decreases |b1|, |b2|
    ensures Subsequence(a1 + a2, b1 + b2)
  {
    if b1 == [] {
      assert a1 == [];
      assert a1 + a2 == a2 && b1 + b2 == b2;
    } else if a1 != [] && a1[0] == b1[0] && Subsequence(a1[1..], b1[1..]) {
      SubsequenceConcat(a1[1..], b1[1..], a2, b2);
      assert (a1 + a2)[1..] == a1[1..] + a2;
      assert (b1 + b2)[1..] == b1[1..] + b2;
    } else if a1 != [] {
      SubsequenceConcat(a1, b1[1..], a2, b2);
      assert (b1 + b2)[1..] == b1[1..] + b2;
    } else {
      // a1 is empty: a2 is a subsequence of b2, and so of b1 + b2.
      assert a1 + a2 == a2;
      SubsequenceSuffix(a2, b1, b2);
    }
  }

  lemma {:induction false} SubsequenceSuffix(a: string, b1: string, b2: string)
    requires Subsequence(a, b2)
    decreases |b1|
    ensures Subsequence(a, b1 + b2)
  {
    if b1 != [] {
      SubsequenceSuffix(a, b1[1..], b2);
      assert (b1 + b2)[1..] == b1[1..] + b2;
    } else {
      assert b1 + b2 == b2;
    }
  }

  lemma {:induction false} SubsequenceTrans(a: string, b: string, c: string)
    requires Subsequence(a, b) && Subsequence(b, c)
    decreases |c|
    ensures Subsequence(a, c)
  {
    if a != [] {
      if Subsequence(b, c[1..]) {
        SubsequenceTrans(a, b, c[1..]);
      } else if a[0] == b[0] && Subsequence(a[1..], b[1..]) {
        SubsequenceTrans(a[1..], b[1..], c[1..]);
      } else {
        SubsequenceTrans(a, b[1..], c[1..]);
      }
    }
  }

  // ----- trimTrailingSpaceMultiline -----

  /**
   * trimTrailingSpaceMultiline: every run of horizontal whitespace that a line
   * break follows is deleted. A run that does not end at a break fails the
   * pattern at each of its positions, so it is copied whole; the break itself
   * (`\r\n` as one alternative, or `\r`, or `\n`) is kept either way.
   */
  function TrimTrailing(s: string): (r: string)
    decreases |s|
    ensures s != [] && !IsHSpace(s[0]) ==> r != [] && r[0] == s[0]
    ensures |r| <= |s|
  {
    if s == [] then []
    else
      var e := HSpaceRunEnd(s, 0);
      if e == 0 then [s[0]] + TrimTrailing(s[1..])
      else (if e < |s| && IsBreakChar(s[e]) then [] else s[..e]) + TrimTrailing(s[e..])
  }

  /** No horizontal whitespace right before a line break. */
  predicate NoTrailingSpace(s: string) {
    forall k :: 0 <= k < |s| - 1 ==> !(IsHSpace(s[k]) && IsBreakChar(s[k + 1]))
  }

  /** Gluing two texts keeps NoTrailingSpace unless the seam has a space before a break. */
  lemma NoTrailingSpaceConcat(a: string, b: string)
    requires NoTrailingSpace(a) && NoTrailingSpace(b)
    requires a != [] && b != [] ==> !(IsHSpace(a[|a| - 1]) && IsBreakChar(b[0]))
    ensures NoTrailingSpace(a + b)
  {
    var ab := a + b;
    forall k | 0 <= k < |ab| - 1
      ensures !(IsHSpace(ab[k]) && IsBreakChar(ab[k + 1]))
    {
      if k + 1 < |a| {
        assert ab[k] == a[k] && ab[k + 1] == a[k + 1];
      } else if k >= |a| {
        assert ab[k] == b[k - |a|] && ab[k + 1] == b[k + 1 - |a|];
      }
    }
  }

  /** The output has no horizontal whitespace before a line break. */
  lemma {:induction false} TrimTrailingNoTrailingSpace(s: string)
    decreases |s|
    ensures NoTrailingSpace(TrimTrailing(s))
  {
    if s != [] {
      var e := HSpaceRunEnd(s, 0);
      if e == 0 {
        TrimTrailingNoTrailingSpace(s[1..]);
        NoTrailingSpaceConcat([s[0]], TrimTrailing(s[1..]));
      } else {
        TrimTrailingNoTrailingSpace(s[e..]);
        if !(e < |s| && IsBreakChar(s[e])) {
          assert NoTrailingSpace(s[..e]);
          NoTrailingSpaceConcat(s[..e], TrimTrailing(s[e..]));
        } else {
          assert TrimTrailing(s) == TrimTrailing(s[e..]);
        }
      }
    }
  }

  /** Text without such whitespace is left as it is. */
  lemma {:induction false} TrimTrailingFixpoint(s: string)
    requires NoTrailingSpace(s)
    decreases |s|
    ensures TrimTrailing(s) == s
  {
    if s != [] {
      var e := HSpaceRunEnd(s, 0);
      if e == 0 {
        assert NoTrailingSpace(s[1..]) by {
          forall k | 0 <= k < |s[1..]| - 1 ensures !(IsHSpace(s[1..][k]) && IsBreakChar(s[1..][k + 1])) {
            assert s[1..][k] == s[k + 1] && s[1..][k + 1] == s[k + 2];
          }
        }
        TrimTrailingFixpoint(s[1..]);
      } else {
        assert !(e < |s| && IsBreakChar(s[e])) by {
          if e < |s| { assert IsHSpace(s[e - 1]); }
        }
        assert NoTrailingSpace(s[e..]) by {
          forall k | 0 <= k < |s[e..]| - 1 ensures !(IsHSpace(s[e..][k]) && IsBreakChar(s[e..][k + 1])) {
            assert s[e..][k] == s[e + k] && s[e..][k + 1] == s[e + k + 1];
          }
        }
        TrimTrailingFixpoint(s[e..]);
      }
    }
  }

  /** It only deletes characters. */
  lemma {:induction false} TrimTrailingSubsequence(s: string)
    decreases |s|
    ensures Subsequence(TrimTrailing(s), s)
  {
    if s != [] {
      var e := HSpaceRunEnd(s, 0);
      if e == 0 {
        TrimTrailingSubsequence(s[1..]);
        SubsequenceRefl([s[0]]);
        SubsequenceConcat([s[0]], [s[0]], TrimTrailing(s[1..]), s[1..]);
        assert [s[0]] + s[1..] == s;
      } else {
        TrimTrailingSubsequence(s[e..]);
        assert s[..e] + s[e..] == s;
        if e < |s| && IsBreakChar(s[e]) {
          SubsequenceSuffix(TrimTrailing(s[e..]), s[..e], s[e..]);
          assert TrimTrailing(s) == TrimTrailing(s[e..]);
        } else {
          SubsequenceRefl(s[..e]);
          SubsequenceConcat(s[..e], s[..e], TrimTrailing(s[e..]), s[e..]);
          assert TrimTrailing(s) == s[..e] + TrimTrailing(s[e..]);
        }
      }
    }
  }

  predicate NotHSpace(c: char) {
    !IsHSpace(c)
  }

  predicate NotBreakChar(c: char) {
    !IsBreakChar(c)
  }

  /** The characters of `s` that satisfy `f`, in order. */
  function Filter(f: char -> bool, s: string): (r: string)
    ensures forall k :: 0 <= k < |r| ==> f(r[k])
  {
    if s == [] then [] else (if f(s[0]) then [s[0]] else []) + Filter(f, s[1..])
  }

  lemma {:induction false} FilterConcat(f: char -> bool, a: string, b: string)
    decreases |a|
    ensures Filter(f, a + b) == Filter(f, a) + Filter(f, b)
  {
    if a == [] {
      assert a + b == b;
    } else {
      FilterConcat(f, a[1..], b);
      assert (a + b)[1..] == a[1..] + b;
    }
  }

  /** Text none of whose characters satisfies `f` filters to nothing. */
  lemma {:induction false} FilterNone(f: char -> bool, s: string)
    requires forall k :: 0 <= k < |s| ==> !f(s[k])
    decreases |s|
    ensures Filter(f, s) == []
  {
    if s != [] {
      FilterNone(f, s[1..]);
    }
  }

  /** Everything but horizontal whitespace is kept, in order. */
  lemma {:induction false} TrimTrailingKeepsText(s: string)
    decreases |s|
    ensures Filter(NotHSpace, TrimTrailing(s)) == Filter(NotHSpace, s)
  {
    if s != [] {
      var e := HSpaceRunEnd(s, 0);
      if e == 0 {
        TrimTrailingKeepsText(s[1..]);
        FilterConcat(NotHSpace, [s[0]], TrimTrailing(s[1..]));
        assert [s[0]] + s[1..] == s;
        FilterConcat(NotHSpace, [s[0]], s[1..]);
      } else {
        TrimTrailingKeepsText(s[e..]);
        FilterNone(NotHSpace, s[..e]);
        FilterConcat(NotHSpace, s[..e], s[e..]);
        assert s[..e] + s[e..] == s;
        var piece := if e < |s| && IsBreakChar(s[e]) then [] else s[..e];
        assert TrimTrailing(s) == piece + TrimTrailing(s[e..]);
        FilterConcat(NotHSpace, piece, TrimTrailing(s[e..]));
        FilterNone(NotHSpace, piece);
      }
    }
  }

  // ----- trimPolyMultilines -----

  /** A run of line-break characters. */
  predicate IsBreakRun(s: string) {
    forall k :: 0 <= k < |s| ==> IsBreakChar(s[k])
  }

  /** `\r\n` at `p`. */
  predicate CrLfAt(s: string, p: nat) {
    p + 1 < |s| && s[p] == '\r' && s[p + 1] == '\n'
  }

  /** The length of the line break at `p`, matched leftmost-first: `\r\n` before `\r`. */
  function BreakLen(s: string, p: nat): (n: nat)
    requires p < |s|
    ensures 1 <= n && p + n <= |s|
  {
    if CrLfAt(s, p) then 2 else 1
  }

  /** How many line breaks a run of break characters holds, `\r\n` counting as one. */
  function BreakCount(s: string): nat
    decreases |s|
  {
    if s == [] then 0 else 1 + BreakCount(s[BreakLen(s, 0)..])
  }

  /** The first two line breaks of a run holding at least three. */
  function FirstTwoBreaks(run: string): (r: string)
    requires BreakCount(run) >= 3
    ensures BreakCount(r) == 2
    ensures |r| < |run| && r == run[..|r|]
  {
    var t1 := BreakLen(run, 0);
    var rest := run[t1..];
    assert BreakCount(run) == 1 + BreakCount(rest);
    var t2 := BreakLen(rest, 0);
    assert BreakCount(rest) == 1 + BreakCount(rest[t2..]);
    assert t2 == BreakLen(run, t1);
    assert rest[t2..] != [];
    var r := run[..t1 + t2];
    assert BreakLen(r, 0) == t1;
    assert r[t1..] == rest[..t2];
    assert BreakLen(r[t1..], 0) == t2;
    assert r[t1..][t2..] == [];
    assert BreakCount(r[t1..]) == 1 + BreakCount(r[t1..][t2..]) == 1;
    assert BreakCount(r) == 1 + BreakCount(r[t1..]);
    r
  }

  /** What happens to one maximal run of line breaks: from the third break on, it goes. */
  function SqueezeRun(run: string): (r: string)
    ensures BreakCount(run) <= 2 ==> r == run
    ensures BreakCount(run) >= 3 ==> BreakCount(r) == 2
    ensures |r| <= |run| && r == run[..|r|]
  {
    if BreakCount(run) >= 3 then FirstTwoBreaks(run) else run
  }

  /**
   * trimPolyMultilines, as intended: every run of three or more line breaks
   * is cut to its first two, with `\r\n` one break. Line-break characters
   * come in maximal runs; the pattern can only match at the start of one,
   * and then up to its end.
   */
  function TrimPolyMultilines(s: string): (r: string)
    decreases |s|
    ensures s != [] ==> r != [] && r[0] == s[0]
    ensures |r| <= |s|
  {
    if s == [] then []
    else
      var e := BreakRunEnd(s, 0);
      if e == 0 then [s[0]] + TrimPolyMultilines(s[1..])
      else
        assert BreakCount(s[..e]) >= 1;
        SqueezeRun(s[..e]) + TrimPolyMultilines(s[e..])
  }

  /** Every maximal run of line breaks holds at most two breaks. */
  predicate FewBreaks(s: string)
    decreases |s|
  {
    s == [] ||
    var e := BreakRunEnd(s, 0);
    if e == 0 then FewBreaks(s[1..]) else BreakCount(s[..e]) <= 2 && FewBreaks(s[e..])
  }

  /** A run of break characters from `i` to `j` that stops at `j` is the whole run. */
  lemma {:induction false} BreakRunEndAt(s: string, i: nat, j: nat)
    requires i <= j <= |s| && (j < |s| ==> !IsBreakChar(s[j]))
    requires forall k :: i <= k < j ==> IsBreakChar(s[k])
    decreases j - i
    ensures BreakRunEnd(s, i) == j
  {
    if i < j {
      BreakRunEndAt(s, i + 1, j);
    }
  }

  /** A break run followed by text that starts with no break splits there. */
  lemma RunThenText(run: string, t: string)
    requires IsBreakRun(run) && (t != [] ==> !IsBreakChar(t[0]))
    ensures BreakRunEnd(run + t, 0) == |run|
    ensures (run + t)[..|run|] == run && (run + t)[|run|..] == t
  {
    var s := run + t;
    forall k | 0 <= k < |run| ensures IsBreakChar(s[k]) {
      assert s[k] == run[k];
    }
    if |run| < |s| {
      assert s[|run|] == t[0];
    }
    BreakRunEndAt(s, 0, |run|);
  }

  /** After the cut no run holds three line breaks. */
  lemma {:induction false} TrimPolyFewBreaks(s: string)
    decreases |s|
    ensures FewBreaks(TrimPolyMultilines(s))
  {
    if s != [] {
      var e := BreakRunEnd(s, 0);
      if e == 0 {
        var t := TrimPolyMultilines(s[1..]);
        TrimPolyFewBreaks(s[1..]);
        assert ([s[0]] + t)[1..] == t;
        assert BreakRunEnd([s[0]] + t, 0) == 0;
      } else {
        var r := SqueezeRun(s[..e]);
        var t := TrimPolyMultilines(s[e..]);
        TrimPolyFewBreaks(s[e..]);
        assert IsBreakRun(r) by {
          forall k | 0 <= k < |r| ensures IsBreakChar(r[k]) {
            assert r[k] == s[..e][k];
          }
        }
        assert BreakCount(s[..e]) >= 1;
        RunThenText(r, t);
      }
    }
  }

  /** Text with at most two breaks per run is left as it is. */
  lemma {:induction false} TrimPolyFixpoint(s: string)
    requires FewBreaks(s)
    decreases |s|
    ensures TrimPolyMultilines(s) == s
  {
    if s != [] {
      var e := BreakRunEnd(s, 0);
      if e == 0 {
        TrimPolyFixpoint(s[1..]);
      } else {
        TrimPolyFixpoint(s[e..]);
        assert s[..e] + s[e..] == s;
      }
    }
  }

  /** It only deletes characters. */
  lemma {:induction false} TrimPolySubsequence(s: string)
    decreases |s|
    ensures Subsequence(TrimPolyMultilines(s), s)
  {
    if s != [] {
      var e := BreakRunEnd(s, 0);
      if e == 0 {
        TrimPolySubsequence(s[1..]);
        SubsequenceRefl([s[0]]);
        SubsequenceConcat([s[0]], [s[0]], TrimPolyMultilines(s[1..]), s[1..]);
        assert [s[0]] + s[1..] == s;
      } else {
        var r := SqueezeRun(s[..e]);
        TrimPolySubsequence(s[e..]);
        PrefixSubsequence(r, s[..e]);
        SubsequenceConcat(r, s[..e], TrimPolyMultilines(s[e..]), s[e..]);
        assert s[..e] + s[e..] == s;
      }
    }
  }

  /** A prefix is a subsequence. */
  lemma PrefixSubsequence(a: string, b: string)
    requires |a| <= |b| && a == b[..|a|]
    ensures Subsequence(a, b)
  {
    SubsequenceRefl(a);
    SubsequenceSuffix(a, [], a);
    SubsequenceConcat(a, a, [], b[|a|..]);
    assert a + [] == a;
    assert a + b[|a|..] == b;
  }

  /** Everything but line-break characters is kept, in order. */
  lemma {:induction false} TrimPolyKeepsText(s: string)
    decreases |s|
    ensures Filter(NotBreakChar, TrimPolyMultilines(s)) == Filter(NotBreakChar, s)
  {
    if s != [] {
      var e := BreakRunEnd(s, 0);
      if e == 0 {
        TrimPolyKeepsText(s[1..]);
        FilterConcat(NotBreakChar, [s[0]], TrimPolyMultilines(s[1..]));
        assert [s[0]] + s[1..] == s;
        FilterConcat(NotBreakChar, [s[0]], s[1..]);
      } else {
        TrimPolyKeepsText(s[e..]);
        assert s[..e] + s[e..] == s;
        RunKeepsText(s[..e], SqueezeRun(s[..e]), s[e..], TrimPolyMultilines(s[e..]));
      }
    }
  }

  /** One run step of the KeepsText lemmas: a run and a prefix of it have no other characters. */
  lemma RunKeepsText(run: string, r: string, rest: string, trimmed: string)
    requires IsBreakRun(run) && |r| <= |run| && r == run[..|r|]
    requires Filter(NotBreakChar, trimmed) == Filter(NotBreakChar, rest)
    ensures Filter(NotBreakChar, r + trimmed) == Filter(NotBreakChar, run + rest)
  {
    assert forall k :: 0 <= k < |r| ==> r[k] == run[k];
    FilterNone(NotBreakChar, run);
    FilterNone(NotBreakChar, r);
    FilterConcat(NotBreakChar, r, trimmed);
    FilterConcat(NotBreakChar, run, rest);
  }

  lemma NoTrailingSpaceSuffix(s: string, i: nat)
    requires NoTrailingSpace(s) && i <= |s|
    ensures NoTrailingSpace(s[i..])
  {
    forall k | 0 <= k < |s[i..]| - 1 ensures !(IsHSpace(s[i..][k]) && IsBreakChar(s[i..][k + 1])) {
      assert s[i..][k] == s[i + k] && s[i..][k + 1] == s[i + k + 1];
    }
  }

  /** Deleting line breaks never puts whitespace before a break. */
  lemma {:induction false} TrimPolyNoTrailingSpace(s: string)
    requires NoTrailingSpace(s)
    decreases |s|
    ensures NoTrailingSpace(TrimPolyMultilines(s))
  {
    if s != [] {
      var e := BreakRunEnd(s, 0);
      if e == 0 {
        NoTrailingSpaceSuffix(s, 1);
        TrimPolyNoTrailingSpace(s[1..]);
        NoTrailingSpaceConcat([s[0]], TrimPolyMultilines(s[1..]));
      } else {
        var r := SqueezeRun(s[..e]);
        NoTrailingSpaceSuffix(s, e);
        TrimPolyNoTrailingSpace(s[e..]);
        assert forall k :: 0 <= k < |r| ==> r[k] == s[k] && IsBreakChar(r[k]);
        NoTrailingSpaceConcat(r, TrimPolyMultilines(s[e..]));
      }
    }
  }

  // ----- trimPolyMultilines as written -----

  /**
   * The `$1` group regPolyMultiline captures at a run of `n >= 3` break
   * characters. Go's regexp picks the match a backtracking matcher finds
   * first: for each of the two captured breaks it tries `\r\n` before `\r`,
   * and takes the first choice that leaves one more break for the `+` part.
   * Every single `\r` or `\n` is a break, so some choice always works.
   */
  function BacktrackGroup(run: string): (g: nat)
    requires |run| >= 3
    ensures 2 <= g < |run| && g <= 4
  {
    if CrLfAt(run, 0) && CrLfAt(run, 2) && 4 < |run| then 4  // \r\n, \r\n
    else if CrLfAt(run, 0) && 3 < |run| then 3                // \r\n, \r
    else if CrLfAt(run, 0) then 2                             // \r, \n
    else if CrLfAt(run, 1) && 3 < |run| then 3                // one, \r\n
    else 2                                                     // one, one
  }

  /** A run never holds more breaks than characters. */
  lemma {:induction false} BreakCountLength(s: string)
    decreases |s|
    ensures BreakCount(s) <= |s|
  {
    if s != [] {
      BreakCountLength(s[BreakLen(s, 0)..]);
    }
  }

  /** The captured group holds at most two line breaks, counted leftmost-first. */
  lemma GroupBreaks(run: string)
    requires |run| >= 3
    ensures BreakCount(run[..BacktrackGroup(run)]) <= 2
  {
    var g := BacktrackGroup(run);
    var r := run[..g];
    var t := BreakLen(r, 0);
    assert BreakCount(r) == 1 + BreakCount(r[t..]);
    if g == 2 {
      BreakCountLength(r[t..]);
    } else if CrLfAt(run, 0) {
      assert t == 2;
      BreakCountLength(r[2..]);
      if g == 4 {
        assert CrLfAt(r[2..], 0) && r[2..][2..] == [];
      }
    } else {
      assert g == 3 && t == 1 && CrLfAt(r[1..], 0);
      assert r[1..][2..] == [];
    }
  }

  /**
   * What regPolyMultiline.ReplaceAllString does to one maximal run of break
   * characters: a run of at least three characters is cut to the captured
   * group, two to four characters holding at most two breaks; a shorter run
   * does not match and stays.
   */
  function SqueezeRunAsWritten(run: string): (r: string)
    ensures |run| < 3 ==> r == run
    ensures |run| >= 3 ==> 2 <= |r| <= 4 && |r| < |run|
    ensures |r| <= |run| && r == run[..|r|]
    ensures BreakCount(r) <= 2
  {
    if |run| >= 3 then
      GroupBreaks(run);
      run[..BacktrackGroup(run)]
    else
      BreakCountLength(run);
      run
  }

  /** trimPolyMultilines exactly as ast_fmt.go computes it. */
  function TrimPolyMultilinesAsWritten(s: string): (r: string)
    decreases |s|
    ensures s != [] ==> r != [] && r[0] == s[0]
    ensures |r| <= |s|
  {
    if s == [] then []
    else
      var e := BreakRunEnd(s, 0);
      if e == 0 then [s[0]] + TrimPolyMultilinesAsWritten(s[1..])
      else SqueezeRunAsWritten(s[..e]) + TrimPolyMultilinesAsWritten(s[e..])
  }

  /** Every maximal run of break characters is at most two characters long. */
  predicate ShortRuns(s: string)
    decreases |s|
  {
    s == [] ||
    var e := BreakRunEnd(s, 0);
    if e == 0 then ShortRuns(s[1..]) else e <= 2 && ShortRuns(s[e..])
  }

  /** As written, too, no run holds three line breaks afterwards. */
  lemma {:induction false} TrimPolyAsWrittenFewBreaks(s: string)
    decreases |s|
    ensures FewBreaks(TrimPolyMultilinesAsWritten(s))
  {
    if s != [] {
      var e := BreakRunEnd(s, 0);
      if e == 0 {
        var t := TrimPolyMultilinesAsWritten(s[1..]);
        TrimPolyAsWrittenFewBreaks(s[1..]);
        assert ([s[0]] + t)[1..] == t;
        assert BreakRunEnd([s[0]] + t, 0) == 0;
      } else {
        var r := SqueezeRunAsWritten(s[..e]);
        var t := TrimPolyMultilinesAsWritten(s[e..]);
        TrimPolyAsWrittenFewBreaks(s[e..]);
        assert IsBreakRun(r) by {
          forall k | 0 <= k < |r| ensures IsBreakChar(r[k]) {
            assert r[k] == s[..e][k];
          }
        }
        RunThenText(r, t);
      }
    }
  }

  /** Text whose runs are at most two characters long is left as it is. */
  lemma {:induction false} TrimPolyAsWrittenFixpoint(s: string)
    requires ShortRuns(s)
    decreases |s|
    ensures TrimPolyMultilinesAsWritten(s) == s
  {
    if s != [] {
      var e := BreakRunEnd(s, 0);
      if e == 0 {
        TrimPolyAsWrittenFixpoint(s[1..]);
      } else {
        TrimPolyAsWrittenFixpoint(s[e..]);
        assert s[..e] + s[e..] == s;
      }
    }
  }

  /** As written, it only deletes characters. */
  lemma {:induction false} TrimPolyAsWrittenSubsequence(s: string)
    decreases |s|
    ensures Subsequence(TrimPolyMultilinesAsWritten(s), s)
  {
    if s != [] {
      var e := BreakRunEnd(s, 0);
      if e == 0 {
        TrimPolyAsWrittenSubsequence(s[1..]);
        SubsequenceRefl([s[0]]);
        SubsequenceConcat([s[0]], [s[0]], TrimPolyMultilinesAsWritten(s[1..]), s[1..]);
        assert [s[0]] + s[1..] == s;
      } else {
        var r := SqueezeRunAsWritten(s[..e]);
        TrimPolyAsWrittenSubsequence(s[e..]);
        PrefixSubsequence(r, s[..e]);
        SubsequenceConcat(r, s[..e], TrimPolyMultilinesAsWritten(s[e..]), s[e..]);
        assert s[..e] + s[e..] == s;
      }
    }
  }

  /** As written, everything but line-break characters is kept, in order. */
  lemma {:induction false} TrimPolyAsWrittenKeepsText(s: string)
    decreases |s|
    ensures Filter(NotBreakChar, TrimPolyMultilinesAsWritten(s)) == Filter(NotBreakChar, s)
  {
    if s != [] {
      var e := BreakRunEnd(s, 0);
      if e == 0 {
        TrimPolyAsWrittenKeepsText(s[1..]);
        FilterConcat(NotBreakChar, [s[0]], TrimPolyMultilinesAsWritten(s[1..]));
        assert [s[0]] + s[1..] == s;
        FilterConcat(NotBreakChar, [s[0]], s[1..]);
      } else {
        TrimPolyAsWrittenKeepsText(s[e..]);
        assert s[..e] + s[e..] == s;
        RunKeepsText(s[..e], SqueezeRunAsWritten(s[..e]), s[e..], TrimPolyMultilinesAsWritten(s[e..]));
      }
    }
  }

  /** As written, deleting line breaks never puts whitespace before a break. */
  lemma {:induction false} TrimPolyAsWrittenNoTrailingSpace(s: string)
    requires NoTrailingSpace(s)
    decreases |s|
    ensures NoTrailingSpace(TrimPolyMultilinesAsWritten(s))
  {
    if s != [] {
      var e := BreakRunEnd(s, 0);
      if e == 0 {
        NoTrailingSpaceSuffix(s, 1);
        TrimPolyAsWrittenNoTrailingSpace(s[1..]);
        NoTrailingSpaceConcat([s[0]], TrimPolyMultilinesAsWritten(s[1..]));
      } else {
        var r := SqueezeRunAsWritten(s[..e]);
        NoTrailingSpaceSuffix(s, e);
        TrimPolyAsWrittenNoTrailingSpace(s[e..]);
        assert forall k :: 0 <= k < |r| ==> r[k] == s[k] && IsBreakChar(r[k]);
        NoTrailingSpaceConcat(r, TrimPolyMultilinesAsWritten(s[e..]));
      }
    }
  }

  /** As written, a last character that is not a line break stays last. */
  lemma {:induction false} TrimPolyAsWrittenLast(s: string)
    requires s != [] && !IsBreakChar(s[|s| - 1])
    decreases |s|
    ensures var r := TrimPolyMultilinesAsWritten(s); r != [] && r[|r| - 1] == s[|s| - 1]
  {
    var e := BreakRunEnd(s, 0);
    if e == 0 {
      if |s| > 1 {
        TrimPolyAsWrittenLast(s[1..]);
      }
    } else {
      assert e < |s|;
      TrimPolyAsWrittenLast(s[e..]);
    }
  }

  /** In text without `\r` every break is one character, and a run of `n` holds `n` breaks. */
  lemma {:induction false} BreakCountWithoutCr(s: string)
    requires forall k :: 0 <= k < |s| ==> s[k] != '\r'
    decreases |s|
    ensures BreakCount(s) == |s|
  {
    if s != [] {
      assert BreakLen(s, 0) == 1;
      BreakCountWithoutCr(s[1..]);
    }
  }

  /**
   * Without `\r` there is no pair to split: the pattern as written cuts
   * exactly what the intended cut does.
   */
  lemma {:induction false} TrimPolyAgreeWithoutCr(s: string)
    requires forall k :: 0 <= k < |s| ==> s[k] != '\r'
    decreases |s|
    ensures TrimPolyMultilinesAsWritten(s) == TrimPolyMultilines(s)
  {
    if s != [] {
      var e := BreakRunEnd(s, 0);
      if e == 0 {
        TrimPolyAgreeWithoutCr(s[1..]);
      } else {
        TrimPolyAgreeWithoutCr(s[e..]);
        var run := s[..e];
        BreakCountWithoutCr(run);
        if |run| >= 3 {
          assert !CrLfAt(run, 0) && !CrLfAt(run, 1);
          var r := FirstTwoBreaks(run);
          BreakCountWithoutCr(r);
        }
      }
    }
  }

  /**
   * Two CRLF line breaks are only two breaks, yet the pattern matches them as
   * `\r\n`, `\r` and `\n` and keeps `\r\n\r`: the second CRLF is split.
   */
  lemma TrimPolyAsWrittenSplitsCrLf()
    ensures TrimPolyMultilinesAsWritten("a\r\n\r\nb") == "a\r\n\rb"
    ensures TrimPolyMultilines("a\r\n\r\nb") == "a\r\n\r\nb"
  {
    var s := "a\r\n\r\nb";
    BreakRunEndAt(s[1..], 0, 4);
    assert s[1..][..4] == "\r\n\r\n" && s[1..][4..] == "b";
    assert BreakRunEnd("b", 0) == 0;
    var run := "\r\n\r\n";
    assert run[2..][2..] == [];
    assert BreakCount(run[2..]) == 1;
    assert BreakCount(run) == 2;
  }

  // ----- FmtNodeSpace -----

  /** FmtNodeSpace: trailing whitespace first, then runs of line breaks, both as written. */
  function FmtNodeSpace(s: string): string {
    TrimPolyMultilinesAsWritten(TrimTrailing(s))
  }

  /**
   * The output has no horizontal whitespace before a line break, no more than
   * two line breaks in a row, and is the input with characters deleted.
   */
  lemma FmtNodeSpaceNormal(s: string)
    ensures var r := FmtNodeSpace(s);
      NoTrailingSpace(r) && FewBreaks(r) && Subsequence(r, s)
  {
    var t := TrimTrailing(s);
    TrimTrailingNoTrailingSpace(s);
    TrimPolyAsWrittenNoTrailingSpace(t);
    TrimPolyAsWrittenFewBreaks(t);
    TrimTrailingSubsequence(s);
    TrimPolyAsWrittenSubsequence(t);
    SubsequenceTrans(FmtNodeSpace(s), t, s);
  }

  /** Output whose runs are at most two characters long is not changed by a second pass. */
  lemma FmtNodeSpaceStable(s: string)
    requires ShortRuns(FmtNodeSpace(s))
    ensures FmtNodeSpace(FmtNodeSpace(s)) == FmtNodeSpace(s)
  {
    var r := FmtNodeSpace(s);
    FmtNodeSpaceNormal(s);
    TrimTrailingFixpoint(r);
    TrimPolyAsWrittenFixpoint(r);
  }

  /** Text with no horizontal whitespace at all has nothing for trimTrailingSpaceMultiline to cut. */
  lemma NoHSpaceUntrimmed(s: string)
    requires forall k :: 0 <= k < |s| ==> !IsHSpace(s[k])
    ensures TrimTrailing(s) == s
  {
    TrimTrailingFixpoint(s);
  }

  /**
   * FmtNodeSpace is not idempotent: two CRLF breaks lose their last `\n`,
   * and the `\r\n\r` left behind is cut again to one CRLF.
   */
  lemma FmtNodeSpaceNotIdempotent()
    ensures FmtNodeSpace("\r\n\r\n") == "\r\n\r"
    ensures FmtNodeSpace("\r\n\r") == "\r\n"
  {
    SpaceFirstPass("\r\n\r\n");
    SpaceSecondPass("\r\n\r");
  }

  lemma SpaceFirstPass(s: string)
    requires s == "\r\n\r\n"
    ensures FmtNodeSpace(s) == "\r\n\r"
  {
    NoHSpaceUntrimmed(s);
    BreakRunEndAt(s, 0, 4);
    assert s[..4] == s && s[4..] == [];
    assert BacktrackGroup(s) == 3;
  }

  lemma SpaceSecondPass(s: string)
    requires s == "\r\n\r"
    ensures FmtNodeSpace(s) == "\r\n"
  {
    NoHSpaceUntrimmed(s);
    BreakRunEndAt(s, 0, 3);
    assert s[..3] == s && s[3..] == [];
    assert BacktrackGroup(s) == 2;
  }

  // ----- FmtNodeSpace as intended -----

  /** FmtNodeSpace with the intended cut of trimPolyMultilines. */
  function FmtNodeSpaceIntended(s: string): string {
    TrimPolyMultilines(TrimTrailing(s))
  }

  /** As intended, the output is normal in the same sense. */
  lemma FmtNodeSpaceIntendedNormal(s: string)
    ensures var r := FmtNodeSpaceIntended(s);
      NoTrailingSpace(r) && FewBreaks(r) && Subsequence(r, s)
  {
    var t := TrimTrailing(s);
    TrimTrailingNoTrailingSpace(s);
    TrimPolyNoTrailingSpace(t);
    TrimPolyFewBreaks(t);
    TrimTrailingSubsequence(s);
    TrimPolySubsequence(t);
    SubsequenceTrans(FmtNodeSpaceIntended(s), t, s);
  }

  /** As intended, normalising whitespace twice is normalising it once. */
  lemma FmtNodeSpaceIntendedIdempotent(s: string)
    ensures FmtNodeSpaceIntended(FmtNodeSpaceIntended(s)) == FmtNodeSpaceIntended(s)
  {
    var r := FmtNodeSpaceIntended(s);
    FmtNodeSpaceIntendedNormal(s);
    TrimTrailingFixpoint(r);
    TrimPolyFixpoint(r);
  }

  // ----- FmtNodeComment -----

  const FmtCommentSingleLineEnclosingSpaces := false
  const FmtCommentMultiLineEnclosingNewlines := true

  /** The number of `\n` characters; `\r` is not counted. */
  function NewlineCount(s: string): nat {
    multiset(s)['\n']
  }

  /** countNewlines. */
  method CountNewlines(s: string) returns (count: nat)
    ensures count == NewlineCount(s)
  {
    count := 0;
    for i := 0 to |s|
      invariant count == multiset(s[..i])['\n']
    {
      assert s[..i + 1] == s[..i] + [s[i]];
      if s[i] == '\n' {
        count := count + 1;
      }
    }
    assert s[..|s|] == s;
  }

  /** Whether `s` holds a `\n`: the test FmtNodeComment makes of countNewlines. */
  predicate HasNewline(s: string) {
    '\n' in s
  }

  /** No `\n` is counted exactly when there is none. */
  lemma NewlineCountZero(s: string)
    ensures NewlineCount(s) == 0 <==> !HasNewline(s)
    ensures NewlineCount(s) == 0 <==> forall k :: 0 <= k < |s| ==> s[k] != '\n'
  {
    if NewlineCount(s) == 0 {
      forall k | 0 <= k < |s| ensures s[k] != '\n' {
        assert s[k] in multiset(s);
      }
    } else {
      assert '\n' in multiset(s);
      assert '\n' in s;
    }
  }

  /** FmtNodeComment. */
  function FmtNodeComment(s: string): string {
    var content := TrimTrailing(TrimSpace(s));
    if !HasNewline(content) then
      if FmtCommentSingleLineEnclosingSpaces then " " + content + " " else content
    else
      var spaced := FmtNodeSpace(content);
      if FmtCommentMultiLineEnclosingNewlines then "\n" + spaced + "\n" else spaced
  }

  /** A last character that is not horizontal whitespace survives trimTrailingSpaceMultiline. */
  lemma {:induction false} TrimTrailingLast(s: string)
    requires s != [] && !IsHSpace(s[|s| - 1])
    decreases |s|
    ensures var r := TrimTrailing(s); r != [] && r[|r| - 1] == s[|s| - 1]
  {
    var e := HSpaceRunEnd(s, 0);
    if e == 0 {
      if |s| > 1 {
        TrimTrailingLast(s[1..]);
      }
    } else {
      assert e < |s|;
      TrimTrailingLast(s[e..]);
    }
  }

  /** A last character that is not a line break survives trimPolyMultilines. */
  lemma {:induction false} TrimPolyLast(s: string)
    requires s != [] && !IsBreakChar(s[|s| - 1])
    decreases |s|
    ensures var r := TrimPolyMultilines(s); r != [] && r[|r| - 1] == s[|s| - 1]
  {
    var e := BreakRunEnd(s, 0);
    if e == 0 {
      if |s| > 1 {
        TrimPolyLast(s[1..]);
      }
    } else {
      assert e < |s|;
      TrimPolyLast(s[e..]);
    }
  }

  /**
   * Content without `\n` after trimming comes back on one line, with no
   * padding: no leading or trailing white space, nothing but horizontal
   * whitespace before line breaks removed.
   */
  lemma CommentSingleLine(s: string)
    requires !HasNewline(TrimTrailing(TrimSpace(s)))
    ensures FmtNodeComment(s) == TrimTrailing(TrimSpace(s))
    ensures !HasNewline(FmtNodeComment(s))
    ensures var r := FmtNodeComment(s); r != [] ==> !IsSpace(r[0]) && !IsSpace(r[|r| - 1])
    ensures NoTrailingSpace(FmtNodeComment(s))
    ensures Filter(NotHSpace, FmtNodeComment(s)) == Filter(NotHSpace, TrimSpace(s))
  {
    var t := TrimSpace(s);
    var r := TrimTrailing(t);
    CommentOneLine(s, r);
    TrimmedContent(t);
  }

  /** trimTrailingSpaceMultiline keeps the ends of text that has no white space at either end. */
  lemma TrimmedContent(t: string)
    requires t != [] ==> !IsSpace(t[0]) && !IsSpace(t[|t| - 1])
    ensures var r := TrimTrailing(t);
      && (r != [] ==> !IsSpace(r[0]) && !IsSpace(r[|r| - 1]))
      && (r != [] ==> r[0] == t[0] && r[|r| - 1] == t[|t| - 1])
      && NoTrailingSpace(r)
      && Filter(NotHSpace, r) == Filter(NotHSpace, t)
  {
    TrimTrailingNoTrailingSpace(t);
    TrimTrailingKeepsText(t);
    if t != [] {
      TrimTrailingLast(t);
    }
  }

  /**
   * Content with a `\n` is whitespace-normalised and wrapped in one `\n` on
   * each side; inside, the text starts and ends with no white space.
   */
  lemma CommentMultiLine(s: string)
    requires HasNewline(TrimTrailing(TrimSpace(s)))
    ensures FmtNodeComment(s) == "\n" + FmtNodeSpace(TrimTrailing(TrimSpace(s))) + "\n"
    ensures var inner := FmtNodeSpace(TrimTrailing(TrimSpace(s)));
      && inner != [] && !IsSpace(inner[0]) && !IsSpace(inner[|inner| - 1])
      && NoTrailingSpace(inner) && FewBreaks(inner) && Subsequence(inner, TrimSpace(s))
  {
    NewlineNotEmpty(s);
    SpacedContent(TrimSpace(s));
  }

  /** Content with a `\n` is not empty, and neither is the text it was trimmed from. */
  lemma NewlineNotEmpty(s: string)
    requires HasNewline(TrimTrailing(TrimSpace(s)))
    ensures var t := TrimSpace(s); TrimTrailing(t) != [] && t != []
    ensures var t := TrimSpace(s); !IsSpace(t[0]) && !IsSpace(t[|t| - 1])
  {
    var content := TrimTrailing(TrimSpace(s));
    assert content != [] by {
      var k :| 0 <= k < |content| && content[k] == '\n';
    }
  }

  /** The normal form of trimmed content that is not empty keeps its first and last character. */
  lemma SpacedContent(t: string)
    requires TrimTrailing(t) != []
    requires !IsSpace(t[0]) && !IsSpace(t[|t| - 1])
    ensures var inner := FmtNodeSpace(TrimTrailing(t));
      && inner != [] && !IsSpace(inner[0]) && !IsSpace(inner[|inner| - 1])
      && NoTrailingSpace(inner) && FewBreaks(inner) && Subsequence(inner, t)
  {
    var content := TrimTrailing(t);
    TrimmedContent(t);
    var inner := FmtNodeSpace(content);
    TrimPolyAsWrittenLast(content);
    FmtNodeSpaceNormal(content);
    TrimTrailingSubsequence(t);
    SubsequenceTrans(inner, content, t);
    TrimTrailingFixpoint(content);
    assert inner == TrimPolyMultilinesAsWritten(content);
    assert inner[0] == t[0] && inner[|inner| - 1] == t[|t| - 1];
  }

  /**
   * FmtNodeComment is not idempotent: lone `\r` breaks count as line breaks
   * for trimPolyMultilines but not for countNewlines, so a second pass sees
   * one line and drops the enclosing newlines.
   */
  lemma CommentNotIdempotent()
    ensures FmtNodeComment("a\r\r\r\nb") == "\na\r\rb\n"
    ensures FmtNodeComment("\na\r\rb\n") == "a\r\rb"
  {
    CommentFirstPass("a\r\r\r\nb");
    CommentSecondPass("\na\r\rb\n");
  }

  lemma CommentFirstPass(s: string)
    requires s == "a\r\r\r\nb"
    ensures FmtNodeComment(s) == "\na\r\rb\n"
  {
    FirstPassContent(s);
    CommentLines(s, s, "a\r\rb");
    WrappedExample();
  }

  lemma FirstPassContent(s: string)
    requires s == "a\r\r\r\nb"
    ensures TrimTrailing(TrimSpace(s)) == s && HasNewline(s) && FmtNodeSpace(s) == "a\r\rb"
  {
    TrimSpaceKeeps(s);
    UntrimmedExample(s);
    assert s[4] == '\n';
    CutExample();
  }

  lemma CommentSecondPass(s: string)
    requires s == "\na\r\rb\n"
    ensures FmtNodeComment(s) == "a\r\rb"
  {
    var v := "a\r\rb";
    SecondPassContent(s, v);
    SecondPassOneLine(v);
    CommentOneLine(s, v);
  }

  lemma SecondPassContent(s: string, v: string)
    requires s == "\na\r\rb\n" && v == "a\r\rb"
    ensures TrimTrailing(TrimSpace(s)) == v
  {
    SecondPassTrim();
    UntrimmedExample(v);
  }

  lemma SecondPassOneLine(v: string)
    requires v == "a\r\rb"
    ensures !HasNewline(v)
  {
    assert forall k :: 0 <= k < |v| ==> v[k] != '\n';
  }

  lemma SecondPassTrim()
    ensures TrimSpace("\na\r\rb\n") == "a\r\rb"
  {
    SecondPassLeft();
    SecondPassRight();
  }

  lemma SecondPassLeft()
    ensures TrimLeft("\na\r\rb\n") == "a\r\rb\n"
  {
    var u := "\na\r\rb\n";
    assert u[1..] == "a\r\rb\n";
    assert !IsSpace(u[1..][0]);
  }

  lemma SecondPassRight()
    ensures TrimRight("a\r\rb\n") == "a\r\rb"
  {
    var w := "a\r\rb\n";
    var v := "a\r\rb";
    assert w[..|w| - 1] == v && IsSpace(w[|w| - 1]);
    assert !IsSpace(v[|v| - 1]);
  }

  lemma WrappedExample()
    ensures "\n" + "a\r\rb" + "\n" == "\na\r\rb\n"
  {
  }

  /** FmtNodeComment of text whose trimmed content has no `\n`. */
  lemma CommentOneLine(s: string, content: string)
    requires TrimTrailing(TrimSpace(s)) == content && !HasNewline(content)
    ensures FmtNodeComment(s) == content
  {
  }

  /** FmtNodeComment of text whose trimmed content has a `\n`, from that content's normal form. */
  lemma CommentLines(s: string, content: string, spaced: string)
    requires TrimTrailing(TrimSpace(s)) == content && HasNewline(content)
    requires FmtNodeSpace(content) == spaced
    ensures FmtNodeComment(s) == "\n" + spaced + "\n"
  {
  }

  /** Text that starts and ends with no white space is its own TrimSpace. */
  lemma TrimSpaceKeeps(s: string)
    requires s != [] && !IsSpace(s[0]) && !IsSpace(s[|s| - 1])
    ensures TrimSpace(s) == s
  {
  }

  /** The two texts of CommentNotIdempotent have no whitespace before a break. */
  lemma UntrimmedExample(s: string)
    requires s == "a\r\r\r\nb" || s == "a\r\rb"
    ensures TrimTrailing(s) == s
  {
    forall k | 0 <= k < |s| - 1 ensures !(IsHSpace(s[k]) && IsBreakChar(s[k + 1])) {
      assert !IsHSpace(s[k]);
    }
    TrimTrailingFixpoint(s);
  }

  /** The run `\r\r\r\n` has four characters; the pattern keeps `\r\r`. */
  lemma CutExample()
    ensures TrimPolyMultilinesAsWritten("a\r\r\r\nb") == "a\r\rb"
  {
    var s := "a\r\r\r\nb";
    CutTail(s[1..]);
    assert BreakRunEnd(s, 0) == 0;
  }

  /** CutExample after its first character. */
  lemma CutTail(t: string)
    requires t == "\r\r\r\nb"
    ensures TrimPolyMultilinesAsWritten(t) == "\r\rb"
  {
    BreakRunEndAt(t, 0, 4);
    assert t[..4] == "\r\r\r\n" && t[4..] == "b";
    CutRun(t[..4]);
    assert BreakRunEnd("b", 0) == 0;
  }

  /** The run of CutExample: three breaks, of which the first two stay, as written and as intended. */
  lemma CutRun(run: string)
    requires run == "\r\r\r\n"
    ensures SqueezeRunAsWritten(run) == "\r\r"
    ensures SqueezeRun(run) == "\r\r"
  {
    assert BacktrackGroup(run) == 2;
    var r1, r2 := run[1..], run[2..];
    assert BreakCount(r2[2..]) == 0;
    assert BreakLen(r2, 0) == 2;
    assert BreakCount(r2) == 1;
    assert r1[1..] == r2 && BreakLen(r1, 0) == 1;
    assert BreakCount(r1) == 2;
    assert run[1..] == r1 && BreakLen(run, 0) == 1;
    assert BreakCount(run) == 3;
  }

  // ----- FmtMox -----

  /** What FmtMox puts in place of one entry: whitespace and comments are normalised. */
  function FmtEntry(n: Node): (r: Node)
    ensures n.Whitespace? <==> r.Whitespace?
    ensures n.Comment? <==> r.Comment?
    ensures !n.Whitespace? && !n.Comment? ==> r == n
  {
    match n
    case Whitespace(s) => Whitespace(FmtNodeSpace(s))
    case Comment(s) => Comment(FmtNodeComment(s))
    case _ => n
  }

  /**
   * FmtMox is not idempotent on whitespace: the entry `\r\n\r\n` is
   * rewritten once by each of two passes.
   */
  lemma FmtEntryNotIdempotent()
    ensures FmtEntry(Whitespace("\r\n\r\n")) == Whitespace("\r\n\r")
    ensures FmtEntry(FmtEntry(Whitespace("\r\n\r\n"))) == Whitespace("\r\n")
  {
    FmtNodeSpaceNotIdempotent();
  }

  /** A whitespace entry whose normal form has runs of at most two characters is kept by a second FmtMox. */
  lemma FmtEntryWhitespaceStable(n: Node)
    requires n.Whitespace? && ShortRuns(FmtNodeSpace(n.text))
    ensures FmtEntry(FmtEntry(n)) == FmtEntry(n)
  {
    FmtNodeSpaceStable(n.text);
  }

  /**
   * FmtMox: each top-level entry is replaced in place by its normal form;
   * blocks are not entered, so their contents stay as they were. The type
   * switch is FmtEntry, which gives back every other entry unchanged.
   */
  method FmtMox(nodes: array<Node>)
    modifies nodes
    ensures forall i :: 0 <= i < nodes.Length ==> nodes[i] == FmtEntry(old(nodes[i]))
  {
    ReplaceEach(nodes, FmtEntry);
  }

  /** The loop of FmtMox: entry `i` becomes `f` of what it was. */
  method ReplaceEach(nodes: array<Node>, f: Node -> Node)
    modifies nodes
    ensures forall i :: 0 <= i < nodes.Length ==> nodes[i] == f(old(nodes[i]))
  {
    for i := 0 to nodes.Length
      invariant forall k :: 0 <= k < i ==> nodes[k] == f(old(nodes[k]))
      invariant forall k :: i <= k < nodes.Length ==> nodes[k] == old(nodes[k])
    {
      nodes[i] := f(nodes[i]);
    }
  }
}
