/**
 * The formatter sketch of archive/ast/fmt.go as a state machine over pure
 * values: what each of its methods does to the output written so far, the
 * previous token, the delimiter balance of the line, the indentation level,
 * the per-line shift and the inline flag. The Fmter class in FmtFormatter is
 * proved to follow these functions step by step.
 */
module FmtMachine {
  import opened Options
  import opened GoStrings
  import opened TokGrammar

  const Separator := " "
  const Newline := "\n"

  datatype FmtConf = FmtConf(indent: string)

  /** FmtConfDefault: two spaces per level. */
  const FmtConfDefault := FmtConf("  ")

  /**
   * The fields of fmter. `out` is what has been written to the writer;
   * `prev` is None while no token has been recorded. The integers are Go's
   * `int`, which no realistic input can overflow.
   */
  datatype FmtState = FmtState(out: string, prev: Option<Token>, delims: int, indent: int, shifted: int, inline: bool)

  const Initial := FmtState("", None, 0, 0, 0, false)

  predicate IsDelimOpen(t: Option<Token>) {
    t.Some? && (t.value.ParenOpen? || t.value.BracketOpen? || t.value.BraceOpen?)
  }

  predicate IsDelimClose(t: Option<Token>) {
    t.Some? && (t.value.ParenClose? || t.value.BracketClose? || t.value.BraceClose?)
  }

  predicate IsDelim(t: Option<Token>) {
    IsDelimOpen(t) || IsDelimClose(t)
  }

  /** hasNewline: only `\n` counts. */
  predicate HasNewline(s: string) {
    '\n' in s
  }

  /** What follows the first `\n`, or all of `s` when it has none (FmtProps.AfterFirstNewlineShape). */
  function AfterFirstNewline(s: string): string {
    if !HasNewline(s) then s
    else if s[0] == '\n' then s[1..]
    else AfterFirstNewline(s[1..])
  }

  /** Some character of `s` is not white space: what `len(strings.TrimSpace(s)) > 0` tests (FmtProps.NonBlankTrim). */
  predicate NonBlank(s: string)
    decreases |s|
  {
    s != [] && (!IsSpace(s[0]) || NonBlank(s[1..]))
  }

  /** hasNonWhitespaceSuffix: text that is not white space after the first `\n` (or anywhere, without one). */
  predicate HasNonWhitespaceSuffix(s: string) {
    NonBlank(AfterFirstNewline(s))
  }

  // ----- the write primitives -----

  /** newlineReset. */
  function NewlineReset(st: FmtState): (r: FmtState)
    ensures r.out == st.out && r.prev == st.prev
    ensures r.indent == if st.delims > 0 then st.indent + 1 else st.indent
    ensures r.delims == 0 && r.shifted == 0 && !r.inline
  {
    st.(indent := if st.delims > 0 then st.indent + 1 else st.indent, delims := 0, shifted := 0, inline := false)
  }

  /** writeBytes: write, then reset on a `\n`, then go inline on a non-blank suffix. An infallible writer. */
  function WriteBytes(st: FmtState, input: string): FmtState {
    var written := st.(out := st.out + input);
    var reset := if HasNewline(input) then NewlineReset(written) else written;
    if HasNonWhitespaceSuffix(input) then reset.(inline := true) else reset
  }

  /**
   * The loop of writeIndent from index `i`. `indent` is read again each
   * time round: an Indent holding a `\n` resets the line, which can raise
   * the level once.
   */
  function WriteIndentFrom(st: FmtState, conf: FmtConf, i: int): FmtState
    decreases if st.delims > 0 then 1 else 0, st.indent - i
  {
    if i < st.indent then WriteIndentFrom(WriteBytes(st, conf.indent), conf, i + 1) else st
  }

  function WriteIndent(st: FmtState, conf: FmtConf): FmtState {
    WriteIndentFrom(st, conf, 0)
  }

  /** writeNewlines. */
  function WriteNewlines(st: FmtState, lines: int): FmtState
    decreases lines
  {
    if lines > 0 then WriteNewlines(WriteBytes(st, Newline), lines - 1) else st
  }

  function WriteToken(st: FmtState, t: Token): FmtState {
    WriteBytes(st, TokenString(t))
  }

  function DelimInc(st: FmtState): FmtState {
    st.(delims := st.delims + 1)
  }

  /** delimDec: the first time the line's balance goes negative, the line is shifted left once. */
  function DelimDec(st: FmtState): FmtState {
    var d := st.(delims := st.delims - 1);
    if d.delims < 0 && d.shifted == 0 then d.(indent := d.indent - 1, shifted := -1) else d
  }

  /** before: indentation at the start of a line, else a separator between two non-delimiters. */
  function Before(st: FmtState, conf: FmtConf, next: Token): FmtState {
    if !st.inline then WriteIndent(st, conf)
    else if !IsDelim(st.prev) && !IsDelim(Some(next)) then WriteBytes(st, Separator)
    else st
  }

  // ----- the token handlers -----

  /**
   * countNewlines: every `\r` and every `\n`. Its guard meant to take
   * `\r\n` as one break compares the `\r` itself with `\n` and never holds.
   */
  function CountNewlines(s: string): nat {
    multiset(s)['\r'] + multiset(s)['\n']
  }

  /** space: at most two line breaks, none at the start or right after an opener. */
  function Space(st: FmtState, t: Token): FmtState
    requires t.Space?
  {
    var n := CountNewlines(t.text);
    var lines := if n > 2 then 2 else n;
    if st.prev.Some? && !IsDelimOpen(st.prev) then WriteNewlines(st, lines).(prev := Some(t)) else st
  }

  function Atom(st: FmtState, conf: FmtConf, t: Token): FmtState {
    WriteToken(Before(st, conf, t), t).(prev := Some(t))
  }

  function StringToken(st: FmtState, conf: FmtConf, t: Token): FmtState {
    DelimDec(WriteToken(DelimInc(Before(st, conf, t)), t)).(prev := Some(t))
  }

  function DelimOpen(st: FmtState, conf: FmtConf, t: Token): FmtState {
    DelimInc(WriteToken(Before(st, conf, t), t)).(prev := Some(t))
  }

  function DelimClose(st: FmtState, conf: FmtConf, t: Token): FmtState {
    WriteToken(Before(DelimDec(WriteBytes(st, Newline)), conf, t), t).(prev := Some(t))
  }

  /** token: the dispatch on the token type. */
  function OnToken(st: FmtState, conf: FmtConf, t: Token): FmtState {
    if t.Space? then Space(st, t)
    else if t.StringDouble? || t.StringGrave? then StringToken(st, conf, t)
    else if IsDelimOpen(Some(t)) then DelimOpen(st, conf, t)
    else if IsDelimClose(Some(t)) then DelimClose(st, conf, t)
    else Atom(st, conf, t)
  }

  /** The handlers applied to a sequence of tokens, in order. */
  function OnTokens(st: FmtState, conf: FmtConf, ts: seq<Token>): FmtState
    decreases |ts|
  {
    if ts == [] then st else OnTokens(OnToken(st, conf, ts[0]), conf, ts[1..])
  }

  /** The output and the error that Fmt returns. */
  datatype Formatted = Formatted(out: string, err: Option<Error>)

  /**
   * top from the tokenizer state (`c`, `closers`): handle tokens until
   * Token fails; io.EOF becomes no error, any other error is returned, and
   * the output written so far stays written.
   */
  function TopFrom(src: string, c: nat, closers: seq<char>, st: FmtState, conf: FmtConf): Formatted
    requires c <= |src|
    decreases |src| - c
  {
    var t := TokenAt(src, c, closers);
    if t.out.Fail? then Formatted(st.out, if t.out.err.cause == EndOfInput then None else Some(t.out.err))
    else TopFrom(src, t.next, t.closers, OnToken(st, conf, t.out.token), conf)
  }

  /** Fmt. */
  function Fmt(src: string, conf: FmtConf): Formatted {
    TopFrom(src, 0, [], Initial, conf)
  }
}
